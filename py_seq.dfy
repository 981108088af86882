/** Python's list slicing and indexing, with negative bounds counted from
    the end and out-of-range bounds clamped (slices) or refused (indexing). */
module PySeq {

  datatype Option<T> = None | Some(value: T)

  /** The position a slice bound `b` denotes in a list of length `n`. */
  function SliceBound(b: int, n: nat): (r: nat)
    ensures r <= n
    ensures 0 <= b <= n ==> r == b
    ensures n < b ==> r == n
    ensures b < 0 && 0 <= n + b ==> r == n + b
    ensures n + b < 0 ==> r == 0
  {
    if b < 0 then (if n + b < 0 then 0 else n + b)
    else if b > n then n
    else b
  }

  /** `s[lo:hi]`. */
  function Slice<T>(s: seq<T>, lo: int, hi: int): (r: seq<T>)
    ensures |r| <= |s|
    ensures SliceBound(lo, |s|) < SliceBound(hi, |s|) ==> |r| == SliceBound(hi, |s|) - SliceBound(lo, |s|)
    ensures SliceBound(hi, |s|) <= SliceBound(lo, |s|) ==> r == []
    ensures forall i :: 0 <= i < |r| ==> r[i] == s[SliceBound(lo, |s|) + i]
  {
    var a, b := SliceBound(lo, |s|), SliceBound(hi, |s|);
    if a < b then s[a..b] else []
  }

  /** `s[:limit]`: for a non-negative limit, the first min(limit, |s|)
      elements; for a negative one, all but the last -limit. */
  lemma {:induction false} TakeFront<T>(s: seq<T>, limit: int)
    ensures 0 <= limit ==> Slice(s, 0, limit) == s[..if limit < |s| then limit else |s|]
    ensures limit < 0 ==> Slice(s, 0, limit) == s[..if |s| + limit < 0 then 0 else |s| + limit]
  {
    var k := SliceBound(limit, |s|);
    assert SliceBound(0, |s|) == 0;
    if k == 0 {
      assert Slice(s, 0, limit) == [];
    } else {
      assert Slice(s, 0, limit) == s[..k];
    }
  }

  /** `s[i]`: negative indices count from the end; anything else outside
      the list raises IndexError (None). */
  function Index<T>(s: seq<T>, i: int): (r: Option<T>)
    ensures r.Some? <==> -|s| <= i < |s|
    ensures 0 <= i < |s| ==> r == Some(s[i])
    ensures -|s| <= i < 0 ==> r == Some(s[|s| + i])
  {
    if 0 <= i < |s| then Some(s[i])
    else if -|s| <= i < 0 then Some(s[|s| + i])
    else None
  }
}
