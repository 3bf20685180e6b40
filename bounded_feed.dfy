/**
 * The newest-first bounded list both live panels keep: `[item, ...prev.slice(0, keep)]`,
 * which puts the new item first and keeps at most `keep` of the previous ones.
 */
module BoundedFeed {

  function Min(a: int, b: int): int {
    if a <= b then a else b
  }

  /** `[item, ...prev.slice(0, keep)]` (a slice past the end stops at the end). */
  function PrependKeep<T>(item: T, prev: seq<T>, keep: nat): (r: seq<T>)
    ensures |r| == Min(|prev| + 1, keep + 1)
    ensures r[0] == item
    ensures forall i :: 1 <= i < |r| ==> r[i] == prev[i - 1]
  {
    [item] + (if |prev| <= keep then prev else prev[..keep])
  }

  /**
   * Only the oldest entries are dropped: the previous list is the kept part,
   * in order, followed by what was dropped.
   */
  lemma PrependKeepDropsOldest<T>(item: T, prev: seq<T>, keep: nat)
    ensures var r := PrependKeep(item, prev, keep);
            prev == r[1..] + prev[|r| - 1..]
  {
    var r := PrependKeep(item, prev, keep);
    assert r[1..] == prev[..|r| - 1];
  }

  /** A list that starts within the cap stays within it, however many items arrive. */
  lemma PrependKeepBounded<T>(item: T, prev: seq<T>, keep: nat)
    ensures |PrependKeep(item, prev, keep)| <= keep + 1
    ensures |prev| <= keep ==> |PrependKeep(item, prev, keep)| == |prev| + 1
  {
  }
}
