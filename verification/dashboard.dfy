/** The dashboard's "top performer" card. */
module Dashboard {
  import opened Wrappers
  import opened Portfolio

  /** `(prev, current) => prev.change24h > current.change24h ? prev : current`,
      folded from the left. */
  function Fold(prev: Asset, s: seq<Asset>): Asset
    decreases |s|
  {
    if s == [] then prev
    else Fold(if prev.change24h > s[0].change24h then prev else s[0], s[1..])
  }

  /** No position after index `k` reaches `c`. */
  predicate BeatenAfter(s: seq<Asset>, k: int, c: real) {
    forall j :: 0 <= j < |s| && k < j ==> s[j].change24h < c
  }

  /** The fold ends on a position with the highest change: either the seed,
      when every position is strictly below it, or the last position of
      `s` that no later position reaches. */
  lemma {:induction false} FoldPicksLastMax(prev: Asset, s: seq<Asset>)
    ensures var r := Fold(prev, s);
      && r.change24h >= prev.change24h
      && (forall j :: 0 <= j < |s| ==> s[j].change24h <= r.change24h)
      && ((r == prev && BeatenAfter(s, -1, prev.change24h))
          || (exists k :: 0 <= k < |s| && r == s[k] && BeatenAfter(s, k, r.change24h)))
    decreases |s|
  {
    if s != [] {
      var next := if prev.change24h > s[0].change24h then prev else s[0];
      var tail := s[1..];
      FoldPicksLastMax(next, tail);
      var r := Fold(next, tail);
      assert r == Fold(prev, s);
      forall j | 0 <= j < |s| ensures s[j].change24h <= r.change24h {
        if j > 0 { assert s[j] == tail[j - 1]; }
      }
      if r == next && BeatenAfter(tail, -1, next.change24h) {
        if prev.change24h > s[0].change24h {
          forall j | 0 <= j < |s| ensures s[j].change24h < prev.change24h {
            if j > 0 { assert s[j] == tail[j - 1]; }
          }
        } else {
          forall j | 0 < j < |s| ensures s[j].change24h < r.change24h {
            assert s[j] == tail[j - 1];
          }
          assert r == s[0] && BeatenAfter(s, 0, r.change24h);
        }
      } else {
        var k :| 0 <= k < |tail| && r == tail[k] && BeatenAfter(tail, k, r.change24h);
        forall j | 0 <= j < |s| && k + 1 < j ensures s[j].change24h < r.change24h {
          assert s[j] == tail[j - 1];
        }
        assert r == s[k + 1] && BeatenAfter(s, k + 1, r.change24h);
      }
    }
  }

  /** `topPerformer`: none exactly for an empty portfolio; otherwise a
      position with the highest 24h change, and on a tie the last such
      position. */
  function TopPerformer(assets: seq<Asset>): (r: Option<Asset>)
    ensures r.None? <==> |assets| == 0
    ensures r.Some? ==> forall j :: 0 <= j < |assets| ==> assets[j].change24h <= r.value.change24h
    ensures r.Some? ==> exists k :: 0 <= k < |assets| && r.value == assets[k] && BeatenAfter(assets, k, r.value.change24h)
  {
    if |assets| == 0 then None
    else
      FoldPicksLastMax(assets[0], assets);
      Some(Fold(assets[0], assets))
  }
}
