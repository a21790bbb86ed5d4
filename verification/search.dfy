/** The search-and-collect loop of the converter: every settled track link
    becomes a track name (its text), every name is searched on YouTube in
    order, and the `href` of the first `video-title` element is paired with
    the name. A search that raises aborts the whole loop, which then
    returns nothing. That includes the ten-second wait expiring, which is
    what happens when a search shows no result at all. A name is skipped
    only when the query after a successful wait finds no element. */
module SearchCollect {
  import opened Driver

  /** One collected pair: the track name and the first result's `href`,
      which is absent when the element carries no such attribute. */
  datatype Match = Match(track: string, url: Option<string>)

  /** How the loop over the names ended. */
  datatype Collected = Done(matches: seq<Match>) | Aborted(at: nat, fault: Fault)

  /** Line 60: the text of each settled track element, in order. */
  function TrackNames(tracks: seq<Element>): (names: seq<string>)
    ensures |names| == |tracks|
    ensures forall i :: 0 <= i < |tracks| ==> names[i] == tracks[i].text
  {
    if |tracks| == 0 then []
    else TrackNames(tracks[..|tracks| - 1]) + [tracks[|tracks| - 1].text]
  }

  /** A search that loaded and shows at least one `video-title` element. */
  predicate Hit(page: SearchPage) {
    page.Loaded? && |page.results| > 0
  }

  /** Lines 63-85: the loop over `names`, defined by what one more iteration
      does to the state after the earlier ones. */
  function Collect(names: seq<string>, search: SearchOracle): (r: Collected)
    ensures r.Aborted? ==>
              && r.at < |names|
              && search(r.at, names[r.at]) == SearchFailed(r.fault)
              && forall j :: 0 <= j < r.at ==> search(j, names[j]).Loaded?
    ensures r.Done? <==> forall j :: 0 <= j < |names| ==> search(j, names[j]).Loaded?
    ensures r.Done? ==> |r.matches| <= |names|
    decreases |names|
  {
    if |names| == 0 then Done([])
    else
      var n := |names| - 1;
      match Collect(names[..n], search)
      case Aborted(at, f) => Aborted(at, f)
      case Done(ms) =>
        match search(n, names[n])
        case SearchFailed(f) => Aborted(n, f)
        case Loaded(results) =>
          if |results| > 0 then Done(ms + [Match(names[n], results[0].href)]) else Done(ms)
  }

  /** Reference definition: the positions of `names` whose search is a hit,
      in increasing order. */
  function HitIndices(names: seq<string>, search: SearchOracle): (h: seq<nat>)
    ensures forall k :: 0 <= k < |h| ==> h[k] < |names| && Hit(search(h[k], names[h[k]]))
    ensures forall k, l :: 0 <= k < l < |h| ==> h[k] < h[l]
    ensures forall j :: 0 <= j < |names| && Hit(search(j, names[j])) ==> j in h
    decreases |names|
  {
    if |names| == 0 then []
    else
      var n := |names| - 1;
      var h := HitIndices(names[..n], search);
      if Hit(search(n, names[n])) then h + [n] else h
  }

  /** The collected list is exactly the hit tracks, in their original
      order, each paired with the `href` of its first result. */
  lemma {:induction false} CollectPicksFirstResults(names: seq<string>, search: SearchOracle)
    requires Collect(names, search).Done?
    ensures var ms := Collect(names, search).matches;
            var h := HitIndices(names, search);
            && |ms| == |h|
            && forall k :: 0 <= k < |ms| ==>
                 ms[k] == Match(names[h[k]], search(h[k], names[h[k]]).results[0].href)
    decreases |names|
  {
    if |names| > 0 {
      var n := |names| - 1;
      var pre := names[..n];
      CollectPicksFirstResults(pre, search);
      var hp := HitIndices(pre, search);
      forall k | 0 <= k < |hp|
        ensures names[hp[k]] == pre[hp[k]]
      {
      }
    }
  }

  /** Every collected pair belongs to the track at a strictly later
      position than the pair before it: the result is an order-preserving
      subsequence of the names. */
  lemma OrderedSubsequence(names: seq<string>, search: SearchOracle)
    requires Collect(names, search).Done?
    ensures var ms := Collect(names, search).matches;
            exists idx: seq<nat> ::
              && |idx| == |ms|
              && (forall k :: 0 <= k < |idx| ==> idx[k] < |names| && ms[k].track == names[idx[k]])
              && (forall k, l :: 0 <= k < l < |idx| ==> idx[k] < idx[l])
  {
    CollectPicksFirstResults(names, search);
    var h := HitIndices(names, search);
    assert |h| == |Collect(names, search).matches|;
  }

  /** Nothing is skipped exactly when every search is a hit; then the
      collected tracks are the names themselves. */
  lemma {:induction false} NoneSkippedIffAllHit(names: seq<string>, search: SearchOracle)
    requires Collect(names, search).Done?
    ensures |Collect(names, search).matches| == |names| <==>
              forall j :: 0 <= j < |names| ==> Hit(search(j, names[j]))
    decreases |names|
  {
    if |names| > 0 {
      var n := |names| - 1;
      NoneSkippedIffAllHit(names[..n], search);
      if forall j :: 0 <= j < |names| ==> Hit(search(j, names[j])) {
        assert forall j :: 0 <= j < n ==> Hit(search(j, names[..n][j]));
      }
    }
  }

  /** The names searched before the loop ended, in order: the shortest
      prefix of `names` that ends with a failed search, or all of `names`
      when no search failed. Every search but the last one of the prefix
      loaded. */
  function Searched(names: seq<string>, search: SearchOracle): (s: seq<string>)
    ensures |s| <= |names| && s == names[..|s|]
    ensures forall j :: 0 <= j < |s| - 1 ==> search(j, names[j]).Loaded?
    ensures |s| < |names| ==> 0 < |s| && search(|s| - 1, names[|s| - 1]).SearchFailed?
    ensures (forall j :: 0 <= j < |names| ==> search(j, names[j]).Loaded?) ==> s == names
  {
    match Collect(names, search)
    case Done(_) => names
    case Aborted(at, _) => names[..at + 1]
  }
}
