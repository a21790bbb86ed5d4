/** `main` of convert.py with the browser abstracted: the URL gate, the
    Chrome session opened outside the `try`, and the `try`/`finally` whose
    body navigates, waits, scrolls until stable and searches every track,
    and whose `finally` quits the driver.

    What the session does to the outside world is recorded as a trace of
    driver events, so that "the driver is quit exactly once" is a statement
    about that trace. */
module Convert {
  import opened Driver
  import opened PlaylistUrl
  import opened ScrollLoop
  import opened SearchCollect

  /** Everything the browser will do for one run, fixed in advance:
      whether `webdriver.Chrome()` raises, whether opening the playlist
      (`driver.get` and the wait for the first track link) raises, one
      sample per scroll iteration, and the outcome of searching each
      track name. */
  datatype Browser = Browser(
    launchFault: Option<Fault>,
    openFault: Option<Fault>,
    scrolls: seq<Sample<Element>>,
    search: SearchOracle)

  /** The driver calls that matter to the outside world: creating the
      driver, navigating to the playlist URL (line 34), navigating to the
      YouTube search for one track name (lines 68-72, the search URL itself
      being opaque), and quitting the driver. */
  datatype Event = Launch | OpenPlaylist(url: string) | Search(track: string) | Quit

  /** How a run ends: the URL is rejected (exit status 1, no browser);
      `webdriver.Chrome()` raises; the loops finish and the result list of
      lines 88-90 is printed; an exception escapes the `try`; or the run has not ended
      within the scroll iterations the oracle describes. */
  datatype Exit =
    | Rejected
    | LaunchFailed(fault: Fault)
    | Finished(matches: seq<Match>)
    | Crashed(fault: Fault)
    | Unfinished

  datatype Run = Run(exit: Exit, trace: seq<Event>)

  /** One `Search` event per name, in order. */
  function SearchEvents(names: seq<string>): (t: seq<Event>)
    ensures |t| == |names|
    ensures forall i :: 0 <= i < |names| ==> t[i] == Search(names[i])
  {
    seq(|names|, i requires 0 <= i < |names| => Search(names[i]))
  }

  /** The outcome and the events of the `try` body (lines 33-90): it
      navigates to the given playlist first and to no other playlist, and
      it neither launches nor quits a driver itself. */
  function Session(url: string, b: Browser): (r: Run)
    ensures |r.trace| > 0 && r.trace[0] == OpenPlaylist(url)
    ensures forall u :: OpenPlaylist(u) in r.trace ==> u == url
    ensures Launch !in r.trace && Quit !in r.trace
    ensures !r.exit.Rejected? && !r.exit.LaunchFailed?
  {
    if b.openFault.Some? then Run(Crashed(b.openFault.value), [OpenPlaylist(url)])
    else match ScrollUntilStable(b.scrolls)
      case Failed(_, f) => Run(Crashed(f), [OpenPlaylist(url)])
      case StillScrolling => Run(Unfinished, [OpenPlaylist(url)])
      case Settled(_, tracks) =>
        var names := TrackNames(tracks);
        var searches := SearchEvents(Searched(names, b.search));
        match Collect(names, b.search)
        case Aborted(_, f) => Run(Crashed(f), [OpenPlaylist(url)] + searches)
        case Done(ms) => Run(Finished(ms), [OpenPlaylist(url)] + searches)
  }

  /** Every navigation of the `try` body after the playlist one is the
      search for the name of a track of the list the scroll loop settled
      on. */
  lemma SessionNavigations(url: string, b: Browser)
    ensures var t := Session(url, b).trace;
            forall k :: 1 <= k < |t| ==>
              && t[k].Search?
              && ScrollUntilStable(b.scrolls).Settled?
              && t[k].track in TrackNames(ScrollUntilStable(b.scrolls).tracks)
  {
    var t := Session(url, b).trace;
    if 1 < |t| {
      var s := ScrollUntilStable(b.scrolls);
      assert b.openFault.None? && s.Settled?;
      var names := TrackNames(s.tracks);
      var searched := Searched(names, b.search);
      assert t == [OpenPlaylist(url)] + SearchEvents(searched);
      forall k | 1 <= k < |t|
        ensures t[k].Search? && t[k].track in names
      {
        assert t[k] == Search(searched[k - 1]);
        assert searched[k - 1] == names[k - 1];
      }
    }
  }

  /** Lines 29-94, once the URL has been accepted: the driver is created
      outside the `try`, so a failing `webdriver.Chrome()` leaves nothing to
      quit. Every run that got a driver and left the `try`, normally or by
      an exception, launches once and quits once, the quit being its last
      event (the `finally` clause); a run still scrolling has not quit. */
  function Launched(url: string, b: Browser): (r: Run)
    ensures !r.exit.Rejected?
    ensures r.exit.LaunchFailed? ==> r.trace == []
    ensures forall u :: OpenPlaylist(u) in r.trace ==> u == url
    ensures r.exit.Finished? || r.exit.Crashed? ==>
              && |r.trace| >= 3
              && r.trace[0] == Launch && r.trace[1] == OpenPlaylist(url) && r.trace[|r.trace| - 1] == Quit
              && multiset(r.trace)[Launch] == 1 && multiset(r.trace)[Quit] == 1
    ensures r.exit.Unfinished? ==> |r.trace| >= 2 && r.trace[0] == Launch && Quit !in r.trace
  {
    if b.launchFault.Some? then Run(LaunchFailed(b.launchFault.value), [])
    else
      var s := Session(url, b);
      Run(s.exit, [Launch] + s.trace + (if s.exit.Unfinished? then [] else [Quit]))
  }

  /** Lines 15-94: the whole program run on one command-line URL. A URL the
      validator refuses ends the run before any driver exists; the only
      playlist ever navigated to is an accepted URL. */
  function Main(url: string, b: Browser): (r: Run)
    ensures r.exit.Rejected? <==> !IsValidSpotifyUrl(url)
    ensures r.exit.Rejected? ==> r.trace == []
    ensures forall u :: OpenPlaylist(u) in r.trace ==> u == url && IsValidSpotifyUrl(u)
  {
    if !IsValidSpotifyUrl(url) then Run(Rejected, []) else Launched(url, b)
  }

  /** Which exit each browser leads to once the URL is accepted: only a
      failing `webdriver.Chrome()` is `LaunchFailed`; a failing playlist
      load (lines 34-39), a failing scroll iteration (lines 44-53) and a
      failing search (lines 72-77) each end `Crashed` with their fault; a
      loop that reaches line 87 ends `Finished` with its pairs; and the run
      is `Unfinished` only when the scroll iterations the oracle describes
      run out. With `Launched`'s contract, every one of these paths but
      the first quits exactly once. */
  lemma LaunchedExits(url: string, b: Browser)
    ensures Launched(url, b).exit.LaunchFailed? <==> b.launchFault.Some?
    ensures Launched(url, b).exit.Unfinished? <==>
              b.launchFault.None? && b.openFault.None? && ScrollUntilStable(b.scrolls).StillScrolling?
    ensures b.launchFault.None? && b.openFault.Some? ==>
              Launched(url, b).exit == Crashed(b.openFault.value)
    ensures b.launchFault.None? && b.openFault.None? && ScrollUntilStable(b.scrolls).Failed? ==>
              Launched(url, b).exit == Crashed(ScrollUntilStable(b.scrolls).fault)
    ensures b.launchFault.None? && b.openFault.None? && ScrollUntilStable(b.scrolls).Settled? ==>
              var c := Collect(TrackNames(ScrollUntilStable(b.scrolls).tracks), b.search);
              && (c.Done? ==> Launched(url, b).exit == Finished(c.matches))
              && (c.Aborted? ==> Launched(url, b).exit == Crashed(c.fault))
  {
  }

  /** A finished run got its pairs from the track loop over the names of
      the settled list, and searched each of those names once, in order. */
  lemma FinishedSession(url: string, b: Browser)
    requires Launched(url, b).exit.Finished?
    ensures var s := ScrollUntilStable(b.scrolls);
            && s.Settled?
            && Collect(TrackNames(s.tracks), b.search) == Done(Launched(url, b).exit.matches)
            && Launched(url, b).trace == [Launch] + ([OpenPlaylist(url)] + SearchEvents(TrackNames(s.tracks))) + [Quit]
  {
    var session := Session(url, b);
    assert b.launchFault.None?;
    assert Launched(url, b) == Run(session.exit, [Launch] + session.trace + [Quit]);
    var s := ScrollUntilStable(b.scrolls);
    assert b.openFault.None? && s.Settled?;
    var names := TrackNames(s.tracks);
    assert Searched(names, b.search) == names;
    assert session.trace == [OpenPlaylist(url)] + SearchEvents(names);
  }

  /** A finished run printed exactly the first results of the hit tracks,
      taken from the post-scroll query of the iteration that ended the
      loop, in playlist order. */
  lemma FinishedRunResults(url: string, b: Browser)
    requires Launched(url, b).exit.Finished?
    ensures var s := ScrollUntilStable(b.scrolls);
            && s.Settled?
            && s.tracks == b.scrolls[s.step].after
            && var ms := Launched(url, b).exit.matches;
               var h := HitIndices(TrackNames(s.tracks), b.search);
               && |ms| == |h| <= |s.tracks|
               && forall k :: 0 <= k < |ms| ==>
                    ms[k] == Match(s.tracks[h[k]].text, b.search(h[k], s.tracks[h[k]].text).results[0].href)
  {
    FinishedSession(url, b);
    var s := ScrollUntilStable(b.scrolls);
    CollectPicksFirstResults(TrackNames(s.tracks), b.search);
  }

  /** The `try` body of a run whose track loop aborted: it navigated to the
      playlist and then searched the names up to and including the one
      whose search raised. */
  lemma AbortedSession(url: string, b: Browser)
    requires b.openFault.None?
    requires ScrollUntilStable(b.scrolls).Settled?
    requires Collect(TrackNames(ScrollUntilStable(b.scrolls).tracks), b.search).Aborted?
    ensures var names := TrackNames(ScrollUntilStable(b.scrolls).tracks);
            var a := Collect(names, b.search);
            Session(url, b) == Run(Crashed(a.fault), [OpenPlaylist(url)] + SearchEvents(names[..a.at + 1]))
  {
    var st := ScrollUntilStable(b.scrolls);
    var names := TrackNames(st.tracks);
    var a := Collect(names, b.search);
    assert Searched(names, b.search) == names[..a.at + 1];
    var searches := SearchEvents(names[..a.at + 1]);
    assert Session(url, b) == Run(Crashed(a.fault), [OpenPlaylist(url)] + searches);
  }

  /** A launched run that left the `try` is the launch, the events of the
      `try` body and the quit. */
  lemma QuitLast(url: string, b: Browser)
    requires b.launchFault.None? && !Session(url, b).exit.Unfinished?
    ensures Launched(url, b) == Run(Session(url, b).exit, [Launch] + Session(url, b).trace + [Quit])
  {
  }

  /** An accepted URL whose run left the `try`: the run is the launch, the
      events of the `try` body and the quit. */
  lemma MainQuitsLast(url: string, b: Browser)
    requires IsValidSpotifyUrl(url)
    requires b.launchFault.None? && !Session(url, b).exit.Unfinished?
    ensures Main(url, b) == Run(Session(url, b).exit, [Launch] + Session(url, b).trace + [Quit])
  {
  }

  /** The shape of a trace that navigated to the playlist, made the
      searches `se` and quit. */
  lemma EventsBetween(url: string, se: seq<Event>)
    ensures var t := [Launch] + ([OpenPlaylist(url)] + se) + [Quit];
            && |t| == |se| + 3
            && (|se| > 0 ==> t[|t| - 2] == se[|se| - 1])
            && t[|t| - 1] == Quit
  {
  }

  /** A search that raises ends the run right after that search: the
      driver is quit and the result list (lines 88-90) is not printed, even
      though earlier tracks may already have been paired. */
  lemma SearchFaultAborts(url: string, b: Browser)
    requires b.launchFault.None? && b.openFault.None?
    requires ScrollUntilStable(b.scrolls).Settled?
    requires Collect(TrackNames(ScrollUntilStable(b.scrolls).tracks), b.search).Aborted?
    ensures var names := TrackNames(ScrollUntilStable(b.scrolls).tracks);
            var a := Collect(names, b.search);
            var t := Launched(url, b).trace;
            && Launched(url, b).exit == Crashed(a.fault)
            && |t| == a.at + 4
            && t[|t| - 2] == Search(names[a.at])
            && t[|t| - 1] == Quit
  {
    AbortedSession(url, b);
    QuitLast(url, b);
    var names := TrackNames(ScrollUntilStable(b.scrolls).tracks);
    var a := Collect(names, b.search);
    EventsBetween(url, SearchEvents(names[..a.at + 1]));
  }

  /** A two-track playlist that settles on the second scroll: the search
      for "Song A" shows a video; the search for "Song B" shows none, so
      its wait expires. */
  const SongA: Element := Element("Song A", None)
  const SongB: Element := Element("Song B", None)
  const Video: Element := Element("", Some("https://www.youtube.com/watch?v=a"))

  function ExampleSearch(i: nat, t: string): SearchPage {
    if t == "Song A" then Loaded([Video]) else SearchFailed(WaitTimeout)
  }

  function ExampleBrowser(): Browser {
    Browser(None, None, [Sample([SongA], [SongA, SongB]), Sample([SongA, SongB], [SongA, SongB])], ExampleSearch)
  }

  lemma ExampleSession(url: string)
    ensures Session(url, ExampleBrowser()) ==
              Run(Crashed(WaitTimeout), [OpenPlaylist(url), Search("Song A"), Search("Song B")])
  {
    var scrolls := ExampleBrowser().scrolls;
    assert ScrollFrom(scrolls, 1) == Settled(1, [SongA, SongB]);
    assert ScrollUntilStable(scrolls) == Settled(1, [SongA, SongB]);
    var names := TrackNames([SongA, SongB]);
    assert names == ["Song A", "Song B"];
    assert names[..1] == ["Song A"] && names[..1][..0] == [];
    assert Collect(names[..1], ExampleSearch) == Done([Match("Song A", Video.href)]);
    assert Collect(names, ExampleSearch) == Aborted(1, WaitTimeout);
    assert SearchEvents(Searched(names, ExampleSearch)) == [Search("Song A"), Search("Song B")];
  }

  /** The example end to end, for any playlist id: both names are searched,
      the search without a result raises, the driver is quit, and the result
      list (lines 88-90) is not printed, although "Song A" had already been
      paired. */
  lemma ExampleRun(id: string)
    requires IsPlaylistId(id)
    ensures Main(Prefix + id, ExampleBrowser()) ==
              Run(Crashed(WaitTimeout),
                  [Launch, OpenPlaylist(Prefix + id), Search("Song A"), Search("Song B"), Quit])
  {
    AcceptsEveryId(id);
    var url := Prefix + id;
    ExampleSession(url);
    var b := ExampleBrowser();
    MainQuitsLast(url, b);
    assert [Launch] + Session(url, b).trace + [Quit] ==
           [Launch, OpenPlaylist(url), Search("Song A"), Search("Song B"), Quit];
  }
}
