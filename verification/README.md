# convert_spotify_to_youtube in Dafny

A model of the core of `convert.py`. The script takes a Spotify playlist URL
and drives a Chrome browser through Selenium. It scrolls the playlist page
until the number of rendered track links stops changing. It then searches
YouTube for each track name. If no search raises, it prints each track
whose search showed a result next to the link of its first result; a
single expired search wait ends the run before any such list is printed.

The browser is never modelled. What it shows the program is supplied in
advance as an oracle:

- `Driver` (driver.dfy): the observed driver surface. An `Element` has a
  text and an optional `href`. A `Fault` is either a `WaitTimeout` (an
  expired `WebDriverWait`) or a `DriverError` (any other driver exception).
  A `SearchPage` is one YouTube search: either the `video-title` elements
  it returned, or the fault it raised.
- `PlaylistUrl` (url.dfy): `is_valid_spotify_url`. The model takes the
  pattern `^https://open\.spotify\.com/playlist/[a-zA-Z0-9]{22}$`, writes
  it as a sequence of atoms, and runs it through a small matcher that uses
  Python's `re.match` semantics. Under those semantics `$` without
  MULTILINE matches at the end of the string and also just before one final
  `\n`. The validator therefore accepts a playlist URL followed by one
  newline. The model keeps this behaviour and proves it
  (`IsValidSpotifyUrl`, `AcceptsEveryId`).
- `ScrollLoop` (scroll.dfy): the `while True` loop at lines 42-57. The
  oracle gives one sample per iteration. A sample holds the query result
  before the scroll and the result after it, or the fault raised during
  that iteration. The outcome is `Settled(step, tracks)`,
  `Failed(step, fault)` or `StillScrolling`. `StillScrolling` means the
  oracle ran out before the counts agreed.
- `SearchCollect` (search.dfy): line 60 (track names) and the loop at
  lines 63-85. The search oracle gives the `SearchPage` of the i-th
  search, whose query is the i-th name. It is keyed by position, so two
  tracks with the same name can get different pages. A search that shows
  no result at all makes the ten-second wait at lines 75-77 raise a
  `TimeoutException`: that is `SearchFailed(WaitTimeout)`, and it aborts
  the whole loop. A track is skipped (line 85) only when the query at
  line 80 finds nothing although the wait just saw an element, which is
  `Loaded([])`.
- `Convert` (convert.dfy): `main`. It checks the URL, launches the driver
  outside the `try`, runs the body of the `try`, and quits the driver in
  the `finally`. The model records four driver calls as a trace of
  events: `Launch` (line 30), `OpenPlaylist` (line 34), `Search` (line 72,
  the YouTube search for one name) and `Quit` (line 94). The scroll
  script, the element queries, the waits and the printed lines are not
  recorded. "The driver is
  quit exactly once" is then a statement about that trace. The only
  playlist navigation is to the accepted URL; every other navigation is a
  per-track YouTube search.

The scroll loop breaks only when one iteration's two counts are equal; an
exception raised inside it ends the run instead. The only output the model
keeps is the final list of (track, href) pairs printed at lines 88-90; the
progress lines printed at lines 65 and 85 are left out. A
`TimeoutException` from the search wait (convert.py:75-77) escapes the
loop and ends the run.

## Model

| member | source | states |
|---|---|---|
| PlaylistUrl.IsValidSpotifyUrl | convert.py:10-13 | the validator accepts a string iff it is the fixed playlist prefix followed by exactly 22 characters of `[a-zA-Z0-9]`, optionally followed by one final newline (Python's `$`) |
| PlaylistUrl.MatchAt | convert.py:12-13 | a successful `re.match` attempt from position i needs at least as many characters after i as the pattern has literal and class atoms; `^` never matches after position 0 |
| PlaylistUrl.MatchShape | convert.py:12-13 | `re.match` of `^w[a-zA-Z0-9]{n}$`, for any literal `w` and count `n`, succeeds exactly on `w` plus `n` class characters, with or without one trailing newline |
| PlaylistUrl.AcceptsEveryId | convert.py:12-13 | every 22-character alphanumeric id gives an accepted URL, both bare and followed by `\n` |
| PlaylistUrl.RejectsWrongLength | convert.py:12-13 | a string of any length other than prefix+22 is rejected, and so is one of length prefix+23 that does not end in `\n` |
| PlaylistUrl.RejectsNonAlnumId | convert.py:12-13 | a character outside `[a-zA-Z0-9]` anywhere in the 22 id positions rejects the URL |
| PlaylistUrl.RejectsOtherPrefix | convert.py:12-13 | a string that does not begin with `https://open.spotify.com/playlist/` is rejected |
| ScrollLoop.ScrollFrom | convert.py:42-57 | the loop entered at iteration k stops at an iteration no earlier than k whose counts agree, with that iteration's post-scroll list, or at the iteration that raised, with its fault; every iteration from k up to the stop changed the count; it is still running only if every iteration from k on changed the count |
| ScrollLoop.ScrollUntilStable | convert.py:42-57 | the loop stops at the first iteration whose pre-scroll and post-scroll counts are equal, and every earlier iteration changed the count; it yields that iteration's post-scroll list, not the pre-scroll one; a fault ends it in the iteration that raised it; it is still running iff every observed iteration changed the count |
| ScrollLoop.LaterSamplesIrrelevant | convert.py:42-57 | once the loop has stopped, iterations the page would have shown later do not change the outcome |
| ScrollLoop.GrowsWhileChanging | convert.py:44-56 | on a page whose count never shrinks, every iteration that keeps the loop going adds at least one rendered track |
| ScrollLoop.BoundedPageSettles | convert.py:42-57 | if the page's count never shrinks and never exceeds `cap`, the loop settles within cap + 1 iterations minus the length of the first rendered list |
| SearchCollect.TrackNames | convert.py:60 | the names have the same length and order as the settled element list; name i is the text of element i |
| SearchCollect.Collect | convert.py:63-85 | the loop aborts at the first track whose search raises, with that fault, and every earlier search loaded; it completes iff every search loaded; the completed list has no more pairs than there are names |
| SearchCollect.Searched | convert.py:64-77 | the names searched before the loop ended are a prefix of the names; every search in it but the last loaded; when it is shorter than the names, it is non-empty and its last search raised; when every search loads, every name is searched |
| SearchCollect.HitIndices | convert.py:80-85 | reference definition: the strictly increasing positions of exactly the tracks whose search shows at least one result |
| SearchCollect.CollectPicksFirstResults | convert.py:80-85 | the completed list has one entry per hit position, in order; each entry pairs that track with the `href` of its first result |
| SearchCollect.OrderedSubsequence | convert.py:63-85 | the collected tracks are an order-preserving subsequence of the track names |
| SearchCollect.NoneSkippedIffAllHit | convert.py:81-85 | no track is skipped iff every search loads a page with at least one result |
| Convert.Main | convert.py:24-30 | a run is rejected iff the validator refuses the URL; a rejected run creates no driver and makes no driver call; the only playlist navigated to is one the validator accepted |
| Convert.Session | convert.py:32-90 | the body of the `try` navigates to the playlist first, navigates to no other playlist, and never launches or quits a driver itself |
| Convert.SessionNavigations | convert.py:60-72 | every navigation of the `try` body after the playlist one is a YouTube search, and it only happens once the scroll loop settled, for the name of one of the settled tracks |
| Convert.Launched | convert.py:29-94 | the driver is created outside the `try`, so a failing `webdriver.Chrome()` leaves an empty trace; every run that got a driver and left the `try`, either normally or through an exception, launches exactly once and quits exactly once, with the quit as its last event; a run still scrolling has launched but not quit |
| Convert.LaunchedExits | convert.py:29-94 | which exit each path takes once the URL is accepted: `LaunchFailed` iff `webdriver.Chrome()` raises; a raising playlist load or wait, scroll iteration or search ends `Crashed` with that fault; a run whose track loop completes ends `Finished` with its pairs; `Unfinished` iff the scroll iterations the oracle describes run out; with `Launched`, every path but the failed launch quits exactly once |
| Convert.FinishedSession | convert.py:42-94 | a completed run's pairs are the outcome of the track loop over the names of the list the scroll loop settled on; it navigates to the playlist, searches each of those names once and in order, and then quits |
| Convert.FinishedRunResults | convert.py:42-90 | a completed run uses the post-scroll list of the iteration that stopped the loop; the printed pairs are exactly the hit tracks of that list, in order, each with its first result's `href` |
| Convert.AbortedSession | convert.py:63-77 | when the track loop aborts, the `try` body ends with that fault after navigating to the playlist and searching the names up to and including the one whose search raised |
| Convert.SearchFaultAborts | convert.py:72-94 | a search that raises ends the run with that fault, right after that search; the next and last event is the quit; the result list (lines 88-90) is not printed |
| Convert.ExampleRun | convert.py:10-94 | for any playlist id, a two-track playlist that settles on the second scroll, whose second track has no search result at all: that search's wait times out, the run crashes after searching both tracks and quitting, and the result list (lines 88-90) is not printed, so the pair already found for the first track is lost |

## Left out

- Selenium itself (`webdriver.Chrome`, `get`, `find_elements`, `execute_script`, `WebDriverWait`, `get_attribute`): this is foreign browser I/O. The values these calls return are oracle inputs (`Browser`, `Sample`, `SearchPage`).
- `time.sleep(2)` and the ten-second waits: the model has no time. An expired wait appears only as a `WaitTimeout` fault.
- `urllib.parse.quote` and the search URL at lines 68-71: this is a library encoder whose code is not part of this model. The `Search` event records the track name, and the encoded URL is treated as opaque.
- The usage and rejection messages (lines 18, 25-26), the `Searching for:` line printed before every search (line 65) and the `No video found for:` line (line 85): the model keeps only the final result list of lines 88-90, as the matches of a `Finished` run. The `sys.argv` count check at lines 17-19 is left out too: the model takes the single URL argument directly. A rejected URL is the `Rejected` exit, with status 1. An exception escaping the `try` is `Crashed`.
- `Convert.Launched`: `driver.quit()` in the `finally` (line 94) is assumed not to raise. A raising quit would replace the run's outcome: a finished run would end in that exception after printing its result list, and a crashed run would report the quit's fault instead of its own. The trace, with exactly one `Quit` as its last event, is the same either way.
- Termination of the scroll loop: convert.py gives no guarantee. The oracle holds finitely many iterations. When they run out before the counts agree, the outcome is `StillScrolling` (at run level, `Unfinished`). It does not claim that the real loop would go on forever or would stop later. `BoundedPageSettles` states the termination argument under an explicit monotone, bounded page.
- Faults raised by reading `.text` or `href` from an element that went stale after the page re-rendered: the model treats element accessors as pure. Driver faults are modelled when opening the playlist, in each scroll iteration, and in each search.
- `ScrollLoop.BoundedPageSettles`: this is stated only for the one-list-per-scroll view of the page (`StepSamples`), in which an iteration's pre-scroll list is the previous iteration's post-scroll list. The general oracle lets the page change between two iterations, and there nothing bounds the loop.
- Deduplication of (track, artist) pairs, a three-sample stagnation window, a terminal row-index marker, artist extraction, an entry for a track whose search found nothing or failed, an append-only result file, and treating an expired search wait as a miss for that one track: convert.py does not implement them, so the model does not claim them. A pair whose first result has no `href` is kept, as at lines 82-83, with an absent `url` (`Match.url` is an `Option`).
