/** The part of the Selenium driver surface that the converter observes.
    The browser itself is never modelled: every page the program looks at
    is supplied as an oracle value built from these types. */
module Driver {

  /** A value that may be absent; Selenium's `get_attribute` returns `None`
      when the attribute is missing. */
  datatype Option<+T> = None | Some(value: T)

  /** The two ways a driver call can raise out of the program:
      an expired `WebDriverWait` (`TimeoutException`) or any other
      driver-level exception. */
  datatype Fault = WaitTimeout | DriverError

  /** A located web element, reduced to the two accessors the program uses:
      its rendered text and its `href` attribute. */
  datatype Element = Element(text: string, href: Option<string>)

  /** What one YouTube search yields: the elements with id `video-title`
      found by the query that follows a successful wait, or the fault that
      ended the navigation, the wait or the query. A search that shows no
      `video-title` element at all is `SearchFailed(WaitTimeout)`: the wait
      raises. `Loaded([])` is the rarer case where the element the wait saw
      is gone again by the time of the query. */
  datatype SearchPage = Loaded(results: seq<Element>) | SearchFailed(fault: Fault)

  /** The page shown by each search of a run: `search(i, name)` is the
      outcome of the `i`-th search, whose query is `name`. Keying by
      position lets two searches for the same name come out differently,
      as two separate navigations and waits can. */
  type SearchOracle = (nat, string) -> SearchPage
}
