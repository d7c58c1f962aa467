/** rust/src/glue.rs: the JNI-era glue. Strings arrive already converted from
    Java, the view is a width and a height kept in two `Cell<u32>`s, and the
    page title is forwarded to the embedder. */
module RustGlue {
  import opened Wrappers
  import opened ServoApi
  import opened Windowing
  import opened Glue

  /** A session of this glue; its view data is the framebuffer size. */
  type Servo = Session<Size>

  /** The page `erase` opens: the literal "https://servo.org", which
      `ServoUrl::parse` accepts and serializes with a trailing slash. */
  const ErasePage := Url("https://servo.org/")

  /** `init`: parses the start URL (a failure panics in `unwrap()`), starts an
      engine on it with the given framebuffer size and installs the session. */
  function Init(engine: Engine, url: string, resourcesPath: string, width: u32, height: u32): (r: InitOutcome<Size>)
    ensures r.Panicked? <==> engine.parse(url).None?
    ensures r.Returned? ==>
      && r.result == Ok && r.slot.Some?
      && Coherent(r.slot.value)
      && FramebufferSize(r.slot.value) == Size(width, height)
      && r.slot.value.log[0] == [NewBrowser(engine.parse(url).value)]
    ensures r.Returned? ==> r.slot.value == Launch(engine, engine.parse(url).value, Size(width, height))
  {
    match engine.parse(url)
    case None => Panicked
    case Some(start) => Returned(Some(Launch(engine, start, Size(width, height))), Ok)
  }

  /** `load_uri`: a URL that does not parse yields `CantParseUrl` and the
      engine hears nothing; otherwise the current browser loads it. */
  function LoadUri(s: Servo, engine: Engine, url: string): (r: Step<Size>)
    ensures engine.parse(url).None? ==> r == Step(s, CantParseUrl)
    ensures engine.parse(url).Some? ==>
      && r.result == Ok
      && r.next == s.(log := s.log + [[WindowEvent.LoadUrl(s.browserId, engine.parse(url).value)]])
  {
    match engine.parse(url)
    case None => Step(s, CantParseUrl)
    case Some(u) => LoadParsed(s, u)
  }

  /** `resize`: stores the new width and height, then one `Resize` event. */
  function Resize(s: Servo, width: u32, height: u32): (r: Step<Size>)
    ensures r.result == Ok
    ensures FramebufferSize(r.next) == Size(width, height)
    ensures WindowRect(FramebufferSize(r.next)) == Rect(0, 0, Size(width, height))
    ensures r.next.log == s.log + [[WindowEvent.Resize]]
    ensures r.next.browserId == s.browserId && r.next.events == s.events
  {
    ResizeView(s, Size(width, height))
  }

  /** `erase`: replaces the current browser by a new one on servo.org. */
  function Erase(s: Servo, engine: Engine): (r: Step<Size>)
    ensures r.result == Ok
    ensures |r.next.log| == |s.log| + 3 && r.next.log[..|s.log|] == s.log
    ensures r.next.log[|s.log|] == [NewBrowser(ErasePage)]
    ensures r.next.log[|s.log| + 1] == [SelectBrowser(r.next.browserId)]
    ensures r.next.log[|s.log| + 2] == [CloseBrowser(s.browserId)]
    ensures r.next.browserId == engine.allocate(s.log + [[NewBrowser(ErasePage)]])
    ensures r.next.events == s.events && r.next.view == s.view
  {
    Glue.Erase(s, engine, ErasePage)
  }

  /** `framebuffer_size`: the width and height last stored. */
  function FramebufferSize(s: Servo): Size {
    s.view
  }

  /** What the embedder hears for each engine notification. */
  function Notify(n: Notification): (calls: seq<HostCall>)
    requires Answerable(n)
    ensures n.Presented? ==> calls == [Flush]
    ensures n.LoadStarted? ==> calls == [OnLoadStarted]
    ensures n.LoadEnded? ==> calls == [OnLoadEnded]
    ensures n.HistoryUpdated? ==> calls == HistoryChanged(n.entries, n.current)
    ensures n.TitleSet? ==> calls == [OnTitleChanged(PageTitle(n.title))]
  {
    match n
    case Presented => [Flush]
    case LoadStarted(_) => [OnLoadStarted]
    case LoadEnded(_) => [OnLoadEnded]
    case HistoryUpdated(_, entries, current) => HistoryChanged(entries, current)
    case TitleSet(_, title) => [OnTitleChanged(PageTitle(title))]
  }

  /** `set_page_title`'s title: the page's own, or "No Title" when it has none. */
  function PageTitle(title: Option<string>): (t: string)
    ensures title.Some? ==> t == title.value
    ensures title.None? ==> t == "No Title"
  {
    title.GetOr("No Title")
  }
}
