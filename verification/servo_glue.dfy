/** servo/src/glue.rs: the C-ABI glue. Strings arrive as C strings and are
    read with `CStr::to_str`, the view is a whole `ViewLayout`, and page titles
    are dropped. */
module ServoGlue {
  import opened Wrappers
  import opened ServoApi
  import opened Windowing
  import opened Glue
  import Utf8
  import RustGlue

  /** A session of this glue; its view data is the layout last handed over. */
  type Servo = Session<ViewLayout>

  /** The page `erase` opens: the literal "about:blank". */
  const BlankPage := Url("about:blank")

  /** `init`: the resources path, then the URL, must be UTF-8, or
      `CantReadStr` is returned and the slot is left as it was; a URL that
      does not parse panics in `unwrap()`; otherwise a new session replaces
      whatever the slot held. */
  function Init(slot: Option<Servo>, engine: Engine, url: Utf8.CStr, resourcesPath: Utf8.CStr, layout: ViewLayout): (r: InitOutcome<ViewLayout>)
    ensures (Utf8.ToStr(resourcesPath).None? || Utf8.ToStr(url).None?) ==> r == Returned(slot, CantReadStr)
    ensures r.Panicked? <==> Utf8.ToStr(resourcesPath).Some? && Utf8.ToStr(url).Some? && engine.parse(Utf8.ToStr(url).value).None?
    ensures r.Returned? && r.result == Ok ==>
      && r.slot.Some?
      && Coherent(r.slot.value)
      && r.slot.value.view == layout
      && r.slot.value.log[0] == [NewBrowser(engine.parse(Utf8.ToStr(url).value).value)]
    ensures r.Returned? ==> r.result in {Ok, CantReadStr}
    ensures Utf8.ToStr(resourcesPath).Some? && Utf8.ToStr(url).Some? && engine.parse(Utf8.ToStr(url).value).Some? ==>
      r == Returned(Some(Launch(engine, engine.parse(Utf8.ToStr(url).value).value, layout)), Ok)
  {
    match Utf8.ToStr(resourcesPath)
    case None => Returned(slot, CantReadStr)
    case Some(_) =>
      match Utf8.ToStr(url)
      case None => Returned(slot, CantReadStr)
      case Some(text) =>
        match engine.parse(text)
        case None => Panicked
        case Some(start) => Returned(Some(Launch(engine, start, layout)), Ok)
  }

  /** `load_url`: the errors cascade, first `CantReadStr` for bytes that are
      not UTF-8, then `CantParseUrl` for text that is not a URL; on either the
      engine hears nothing. Otherwise the current browser loads the URL. */
  function LoadUrl(s: Servo, engine: Engine, url: Utf8.CStr): (r: Step<ViewLayout>)
    ensures Utf8.ToStr(url).None? ==> r == Step(s, CantReadStr)
    ensures Utf8.ToStr(url).Some? && engine.parse(Utf8.ToStr(url).value).None? ==> r == Step(s, CantParseUrl)
    ensures r.result == Ok <==> Utf8.ToStr(url).Some? && engine.parse(Utf8.ToStr(url).value).Some?
    ensures r.result == Ok ==>
      r.next == s.(log := s.log + [[WindowEvent.LoadUrl(s.browserId, engine.parse(Utf8.ToStr(url).value).value)]])
  {
    match Utf8.ToStr(url)
    case None => Step(s, CantReadStr)
    case Some(text) =>
      match engine.parse(text)
      case None => Step(s, CantParseUrl)
      case Some(u) => LoadParsed(s, u)
  }

  /** `resize`: the stored layout is replaced wholesale, then one `Resize` event. */
  function Resize(s: Servo, layout: ViewLayout): (r: Step<ViewLayout>)
    ensures r.result == Ok
    ensures r.next.view == layout
    ensures FramebufferSize(r.next) == layout.viewSize
    ensures WindowRect(FramebufferSize(r.next)) == Rect(0, 0, layout.viewSize)
    ensures r.next.log == s.log + [[WindowEvent.Resize]]
    ensures r.next.browserId == s.browserId && r.next.events == s.events
  {
    ResizeView(s, layout)
  }

  /** `erase`: replaces the current browser by a new one on about:blank. */
  function Erase(s: Servo, engine: Engine): (r: Step<ViewLayout>)
    ensures r.result == Ok
    ensures |r.next.log| == |s.log| + 3 && r.next.log[..|s.log|] == s.log
    ensures r.next.log[|s.log|] == [NewBrowser(BlankPage)]
    ensures r.next.log[|s.log| + 1] == [SelectBrowser(r.next.browserId)]
    ensures r.next.log[|s.log| + 2] == [CloseBrowser(s.browserId)]
    ensures r.next.browserId == engine.allocate(s.log + [[NewBrowser(BlankPage)]])
    ensures r.next.events == s.events && r.next.view == s.view
  {
    Glue.Erase(s, engine, BlankPage)
  }

  /** `framebuffer_size`: the view size of the stored layout. */
  function FramebufferSize(s: Servo): Size {
    s.view.viewSize
  }

  /** What the embedder hears for each engine notification. This version
      ignores page titles; the URL reaches the embedder as a C string that is
      never freed. */
  function Notify(n: Notification): (calls: seq<HostCall>)
    requires Answerable(n)
    ensures n.Presented? ==> calls == [Flush]
    ensures n.LoadStarted? ==> calls == [OnLoadStarted]
    ensures n.LoadEnded? ==> calls == [OnLoadEnded]
    ensures n.HistoryUpdated? ==> calls == HistoryChanged(n.entries, n.current)
    ensures n.TitleSet? ==> calls == []
  {
    match n
    case Presented => [Flush]
    case LoadStarted(_) => [OnLoadStarted]
    case LoadEnded(_) => [OnLoadEnded]
    case HistoryUpdated(_, entries, current) => HistoryChanged(entries, current)
    case TitleSet(_, _) => []
  }

  /** The two versions tell the embedder the same things, except that this
      one drops page titles where the other forwards them. */
  lemma NotifyAgreesWithRust(n: Notification)
    requires Answerable(n)
    ensures !n.TitleSet? ==> Notify(n) == RustGlue.Notify(n)
    ensures n.TitleSet? ==> Notify(n) == [] && |RustGlue.Notify(n)| == 1
  {
  }
}
