/** The engine-facing vocabulary shared by both glue layers (rust/src/glue.rs
    and its twin servo/src/glue.rs): the `WindowEvent`s handed to
    `Servo::handle_events`, the notifications the engine sends back through
    `WindowMethods`, and the host callbacks those turn into.

    The engine itself is not modelled. It is an append-only log of the batches
    passed to `handle_events`, plus two oracles: URL parsing (`ServoUrl::parse`)
    and the browser id the engine answers after a `NewBrowser` event. */
module Windowing {
  import opened Wrappers
  import opened ServoApi

  type BrowserId = nat

  /** A parsed URL, known by its serialization (`url.to_string()`). */
  datatype Url = Url(serialization: string)

  datatype TouchEventType = Down | Up | Move | Cancel

  datatype TraversalDirection = Forward(steps: nat) | Back(steps: nat)

  datatype MouseButton = Left | Middle | Right

  /** A click at a point. Rust converts the `u32` coordinates to `f32`;
      the model keeps the integers. */
  datatype MouseWindowEvent = Click(button: MouseButton, x: int, y: int)

  /** `ScrollLocation::Delta` of the scroll amounts, which Rust converts to `f32`. */
  datatype ScrollLocation = Delta(dx: int, dy: int)

  /** The events the glue hands to the engine. Rust's `NewBrowser` also
      carries an ipc sender; its answer is the `Engine.allocate` oracle. */
  datatype WindowEvent =
    | NewBrowser(url: Url)
    | SelectBrowser(selected: BrowserId)
    | CloseBrowser(closed: BrowserId)
    | LoadUrl(target: BrowserId, url: Url)
    | Reload(target: BrowserId)
    | Navigation(target: BrowserId, direction: TraversalDirection)
    | Resize
    | Scroll(location: ScrollLocation, x: i32, y: i32, phase: TouchEventType)
    | MouseWindowEventClass(mouse: MouseWindowEvent)
  {
    /** Events that act on one particular browser, which must be the current one. */
    predicate Targeted() {
      LoadUrl? || Reload? || Navigation?
    }
  }

  /** Everything the engine has been handed, one batch per `handle_events` call. */
  type EventLog = seq<seq<WindowEvent>>

  /** The two answers the glue obtains from code it cannot see. The id of a
      new browser may depend on everything the engine has been told so far. */
  datatype Engine = Engine(parse: string -> Option<Url>, allocate: EventLog -> BrowserId)

  /** A history entry; only its URL is read. */
  datatype LoadData = LoadData(url: Url)

  /** Calls into the embedder's `HostCallbacks`. */
  datatype HostCall =
    | Flush
    | OnLoadStarted
    | OnLoadEnded
    | OnTitleChanged(title: string)
    | OnUrlChanged(url: string)
    | OnHistoryChanged(canGoBack: bool, canGoForward: bool)

  /** The `WindowMethods` calls through which the engine notifies the glue. */
  datatype Notification =
    | Presented
    | LoadStarted(browser: BrowserId)
    | LoadEnded(browser: BrowserId)
    | HistoryUpdated(browser: BrowserId, entries: seq<LoadData>, current: nat)
    | TitleSet(browser: BrowserId, title: Option<string>)

  /** A history notification must name an entry of a non-empty history; the
      other notifications carry no such demand. */
  predicate Answerable(n: Notification) {
    n.HistoryUpdated? ==> 0 < |n.entries| && n.current < |n.entries|
  }

  /** A rectangle of device pixels. */
  datatype Rect = Rect(x: int, y: int, size: Size)

  /** Rust's `x as i32` on a `u32`: values past `i32::MAX` wrap to negatives. */
  function AsI32(x: u32): (r: i32)
    ensures r % 0x1_0000_0000 == x
    ensures x < 0x8000_0000 ==> r == x
  {
    if x < 0x8000_0000 then x else x - 0x1_0000_0000
  }

  /** The touch phase a scroll state is reported as. */
  function PhaseOf(state: ScrollState): TouchEventType {
    match state
    case Start => TouchEventType.Down
    case Move => TouchEventType.Move
    case End => TouchEventType.Up
    case Canceled => TouchEventType.Cancel
  }

  /** The phase mapping is one-to-one and onto: each touch phase comes from
      exactly one scroll state. */
  lemma PhaseOfIsBijective(a: ScrollState, b: ScrollState, t: TouchEventType)
    ensures PhaseOf(a) == PhaseOf(b) ==> a == b
    ensures exists s :: PhaseOf(s) == t
  {
    match t
    case Down => assert PhaseOf(Start) == t;
    case Move => assert PhaseOf(ScrollState.Move) == t;
    case Up => assert PhaseOf(End) == t;
    case Cancel => assert PhaseOf(Canceled) == t;
  }

  /** `history_changed`: the embedder first learns whether there are entries
      before and after the current one, then the current entry's URL. Rust
      panics on an empty history (`len() - 1` underflows) and on an index past
      the end (`entries[current]`), hence the precondition. */
  function HistoryChanged(entries: seq<LoadData>, current: nat): (calls: seq<HostCall>)
    requires 0 < |entries| && current < |entries|
    ensures |calls| == 2 && calls[0].OnHistoryChanged? && calls[1].OnUrlChanged?
    ensures calls[0].canGoBack <==> |entries[..current]| > 0
    ensures calls[0].canGoForward <==> |entries[current + 1..]| > 0
    ensures calls[1].url == entries[current].url.serialization
  {
    var canGoBack := current > 0;
    var canGoForward := current < |entries| - 1;
    [OnHistoryChanged(canGoBack, canGoForward), OnUrlChanged(entries[current].url.serialization)]
  }

  /** `window_rect`: the framebuffer at the origin. */
  function WindowRect(framebuffer: Size): (r: Rect)
    ensures r.x == 0 && r.y == 0 && r.size == framebuffer
  {
    Rect(0, 0, framebuffer)
  }

  /** The events of a log, in the order the engine received them. */
  function Flatten(log: EventLog): seq<WindowEvent> {
    if |log| == 0 then [] else Flatten(log[..|log| - 1]) + log[|log| - 1]
  }

  /** The browser most recently selected in `events`, if any. */
  function LastSelected(events: seq<WindowEvent>): Option<BrowserId> {
    if |events| == 0 then None
    else if events[|events| - 1].SelectBrowser? then Some(events[|events| - 1].selected)
    else LastSelected(events[..|events| - 1])
  }

  /** Every load, reload and navigation in `events` is addressed to the browser
      that was selected when it was sent. */
  predicate TargetsSelected(events: seq<WindowEvent>) {
    forall i :: 0 <= i < |events| && events[i].Targeted() ==> LastSelected(events[..i]) == Some(events[i].target)
  }
}
