/** The `ServoGlue` methods that rust/src/glue.rs and servo/src/glue.rs share
    line for line, written once over the view data `V` that each version's
    `ServoCallbacks` keeps (a width and height in one, a `ViewLayout` in the
    other). Every method hands its events to the engine and returns a
    `ServoResult`; the model returns the next session state with the result. */
module Glue {
  import opened Wrappers
  import opened ServoApi
  import opened Windowing

  /** A `ServoGlue` session: the current browser, the queue of events waiting
      for `perform_updates`, the view data, and the engine's event log. */
  datatype Session<V> = Session(browserId: BrowserId, events: seq<WindowEvent>, view: V, log: EventLog)

  /** What a glue method leaves behind: the session and the returned code. */
  datatype Step<V> = Step(next: Session<V>, result: ServoResult)

  /** One `servo.handle_events(batch)` call. */
  function Handle<V>(s: Session<V>, batch: seq<WindowEvent>): (r: Session<V>)
    ensures |r.log| == |s.log| + 1 && r.log[..|s.log|] == s.log && r.log[|s.log|] == batch
    ensures r.browserId == s.browserId && r.events == s.events && r.view == s.view
  {
    s.(log := s.log + [batch])
  }

  /** `perform_updates`: swaps the queue for an empty one and hands the old
      queue, in order, to the engine as one batch. */
  function PerformUpdates<V>(s: Session<V>): (r: Step<V>)
    ensures r.result == Ok
    ensures r.next.events == []
    ensures r.next.log == s.log + [s.events]
    ensures r.next.browserId == s.browserId && r.next.view == s.view
  {
    var queued := s.events;
    Step(Handle(s.(events := []), queued), Ok)
  }

  /** The part of `load_uri` / `load_url` after the URL has parsed. */
  function LoadParsed<V>(s: Session<V>, url: Url): (r: Step<V>)
    ensures r.result == Ok
    ensures r.next.log == s.log + [[WindowEvent.LoadUrl(s.browserId, url)]]
    ensures r.next.browserId == s.browserId && r.next.events == s.events && r.next.view == s.view
  {
    Step(Handle(s, [WindowEvent.LoadUrl(s.browserId, url)]), Ok)
  }

  /** `reload`: one reload of the current browser. */
  function Reload<V>(s: Session<V>): (r: Step<V>)
    ensures r.result == Ok
    ensures r.next.log == s.log + [[WindowEvent.Reload(s.browserId)]]
    ensures r.next.browserId == s.browserId && r.next.events == s.events && r.next.view == s.view
  {
    Step(Handle(s, [WindowEvent.Reload(s.browserId)]), Ok)
  }

  /** `go_back`: one step back in the current browser's history. */
  function GoBack<V>(s: Session<V>): (r: Step<V>)
    ensures r.result == Ok
    ensures r.next.log == s.log + [[Navigation(s.browserId, Back(1))]]
    ensures r.next.browserId == s.browserId && r.next.events == s.events && r.next.view == s.view
  {
    Step(Handle(s, [Navigation(s.browserId, Back(1))]), Ok)
  }

  /** `go_forward`: one step forward in the current browser's history. */
  function GoForward<V>(s: Session<V>): (r: Step<V>)
    ensures r.result == Ok
    ensures r.next.log == s.log + [[Navigation(s.browserId, Forward(1))]]
    ensures r.next.browserId == s.browserId && r.next.events == s.events && r.next.view == s.view
  {
    Step(Handle(s, [Navigation(s.browserId, Forward(1))]), Ok)
  }

  /** The part of `resize` both versions share: the callbacks' view data is
      replaced wholesale, then the engine is told to resize. */
  function ResizeView<V>(s: Session<V>, view: V): (r: Step<V>)
    ensures r.result == Ok
    ensures r.next.view == view
    ensures r.next.log == s.log + [[WindowEvent.Resize]]
    ensures r.next.browserId == s.browserId && r.next.events == s.events
  {
    Step(Handle(s.(view := view), [WindowEvent.Resize]), Ok)
  }

  /** `scroll`: one scroll event carrying the deltas, the point (through
      Rust's `u32 as i32`) and the touch phase of `state`. */
  function Scroll<V>(s: Session<V>, dx: i32, dy: i32, x: u32, y: u32, state: ScrollState): (r: Step<V>)
    ensures r.result == Ok
    ensures |r.next.log| == |s.log| + 1 && r.next.log[..|s.log|] == s.log
    ensures var batch := r.next.log[|s.log|];
      && |batch| == 1 && batch[0].Scroll?
      && batch[0].location == Delta(dx, dy)
      && batch[0].x == AsI32(x) && batch[0].y == AsI32(y)
      && (state == Start <==> batch[0].phase == TouchEventType.Down)
      && (state == ScrollState.Move <==> batch[0].phase == TouchEventType.Move)
      && (state == End <==> batch[0].phase == TouchEventType.Up)
      && (state == Canceled <==> batch[0].phase == TouchEventType.Cancel)
    ensures r.next.browserId == s.browserId && r.next.events == s.events && r.next.view == s.view
  {
    var event := WindowEvent.Scroll(Delta(dx, dy), AsI32(x), AsI32(y), PhaseOf(state));
    Step(Handle(s, [event]), Ok)
  }

  /** `click`: one left-button click at (x, y). */
  function Click<V>(s: Session<V>, x: u32, y: u32): (r: Step<V>)
    ensures r.result == Ok
    ensures r.next.log == s.log + [[MouseWindowEventClass(MouseWindowEvent.Click(Left, x, y))]]
    ensures r.next.browserId == s.browserId && r.next.events == s.events && r.next.view == s.view
  {
    Step(Handle(s, [MouseWindowEventClass(MouseWindowEvent.Click(Left, x, y))]), Ok)
  }

  /** `erase`: opens a new browser on `page`, selects it, then closes the
      browser that was current; the new browser becomes current. */
  function Erase<V>(s: Session<V>, engine: Engine, page: Url): (r: Step<V>)
    ensures r.result == Ok
    ensures var newId := engine.allocate(s.log + [[NewBrowser(page)]]);
      && r.next.browserId == newId
      && r.next.log == s.log + [[NewBrowser(page)], [SelectBrowser(newId)], [CloseBrowser(s.browserId)]]
    ensures r.next.events == s.events && r.next.view == s.view
  {
    var withNew := Handle(s, [NewBrowser(page)]);
    var id := engine.allocate(withNew.log);
    var selected := Handle(withNew, [SelectBrowser(id)]);
    var lastId := s.browserId;
    Step(Handle(selected.(browserId := id), [CloseBrowser(lastId)]), Ok)
  }

  /** What `init` leaves in the thread-local `SERVO` slot, with the returned
      code, or a panic from an `unwrap()` on a URL that did not parse. */
  datatype InitOutcome<V> = Panicked | Returned(slot: Option<Session<V>>, result: ServoResult)

  /** The part of `init` both versions share once the start URL has parsed: a
      fresh engine is told to open a browser on `url`, and the browser it
      answers with is selected and becomes current. */
  function Launch<V>(engine: Engine, url: Url, view: V): (r: Session<V>)
    ensures r.browserId == engine.allocate([[NewBrowser(url)]])
    ensures r.log == [[NewBrowser(url)], [SelectBrowser(r.browserId)]]
    ensures r.events == [] && r.view == view
    ensures Coherent(r)
  {
    var first: EventLog := [[NewBrowser(url)]];
    var id := engine.allocate(first);
    var r := Session(id, [], view, first + [[SelectBrowser(id)]]);
    assert Flatten(r.log) == [NewBrowser(url), SelectBrowser(id)] by {
      FlattenAppend([], [NewBrowser(url)]);
      FlattenAppend(first, [SelectBrowser(id)]);
    }
    assert Flatten(r.log)[..1] == [NewBrowser(url)];
    r
  }

  /** The operations above, as requests a session can receive once any
      string arguments have been read and parsed. */
  datatype Request<V> =
    | UpdatesDue
    | LoadRequested(url: Url)
    | ReloadRequested
    | BackRequested
    | ForwardRequested
    | ResizeRequested(view: V)
    | ScrollRequested(dx: i32, dy: i32, x: u32, y: u32, state: ScrollState)
    | ClickRequested(x: u32, y: u32)
    | EraseRequested(page: Url)

  function Apply<V>(s: Session<V>, engine: Engine, q: Request<V>): Step<V> {
    match q
    case UpdatesDue => PerformUpdates(s)
    case LoadRequested(url) => LoadParsed(s, url)
    case ReloadRequested => Reload(s)
    case BackRequested => GoBack(s)
    case ForwardRequested => GoForward(s)
    case ResizeRequested(view) => ResizeView(s, view)
    case ScrollRequested(dx, dy, x, y, state) => Scroll(s, dx, dy, x, y, state)
    case ClickRequested(x, y) => Click(s, x, y)
    case EraseRequested(page) => Erase(s, engine, page)
  }

  /** What the glue keeps true of a live session: nothing ever enters the
      queue, the engine's most recently selected browser is the current one,
      and every load, reload and navigation went to the browser selected at
      the time it was sent. */
  predicate Coherent<V>(s: Session<V>) {
    && s.events == []
    && LastSelected(Flatten(s.log)) == Some(s.browserId)
    && TargetsSelected(Flatten(s.log))
  }

  lemma FlattenAppend(log: EventLog, batch: seq<WindowEvent>)
    ensures Flatten(log + [batch]) == Flatten(log) + batch
  {
    assert (log + [batch])[..|log|] == log;
  }

  /** Sending one more event: the selection moves only on `SelectBrowser`, and
      the log stays well addressed exactly when a targeted event names the
      browser selected so far. */
  lemma AppendEvent(events: seq<WindowEvent>, e: WindowEvent)
    requires TargetsSelected(events)
    ensures LastSelected(events + [e]) == if e.SelectBrowser? then Some(e.selected) else LastSelected(events)
    ensures TargetsSelected(events + [e]) <==> (e.Targeted() ==> LastSelected(events) == Some(e.target))
  {
    var xs := events + [e];
    assert xs[..|events|] == events;
    forall i | 0 <= i < |events|
      ensures xs[..i] == events[..i]
    {
    }
  }

  /** Handing a single event to a coherent session keeps it coherent when the
      event either selects the browser that becomes current or leaves the
      selection alone and, if targeted, names the current browser. */
  lemma {:induction false} HandleOneKeepsCoherent<V>(s: Session<V>, e: WindowEvent, id: BrowserId)
    requires Coherent(s)
    requires e.SelectBrowser? ==> e.selected == id
    requires !e.SelectBrowser? ==> id == s.browserId
    requires e.Targeted() ==> e.target == s.browserId
    ensures Coherent(Handle(s, [e]).(browserId := id))
  {
    FlattenAppend(s.log, [e]);
    AppendEvent(Flatten(s.log), e);
  }

  /** Every request keeps a coherent session coherent. */
  lemma {:induction false} ApplyKeepsCoherent<V>(s: Session<V>, engine: Engine, q: Request<V>)
    requires Coherent(s)
    ensures Coherent(Apply(s, engine, q).next)
  {
    match q
    case UpdatesDue =>
      FlattenAppend(s.log, []);
      assert Flatten(s.log) + [] == Flatten(s.log);
    case LoadRequested(url) =>
      HandleOneKeepsCoherent(s, WindowEvent.LoadUrl(s.browserId, url), s.browserId);
    case ReloadRequested =>
      HandleOneKeepsCoherent(s, WindowEvent.Reload(s.browserId), s.browserId);
    case BackRequested =>
      HandleOneKeepsCoherent(s, Navigation(s.browserId, Back(1)), s.browserId);
    case ForwardRequested =>
      HandleOneKeepsCoherent(s, Navigation(s.browserId, Forward(1)), s.browserId);
    case ResizeRequested(view) =>
      HandleOneKeepsCoherent(s.(view := view), WindowEvent.Resize, s.browserId);
    case ScrollRequested(dx, dy, x, y, state) =>
      var event := WindowEvent.Scroll(Delta(dx, dy), AsI32(x), AsI32(y), PhaseOf(state));
      HandleOneKeepsCoherent(s, event, s.browserId);
    case ClickRequested(x, y) =>
      HandleOneKeepsCoherent(s, MouseWindowEventClass(MouseWindowEvent.Click(Left, x, y)), s.browserId);
    case EraseRequested(page) =>
      var withNew := Handle(s, [NewBrowser(page)]);
      var id := engine.allocate(withNew.log);
      HandleOneKeepsCoherent(s, NewBrowser(page), s.browserId);
      HandleOneKeepsCoherent(withNew, SelectBrowser(id), id);
      HandleOneKeepsCoherent(Handle(withNew, [SelectBrowser(id)]).(browserId := id), CloseBrowser(s.browserId), id);
  }

  /** The session after a sequence of requests, with the codes returned. */
  function Run<V>(s: Session<V>, engine: Engine, qs: seq<Request<V>>): (r: (Session<V>, seq<ServoResult>))
    ensures |r.1| == |qs|
    decreases |qs|
  {
    if |qs| == 0 then (s, [])
    else
      var step := Apply(s, engine, qs[0]);
      var rest := Run(step.next, engine, qs[1..]);
      (rest.0, [step.result] + rest.1)
  }

  /** Coherence holds after any sequence of requests, every one of which
      returns `Ok`, and the engine's log only ever grows. */
  lemma {:induction false} RunKeepsCoherent<V>(s: Session<V>, engine: Engine, qs: seq<Request<V>>)
    requires Coherent(s)
    ensures Coherent(Run(s, engine, qs).0)
    ensures forall i :: 0 <= i < |qs| ==> Run(s, engine, qs).1[i] == Ok
    ensures |s.log| <= |Run(s, engine, qs).0.log| && Run(s, engine, qs).0.log[..|s.log|] == s.log
    decreases |qs|
  {
    if |qs| > 0 {
      var step := Apply(s, engine, qs[0]);
      ApplyKeepsCoherent(s, engine, qs[0]);
      RunKeepsCoherent(step.next, engine, qs[1..]);
      var fin := Run(step.next, engine, qs[1..]).0;
      assert step.next.log[..|s.log|] == s.log;
      assert fin.log[..|s.log|] == fin.log[..|step.next.log|][..|s.log|];
    }
  }
}
