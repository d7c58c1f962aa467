/** The `extern "C"` entry points of servo/src/api.rs. Each one starts from
    the placeholder `UnexpectedError`, borrows the session in the thread-local
    `SERVO` slot, forwards to the matching glue method and falls back to
    `WrongThread` when the slot is empty. `stop` is not implemented. */
module Dispatch {
  import opened Wrappers
  import opened ServoApi
  import Windowing
  import Glue
  import ServoGlue
  import Utf8

  /** The entry points that act on a session, with their arguments. */
  datatype Entry =
    | PerformUpdates
    | Scroll(dx: i32, dy: i32, x: u32, y: u32, state: ScrollState)
    | Click(x: u32, y: u32)
    | LoadUrl(url: Utf8.CStr)
    | Reload
    | Resize(layout: ViewLayout)
    | Stop
    | GoBack
    | GoForward
    | Erase

  /** The thread-local slot after an entry point returns, and its result. */
  datatype Dispatched = Dispatched(slot: Option<ServoGlue.Servo>, result: ServoResult)

  /** The glue method each entry point other than `stop` forwards to. Only
      `load_url` can fail, and only with a string or parse error. */
  function Forward(g: ServoGlue.Servo, engine: Windowing.Engine, e: Entry): (r: Glue.Step<ViewLayout>)
    requires !e.Stop?
    ensures r.result in {Ok, CantReadStr, CantParseUrl}
    ensures !e.LoadUrl? ==> r.result == Ok
  {
    match e
    case PerformUpdates => Glue.PerformUpdates(g)
    case Scroll(dx, dy, x, y, state) => Glue.Scroll(g, dx, dy, x, y, state)
    case Click(x, y) => Glue.Click(g, x, y)
    case LoadUrl(url) => ServoGlue.LoadUrl(g, engine, url)
    case Reload => Glue.Reload(g)
    case Resize(layout) => ServoGlue.Resize(g, layout)
    case GoBack => Glue.GoBack(g)
    case GoForward => Glue.GoForward(g)
    case Erase => ServoGlue.Erase(g, engine)
  }

  /** One call of an entry point on the current thread. */
  function Call(slot: Option<ServoGlue.Servo>, engine: Windowing.Engine, e: Entry): (r: Dispatched)
    ensures r.slot.Some? <==> slot.Some?
    ensures e.Stop? ==> r == Dispatched(slot, NotImplemented)
    ensures slot.None? && !e.Stop? ==> r == Dispatched(None, WrongThread)
    ensures slot.Some? && !e.Stop? ==>
      r == Dispatched(Some(Forward(slot.value, engine, e).next), Forward(slot.value, engine, e).result)
    ensures r.result != UnexpectedError
  {
    if e.Stop? then Dispatched(slot, NotImplemented)
    else
      var placeholder := Dispatched(slot, UnexpectedError);
      match slot
      case None => placeholder.(result := WrongThread)
      case Some(g) =>
        var step := Forward(g, engine, e);
        Dispatched(Some(step.next), step.result)
  }

  /** The session request an entry point amounts to; `None` for `stop` and
      for a `load_url` whose string is unreadable or does not parse. */
  function RequestOf(engine: Windowing.Engine, e: Entry): Option<Glue.Request<ViewLayout>> {
    match e
    case PerformUpdates => Some(Glue.UpdatesDue)
    case Scroll(dx, dy, x, y, state) => Some(Glue.ScrollRequested(dx, dy, x, y, state))
    case Click(x, y) => Some(Glue.ClickRequested(x, y))
    case LoadUrl(url) =>
      var text := Utf8.ToStr(url);
      if text.Some? && engine.parse(text.value).Some? then Some(Glue.LoadRequested(engine.parse(text.value).value))
      else None
    case Reload => Some(Glue.ReloadRequested)
    case Resize(layout) => Some(Glue.ResizeRequested(layout))
    case Stop => None
    case GoBack => Some(Glue.BackRequested)
    case GoForward => Some(Glue.ForwardRequested)
    case Erase => Some(Glue.EraseRequested(ServoGlue.BlankPage))
  }

  lemma ForwardIsRequest(g: ServoGlue.Servo, engine: Windowing.Engine, e: Entry)
    requires !e.Stop?
    ensures RequestOf(engine, e).None? ==> Forward(g, engine, e).next == g
    ensures RequestOf(engine, e).Some? ==> Forward(g, engine, e).next == Glue.Apply(g, engine, RequestOf(engine, e).value).next
  {
  }

  /** Entry points keep the session they borrow coherent. */
  lemma {:induction false} CallKeepsCoherent(g: ServoGlue.Servo, engine: Windowing.Engine, e: Entry)
    requires Glue.Coherent(g)
    ensures Glue.Coherent(Call(Some(g), engine, e).slot.value)
  {
    if !e.Stop? {
      ForwardIsRequest(g, engine, e);
      if RequestOf(engine, e).Some? {
        Glue.ApplyKeepsCoherent(g, engine, RequestOf(engine, e).value);
      }
    }
  }

  /** A sequence of entry-point calls on one thread: the slot and the results. */
  function Run(slot: Option<ServoGlue.Servo>, engine: Windowing.Engine, es: seq<Entry>): (r: (Option<ServoGlue.Servo>, seq<ServoResult>))
    ensures |r.1| == |es|
    decreases |es|
  {
    if |es| == 0 then (slot, [])
    else
      var d := Call(slot, engine, es[0]);
      var rest := Run(d.slot, engine, es[1..]);
      (rest.0, [d.result] + rest.1)
  }

  /** Over any sequence of calls the entry points neither install nor remove a
      session; without one every call but `stop` answers `WrongThread`; with a
      coherent one it stays coherent; and no call answers `UnexpectedError`. */
  lemma {:induction false} RunOnlyBorrows(slot: Option<ServoGlue.Servo>, engine: Windowing.Engine, es: seq<Entry>)
    requires slot.Some? ==> Glue.Coherent(slot.value)
    ensures Run(slot, engine, es).0.Some? <==> slot.Some?
    ensures Run(slot, engine, es).0.Some? ==> Glue.Coherent(Run(slot, engine, es).0.value)
    ensures slot.None? ==> forall i :: 0 <= i < |es| ==>
      Run(slot, engine, es).1[i] == (if es[i].Stop? then NotImplemented else WrongThread)
    ensures forall i :: 0 <= i < |es| ==> Run(slot, engine, es).1[i] != UnexpectedError
    decreases |es|
  {
    if |es| > 0 {
      var d := Call(slot, engine, es[0]);
      if slot.Some? {
        CallKeepsCoherent(slot.value, engine, es[0]);
      }
      RunOnlyBorrows(d.slot, engine, es[1..]);
      var r := Run(slot, engine, es);
      forall i | 0 < i < |es|
        ensures r.1[i] == Run(d.slot, engine, es[1..]).1[i - 1]
      {
      }
    }
  }
}
