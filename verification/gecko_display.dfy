/** GeckoDisplay.java: the surface callbacks of a session's display. Only the
    first `surfaceChanged` reaches the session, as `onSurfaceReady`; later
    ones, and `surfaceDestroyed`, are only logged. */
module GeckoDisplay {
  import opened Wrappers

  /** An Android `Surface`, known by its identity. */
  type Surface = nat

  /** The display's one piece of state. */
  datatype Display = Display(initiated: bool)

  /** A display as constructed. */
  const NewDisplay := Display(false)

  /** A call of the session's `onSurfaceReady`. */
  datatype SurfaceReady = SurfaceReady(surface: Surface, width: int, height: int)

  /** The display after a callback, and what it forwarded to the session. */
  datatype Step = Step(display: Display, forwarded: Option<SurfaceReady>)

  /** `surfaceChanged(surface, width, height)`. */
  function SurfaceChanged(d: Display, surface: Surface, width: int, height: int): (r: Step)
    ensures r.display.initiated
    ensures d.initiated ==> r.forwarded.None?
    ensures !d.initiated ==> r.forwarded == Some(SurfaceReady(surface, width, height))
  {
    if d.initiated then Step(d, None)
    else Step(d.(initiated := true), Some(SurfaceReady(surface, width, height)))
  }

  /** `surfaceDestroyed()`: the flag is left as it is. */
  function SurfaceDestroyed(d: Display): (r: Display)
    ensures r.initiated == d.initiated
  {
    d
  }

  /** The callbacks Android makes on a display. */
  datatype Callback = Changed(surface: Surface, width: int, height: int) | Destroyed

  /** The display after a sequence of callbacks, and everything it forwarded. */
  function Run(d: Display, cs: seq<Callback>): (r: (Display, seq<SurfaceReady>))
    decreases |cs|
  {
    if |cs| == 0 then (d, [])
    else
      var (next, fwd) := match cs[0]
        case Changed(s, w, h) => var st := SurfaceChanged(d, s, w, h); (st.display, st.forwarded)
        case Destroyed => (SurfaceDestroyed(d), None);
      var rest := Run(next, cs[1..]);
      (rest.0, (if fwd.Some? then [fwd.value] else []) + rest.1)
  }

  /** The arguments of the first `surfaceChanged` in a sequence, if any. */
  function FirstChange(cs: seq<Callback>): Option<SurfaceReady>
    decreases |cs|
  {
    if |cs| == 0 then None
    else if cs[0].Changed? then Some(SurfaceReady(cs[0].surface, cs[0].width, cs[0].height))
    else FirstChange(cs[1..])
  }

  /** Once initiated, a display forwards nothing more. */
  lemma {:induction false} InitiatedForwardsNothing(d: Display, cs: seq<Callback>)
    requires d.initiated
    ensures Run(d, cs).1 == [] && Run(d, cs).0.initiated
    decreases |cs|
  {
    if |cs| > 0 {
      InitiatedForwardsNothing(d, cs[1..]);
    }
  }

  /** Over any sequence of callbacks, a new display forwards exactly the first
      `surfaceChanged`, with its arguments, and nothing else: `onSurfaceReady`
      fires at most once, destroyed surfaces notwithstanding. */
  lemma {:induction false} ForwardsOnlyFirstChange(cs: seq<Callback>)
    ensures Run(NewDisplay, cs).1 == (if FirstChange(cs).Some? then [FirstChange(cs).value] else [])
    ensures |Run(NewDisplay, cs).1| <= 1
    ensures Run(NewDisplay, cs).0.initiated <==> exists i :: 0 <= i < |cs| && cs[i].Changed?
    decreases |cs|
  {
    if |cs| > 0 {
      match cs[0]
      case Changed(s, w, h) =>
        InitiatedForwardsNothing(Display(true), cs[1..]);
      case Destroyed =>
        ForwardsOnlyFirstChange(cs[1..]);
        if exists i :: 0 <= i < |cs[1..]| && cs[1..][i].Changed? {
          var i :| 0 <= i < |cs[1..]| && cs[1..][i].Changed?;
          assert cs[i + 1].Changed?;
        }
        if exists i :: 0 <= i < |cs| && cs[i].Changed? {
          var i :| 0 <= i < |cs| && cs[i].Changed?;
          assert cs[1..][i - 1].Changed?;
        }
    }
  }
}
