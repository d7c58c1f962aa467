/** GeckoRuntime.java: a lazily created default runtime shared by every
    caller, and fresh runtimes on demand. The class's static field and Java's
    object identities are modelled explicitly: `created` counts the runtimes
    created so far, and each new runtime takes the next identity. */
module GeckoRuntime {
  import opened Wrappers

  /** A runtime object, known by its identity. */
  datatype Runtime = Runtime(identity: nat)

  /** The class's static state: `sDefaultRuntime`, and how many runtimes exist. */
  datatype Statics = Statics(defaultRuntime: Option<Runtime>, created: nat)

  /** The default runtime, if any, is one that was created. */
  predicate Valid(st: Statics) {
    st.defaultRuntime.Some? ==> st.defaultRuntime.value.identity < st.created
  }

  /** The class as loaded: no default runtime, nothing created. */
  const Loaded := Statics(None, 0)

  /** The statics after a call, and the runtime it returned. */
  datatype Step = Step(statics: Statics, runtime: Runtime)

  /** `new GeckoRuntime()`. */
  function NewRuntime(st: Statics): (r: Step)
    ensures r.runtime.identity == st.created
    ensures r.statics == st.(created := st.created + 1)
  {
    Step(st.(created := st.created + 1), Runtime(st.created))
  }

  /** `getDefault(context)`: creates the default runtime only when there is
      none yet, and returns it. The context is not used. */
  function GetDefault(st: Statics): (r: Step)
    ensures st.defaultRuntime.Some? ==> r == Step(st, st.defaultRuntime.value)
    ensures st.defaultRuntime.None? ==>
      && r.runtime.identity == st.created
      && r.statics == Statics(Some(r.runtime), st.created + 1)
  {
    if st.defaultRuntime.None? then
      var made := NewRuntime(st);
      Step(made.statics.(defaultRuntime := Some(made.runtime)), made.runtime)
    else Step(st, st.defaultRuntime.value)
  }

  /** `create(context)`: a new runtime; the default is left alone. */
  function Create(st: Statics): (r: Step)
    ensures r.runtime.identity == st.created
    ensures r.statics.defaultRuntime == st.defaultRuntime && r.statics.created == st.created + 1
  {
    NewRuntime(st)
  }

  /** `attachTo(context)`: does nothing. */
  function AttachTo(st: Statics, rt: Runtime): (r: Statics)
    ensures r == st
  {
    st
  }

  datatype Call = GetDefaultCall | CreateCall | AttachToCall(rt: Runtime)

  /** The statics after a sequence of calls, with what each call returned. */
  function Run(st: Statics, calls: seq<Call>): (r: (Statics, seq<Option<Runtime>>))
    ensures |r.1| == |calls|
    decreases |calls|
  {
    if |calls| == 0 then (st, [])
    else
      var (next, out) := match calls[0]
        case GetDefaultCall => var s := GetDefault(st); (s.statics, Some(s.runtime))
        case CreateCall => var s := Create(st); (s.statics, Some(s.runtime))
        case AttachToCall(rt) => (AttachTo(st, rt), None);
      var rest := Run(next, calls[1..]);
      (rest.0, [out] + rest.1)
  }

  /** Over any sequence of calls: every `getDefault` returns the same runtime,
      which is the default from then on; an existing default is never replaced;
      every `create` returns a runtime no other call returns, default included. */
  lemma {:induction false} DefaultIsShared(st: Statics, calls: seq<Call>)
    requires Valid(st)
    ensures var (fin, out) := Run(st, calls);
      && Valid(fin)
      && st.created <= fin.created
      && (st.defaultRuntime.Some? ==> fin.defaultRuntime == st.defaultRuntime)
      && (fin.defaultRuntime.Some? && fin.defaultRuntime != st.defaultRuntime ==> fin.defaultRuntime.value.identity >= st.created)
      && (forall i :: 0 <= i < |calls| ==> (out[i].None? <==> calls[i].AttachToCall?))
      && (forall i :: 0 <= i < |calls| && calls[i].GetDefaultCall? ==> out[i] == fin.defaultRuntime && out[i].Some?)
      && (forall i :: 0 <= i < |calls| && calls[i].CreateCall? ==>
            && out[i].Some? && st.created <= out[i].value.identity < fin.created
            && out[i] != fin.defaultRuntime)
      && (forall i, j :: 0 <= i < j < |calls| && calls[i].CreateCall? && calls[j].CreateCall? ==>
            out[i].value.identity < out[j].value.identity)
    decreases |calls|
  {
    if |calls| > 0 {
      var (next, first) := match calls[0]
        case GetDefaultCall => var s := GetDefault(st); (s.statics, Some(s.runtime))
        case CreateCall => var s := Create(st); (s.statics, Some(s.runtime))
        case AttachToCall(rt) => (AttachTo(st, rt), None);
      DefaultIsShared(next, calls[1..]);
      var (fin, out) := Run(st, calls);
      var rest := Run(next, calls[1..]).1;
      assert out == [first] + rest;
      forall i | 0 < i < |calls|
        ensures out[i] == rest[i - 1] && calls[i] == calls[1..][i - 1]
      {
      }
    }
  }
}
