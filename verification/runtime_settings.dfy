/** GeckoRuntimeSettings.java: a small typed preference store. Three boolean
    preferences sit beside the content-process hint, the process arguments and
    the intent extras; a `Builder` edits a private instance and `build()`
    hands out a copy of it. Java objects are modelled as values. */
module RuntimeSettings {
  import opened Wrappers

  /** An Android `Bundle` of intent extras, known by its entries. */
  datatype Bundle = Bundle(entries: map<string, string>)

  /** A preference: its name, its default and its current value. */
  datatype Pref = Pref(name: string, defaultValue: bool, value: bool)

  /** An instance; `prefCount` counts the preferences constructed for it. */
  datatype Settings = Settings(
    useContentProcess: bool,
    args: seq<string>,
    extras: Bundle,
    javaScript: Pref,
    remoteDebugging: Pref,
    webFonts: Pref,
    prefCount: nat)

  /** The three preferences, named by their getters and setters. */
  datatype PrefKey = JavaScript | RemoteDebugging | WebFonts

  /** `mPrefs`: the preferences in declaration order. */
  function Prefs(s: Settings): seq<Pref> {
    [s.javaScript, s.remoteDebugging, s.webFonts]
  }

  /** `new Pref(name, defaultValue)`: starts at its default and bumps the
      owner's preference count. */
  function NewPref(count: nat, name: string, defaultValue: bool): (r: (Pref, nat))
    ensures r.0.value == r.0.defaultValue == defaultValue && r.0.name == name
    ensures r.1 == count + 1
  {
    (Pref(name, defaultValue, defaultValue), count + 1)
  }

  /** An instance right after its field initializers have run. */
  function Initialized(): Settings {
    var (js, c1) := NewPref(0, "javascript.enabled", true);
    var (rd, c2) := NewPref(c1, "devtools.debugger.remote-enabled", false);
    var (wf, c3) := NewPref(c2, "browser.display.use_document_fonts", true);
    Settings(false, [], Bundle(map[]), js, rd, wf, c3)
  }

  /** What every constructed instance satisfies: one counted preference per
      entry of `mPrefs`, with the names and defaults the class declares. */
  predicate Wellformed(s: Settings) {
    && s.prefCount == |Prefs(s)|
    && Prefs(s)[0].name == "javascript.enabled" && Prefs(s)[0].defaultValue
    && Prefs(s)[1].name == "devtools.debugger.remote-enabled" && !Prefs(s)[1].defaultValue
    && Prefs(s)[2].name == "browser.display.use_document_fonts" && Prefs(s)[2].defaultValue
  }

  /** `Pref.set`. Flushing to a runtime does nothing: no runtime is ever attached. */
  function SetValue(p: Pref, v: bool): Pref {
    p.(value := v)
  }

  /** The copy loop of the copy constructor: each target preference takes the
      value of the source preference at the same position. */
  function CopyValues(target: seq<Pref>, source: seq<Pref>): (r: seq<Pref>)
    requires |target| == |source|
    ensures |r| == |target|
    ensures forall i :: 0 <= i < |r| ==>
      r[i].name == target[i].name && r[i].defaultValue == target[i].defaultValue && r[i].value == source[i].value
  {
    if |target| == 0 then []
    else [SetValue(target[0], source[0].value)] + CopyValues(target[1..], source[1..])
  }

  /** Both constructors. With `debug` set, a preference count that disagrees
      with `mPrefs` throws an `AssertionError` (`None`). Without a source the
      instance keeps its defaults with no arguments and empty extras; with one
      it copies the hint, a clone of the arguments, a copy of the extras and
      every preference's current value. */
  function Construct(debug: bool, from: Option<Settings>): (r: Option<Settings>)
    ensures r.Some? && Wellformed(r.value)
    ensures from.None? ==>
      && !r.value.useContentProcess && r.value.args == [] && r.value.extras == Bundle(map[])
      && r.value.javaScript.value && !r.value.remoteDebugging.value && r.value.webFonts.value
    ensures from.Some? ==>
      && r.value.useContentProcess == from.value.useContentProcess
      && r.value.args == from.value.args
      && r.value.extras == from.value.extras
      && forall i :: 0 <= i < 3 ==> Prefs(r.value)[i].value == Prefs(from.value)[i].value
    ensures from.Some? && Wellformed(from.value) ==> r.value == from.value
  {
    var fields := Initialized();
    if debug && fields.prefCount != |Prefs(fields)| then None
    else match from
      case None => Some(fields.(args := [], extras := Bundle(map[])))
      case Some(other) =>
        var copied := CopyValues(Prefs(fields), Prefs(other));
        Some(fields.(
          useContentProcess := other.useContentProcess,
          args := other.args,
          extras := Bundle(other.extras.entries),
          javaScript := copied[0], remoteDebugging := copied[1], webFonts := copied[2]))
  }

  function GetUseContentProcessHint(s: Settings): bool {
    s.useContentProcess
  }

  function GetArguments(s: Settings): seq<string> {
    s.args
  }

  function GetExtras(s: Settings): Bundle {
    s.extras
  }

  /** `getJavaScriptEnabled`, `getRemoteDebuggingEnabled`, `getWebFontsEnabled`. */
  function Get(s: Settings, k: PrefKey): bool {
    match k
    case JavaScript => s.javaScript.value
    case RemoteDebugging => s.remoteDebugging.value
    case WebFonts => s.webFonts.value
  }

  /** `setJavaScriptEnabled`, `setRemoteDebuggingEnabled`, `setWebFontsEnabled`. */
  function Set(s: Settings, k: PrefKey, flag: bool): (r: Settings)
    ensures r.useContentProcess == s.useContentProcess && r.args == s.args && r.extras == s.extras
    ensures Wellformed(s) ==> Wellformed(r)
  {
    match k
    case JavaScript => s.(javaScript := SetValue(s.javaScript, flag))
    case RemoteDebugging => s.(remoteDebugging := SetValue(s.remoteDebugging, flag))
    case WebFonts => s.(webFonts := SetValue(s.webFonts, flag))
  }

  /** A setter is seen by its own getter and by no other part of the settings. */
  lemma SetThenGet(s: Settings, k: PrefKey, flag: bool, other: PrefKey)
    ensures Get(Set(s, k, flag), k) == flag
    ensures other != k ==> Get(Set(s, k, flag), other) == Get(s, other)
  {
  }

  /** `setConsoleOutputEnabled`: accepted and ignored. */
  function SetConsoleOutputEnabled(s: Settings, enabled: bool): (r: Settings)
    ensures forall k :: Get(r, k) == Get(s, k)
    ensures r == s
  {
    s
  }

  /** `GeckoRuntimeSettings.Builder`: the instance it edits. */
  datatype Builder = Builder(settings: Settings)

  /** The builder methods, with their arguments. A `None` array or bundle is
      Java's `null`. */
  datatype BuilderCall =
    | UseContentProcessHint(use: bool)
    | Arguments(args: Option<seq<string>>)
    | Extras(extras: Option<Bundle>)
    | JavaScriptEnabled(flag: bool)
    | RemoteDebuggingEnabled(flag: bool)
    | WebFontsEnabled(flag: bool)
    | ConsoleOutput(enabled: bool)
    | NativeCrashReportingEnabled(enabled: bool)
    | JavaCrashReportingEnabled(enabled: bool)
    | TrackingProtectionCategories(categories: int)
    | DisplayDensityOverride(density: real)
    | ScreenSizeOverride(width: int, height: int)
    | DisplayDpiOverride(dpi: int)
  {
    /** The methods that only return the builder. */
    predicate Ignored() {
      ConsoleOutput? || NativeCrashReportingEnabled? || JavaCrashReportingEnabled?
      || TrackingProtectionCategories? || DisplayDensityOverride? || ScreenSizeOverride? || DisplayDpiOverride?
    }
  }

  /** The builder after a call, and the message of the exception it threw. */
  datatype Outcome = Outcome(builder: Builder, thrown: Option<string>)

  /** `new Builder()`. */
  function NewBuilder(debug: bool): (b: Builder)
    ensures Wellformed(b.settings)
    ensures b.settings.javaScript.value && !b.settings.remoteDebugging.value && b.settings.webFonts.value
    ensures !b.settings.useContentProcess && b.settings.args == [] && b.settings.extras == Bundle(map[])
  {
    Builder(Construct(debug, None).value)
  }

  /** `new Builder(settings)`: edits a copy of `settings`; `new Builder(null)`
      is `new Builder()`. */
  function BuilderFrom(debug: bool, from: Option<Settings>): (b: Builder)
    ensures Wellformed(b.settings)
    ensures from.None? ==> b == NewBuilder(debug)
    ensures from.Some? && Wellformed(from.value) ==> b.settings == from.value
  {
    Builder(Construct(debug, from).value)
  }

  /** `build()`: a copy of the builder's instance as it is now. */
  function Build(debug: bool, b: Builder): (s: Settings)
    ensures Wellformed(s)
    ensures Wellformed(b.settings) ==> s == b.settings
  {
    Construct(debug, Some(b.settings)).value
  }

  /** One builder method. `arguments(null)` and `extras(null)` throw an
      `IllegalArgumentException` before touching the builder. */
  function Apply(b: Builder, call: BuilderCall): (r: Outcome)
    ensures r.thrown.Some? <==> (call.Arguments? && call.args.None?) || (call.Extras? && call.extras.None?)
    ensures r.thrown.Some? ==> r.builder == b
    ensures call.Ignored() ==> r == Outcome(b, None)
    ensures call.UseContentProcessHint? ==> r == Outcome(Builder(b.settings.(useContentProcess := call.use)), None)
    ensures call.Arguments? && call.args.Some? ==> r == Outcome(Builder(b.settings.(args := call.args.value)), None)
    ensures call.Extras? && call.extras.Some? ==> r == Outcome(Builder(b.settings.(extras := call.extras.value)), None)
    ensures call.JavaScriptEnabled? ==> r == Outcome(Builder(Set(b.settings, JavaScript, call.flag)), None)
    ensures call.RemoteDebuggingEnabled? ==> r == Outcome(Builder(Set(b.settings, RemoteDebugging, call.flag)), None)
    ensures call.WebFontsEnabled? ==> r == Outcome(Builder(Set(b.settings, WebFonts, call.flag)), None)
    ensures Wellformed(b.settings) ==> Wellformed(r.builder.settings)
  {
    var s := b.settings;
    match call
    case UseContentProcessHint(use) => Outcome(Builder(s.(useContentProcess := use)), None)
    case Arguments(args) =>
      if args.None? then Outcome(b, Some("Arguments must not  be null"))
      else Outcome(Builder(s.(args := args.value)), None)
    case Extras(extras) =>
      if extras.None? then Outcome(b, Some("Extras must not  be null"))
      else Outcome(Builder(s.(extras := extras.value)), None)
    case JavaScriptEnabled(flag) => Outcome(Builder(Set(s, JavaScript, flag)), None)
    case RemoteDebuggingEnabled(flag) => Outcome(Builder(Set(s, RemoteDebugging, flag)), None)
    case WebFontsEnabled(flag) => Outcome(Builder(Set(s, WebFonts, flag)), None)
    case _ => Outcome(b, None)
  }

  /** Builder methods a program calls in turn; it stops at the first throw. */
  function ApplyAll(b: Builder, calls: seq<BuilderCall>): (r: Outcome)
    decreases |calls|
  {
    if |calls| == 0 then Outcome(b, None)
    else
      var first := Apply(b, calls[0]);
      if first.thrown.Some? then first else ApplyAll(first.builder, calls[1..])
  }

  /** However many builder methods run, the instance stays well-formed, and
      `build()` at any point returns exactly the instance as it then is. */
  lemma {:induction false} BuilderKeepsWellformed(debug: bool, b: Builder, calls: seq<BuilderCall>)
    requires Wellformed(b.settings)
    ensures Wellformed(ApplyAll(b, calls).builder.settings)
    ensures Build(debug, ApplyAll(b, calls).builder) == ApplyAll(b, calls).builder.settings
    decreases |calls|
  {
    if |calls| > 0 {
      var first := Apply(b, calls[0]);
      if first.thrown.None? {
        BuilderKeepsWellformed(debug, first.builder, calls[1..]);
      }
    }
  }

  /** The calls that throw: `arguments(null)` and `extras(null)`. */
  predicate Throws(call: BuilderCall) {
    (call.Arguments? && call.args.None?) || (call.Extras? && call.extras.None?)
  }

  /** The calls that run before the first throw. */
  function Executed(calls: seq<BuilderCall>): seq<BuilderCall> {
    if |calls| == 0 || Throws(calls[0]) then [] else [calls[0]] + Executed(calls[1..])
  }

  /** The flag a call hands to the setter of `k`, if it is that setter. */
  function SetterFlag(call: BuilderCall, k: PrefKey): Option<bool> {
    match call
    case JavaScriptEnabled(flag) => if k == JavaScript then Some(flag) else None
    case RemoteDebuggingEnabled(flag) => if k == RemoteDebugging then Some(flag) else None
    case WebFontsEnabled(flag) => if k == WebFonts then Some(flag) else None
    case _ => None
  }

  /** The flag of the last setter of `k` among `calls`, if there is one. */
  function LastSet(calls: seq<BuilderCall>, k: PrefKey): Option<bool> {
    if |calls| == 0 then None
    else match LastSet(calls[1..], k)
      case Some(flag) => Some(flag)
      case None => SetterFlag(calls[0], k)
  }

  /** What a built instance reads for a preference: the flag of the last
      setter of it that ran before any throw, or, with none, what the builder
      started with. */
  lemma {:induction false} BuiltPrefIsLastSet(debug: bool, b: Builder, calls: seq<BuilderCall>, k: PrefKey)
    ensures Get(Build(debug, ApplyAll(b, calls).builder), k) == LastSet(Executed(calls), k).GetOr(Get(b.settings, k))
    decreases |calls|
  {
    var built := ApplyAll(b, calls).builder.settings;
    assert Get(Build(debug, ApplyAll(b, calls).builder), k) == Get(built, k) by {
      assert forall i :: 0 <= i < 3 ==> Prefs(Build(debug, ApplyAll(b, calls).builder))[i].value == Prefs(built)[i].value;
      assert Prefs(built)[0] == built.javaScript && Prefs(built)[1] == built.remoteDebugging && Prefs(built)[2] == built.webFonts;
    }
    if |calls| > 0 && !Throws(calls[0]) {
      var first := Apply(b, calls[0]);
      BuiltPrefIsLastSet(debug, first.builder, calls[1..], k);
      assert Get(first.builder.settings, k) == SetterFlag(calls[0], k).GetOr(Get(b.settings, k));
      assert ([calls[0]] + Executed(calls[1..]))[1..] == Executed(calls[1..]);
    }
  }
}
