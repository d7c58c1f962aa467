/** GeckoSession.java: the parts with behaviour. The navigation target
    tables, the delegate slots with their setters and getters, the
    tracking-protection category bits and `isOpen`. */
module GeckoSession {
  import opened Wrappers

  /** `NavigationDelegate.TargetWindow`, in declaration order. */
  datatype TargetWindow = Default | Current | New

  /** The value each target is constructed with (`mValue`). */
  function Value(t: TargetWindow): int {
    match t
    case Default => 0
    case Current => 1
    case New => 2
  }

  /** `TargetWindow.values()`, the array `forValue` indexes. */
  const TargetValues: seq<TargetWindow> := [Default, Current, New]

  /** `forValue(value)`: the target at that position of `values()`. Any other
      index throws `ArrayIndexOutOfBoundsException` (`None`). */
  function ForValue(value: int): (r: Option<TargetWindow>)
    ensures r.Some? <==> 0 <= value < 3
    ensures r.Some? ==> Value(r.value) == value
  {
    if 0 <= value < |TargetValues| then Some(TargetValues[value]) else None
  }

  /** `forGeckoValue(value)`: Gecko's five targets folded onto three, with
      NEWTAB (3) and SWITCHTAB (4) opening a new window. Any other index throws. */
  function ForGeckoValue(value: int): (r: Option<TargetWindow>)
    ensures r.Some? <==> 0 <= value < 5
    ensures 2 <= value < 5 ==> r == Some(New)
  {
    var geckoMap := [Default, Current, New, New, New];
    if 0 <= value < |geckoMap| then Some(geckoMap[value]) else None
  }

  /** Every target round-trips through its value, and the Gecko table agrees
      with `forValue` wherever `forValue` is defined. */
  lemma TargetTablesAgree(t: TargetWindow, value: int)
    ensures ForValue(Value(t)) == Some(t)
    ensures 0 <= value < 3 ==> ForGeckoValue(value) == ForValue(value)
  {
  }

  /** `TrackingProtectionDelegate.CATEGORY_*`, Java `int`s written as shifts of 1. */
  const CategoryAd: bv32 := 1 << 0
  const CategoryAnalytic: bv32 := 1 << 1
  const CategorySocial: bv32 := 1 << 2
  const CategoryContent: bv32 := 1 << 3

  predicate SingleBit(x: bv32) {
    x != 0 && x & (x - 1) == 0
  }

  /** The four categories are distinct single bits, so any set of them is a
      mask from which each can be read back. */
  lemma CategoriesAreDistinctBits()
    ensures SingleBit(CategoryAd) && SingleBit(CategoryAnalytic)
    ensures SingleBit(CategorySocial) && SingleBit(CategoryContent)
    ensures CategoryAd & CategoryAnalytic == 0 && CategoryAd & CategorySocial == 0
    ensures CategoryAd & CategoryContent == 0 && CategoryAnalytic & CategorySocial == 0
    ensures CategoryAnalytic & CategoryContent == 0 && CategorySocial & CategoryContent == 0
    ensures CategoryAd | CategoryAnalytic | CategorySocial | CategoryContent == 15
  {
  }

  /** A delegate object, known by its identity; Java's `null` is `None`. */
  type Delegate = nat

  /** The session's delegate slots. */
  datatype DelegateKind = Content | Progress | TrackingProtection | Navigation | Prompt | Permission | Scroll

  datatype Delegates = Delegates(
    content: Option<Delegate>,
    progress: Option<Delegate>,
    trackingProtection: Option<Delegate>,
    navigation: Option<Delegate>,
    prompt: Option<Delegate>,
    permission: Option<Delegate>,
    scroll: Option<Delegate>)

  /** A new session has every slot empty. */
  const NoDelegates := Delegates(None, None, None, None, None, None, None)

  /** `getContentDelegate`, `getProgressDelegate`, ... */
  function GetDelegate(d: Delegates, kind: DelegateKind): Option<Delegate> {
    match kind
    case Content => d.content
    case Progress => d.progress
    case TrackingProtection => d.trackingProtection
    case Navigation => d.navigation
    case Prompt => d.prompt
    case Permission => d.permission
    case Scroll => d.scroll
  }

  /** `setContentDelegate`, `setProgressDelegate`, ... */
  function SetDelegate(d: Delegates, kind: DelegateKind, delegate: Option<Delegate>): Delegates {
    match kind
    case Content => d.(content := delegate)
    case Progress => d.(progress := delegate)
    case TrackingProtection => d.(trackingProtection := delegate)
    case Navigation => d.(navigation := delegate)
    case Prompt => d.(prompt := delegate)
    case Permission => d.(permission := delegate)
    case Scroll => d.(scroll := delegate)
  }

  /** A setter is seen by its own getter and leaves every other slot alone;
      setting what a slot already holds changes nothing. */
  lemma SetThenGetDelegate(d: Delegates, kind: DelegateKind, delegate: Option<Delegate>, other: DelegateKind)
    ensures GetDelegate(SetDelegate(d, kind, delegate), kind) == delegate
    ensures other != kind ==> GetDelegate(SetDelegate(d, kind, delegate), other) == GetDelegate(d, other)
    ensures SetDelegate(d, kind, GetDelegate(d, kind)) == d
  {
  }

  /** `isOpen`: this session reports itself open whatever its delegates. */
  function IsOpen(d: Delegates): (open: bool)
    ensures open
  {
    true
  }
}
