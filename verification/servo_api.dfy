/** The C-ABI types of servo/src/api.rs: result codes, scroll and touch states,
    and the view layout handed over by the embedder. */
module ServoApi {
  import opened Wrappers

  /** Rust's fixed-width integers, as the ranges they admit. */
  type u32 = x: int | 0 <= x < 0x1_0000_0000
  type i32 = x: int | -0x8000_0000 <= x < 0x8000_0000

  /** `#[repr(C)] enum ServoResult`, in declaration order. */
  datatype ServoResult = Ok | UnexpectedError | WrongThread | CantReadStr | CantParseUrl | NotImplemented

  /** `#[repr(C)] enum ScrollState`, in declaration order. */
  datatype ScrollState = Start | Move | End | Canceled

  /** `#[repr(C)] enum TouchState`, in declaration order. */
  datatype TouchState = Down | Up

  /** Hardware-pixel size of the view. */
  datatype Size = Size(width: u32, height: u32)

  datatype Margins = Margins(top: u32, right: u32, bottom: u32, left: u32)

  datatype Position = Position(x: i32, y: i32)

  /** The layout of the view. Rust keeps the pixel density as an `f32`; it is
      only stored and handed back, so any real number stands for it here. */
  datatype ViewLayout = ViewLayout(viewSize: Size, margins: Margins, position: Position, hidpiFactor: real)

  /** The discriminant C code sees for a `ServoResult`: its position in the declaration. */
  function ResultCode(r: ServoResult): nat {
    match r
    case Ok => 0
    case UnexpectedError => 1
    case WrongThread => 2
    case CantReadStr => 3
    case CantParseUrl => 4
    case NotImplemented => 5
  }

  /** The `ServoResult` a C integer denotes, if any. */
  function ResultOfCode(n: int): (r: Option<ServoResult>)
    ensures r.Some? <==> 0 <= n < 6
    ensures r.Some? ==> ResultCode(r.value) == n
  {
    if n == 0 then Some(Ok)
    else if n == 1 then Some(UnexpectedError)
    else if n == 2 then Some(WrongThread)
    else if n == 3 then Some(CantReadStr)
    else if n == 4 then Some(CantParseUrl)
    else if n == 5 then Some(NotImplemented)
    else None
  }

  /** Exactly six results, numbered 0 to 5 without gaps or repeats. */
  lemma ResultCodesAreExact(r: ServoResult)
    ensures ResultCode(r) < 6
    ensures ResultOfCode(ResultCode(r)) == Some(r)
  {
  }

  /** The discriminant C code sees for a `ScrollState`. */
  function ScrollCode(s: ScrollState): nat {
    match s
    case Start => 0
    case Move => 1
    case End => 2
    case Canceled => 3
  }

  /** The `ScrollState` a C integer denotes, if any. */
  function ScrollOfCode(n: int): (s: Option<ScrollState>)
    ensures s.Some? <==> 0 <= n < 4
    ensures s.Some? ==> ScrollCode(s.value) == n
  {
    if n == 0 then Some(Start)
    else if n == 1 then Some(Move)
    else if n == 2 then Some(End)
    else if n == 3 then Some(Canceled)
    else None
  }

  /** Exactly four scroll states, numbered 0 to 3 without gaps or repeats. */
  lemma ScrollCodesAreExact(s: ScrollState)
    ensures ScrollCode(s) < 4
    ensures ScrollOfCode(ScrollCode(s)) == Some(s)
  {
  }
}
