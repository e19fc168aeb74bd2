/** The application's command-line interpreter: a walk over the arguments
    after the program name that sets device-creation parameters, the
    scene-graph printing switch and the scene name. Numeric values go through the C++ library's `stoi`, whose
    exceptions are not caught; they are modelled as parse errors here. */
module CommandLine {
  import opened Wrappers

  /** What the interpreter writes: the device-creation parameters it
      touches, the application-wide scene-graph printing switch, and the
      scene name. The back-buffer size fields are unsigned 32-bit integers. */
  datatype Options = Options(
    backBufferWidth: nat,
    backBufferHeight: nat,
    startFullscreen: bool,
    enableDebugRuntime: bool,
    enableNvrhiValidationLayer: bool,
    vsyncEnabled: bool,
    printSceneGraph: bool,
    sceneName: string)

  /** The values in place before the command line is read: the size,
      full-screen and vertical-sync settings `main` writes, and the
      defaults of the parameters and of the scene-graph switch for the
      rest. */
  const Defaults := Options(1920, 1080, false, false, false, true, false, "")

  const UInt32Modulus: int := 0x1_0000_0000
  const IntMin: int := -0x8000_0000
  const IntMax: int := 0x7fff_ffff

  /** Why interpreting the command line stops: a size flag is the last
      argument, or its value is not a number `stoi` accepts or does not fit
      in an `int`. */
  datatype ParseError =
    | MissingValue(flag: string)
    | NotANumber(value: string)
    | OutOfRange(value: string)

  // ---------------------------------------------------------------------
  // std::stoi, base 10

  /** The characters C's `isspace` accepts in the default locale. */
  predicate IsSpace(c: char)
  {
    c == ' ' || c == '\t' || c == '\n' || c == '\U{000B}' || c == '\U{000C}' || c == '\r'
  }

  predicate IsDigit(c: char)
  {
    '0' <= c <= '9'
  }

  predicate AllDigits(s: string)
  {
    forall i :: 0 <= i < |s| ==> IsDigit(s[i])
  }

  function DigitValue(c: char): int
  {
    c as int - '0' as int
  }

  /** The value of a run of decimal digits, most significant first. */
  function DecimalValue(ds: string): int
  {
    if |ds| == 0 then 0 else DecimalValue(ds[..|ds| - 1]) * 10 + DigitValue(ds[|ds| - 1])
  }

  /** The `int` `stoi` returns, or `std::out_of_range`. */
  function InRange(v: int, s: string): (r: Result<int, ParseError>)
    ensures r.Success? <==> IntMin <= v <= IntMax
    ensures r.Success? ==> r.value == v
    ensures r.Failure? ==> r.error == OutOfRange(s)
  {
    if v < IntMin || v > IntMax then Failure(OutOfRange(s)) else Success(v)
  }

  /** `std::stoi(s)`: leading white space is skipped, an optional sign is
      read, then the longest run of digits; anything after it is ignored.
      No digits is `std::invalid_argument`; a value outside `int` is
      `std::out_of_range`. */
  function StoI(s: string): Result<int, ParseError>
  {
    ScanSpaces(s, 0)
  }

  /** The scan from position `i`, still in the leading white space. */
  function ScanSpaces(s: string, i: nat): Result<int, ParseError>
    requires i <= |s|
    decreases |s| - i
  {
    if i < |s| && IsSpace(s[i]) then ScanSpaces(s, i + 1)
    else if i < |s| && (s[i] == '-' || s[i] == '+') then ScanDigits(s, i + 1, i + 1, s[i] == '-', 0)
    else ScanDigits(s, i, i, false, 0)
  }

  /** The scan from position `i` in a run of digits that began at `start`,
      with `acc` the value of the digits read so far. */
  function ScanDigits(s: string, start: nat, i: nat, negative: bool, acc: int): Result<int, ParseError>
    requires start <= i <= |s|
    decreases |s| - i
  {
    if i < |s| && IsDigit(s[i]) then ScanDigits(s, start, i + 1, negative, acc * 10 + DigitValue(s[i]))
    else if i == start then Failure(NotANumber(s))
    else InRange(if negative then -acc else acc, s)
  }

  /** Reading the digits `s[start..j]`, followed by the end of the text or
      a non-digit, yields their decimal value with the sign applied. */
  lemma {:induction false} ScanDigitsValue(s: string, start: nat, i: nat, j: nat, negative: bool)
    requires start <= i <= j <= |s|
    requires forall k :: start <= k < j ==> IsDigit(s[k])
    requires j == |s| || !IsDigit(s[j])
    ensures ScanDigits(s, start, i, negative, DecimalValue(s[start..i])) ==
      if j == start then Failure(NotANumber(s))
      else InRange(if negative then -DecimalValue(s[start..j]) else DecimalValue(s[start..j]), s)
    decreases j - i
  {
    if i < j {
      assert s[start..i + 1][..i - start] == s[start..i];
      ScanDigitsValue(s, start, i + 1, j, negative);
    }
  }

  /** The canonical decimal spelling of a natural number. */
  function DecimalString(n: nat): (s: string)
    ensures |s| > 0 && AllDigits(s)
  {
    if n < 10 then [('0' as int + n) as char]
    else DecimalString(n / 10) + [('0' as int + n % 10) as char]
  }

  lemma {:induction false} DecimalStringValue(n: nat)
    ensures DecimalValue(DecimalString(n)) == n
  {
    var s := DecimalString(n);
    if n >= 10 {
      DecimalStringValue(n / 10);
      assert s[..|s| - 1] == DecimalString(n / 10);
    }
  }

  /** Text that starts with an optional sign followed by digits: `stoi`
      reads the digits and nothing after them, and returns their signed
      value exactly when it fits an `int`, `std::out_of_range` otherwise. */
  lemma StoIPrefix(sign: string, ds: string, rest: string)
    requires sign == "" || sign == "-" || sign == "+"
    requires |ds| > 0 && AllDigits(ds)
    requires |rest| == 0 || !IsDigit(rest[0])
    ensures var v := if sign == "-" then -DecimalValue(ds) else DecimalValue(ds);
      StoI(sign + ds + rest) == if IntMin <= v <= IntMax then Success(v) else Failure(OutOfRange(sign + ds + rest))
  {
    StoIReadsDigits(sign, ds, rest);
  }

  /** The scan of `sign + ds + rest` ends in the range check of the signed
      digit run. */
  lemma StoIReadsDigits(sign: string, ds: string, rest: string)
    requires sign == "" || sign == "-" || sign == "+"
    requires |ds| > 0 && AllDigits(ds)
    requires |rest| == 0 || !IsDigit(rest[0])
    ensures StoI(sign + ds + rest) == InRange(if sign == "-" then -DecimalValue(ds) else DecimalValue(ds), sign + ds + rest)
  {
    var s := sign + ds + rest;
    SignedStart(sign, ds, rest);
    DigitsInside(sign, ds, rest);
    ScanDigitRun(s, |sign|, |sign| + |ds|, sign == "-", ds);
  }

  /** A whole run of digits `ds == s[start..j]` is read as its decimal
      value. */
  lemma ScanDigitRun(s: string, start: nat, j: nat, negative: bool, ds: string)
    requires start < j <= |s| && s[start..j] == ds
    requires forall k :: start <= k < j ==> IsDigit(s[k])
    requires j == |s| || !IsDigit(s[j])
    ensures ScanDigits(s, start, start, negative, 0) == InRange(if negative then -DecimalValue(ds) else DecimalValue(ds), s)
  {
    assert s[start..start] == [];
    ScanDigitsValue(s, start, start, j, negative);
  }

  /** After an optional sign the scan is in the digits at once. */
  lemma SignedStart(sign: string, ds: string, rest: string)
    requires sign == "" || sign == "-" || sign == "+"
    requires |ds| > 0 && AllDigits(ds)
    ensures StoI(sign + ds + rest) == ScanDigits(sign + ds + rest, |sign|, |sign|, sign == "-", 0)
  {
    var s := sign + ds + rest;
    if sign == "" {
      assert s[0] == ds[0];
    } else {
      assert s[0] == sign[0];
    }
  }

  /** Where the digits of `sign + ds + rest` sit. */
  lemma DigitsInside(sign: string, ds: string, rest: string)
    requires AllDigits(ds)
    requires |rest| == 0 || !IsDigit(rest[0])
    ensures var s, start, j := sign + ds + rest, |sign|, |sign| + |ds|;
      && (forall k :: start <= k < j ==> IsDigit(s[k]))
      && (j == |s| || !IsDigit(s[j]))
      && s[start..j] == ds
  {
    var s, start, j := sign + ds + rest, |sign|, |sign| + |ds|;
    assert forall k :: start <= k < j ==> s[k] == ds[k - start];
    assert j < |s| ==> s[j] == rest[0];
  }

  /** `stoi` reads back what the decimal spelling of an in-range number
      writes, with or without a minus sign, and ignores any text after the
      digits. */
  lemma StoIDecimal(n: nat, negative: bool, rest: string)
    requires if negative then n <= -IntMin else n <= IntMax
    requires |rest| == 0 || !IsDigit(rest[0])
    ensures StoI((if negative then "-" else "") + DecimalString(n) + rest) == Success(if negative then -(n as int) else n)
  {
    DecimalStringValue(n);
    StoIPrefix(if negative then "-" else "", DecimalString(n), rest);
  }

  /** Storing an `int` into an unsigned 32-bit field. */
  function ToUInt32(v: int): (r: nat)
    ensures r < UInt32Modulus
    ensures (r - v) % UInt32Modulus == 0
    ensures 0 <= v < UInt32Modulus ==> r == v
  {
    v % UInt32Modulus
  }

  // ---------------------------------------------------------------------
  // The interpreter

  datatype Dimension = Width | Height

  /** How the interpreter reads one argument in option position. */
  datatype Word =
    | SizeFlag(dimension: Dimension)
    | FullscreenFlag
    | DebugFlag
    | NoVsyncFlag
    | PrintGraphFlag
    | SceneWord
    | UnknownFlag

  /** The source's chain of string comparisons: the known flags, then any
      argument that does not start with a dash, the empty one included. */
  function Classify(a: string): Word
  {
    if a == "-width" then SizeFlag(Width)
    else if a == "-height" then SizeFlag(Height)
    else if a == "-fullscreen" then FullscreenFlag
    else if a == "-debug" then DebugFlag
    else if a == "-no-vsync" then NoVsyncFlag
    else if a == "-print-graph" then PrintGraphFlag
    else if |a| == 0 || a[0] != '-' then SceneWord
    else UnknownFlag
  }

  /** The effect of a size flag and the value `stoi` read for it. */
  function SizeStep(d: Dimension, v: int, o: Options): Options
  {
    match d
    case Width => o.(backBufferWidth := ToUInt32(v))
    case Height => o.(backBufferHeight := ToUInt32(v))
  }

  /** The effect of one argument that is not a size flag. */
  function ApplyWord(a: string, o: Options): Options
  {
    match Classify(a)
    case FullscreenFlag => o.(startFullscreen := true)
    case DebugFlag => o.(enableDebugRuntime := true, enableNvrhiValidationLayer := true)
    case NoVsyncFlag => o.(vsyncEnabled := false)
    case PrintGraphFlag => o.(printSceneGraph := true)
    case SceneWord => o.(sceneName := a)
    case _ => o
  }

  /** The interpreter over the arguments after the program name. A size
      flag consumes the next argument whatever it is. */
  function Parse(args: seq<string>, o: Options): Result<Options, ParseError>
    decreases |args|
  {
    if |args| == 0 then Success(o)
    else
      match Classify(args[0])
      case SizeFlag(d) =>
        if |args| < 2 then Failure(MissingValue(args[0]))
        else
          var v :- StoI(args[1]);
          Parse(args[2..], SizeStep(d, v, o))
      case _ => Parse(args[1..], ApplyWord(args[0], o))
  }

  /** The whole command line, program name first. */
  function ProcessCommandLine(argv: seq<string>, o: Options): Result<Options, ParseError>
  {
    Parse(if |argv| == 0 then [] else argv[1..], o)
  }

  /** The interpreter as the source writes it: one index walking `argv`,
      advanced a second time by the size flags. It computes what the
      recursive definition does. */
  method ProcessCommandLineLoop(argv: seq<string>, o: Options) returns (r: Result<Options, ParseError>)
    ensures r == ProcessCommandLine(argv, o)
  {
    var opts := o;
    var i := 1;
    while i < |argv|
      invariant 1 <= i
      invariant ProcessCommandLine(argv, o) == Parse(if i < |argv| then argv[i..] else [], opts)
      decreases |argv| - i
    {
      var a := argv[i];
      assert argv[i..][0] == a;
      match Classify(a) {
        case SizeFlag(d) =>
          if i + 1 >= |argv| {
            return Failure(MissingValue(a));
          }
          i := i + 1;
          var v := StoI(argv[i]);
          if v.Failure? {
            return Failure(v.error);
          }
          assert argv[i - 1..][2..] == argv[i + 1..];
          opts := SizeStep(d, v.value, opts);
        case _ =>
          assert argv[i..][1..] == argv[i + 1..];
          opts := ApplyWord(a, opts);
      }
      i := i + 1;
    }
    return Success(opts);
  }

  // ---------------------------------------------------------------------
  // Properties of the interpreter

  /** An argument that starts with a dash followed by a non-digit is not a
      number, so it is never accepted as the value of a size flag. */
  lemma StoIRejectsDashWord(w: string)
    requires |w| >= 2 && w[0] == '-' && !IsDigit(w[1])
    ensures StoI(w) == Failure(NotANumber(w))
  {
    assert StoI(w) == ScanDigits(w, 1, 1, true, 0);
  }

  /** Interpreting a command line that stops cleanly and then more
      arguments is interpreting the second part from where the first left
      off: no flag reaches across the boundary. */
  lemma {:induction false} ParseConcat(a: seq<string>, b: seq<string>, o: Options)
    requires Parse(a, o).Success?
    ensures Parse(a + b, o) == Parse(b, Parse(a, o).value)
    decreases |a|
  {
    if |a| > 0 {
      assert (a + b)[0] == a[0];
      match Classify(a[0])
      case SizeFlag(d) =>
        assert (a + b)[1] == a[1];
        assert (a + b)[2..] == a[2..] + b;
        ParseConcat(a[2..], b, SizeStep(d, StoI(a[1]).value, o));
      case _ =>
        assert (a + b)[1..] == a[1..] + b;
        ParseConcat(a[1..], b, ApplyWord(a[0], o));
    } else {
      assert a + b == b;
    }
  }

  /** The on/off settings the command line can only turn one way. */
  datatype Switch = Fullscreen | DebugRuntime | ValidationLayer | NoVsync | PrintGraph

  /** The argument that turns a switch on. */
  function FlagOf(sw: Switch): string
  {
    match sw
    case Fullscreen => "-fullscreen"
    case DebugRuntime => "-debug"
    case ValidationLayer => "-debug"
    case NoVsync => "-no-vsync"
    case PrintGraph => "-print-graph"
  }

  /** Whether a switch is on; `NoVsync` is on when vertical sync is off. */
  predicate IsOn(o: Options, sw: Switch)
  {
    match sw
    case Fullscreen => o.startFullscreen
    case DebugRuntime => o.enableDebugRuntime
    case ValidationLayer => o.enableNvrhiValidationLayer
    case NoVsync => !o.vsyncEnabled
    case PrintGraph => o.printSceneGraph
  }

  /** The word class whose effect turns the switch on. */
  function SwitchWord(sw: Switch): Word
  {
    match sw
    case Fullscreen => FullscreenFlag
    case DebugRuntime => DebugFlag
    case ValidationLayer => DebugFlag
    case NoVsync => NoVsyncFlag
    case PrintGraph => PrintGraphFlag
  }

  /** An argument is classified as a switch's flag exactly when it is that
      flag's spelling. */
  lemma ClassifySwitch(x: string, sw: Switch)
    ensures Classify(x) == SwitchWord(sw) <==> x == FlagOf(sw)
  {
  }

  /** One argument that is not a size flag turns on the switch it names
      and leaves every switch as it was otherwise. */
  lemma WordSwitch(x: string, o: Options, sw: Switch)
    ensures IsOn(ApplyWord(x, o), sw) <==> IsOn(o, sw) || x == FlagOf(sw)
  {
    ClassifySwitch(x, sw);
  }

  /** On success each switch is on exactly when its flag is among the
      arguments or it was on before. A flag word is never swallowed as the
      value of a size flag, because it is not a number. */
  lemma {:induction false} ParseSwitch(args: seq<string>, o: Options, sw: Switch)
    requires Parse(args, o).Success?
    ensures IsOn(Parse(args, o).value, sw) <==> IsOn(o, sw) || FlagOf(sw) in args
    decreases |args|, 1
  {
    if |args| > 0 {
      if Classify(args[0]).SizeFlag? {
        SizeFlagSwitch(args, o, sw);
      } else {
        WordFlagSwitch(args, o, sw);
      }
    }
  }

  /** `ParseSwitch` when the first argument is a size flag. */
  lemma {:induction false} SizeFlagSwitch(args: seq<string>, o: Options, sw: Switch)
    requires |args| > 0 && Classify(args[0]).SizeFlag?
    requires Parse(args, o).Success?
    ensures IsOn(Parse(args, o).value, sw) <==> IsOn(o, sw) || FlagOf(sw) in args
    decreases |args|, 0
  {
    var x, w, f := args[0], args[1], FlagOf(sw);
    ClassifySwitch(x, sw);
    FlagIsNotNumber(sw);
    assert w != f;
    var o' := SizeStep(Classify(x).dimension, StoI(w).value, o);
    assert Parse(args, o) == Parse(args[2..], o');
    ParseSwitch(args[2..], o', sw);
    InTail(args, f);
    InTail(args[1..], f);
    assert args[1..][1..] == args[2..];
  }

  /** No switch's flag is a number `stoi` accepts. */
  lemma FlagIsNotNumber(sw: Switch)
    ensures StoI(FlagOf(sw)).Failure?
  {
    StoIRejectsDashWord(FlagOf(sw));
  }

  /** `ParseSwitch` when the first argument is not a size flag. */
  lemma {:induction false} WordFlagSwitch(args: seq<string>, o: Options, sw: Switch)
    requires |args| > 0 && !Classify(args[0]).SizeFlag?
    requires Parse(args, o).Success?
    ensures IsOn(Parse(args, o).value, sw) <==> IsOn(o, sw) || FlagOf(sw) in args
    decreases |args|, 0
  {
    var x := args[0];
    assert Parse(args, o) == Parse(args[1..], ApplyWord(x, o));
    ParseSwitch(args[1..], ApplyWord(x, o), sw);
    WordSwitch(x, o, sw);
    InTail(args, FlagOf(sw));
  }

  /** Membership in a non-empty sequence: the head or the tail. */
  lemma InTail(args: seq<string>, f: string)
    requires |args| > 0
    ensures f in args <==> args[0] == f || f in args[1..]
  {
    assert args == [args[0]] + args[1..];
  }

  /** The scene name is the last plain word read as an option: after a
      command line that stops cleanly, a word without a leading dash
      replaces whatever name came before. */
  lemma SceneNameIsLastWord(a: seq<string>, w: string, o: Options)
    requires Parse(a, o).Success?
    requires |w| == 0 || w[0] != '-'
    ensures Parse(a + [w], o) == Success(Parse(a, o).value.(sceneName := w))
  {
    ParseConcat(a, [w], o);
  }

  /** The last size flag wins, and its value is the `int` that `stoi`
      reads, stored modulo 2^32. */
  lemma SizeFlagIsLastValue(a: seq<string>, value: string, o: Options)
    requires Parse(a, o).Success?
    ensures var p := Parse(a, o).value;
      && Parse(a + ["-width", value], o) ==
        (match StoI(value)
         case Failure(e) => Failure(e)
         case Success(v) => Success(p.(backBufferWidth := ToUInt32(v))))
      && Parse(a + ["-height", value], o) ==
        (match StoI(value)
         case Failure(e) => Failure(e)
         case Success(v) => Success(p.(backBufferHeight := ToUInt32(v))))
  {
    ParseConcat(a, ["-width", value], o);
    ParseConcat(a, ["-height", value], o);
    assert ["-width", value][2..] == [];
    assert ["-height", value][2..] == [];
  }

  /** A size flag as the last argument is an error, whatever came before. */
  lemma DanglingSizeFlag(a: seq<string>, o: Options)
    requires Parse(a, o).Success?
    ensures Parse(a + ["-width"], o) == Failure(MissingValue("-width"))
    ensures Parse(a + ["-height"], o) == Failure(MissingValue("-height"))
  {
    ParseConcat(a, ["-width"], o);
    ParseConcat(a, ["-height"], o);
  }

  /** A dash word the interpreter does not know changes nothing. */
  lemma UnknownFlagIgnored(a: seq<string>, w: string, o: Options)
    requires Parse(a, o).Success?
    requires |w| > 0 && w[0] == '-'
    requires w !in {"-width", "-height", "-fullscreen", "-debug", "-no-vsync", "-print-graph"}
    ensures Parse(a + [w], o) == Parse(a, o)
  {
    ParseConcat(a, [w], o);
  }

  /** The program name is never interpreted, and a command line with no
      arguments keeps the options it was given. */
  lemma ProgramNameSkipped(name: string, args: seq<string>, o: Options)
    ensures ProcessCommandLine([name] + args, o) == Parse(args, o)
    ensures ProcessCommandLine([name], o) == Success(o)
  {
    assert ([name] + args)[1..] == args;
  }

  /** `-width -1` is accepted: `stoi` yields -1, which the unsigned field
      stores as 2^32 - 1. */
  lemma NegativeWidthWraps()
    ensures ProcessCommandLine(["app", "-width", "-1"], Defaults) == Success(Defaults.(backBufferWidth := 0xFFFF_FFFF))
  {
    assert DecimalString(1) == "1";
    StoIDecimal(1, true, "");
    assert "-" + "1" + "" == "-1";
    var args := ["-width", "-1"];
    assert ["app", "-width", "-1"][1..] == args;
    assert args[2..] == [];
  }

  /** A width beyond the `int` range is an error, not a wrapped value. */
  lemma HugeWidthFails()
    ensures ProcessCommandLine(["app", "-width", "4294967295"], Defaults) == Failure(OutOfRange("4294967295"))
  {
    var s := "4294967295";
    HugeStoI();
    assert ["app", "-width", s][1..] == ["-width", s];
  }

  lemma HugeStoI()
    ensures StoI("4294967295") == Failure(OutOfRange("4294967295"))
  {
    var s := "4294967295";
    assert DecimalString(4) == "4";
    assert DecimalString(42) == "42";
    assert DecimalString(429) == "429";
    assert DecimalString(4294) == "4294";
    assert DecimalString(42949) == "42949";
    assert DecimalString(429496) == "429496";
    assert DecimalString(4294967) == "4294967";
    assert DecimalString(42949672) == "42949672";
    assert DecimalString(429496729) == "429496729";
    assert DecimalString(4294967295) == s;
    DecimalStringValue(4294967295);
    StoIPrefix("", s, "");
    assert "" + s + "" == s;
  }
}
