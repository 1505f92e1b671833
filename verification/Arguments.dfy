/** The command-line parser: a loop that consumes one or two tokens a turn. */
module Arguments {
  import opened Samples
  import opened Numbers

  datatype Role = PublisherRole | SubscriberRole

  datatype Args = Args(
    role: Role, domainId: int, nic: string, peer: string, transport: string, latencyLog: Option<string>,
    latencyStream: bool, dataLen: int, exec: int, pubrate: int, latencyCount: int, subSleep: int,
    reliable: bool, latencyTest: bool, printPeriodic: bool, printConfig: bool)

  /** The parse result and the arguments as the parser leaves them, on failure too. */
  datatype Outcome =
    | Parsed(args: Args)
    | HelpAsked(args: Args)
    | Rejected(args: Args)

  /** The effect of one option: the settings after it and the tokens it used, or the reason to stop. */
  datatype Turn = Next(args: Args, used: nat) | Stop(outcome: Outcome)

  /** The options the parser compares a token with. */
  datatype Name =
    | Help | Pub | Sub | Domain | Nic | Peer | Transport | LatencyLog | Datalen | Exec | Pubrate
    | LatencyCount | SubSleep | Rel | LatencyTest | PrintPeriodic | NoPrintConfig | LatencyStream | Unknown

  function NameOf(opt: string): Name {
    if opt == "-h" || opt == "--help" then Help
    else if opt == "-pub" then Pub
    else if opt == "-sub" then Sub
    else if opt == "-domain" then Domain
    else if opt == "-nic" then Nic
    else if opt == "-peer" then Peer
    else if opt == "-transport" then Transport
    else if opt == "-latencyLog" then LatencyLog
    else if opt == "-datalen" then Datalen
    else if opt == "-exec" then Exec
    else if opt == "-pubrate" then Pubrate
    else if opt == "-latencyCount" then LatencyCount
    else if opt == "-subSleep" then SubSleep
    else if opt == "-rel" then Rel
    else if opt == "-latencyTest" then LatencyTest
    else if opt == "-printPeriodic" then PrintPeriodic
    else if opt == "-noPrintConfig" then NoPrintConfig
    else if opt == "-latencyStream" then LatencyStream
    else Unknown
  }

  datatype Bounds = Bounds(min: int, max: int)

  /** The options that take a number, with their range. */
  function NumericBounds(name: Name): Option<Bounds> {
    match name
    case Domain => Some(Bounds(0, 232))
    case Datalen | Exec | LatencyCount => Some(Bounds(1, INT32_MAX))
    case Pubrate => Some(Bounds(-1, INT32_MAX))
    case SubSleep => Some(Bounds(0, INT32_MAX))
    case _ => None
  }

  function SetNumeric(a: Args, name: Name, v: int): Args {
    match name
    case Domain => a.(domainId := v)
    case Datalen => a.(dataLen := v)
    case Exec => a.(exec := v)
    case Pubrate => a.(pubrate := v)
    case LatencyCount => a.(latencyCount := v)
    case _ => a.(subSleep := v)
  }

  predicate IsTextual(name: Name) {
    name.Nic? || name.Peer? || name.Transport? || name.LatencyLog?
  }

  function SetTextual(a: Args, name: Name, text: string): Args {
    match name
    case Nic => a.(nic := text)
    case Peer => a.(peer := text)
    case Transport => a.(transport := text)
    case _ => a.(latencyLog := Some(text))
  }

  function SetFlag(a: Args, name: Name): Option<Args> {
    match name
    case Pub => Some(a.(role := PublisherRole))
    case Sub => Some(a.(role := SubscriberRole))
    case Rel => Some(a.(reliable := true))
    case LatencyTest => Some(a.(latencyTest := true))
    case PrintPeriodic => Some(a.(printPeriodic := true))
    case NoPrintConfig => Some(a.(printConfig := false))
    case LatencyStream => Some(a.(latencyStream := true))
    case _ => None
  }

  /** An accepted number that the option still refuses: a publication rate of zero. */
  predicate Excluded(name: Name, v: int) { name.Pubrate? && v == 0 }

  /** A numeric option with the token behind it, if there is one. */
  function NumericTurn(name: Name, b: Bounds, arg: Option<string>, a: Args): (t: Turn)
    ensures t.Next? ==> t.used == 2 && arg.Some?
    ensures t.Stop? ==> !t.outcome.Parsed?
  {
    if arg.None? then Stop(Rejected(a))
    else
      var r := Int32Of(arg.value, b.min, b.max);
      if r.None? || Excluded(name, r.value) then Stop(Rejected(a)) else Next(SetNumeric(a, name, r.value), 2)
  }

  /** One option with the token behind it, if there is one. */
  function TurnOf(name: Name, arg: Option<string>, a: Args): (t: Turn)
    ensures t.Next? ==> t.used == 1 || (t.used == 2 && arg.Some?)
    ensures t.Stop? ==> !t.outcome.Parsed?
  {
    if name.Help? then Stop(HelpAsked(a))
    else if NumericBounds(name).Some? then NumericTurn(name, NumericBounds(name).value, arg, a)
    else if IsTextual(name) then
      if arg.None? then Stop(Rejected(a)) else Next(SetTextual(a, name, arg.value), 2)
    else if SetFlag(a, name).Some? then Next(SetFlag(a, name).value, 1)
    else Stop(Rejected(a))
  }

  /** The token behind index i. */
  function Behind(argv: seq<string>, i: nat): Option<string> {
    if i + 1 < |argv| then Some(argv[i + 1]) else None
  }

  /** The loop from index i on, for any table of option names. */
  function ParseFrom(nameOf: string -> Name, argv: seq<string>, i: nat, a: Args): Outcome
    decreases |argv| - i
  {
    if i >= |argv| then Parsed(a)
    else
      match TurnOf(nameOf(argv[i]), Behind(argv, i), a)
      case Stop(outcome) => outcome
      case Next(a', used) => ParseFrom(nameOf, argv, i + used, a')
  }

  /** A vector of options without the program name. */
  function Parse(tokens: seq<string>, a: Args): Outcome { ParseFrom(NameOf, tokens, 0, a) }

  const PARSE_OK := 0
  const PARSE_HELP := 1
  const PARSE_ERROR := -1

  function Code(o: Outcome): int {
    match o
    case Parsed(_) => PARSE_OK
    case HelpAsked(_) => PARSE_HELP
    case Rejected(_) => PARSE_ERROR
  }

  /** One numeric option at index i, up to the parser's early return. */
  method ApplyNumeric(argv: seq<string>, i: nat, name: Name, b: Bounds, a: Args, longMax: nat)
    returns (rc: int, used: nat, args: Args)
    requires i < |argv| && INT32_MIN <= b.min && b.max <= INT32_MAX <= longMax
    ensures match NumericTurn(name, b, Behind(argv, i), a)
            case Next(a', n) => rc == PARSE_OK && used == n && args == a'
            case Stop(o) => used == 0 && rc == PARSE_ERROR && o == Rejected(args)
  {
    if i + 1 >= |argv| {
      return PARSE_ERROR, 0, a;
    }
    var ok, value := ParseInt32Option(argv[i + 1], b.min, b.max, longMax);
    if ok != 0 || (name == Pubrate && value == 0) {
      return PARSE_ERROR, 0, a;
    }
    return PARSE_OK, 2, SetNumeric(a, name, value);
  }

  /** Applies the option named `name` at index i; `used` is 0 when the parser returns `rc` from there. */
  method ApplyOption(argv: seq<string>, i: nat, name: Name, a: Args, longMax: nat) returns (rc: int, used: nat, args: Args)
    requires i < |argv| && INT32_MAX <= longMax
    ensures match TurnOf(name, Behind(argv, i), a)
            case Next(a', n) => rc == PARSE_OK && used == n && args == a'
            case Stop(o) => used == 0 && rc == Code(o) && args == o.args
  {
    rc, used, args := PARSE_OK, 0, a;
    if name == Help {
      return PARSE_HELP, 0, a;
    }
    if NumericBounds(name).Some? {
      rc, used, args := ApplyNumeric(argv, i, name, NumericBounds(name).value, a, longMax);
    } else if IsTextual(name) {
      if i + 1 >= |argv| {
        return PARSE_ERROR, 0, a;
      }
      args, used := SetTextual(a, name, argv[i + 1]), 2;
    } else {
      var flag := SetFlag(a, name);
      if flag.None? {
        return PARSE_ERROR, 0, a;
      }
      args, used := flag.value, 1;
    }
  }

  /** The parse loop, for any table of option names. */
  method ParseLoop(nameOf: string -> Name, argv: seq<string>, defaults: Args, longMax: nat) returns (rc: int, args: Args)
    requires INT32_MAX <= longMax
    ensures var o := ParseFrom(nameOf, argv, 1, defaults);
            rc == Code(o) && args == o.args
  {
    args := defaults;
    var i := 1;
    while i < |argv|
      invariant 1 <= i
      invariant ParseFrom(nameOf, argv, 1, defaults) == ParseFrom(nameOf, argv, i, args)
      decreases |argv| - i
    {
      var code, used, next := ApplyOption(argv, i, nameOf(argv[i]), args, longMax);
      if used == 0 {
        return code, next;
      }
      args := next;
      i := i + used;
    }
    return PARSE_OK, args;
  }

  /** perftest_lite_parse_arguments; argv[0] is the program name. */
  method ParseArguments(argv: seq<string>, defaults: Args, longMax: nat) returns (rc: int, args: Args)
    requires INT32_MAX <= longMax
    ensures var o := Parse(if argv == [] then [] else argv[1..], defaults);
            args == o.args && rc == match o case Parsed(_) => 0 case HelpAsked(_) => 1 case Rejected(_) => -1
  {
    rc, args := ParseLoop(NameOf, argv, defaults, longMax);
    if argv != [] {
      assert argv == argv[..1] + argv[1..];
      ParseShift(NameOf, argv[..1], argv[1..], 0, defaults);
    }
  }

  // ---- What a successful parse guarantees ------------------------------------------------

  /** The documented ranges. */
  predicate InRange(a: Args) {
    && 0 <= a.domainId <= 232
    && 1 <= a.dataLen <= INT32_MAX
    && 1 <= a.exec <= INT32_MAX
    && (a.pubrate == -1 || 1 <= a.pubrate <= INT32_MAX)
    && 1 <= a.latencyCount <= INT32_MAX
    && 0 <= a.subSleep <= INT32_MAX
  }

  /** From defaults in range every argument vector, accepted or not, leaves all fields in range. */
  lemma ParsedInRange(tokens: seq<string>, a: Args)
    requires InRange(a)
    ensures InRange(Parse(tokens, a).args)
  {
    ParseFromInRange(NameOf, tokens, 0, a);
  }

  lemma {:induction false} ParseFromInRange(nameOf: string -> Name, argv: seq<string>, i: nat, a: Args)
    requires InRange(a)
    ensures InRange(ParseFrom(nameOf, argv, i, a).args)
    decreases |argv| - i
  {
    if i < |argv| {
      var t := TurnOf(nameOf(argv[i]), Behind(argv, i), a);
      TurnInRange(nameOf(argv[i]), Behind(argv, i), a);
      if t.Next? {
        ParseFromInRange(nameOf, argv, i + t.used, t.args);
      }
    }
  }

  lemma TurnInRange(name: Name, arg: Option<string>, a: Args)
    requires InRange(a)
    ensures var t := TurnOf(name, arg, a); InRange(if t.Next? then t.args else t.outcome.args)
  {
    var b := NumericBounds(name);
    if b.Some? && arg.Some? {
      var r := Int32Of(arg.value, b.value.min, b.value.max);
      if r.Some? && !Excluded(name, r.value) {
        NumberInRange(name, r.value, a);
      }
    } else if IsTextual(name) && arg.Some? {
      TextInRange(name, arg.value, a);
    } else if SetFlag(a, name).Some? {
      FlagInRange(name, a);
    }
  }

  lemma NumberInRange(name: Name, v: int, a: Args)
    requires InRange(a) && NumericBounds(name).Some? && !Excluded(name, v)
    requires NumericBounds(name).value.min <= v <= NumericBounds(name).value.max
    ensures InRange(SetNumeric(a, name, v))
  {
  }

  lemma TextInRange(name: Name, text: string, a: Args)
    requires InRange(a)
    ensures InRange(SetTextual(a, name, text))
  {
  }

  lemma FlagInRange(name: Name, a: Args)
    requires InRange(a) && SetFlag(a, name).Some?
    ensures InRange(SetFlag(a, name).value)
  {
  }

  /** An accepted prefix is all the parser remembers: the rest is parsed from the state it left. */
  lemma ParseConcat(xs: seq<string>, ys: seq<string>, a: Args)
    requires Parse(xs, a).Parsed?
    ensures Parse(xs + ys, a) == Parse(ys, Parse(xs, a).args)
  {
    ParseFromConcat(NameOf, xs, ys, a);
  }

  lemma ParseFromConcat(nameOf: string -> Name, xs: seq<string>, ys: seq<string>, a: Args)
    requires ParseFrom(nameOf, xs, 0, a).Parsed?
    ensures ParseFrom(nameOf, xs + ys, 0, a) == ParseFrom(nameOf, ys, 0, ParseFrom(nameOf, xs, 0, a).args)
  {
    ParsePrefix(nameOf, xs, ys, 0, a);
    ParseShift(nameOf, xs, ys, 0, ParseFrom(nameOf, xs, 0, a).args);
  }

  /** Inside an accepted prefix the tokens behind it make no difference. */
  lemma {:induction false} ParsePrefix(nameOf: string -> Name, xs: seq<string>, ys: seq<string>, i: nat, a: Args)
    requires i <= |xs| && ParseFrom(nameOf, xs, i, a).Parsed?
    ensures ParseFrom(nameOf, xs + ys, i, a) == ParseFrom(nameOf, xs + ys, |xs|, ParseFrom(nameOf, xs, i, a).args)
    decreases |xs| - i
  {
    if i < |xs| {
      var arg, more := Behind(xs, i), Behind(xs + ys, i);
      var t := TurnOf(nameOf(xs[i]), arg, a);
      assert (xs + ys)[i] == xs[i] && (arg.Some? ==> more == arg);
      MoreTokensBehind(nameOf(xs[i]), arg, more, a);
      ParsePrefix(nameOf, xs, ys, i + t.used, t.args);
    }
  }

  lemma MoreTokensBehind(name: Name, arg: Option<string>, more: Option<string>, a: Args)
    requires TurnOf(name, arg, a).Next? && (arg.Some? ==> more == arg)
    ensures TurnOf(name, more, a) == TurnOf(name, arg, a)
  {
  }

  /** Only the position relative to the tokens matters. */
  lemma {:induction false} ParseShift(nameOf: string -> Name, xs: seq<string>, ys: seq<string>, j: nat, a: Args)
    ensures ParseFrom(nameOf, xs + ys, |xs| + j, a) == ParseFrom(nameOf, ys, j, a)
    decreases |ys| - j
  {
    if j < |ys| {
      var t := TurnOf(nameOf(ys[j]), Behind(ys, j), a);
      assert (xs + ys)[|xs| + j] == ys[j] && Behind(xs + ys, |xs| + j) == Behind(ys, j);
      if t.Next? {
        ParseShift(nameOf, xs, ys, j + t.used, t.args);
      }
    }
  }

  /** A numeric option is accepted exactly when its text denotes an in-range number, zero excepted for -pubrate. */
  lemma NumericTurnIff(name: Name, text: string, a: Args)
    requires NumericBounds(name).Some?
    ensures var t, b := TurnOf(name, Some(text), a), NumericBounds(name).value;
            && (t.Next? <==> exists v :: Denotes(text, v) && b.min <= v <= b.max && !Excluded(name, v))
            && (t.Next? ==> exists v :: Denotes(text, v) && t == Next(SetNumeric(a, name, v), 2))
  {
    var b := NumericBounds(name).value;
    var r := Int32Of(text, b.min, b.max);
    forall v ensures r == Some(v) <==> Denotes(text, v) && b.min <= v <= b.max {
      AcceptedIff(text, b.min, b.max, v);
    }
    if r.Some? {
      assert Denotes(text, r.value);
    }
  }

  // ---- What each option does, in its own words -------------------------------------------

  /** A turn that uses one token, or two, leaves the tokens behind it to be parsed from what it set. */
  lemma FirstTurn(nameOf: string -> Name, opt: string, rest: seq<string>, a: Args)
    ensures var t := TurnOf(nameOf(opt), if rest == [] then None else Some(rest[0]), a);
            ParseFrom(nameOf, [opt] + rest, 0, a)
            == if t.Stop? then t.outcome else ParseFrom(nameOf, rest, t.used - 1, t.args)
  {
    var argv := [opt] + rest;
    assert Behind(argv, 0) == if rest == [] then None else Some(rest[0]);
    var t := TurnOf(nameOf(opt), Behind(argv, 0), a);
    if t.Next? {
      ParseShift(nameOf, [opt], rest, t.used - 1, t.args);
    }
  }

  /** A denoted number is what the option gets, within its range; no other text gives it one. */
  lemma NumberRead(text: string, lo: int, hi: int)
    ensures forall v :: Denotes(text, v) ==> Int32Of(text, lo, hi) == if lo <= v <= hi then Some(v) else None
    ensures (forall v :: !Denotes(text, v)) ==> Int32Of(text, lo, hi) == None
  {
    var r := Int32Of(text, lo, hi);
    if r.Some? {
      AcceptedIff(text, lo, hi, r.value);
    }
    forall v | Denotes(text, v) ensures r == if lo <= v <= hi then Some(v) else None {
      AcceptedIff(text, lo, hi, v);
      if r.Some? {
        ConvertWhole(text, v);
        ConvertWhole(text, r.value);
      }
    }
  }

  lemma NumericFirst(nameOf: string -> Name, opt: string, name: Name, text: string, rest: seq<string>, a: Args)
    requires nameOf(opt) == name && NumericBounds(name).Some?
    ensures var b, o := NumericBounds(name).value, ParseFrom(nameOf, [opt, text] + rest, 0, a);
            && (forall v :: Denotes(text, v) ==>
                 o == if b.min <= v <= b.max && !Excluded(name, v)
                      then ParseFrom(nameOf, rest, 0, SetNumeric(a, name, v)) else Rejected(a))
            && ((forall v :: !Denotes(text, v)) ==> o == Rejected(a))
  {
    var b := NumericBounds(name).value;
    FirstTurn(nameOf, opt, [text] + rest, a);
    assert [opt, text] + rest == [opt] + ([text] + rest);
    NumberRead(text, b.min, b.max);
    forall v | Denotes(text, v) {
      ParseShift(nameOf, [text], rest, 0, SetNumeric(a, name, v));
    }
  }

  // What the options are called.

  lemma NamedNumeric()
    ensures NameOf("-domain") == Domain && NameOf("-datalen") == Datalen && NameOf("-exec") == Exec
    ensures NameOf("-pubrate") == Pubrate && NameOf("-latencyCount") == LatencyCount && NameOf("-subSleep") == SubSleep
  {
  }

  lemma NamedTextual()
    ensures NameOf("-nic") == Nic && NameOf("-peer") == Peer && NameOf("-transport") == Transport
    ensures NameOf("-latencyLog") == LatencyLog
  {
  }

  lemma NamedRoles()
    ensures NameOf("-h") == NameOf("--help") == Help && NameOf("-pub") == Pub && NameOf("-sub") == Sub
    ensures NameOf("-rel") == Rel && NameOf("-latencyTest") == LatencyTest
  {
  }

  lemma NamedPrinting()
    ensures NameOf("-printPeriodic") == PrintPeriodic && NameOf("-noPrintConfig") == NoPrintConfig
    ensures NameOf("-latencyStream") == LatencyStream
  {
  }

  /** And nothing else is called that. */
  lemma NamedOnly(opt: string)
    ensures match NameOf(opt)
            case Help => opt == "-h" || opt == "--help"
            case Pub => opt == "-pub"
            case Sub => opt == "-sub"
            case Domain => opt == "-domain"
            case Nic => opt == "-nic"
            case Peer => opt == "-peer"
            case Transport => opt == "-transport"
            case LatencyLog => opt == "-latencyLog"
            case Datalen => opt == "-datalen"
            case Exec => opt == "-exec"
            case Pubrate => opt == "-pubrate"
            case LatencyCount => opt == "-latencyCount"
            case SubSleep => opt == "-subSleep"
            case Rel => opt == "-rel"
            case LatencyTest => opt == "-latencyTest"
            case PrintPeriodic => opt == "-printPeriodic"
            case NoPrintConfig => opt == "-noPrintConfig"
            case LatencyStream => opt == "-latencyStream"
            case Unknown => !TakesValue(opt) && !TakesNone(opt)
  {
  }

  // The six numeric options: a number in range goes to the option's own field, anything else is rejected.

  lemma DomainSets(text: string, rest: seq<string>, a: Args)
    ensures forall v :: Denotes(text, v) ==>
      Parse(["-domain", text] + rest, a) == if 0 <= v <= 232 then Parse(rest, a.(domainId := v)) else Rejected(a)
    ensures (forall v :: !Denotes(text, v)) ==> Parse(["-domain", text] + rest, a) == Rejected(a)
  {
    NamedNumeric();
    NumericFirst(NameOf, "-domain", Domain, text, rest, a);
  }

  lemma DatalenSets(text: string, rest: seq<string>, a: Args)
    ensures forall v :: Denotes(text, v) ==>
      Parse(["-datalen", text] + rest, a) == if 1 <= v <= 0x7FFF_FFFF then Parse(rest, a.(dataLen := v)) else Rejected(a)
    ensures (forall v :: !Denotes(text, v)) ==> Parse(["-datalen", text] + rest, a) == Rejected(a)
  {
    NamedNumeric();
    NumericFirst(NameOf, "-datalen", Datalen, text, rest, a);
  }

  lemma ExecSets(text: string, rest: seq<string>, a: Args)
    ensures forall v :: Denotes(text, v) ==>
      Parse(["-exec", text] + rest, a) == if 1 <= v <= 0x7FFF_FFFF then Parse(rest, a.(exec := v)) else Rejected(a)
    ensures (forall v :: !Denotes(text, v)) ==> Parse(["-exec", text] + rest, a) == Rejected(a)
  {
    NamedNumeric();
    NumericFirst(NameOf, "-exec", Exec, text, rest, a);
  }

  lemma PubrateSets(text: string, rest: seq<string>, a: Args)
    ensures forall v :: Denotes(text, v) ==>
      Parse(["-pubrate", text] + rest, a) == if (v == -1 || 1 <= v <= 0x7FFF_FFFF) then Parse(rest, a.(pubrate := v)) else Rejected(a)
    ensures (forall v :: !Denotes(text, v)) ==> Parse(["-pubrate", text] + rest, a) == Rejected(a)
  {
    NamedNumeric();
    NumericFirst(NameOf, "-pubrate", Pubrate, text, rest, a);
  }

  lemma LatencyCountSets(text: string, rest: seq<string>, a: Args)
    ensures forall v :: Denotes(text, v) ==>
      Parse(["-latencyCount", text] + rest, a) == if 1 <= v <= 0x7FFF_FFFF then Parse(rest, a.(latencyCount := v)) else Rejected(a)
    ensures (forall v :: !Denotes(text, v)) ==> Parse(["-latencyCount", text] + rest, a) == Rejected(a)
  {
    NamedNumeric();
    NumericFirst(NameOf, "-latencyCount", LatencyCount, text, rest, a);
  }

  lemma SubSleepSets(text: string, rest: seq<string>, a: Args)
    ensures forall v :: Denotes(text, v) ==>
      Parse(["-subSleep", text] + rest, a) == if 0 <= v <= 0x7FFF_FFFF then Parse(rest, a.(subSleep := v)) else Rejected(a)
    ensures (forall v :: !Denotes(text, v)) ==> Parse(["-subSleep", text] + rest, a) == Rejected(a)
  {
    NamedNumeric();
    NumericFirst(NameOf, "-subSleep", SubSleep, text, rest, a);
  }

  /** The four textual options take any text into their own field. */
  lemma TextualSets(text: string, rest: seq<string>, a: Args)
    ensures Parse(["-nic", text] + rest, a) == Parse(rest, a.(nic := text))
    ensures Parse(["-peer", text] + rest, a) == Parse(rest, a.(peer := text))
    ensures Parse(["-transport", text] + rest, a) == Parse(rest, a.(transport := text))
    ensures Parse(["-latencyLog", text] + rest, a) == Parse(rest, a.(latencyLog := Some(text)))
  {
    NamedTextual();
    TextualFirst(NameOf, "-nic", Nic, text, rest, a);
    TextualFirst(NameOf, "-peer", Peer, text, rest, a);
    TextualFirst(NameOf, "-transport", Transport, text, rest, a);
    TextualFirst(NameOf, "-latencyLog", LatencyLog, text, rest, a);
  }

  lemma TextualFirst(nameOf: string -> Name, opt: string, name: Name, text: string, rest: seq<string>, a: Args)
    requires nameOf(opt) == name && IsTextual(name)
    ensures ParseFrom(nameOf, [opt, text] + rest, 0, a) == ParseFrom(nameOf, rest, 0, SetTextual(a, name, text))
  {
    FirstTurn(nameOf, opt, [text] + rest, a);
    assert [opt, text] + rest == [opt] + ([text] + rest);
    ParseShift(nameOf, [text], rest, 0, SetTextual(a, name, text));
  }

  // The seven flags set their own field and use no value.

  lemma ModesSet(rest: seq<string>, a: Args)
    ensures Parse(["-pub"] + rest, a) == Parse(rest, a.(role := PublisherRole))
    ensures Parse(["-sub"] + rest, a) == Parse(rest, a.(role := SubscriberRole))
    ensures Parse(["-rel"] + rest, a) == Parse(rest, a.(reliable := true))
    ensures Parse(["-latencyTest"] + rest, a) == Parse(rest, a.(latencyTest := true))
  {
    NamedRoles();
    FlagFirst(NameOf, "-pub", Pub, rest, a);
    FlagFirst(NameOf, "-sub", Sub, rest, a);
    FlagFirst(NameOf, "-rel", Rel, rest, a);
    FlagFirst(NameOf, "-latencyTest", LatencyTest, rest, a);
  }

  lemma PrintingSet(rest: seq<string>, a: Args)
    ensures Parse(["-printPeriodic"] + rest, a) == Parse(rest, a.(printPeriodic := true))
    ensures Parse(["-noPrintConfig"] + rest, a) == Parse(rest, a.(printConfig := false))
    ensures Parse(["-latencyStream"] + rest, a) == Parse(rest, a.(latencyStream := true))
  {
    NamedPrinting();
    FlagFirst(NameOf, "-printPeriodic", PrintPeriodic, rest, a);
    FlagFirst(NameOf, "-noPrintConfig", NoPrintConfig, rest, a);
    FlagFirst(NameOf, "-latencyStream", LatencyStream, rest, a);
  }

  lemma FlagFirst(nameOf: string -> Name, opt: string, name: Name, rest: seq<string>, a: Args)
    requires nameOf(opt) == name && SetFlag(a, name).Some?
    ensures ParseFrom(nameOf, [opt] + rest, 0, a) == ParseFrom(nameOf, rest, 0, SetFlag(a, name).value)
  {
    FirstTurn(nameOf, opt, rest, a);
  }

  predicate TakesValue(opt: string) {
    || opt == "-domain" || opt == "-nic" || opt == "-peer" || opt == "-transport" || opt == "-latencyLog"
    || opt == "-datalen" || opt == "-exec" || opt == "-pubrate" || opt == "-latencyCount" || opt == "-subSleep"
  }

  predicate TakesNone(opt: string) {
    || opt == "-h" || opt == "--help" || opt == "-pub" || opt == "-sub" || opt == "-rel" || opt == "-latencyTest"
    || opt == "-printPeriodic" || opt == "-noPrintConfig" || opt == "-latencyStream"
  }

  /** Help ends the parse; an unknown option and a missing value reject it; nothing set before is undone. */
  lemma OthersStop(opt: string, rest: seq<string>, a: Args)
    ensures opt == "-h" || opt == "--help" ==> Parse([opt] + rest, a) == HelpAsked(a)
    ensures !TakesValue(opt) && !TakesNone(opt) ==> Parse([opt] + rest, a) == Rejected(a)
    ensures TakesValue(opt) ==> Parse([opt], a) == Rejected(a)
  {
    Kinds(opt);
    FirstTurn(NameOf, opt, rest, a);
    FirstTurn(NameOf, opt, [], a);
    assert [opt] + [] == [opt];
  }

  lemma Kinds(opt: string)
    ensures NameOf(opt) == Help <==> opt == "-h" || opt == "--help"
    ensures !TakesValue(opt) && !TakesNone(opt) ==> NameOf(opt) == Unknown
    ensures TakesValue(opt) ==> NumericBounds(NameOf(opt)).Some? || IsTextual(NameOf(opt))
  {
    NamedOnly(opt);
    if opt == "-h" || opt == "--help" {
      NamedRoles();
    } else if TakesValue(opt) {
      ValuesNamed(opt);
    }
  }

  lemma ValuesNamed(opt: string)
    requires TakesValue(opt)
    ensures NumericBounds(NameOf(opt)).Some? || IsTextual(NameOf(opt))
  {
    NamedNumeric();
    NamedTextual();
  }

  // An option that is not among the names leaves its field alone.

  ghost predicate NumbersUntouched(names: set<Name>, a: Args, b: Args) {
    && (Domain !in names ==> b.domainId == a.domainId)
    && (Datalen !in names ==> b.dataLen == a.dataLen)
    && (Exec !in names ==> b.exec == a.exec)
    && (Pubrate !in names ==> b.pubrate == a.pubrate)
    && (LatencyCount !in names ==> b.latencyCount == a.latencyCount)
    && (SubSleep !in names ==> b.subSleep == a.subSleep)
  }

  ghost predicate TextsUntouched(names: set<Name>, a: Args, b: Args) {
    && (Nic !in names ==> b.nic == a.nic)
    && (Peer !in names ==> b.peer == a.peer)
    && (Transport !in names ==> b.transport == a.transport)
    && (LatencyLog !in names ==> b.latencyLog == a.latencyLog)
  }

  ghost predicate FlagsUntouched(names: set<Name>, a: Args, b: Args) {
    && (Pub !in names && Sub !in names ==> b.role == a.role)
    && (LatencyStream !in names ==> b.latencyStream == a.latencyStream)
    && (Rel !in names ==> b.reliable == a.reliable)
    && (LatencyTest !in names ==> b.latencyTest == a.latencyTest)
    && (PrintPeriodic !in names ==> b.printPeriodic == a.printPeriodic)
    && (NoPrintConfig !in names ==> b.printConfig == a.printConfig)
  }

  ghost predicate Untouched(names: set<Name>, a: Args, b: Args) {
    NumbersUntouched(names, a, b) && TextsUntouched(names, a, b) && FlagsUntouched(names, a, b)
  }

  // b is a but for the field of the option.

  predicate NumbersChangedAt(name: Name, a: Args, b: Args) {
    && (name != Domain ==> b.domainId == a.domainId)
    && (name != Datalen ==> b.dataLen == a.dataLen)
    && (name != Exec ==> b.exec == a.exec)
    && (name != Pubrate ==> b.pubrate == a.pubrate)
    && (name != LatencyCount ==> b.latencyCount == a.latencyCount)
    && (name != SubSleep ==> b.subSleep == a.subSleep)
  }

  predicate TextsChangedAt(name: Name, a: Args, b: Args) {
    && (name != Nic ==> b.nic == a.nic)
    && (name != Peer ==> b.peer == a.peer)
    && (name != Transport ==> b.transport == a.transport)
    && (name != LatencyLog ==> b.latencyLog == a.latencyLog)
  }

  predicate FlagsChangedAt(name: Name, a: Args, b: Args) {
    && (name != Pub && name != Sub ==> b.role == a.role)
    && (name != LatencyStream ==> b.latencyStream == a.latencyStream)
    && (name != Rel ==> b.reliable == a.reliable)
    && (name != LatencyTest ==> b.latencyTest == a.latencyTest)
    && (name != PrintPeriodic ==> b.printPeriodic == a.printPeriodic)
    && (name != NoPrintConfig ==> b.printConfig == a.printConfig)
  }

  predicate ChangedAt(name: Name, a: Args, b: Args) {
    NumbersChangedAt(name, a, b) && TextsChangedAt(name, a, b) && FlagsChangedAt(name, a, b)
  }

  /** Whatever the outcome, a parse changes only the fields of options among its tokens. */
  lemma ParseFrame(tokens: seq<string>, a: Args, names: set<Name>)
    requires forall i :: 0 <= i < |tokens| ==> NameOf(tokens[i]) in names
    ensures Untouched(names, a, Parse(tokens, a).args)
  {
    ParseFromFrame(NameOf, tokens, 0, a, names);
  }

  lemma {:induction false} ParseFromFrame(nameOf: string -> Name, tokens: seq<string>, i: nat, a: Args, names: set<Name>)
    requires forall i :: 0 <= i < |tokens| ==> nameOf(tokens[i]) in names
    ensures Untouched(names, a, ParseFrom(nameOf, tokens, i, a).args)
    decreases |tokens| - i
  {
    if i < |tokens| {
      var t := TurnOf(nameOf(tokens[i]), Behind(tokens, i), a);
      TurnFrame(nameOf(tokens[i]), Behind(tokens, i), a);
      if t.Next? {
        ParseFromFrame(nameOf, tokens, i + t.used, t.args, names);
        UntouchedChain(nameOf(tokens[i]), names, a, t.args, ParseFrom(nameOf, tokens, i + t.used, t.args).args);
      } else {
        UntouchedChain(nameOf(tokens[i]), names, a, t.outcome.args, t.outcome.args);
      }
    }
  }

  lemma UntouchedChain(name: Name, names: set<Name>, a: Args, b: Args, d: Args)
    requires ChangedAt(name, a, b) && name in names && Untouched(names, b, d)
    ensures Untouched(names, a, d)
  {
    NumbersChain(name, names, a, b, d);
    TextsChain(name, names, a, b, d);
    FlagsChain(name, names, a, b, d);
  }

  lemma NumbersChain(name: Name, names: set<Name>, a: Args, b: Args, d: Args)
    requires NumbersChangedAt(name, a, b) && name in names && NumbersUntouched(names, b, d)
    ensures NumbersUntouched(names, a, d)
  {
  }

  lemma TextsChain(name: Name, names: set<Name>, a: Args, b: Args, d: Args)
    requires TextsChangedAt(name, a, b) && name in names && TextsUntouched(names, b, d)
    ensures TextsUntouched(names, a, d)
  {
  }

  lemma FlagsChain(name: Name, names: set<Name>, a: Args, b: Args, d: Args)
    requires FlagsChangedAt(name, a, b) && name in names && FlagsUntouched(names, b, d)
    ensures FlagsUntouched(names, a, d)
  {
  }

  lemma TurnFrame(name: Name, arg: Option<string>, a: Args)
    ensures var t := TurnOf(name, arg, a); ChangedAt(name, a, if t.Next? then t.args else t.outcome.args)
  {
    if NumericBounds(name).Some? {
      NumericTurnFrame(name, NumericBounds(name).value, arg, a);
    } else if IsTextual(name) {
      if arg.Some? {
        TextualFrame(name, arg.value, a);
      }
    } else if SetFlag(a, name).Some? {
      FlagFrame(name, a);
    }
  }

  lemma NumericTurnFrame(name: Name, b: Bounds, arg: Option<string>, a: Args)
    requires NumericBounds(name).Some?
    ensures var t := NumericTurn(name, b, arg, a); ChangedAt(name, a, if t.Next? then t.args else t.outcome.args)
  {
    if arg.Some? && Int32Of(arg.value, b.min, b.max).Some? {
      NumericFrame(name, Int32Of(arg.value, b.min, b.max).value, a);
    }
  }

  lemma NumericFrame(name: Name, v: int, a: Args)
    requires NumericBounds(name).Some?
    ensures ChangedAt(name, a, SetNumeric(a, name, v))
  {
    NumericKeepsNumbers(name, v, a);
    NumericKeepsTexts(name, v, a);
    NumericKeepsFlags(name, v, a);
  }

  lemma NumericKeepsNumbers(name: Name, v: int, a: Args)
    requires NumericBounds(name).Some?
    ensures NumbersChangedAt(name, a, SetNumeric(a, name, v))
  {
  }

  lemma NumericKeepsTexts(name: Name, v: int, a: Args)
    requires NumericBounds(name).Some?
    ensures TextsChangedAt(name, a, SetNumeric(a, name, v))
  {
  }

  lemma NumericKeepsFlags(name: Name, v: int, a: Args)
    requires NumericBounds(name).Some?
    ensures FlagsChangedAt(name, a, SetNumeric(a, name, v))
  {
  }

  lemma TextualFrame(name: Name, text: string, a: Args)
    requires IsTextual(name)
    ensures ChangedAt(name, a, SetTextual(a, name, text))
  {
  }

  lemma FlagFrame(name: Name, a: Args)
    requires SetFlag(a, name).Some?
    ensures ChangedAt(name, a, SetFlag(a, name).value)
  {
    FlagKeepsNumbers(name, a);
    FlagKeepsTexts(name, a);
    FlagKeepsFlags(name, a);
  }

  lemma FlagKeepsNumbers(name: Name, a: Args)
    requires SetFlag(a, name).Some?
    ensures NumbersChangedAt(name, a, SetFlag(a, name).value)
  {
  }

  lemma FlagKeepsTexts(name: Name, a: Args)
    requires SetFlag(a, name).Some?
    ensures TextsChangedAt(name, a, SetFlag(a, name).value)
  {
  }

  lemma FlagKeepsFlags(name: Name, a: Args)
    requires SetFlag(a, name).Some?
    ensures FlagsChangedAt(name, a, SetFlag(a, name).value)
  {
  }

  /** The built-in defaults of the configuration header, with the type's default size. */
  function BuiltInDefaults(role: Role, transport: string, dataLen: int): Args {
    Args(role, 0, "lo", "127.0.0.1", transport, None, false, dataLen, 10, -1, 10000, 1000000, false, false, false, true)
  }

  /** A vector parsed from the built-in defaults: in range, and its duration and rate never reach 64-bit limits. */
  lemma BuiltInParse(tokens: seq<string>, role: Role, transport: string, dataLen: int)
    requires OVERHEAD <= dataLen <= INT32_MAX
    ensures var a := Parse(tokens, BuiltInDefaults(role, transport, dataLen)).args;
            InRange(a) && a.exec * 1000000 < TWO64
    ensures var a := Parse([], BuiltInDefaults(role, transport, dataLen)).args;
            && a.role == role && a.transport == transport && a.dataLen == dataLen && a.latencyLog == None
            && a.domainId == 0 && a.nic == "lo" && a.peer == "127.0.0.1" && a.exec == 10 && a.pubrate == -1
            && a.latencyCount == 10000 && a.subSleep == 1000000 && a.printConfig
            && !a.latencyStream && !a.reliable && !a.latencyTest && !a.printPeriodic
  {
    ParsedInRange(tokens, BuiltInDefaults(role, transport, dataLen));
  }
}
