/**
 * server.js: the default configuration, the command-line loop that refines
 * it option by option (with the `--config port,baud,framing` sub-parser),
 * the choice of transport by mode, and the listener that fans received
 * serial data out to a port's WebSocket clients.
 */
module Server {
  import opened Common
  import opened Config
  import opened Util
  import opened WebServer
  import opened Relay

  // ---------------------------------------------------------------------
  // Defaults
  // ---------------------------------------------------------------------

  /** The two environment variables the defaults read, when set. */
  datatype Environment = Environment(nodeVerbose: Option<string>, nodeDebug: Option<string>)

  /** "true" or "1". */
  predicate EnvFlag(v: Option<string>) {
    v == Some("true") || v == Some("1")
  }

  const DefaultPort: int := 5147

  /** The configuration before any argument is read. */
  function DefaultConfig(env: Environment): Config {
    Config(true, DefaultPort, Some("http"), Some("/api/v1"), EnvFlag(env.nodeVerbose), EnvFlag(env.nodeDebug),
           Permissions(true, true, true, true, true, None), None, None)
  }

  // ---------------------------------------------------------------------
  // The --config value
  // ---------------------------------------------------------------------

  /** An exception the loop does not catch: the process dies with it. */
  datatype CrashReason =
    | MissingConfigValue
    | BadBaudRate
    | BadFraming(value: string)
    | BadDataBits
    | BadStopBits
    | BadParity
    | UnknownConfigField(field: string)

  /** The serial port name and the options a `--config` value sets. */
  datatype SerialConfig = SerialConfig(portname: string, options: SerialOptions)

  /** The parity table, looked up with the upper-cased letter. */
  function ParityOf(c: char): (p: Option<Parity>)
    ensures p.Some? <==> c in "NEOMS"
  {
    match c
    case 'N' => Some(NoParity)
    case 'E' => Some(EvenParity)
    case 'O' => Some(OddParity)
    case 'M' => Some(MarkParity)
    case 'S' => Some(SpaceParity)
    case _ => None
  }

  /** `parseInt` of a one-character string: the digit's value, or NaN. */
  function ParseDigit(c: char): Option<int> {
    if IsDigit(c) then Some(c as int - '0' as int) else None
  }

  /** The digit reading agrees with `parseInt` on the one-character string. */
  lemma ParseDigitIsParseInt(c: char)
    ensures ParseDigit(c) == ParseInt([c])
  {
    ParseIntOneChar(c);
  }

  /** Data bits, parity and stop bits from a framing such as "8N1". */
  datatype Framing = Framing(dataBits: int, parity: Parity, stopBits: int)

  /**
   * The framing field: exactly three characters, then data bits 5 to 8, then
   * stop bits 1 or 2, then a parity letter in either case; the first check
   * that fails is the one reported.
   */
  function ParseFraming(value: string): Result<Framing, CrashReason> {
    if |value| != 3 then Failure(BadFraming(value))
    else
      var dataBits := ParseDigit(value[0]);
      if !(dataBits.Some? && 5 <= dataBits.value <= 8) then Failure(BadDataBits)
      else
        var stopBits := ParseDigit(value[2]);
        if !(stopBits.Some? && (stopBits.value == 1 || stopBits.value == 2)) then Failure(BadStopBits)
        else
          var parity := ParityOf(UpperChar(value[1]));
          if parity.None? then Failure(BadParity)
          else Success(Framing(dataBits.value, parity.value, stopBits.value))
  }

  /**
   * What the framing field accepts, character by character, and the values
   * it reads from an accepted one.
   */
  lemma FramingMeaning(value: string)
    ensures ParseFraming(value).Success? <==>
      && |value| == 3
      && '5' <= value[0] <= '8'
      && (value[2] == '1' || value[2] == '2')
      && UpperChar(value[1]) in "NEOMS"
    ensures ParseFraming(value).Success? ==>
      && ParseFraming(value).value.dataBits == value[0] as int - '0' as int
      && ParseFraming(value).value.stopBits == value[2] as int - '0' as int
      && ParseFraming(value).value.parity == ParityOf(UpperChar(value[1])).value
  {
    if |value| == 3 && '5' <= value[0] <= '8' && (value[2] == '1' || value[2] == '2') {
      var p := ParityOf(UpperChar(value[1]));
      if p.Some? {
        assert ParseFraming(value) == Success(Framing(value[0] as int - '0' as int, p.value, value[2] as int - '0' as int));
      }
    } else if |value| == 3 && '5' <= value[0] <= '8' {
      assert !IsDigit(value[2]) || value[2] as int - '0' as int !in {1, 2};
    }
  }

  /**
   * Each kind of bad field gets its own error, and the checks run in order:
   * length, then data bits, then stop bits, then parity.
   */
  lemma FramingErrors(value: string)
    ensures |value| != 3 <==> ParseFraming(value) == Failure(BadFraming(value))
    ensures ParseFraming(value) == Failure(BadDataBits) <==> |value| == 3 && !('5' <= value[0] <= '8')
    ensures ParseFraming(value) == Failure(BadStopBits) <==>
      |value| == 3 && '5' <= value[0] <= '8' && !(value[2] == '1' || value[2] == '2')
    ensures ParseFraming(value) == Failure(BadParity) <==>
      |value| == 3 && '5' <= value[0] <= '8' && (value[2] == '1' || value[2] == '2') && UpperChar(value[1]) !in "NEOMS"
  {
    if |value| == 3 && !('5' <= value[0] <= '8') {
      assert !IsDigit(value[0]) || !(5 <= value[0] as int - '0' as int <= 8);
    } else if |value| == 3 && !(value[2] == '1' || value[2] == '2') {
      assert !IsDigit(value[2]) || value[2] as int - '0' as int !in {1, 2};
    }
  }

  /** "8X3": a bad stop-bits digit is reported before a bad parity letter. */
  lemma FramingStopBitsFirst()
    ensures ParseFraming("8X3") == Failure(BadStopBits)
  {
    var v := "8X3";
    assert |v| == 3 && v[0] == '8' && v[2] == '3';
    FramingErrors(v);
  }

  /** "8N1": eight data bits, no parity, one stop bit. */
  lemma FramingExample()
    ensures ParseFraming("8N1") == Success(Framing(8, NoParity, 1))
  {
    var v := "8N1";
    assert |v| == 3 && v[0] == '8' && v[1] == 'N' && v[2] == '1';
    FramingMeaning(v);
  }

  /** "7e2": the parity letter may be lower case. */
  lemma FramingLowerCaseParity()
    ensures ParseFraming("7e2") == Success(Framing(7, EvenParity, 2))
  {
    var v := "7e2";
    assert |v| == 3 && v[0] == '7' && v[1] == 'e' && v[2] == '2';
    assert UpperChar('e') == 'E';
    FramingMeaning(v);
  }

  /** Field `s` of the comma-separated value, applied to what is set so far. */
  function ApplyField(s: nat, field: string, acc: SerialConfig): Result<SerialConfig, CrashReason> {
    if s == 0 then Success(acc.(portname := field))
    else if s == 1 then
      var baud := ParseInt(field);
      if baud.Some? && baud.value > 0 then Success(acc.(options := acc.options.(baudRate := baud)))
      else Failure(BadBaudRate)
    else if s == 2 then
      match ParseFraming(field)
      case Failure(e) => Failure(e)
      case Success(f) =>
        Success(acc.(options := acc.options.(dataBits := Some(f.dataBits), stopBits := Some(f.stopBits),
                                            parity := Some(f.parity))))
    else Failure(UnknownConfigField(field))
  }

  /** The inner loop, from field `s` on. */
  function ApplyFields(fields: seq<string>, s: nat, acc: SerialConfig): Result<SerialConfig, CrashReason>
    decreases |fields| - s
  {
    if s >= |fields| then Success(acc)
    else match ApplyField(s, fields[s], acc)
      case Failure(e) => Failure(e)
      case Success(next) => ApplyFields(fields, s + 1, next)
  }

  /** The whole `--config` value: split on commas, fields applied in order to `{ }`. */
  function ParseSerialConfig(value: string): Result<SerialConfig, CrashReason> {
    ApplyFields(Split(value, ','), 0, SerialConfig("", NoOptions))
  }

  /**
   * `--config` fields: the first is always the port name; with fewer than
   * three fields the remaining options stay unset; a fourth field is an
   * error once the first three are good.
   */
  lemma SerialConfigMeaning(value: string)
    ensures var f := Split(value, ',');
      var r := ParseSerialConfig(value);
      && (|f| == 1 ==> r == Success(SerialConfig(value, NoOptions)))
      && (r.Success? ==> |f| <= 3 && r.value.portname == f[0])
      && (|f| >= 2 ==> (r.Success? <==> ParseInt(f[1]).Some? && ParseInt(f[1]).value > 0
                                        && (|f| >= 3 ==> ParseFraming(f[2]).Success? && |f| == 3)))
      && (|f| >= 2 && r.Success? ==> r.value.options.baudRate == ParseInt(f[1]))
      && (|f| == 2 && r.Success? ==> r.value.options == NoOptions.(baudRate := ParseInt(f[1])))
      && (|f| == 3 && r.Success? ==>
            var fr := ParseFraming(f[2]).value;
            r.value.options == SerialOptions(ParseInt(f[1]), Some(fr.dataBits), Some(fr.stopBits), Some(fr.parity), None))
      && (|f| >= 4 && ParseInt(f[1]).Some? && ParseInt(f[1]).value > 0 && ParseFraming(f[2]).Success? ==>
            r == Failure(UnknownConfigField(f[3])))
  {
    var f := Split(value, ',');
    var r := ParseSerialConfig(value);
    var a0 := SerialConfig(f[0], NoOptions);
    assert r == ApplyFields(f, 1, a0);
    if |f| == 1 {
      assert Join(f, ',') == f[0];
      assert r == Success(a0);
    } else {
      var baud := ParseInt(f[1]);
      if baud.Some? && baud.value > 0 {
        var a1 := a0.(options := a0.options.(baudRate := baud));
        assert r == ApplyFields(f, 2, a1);
        if |f| > 2 {
          var framing := ParseFraming(f[2]);
          if framing.Success? {
            var fr := framing.value;
            var a2 := a1.(options := a1.options.(dataBits := Some(fr.dataBits), stopBits := Some(fr.stopBits),
                                                parity := Some(fr.parity)));
            assert r == ApplyFields(f, 3, a2);
            if |f| > 3 {
              assert r == Failure(UnknownConfigField(f[3]));
            }
          } else {
            assert r == Failure(framing.error);
          }
        }
      } else {
        assert r == Failure(BadBaudRate);
      }
    }
  }

  /**
   * The inner loop of the `--config` case: `config.options = { }`, then a
   * switch on the field number.
   */
  method ParseConfigOption(value: string) returns (r: Result<SerialConfig, CrashReason>)
    ensures r == ParseSerialConfig(value)
  {
    var ssp := Split(value, ',');
    var acc := SerialConfig("", NoOptions);
    for s := 0 to |ssp|
      invariant ApplyFields(ssp, s, acc) == ParseSerialConfig(value)
    {
      ghost var before := acc;
      match s {
        case 0 =>
          acc := acc.(portname := ssp[s]);
        case 1 =>
          var baud := ParseInt(ssp[s]);
          if !(baud.Some? && baud.value > 0) {
            assert ApplyField(s, ssp[s], acc) == Failure(BadBaudRate);
            return Failure(BadBaudRate);
          }
          acc := acc.(options := acc.options.(baudRate := baud));
        case 2 =>
          var framing := ParseFraming(ssp[s]);
          if framing.Failure? {
            assert ApplyField(s, ssp[s], acc) == Failure(framing.error);
            return Failure(framing.error);
          }
          var f := framing.value;
          acc := acc.(options := acc.options.(dataBits := Some(f.dataBits), stopBits := Some(f.stopBits),
                                             parity := Some(f.parity)));
        case _ =>
          assert ApplyField(s, ssp[s], acc) == Failure(UnknownConfigField(ssp[s]));
          return Failure(UnknownConfigField(ssp[s]));
      }
      assert ApplyField(s, ssp[s], before) == Success(acc);
    }
    return Success(acc);
  }

  // ---------------------------------------------------------------------
  // The argument loop
  // ---------------------------------------------------------------------

  datatype ExitReason = Help | Version | BadPortNumber | MissingAllowPorts | UnknownArgument(arg: string)

  /** How the argument loop ends. */
  datatype Outcome =
    | Run(config: Config)
    | ListPorts
    | Exit(status: int, why: ExitReason)
    | Crash(reason: CrashReason)

  /** One turn of the loop: the next index and config, or the end. */
  datatype Step = Continue(next: nat, config: Config) | Stop(outcome: Outcome)

  /** `args[++i]`: the argument after `i`, or undefined. */
  function Next(args: seq<string>, i: nat): (v: Option<string>)
    ensures v.Some? <==> i + 1 < |args|
    ensures v.Some? ==> v.value == args[i + 1]
  {
    if i + 1 < |args| then Some(args[i + 1]) else None
  }

  /** The numeric value `parseInt` gives an argument; undefined gives NaN. */
  function ParseArgument(v: Option<string>): Option<int> {
    if v.None? then None else ParseInt(v.value)
  }

  /** The case labels of the switch on `args[i]`. */
  datatype Flag =
    | HelpFlag | ListFlag | PortFlag | ModeFlag | PrefixFlag
    | NoListFlag | NoReadFlag | NoWriteFlag | NoUiFlag | NoWsFlag
    | AllowPortsFlag | ConfigFlag | VerboseFlag | DebugFlag | VersionFlag
    | UnknownFlag

  /** The case an argument selects; `-p` and `-m` share a case with their long forms. */
  function FlagOf(arg: string): Flag {
    match arg
    case "--help" => HelpFlag
    case "--list" => ListFlag
    case "-p" | "--port" => PortFlag
    case "-m" | "--mode" => ModeFlag
    case "--prefix" => PrefixFlag
    case "--no-list" => NoListFlag
    case "--no-read" => NoReadFlag
    case "--no-write" => NoWriteFlag
    case "--no-ui" => NoUiFlag
    case "--no-ws" => NoWsFlag
    case "--allow-ports" => AllowPortsFlag
    case "--config" => ConfigFlag
    case "--verbose" => VerboseFlag
    case "--debug" => DebugFlag
    case "--version" => VersionFlag
    case _ => UnknownFlag
  }

  /** The body of the switch for `args[i]`. */
  function ParseOption(args: seq<string>, i: nat, cfg: Config): (r: Step)
    requires i < |args|
    ensures r.Continue? ==> i < r.next <= i + 2
  {
    match FlagOf(args[i])
    case HelpFlag => Stop(Exit(0, Help))
    case ListFlag => Stop(ListPorts)
    case PortFlag =>
      var p := ParseArgument(Next(args, i));
      if p.Some? && p.value > 0 then Continue(i + 2, cfg.(port := p.value)) else Stop(Exit(2, BadPortNumber))
    case ModeFlag => Continue(i + 2, cfg.(mode := Next(args, i)))
    case PrefixFlag => Continue(i + 2, cfg.(prefix := Next(args, i)))
    case NoListFlag => Continue(i + 1, cfg.(permissions := cfg.permissions.(list := false)))
    case NoReadFlag => Continue(i + 1, cfg.(permissions := cfg.permissions.(read := false)))
    case NoWriteFlag => Continue(i + 1, cfg.(permissions := cfg.permissions.(write := false)))
    case NoUiFlag => Continue(i + 1, cfg.(permissions := cfg.permissions.(ui := false)))
    case NoWsFlag => Continue(i + 1, cfg.(permissions := cfg.permissions.(ws := false)))
    case AllowPortsFlag =>
      var ports := Next(args, i);
      if ports.None? || ports.value == "" then Stop(Exit(2, MissingAllowPorts))
      else Continue(i + 2, cfg.(permissions := cfg.permissions.(allowedPorts := Some(Split(ports.value, ',')))))
    case ConfigFlag =>
      var ssp := Next(args, i);
      if ssp.None? then Stop(Crash(MissingConfigValue))
      else
        (match ParseSerialConfig(ssp.value)
         case Failure(e) => Stop(Crash(e))
         case Success(sc) => Continue(i + 2, cfg.(portname := Some(sc.portname), options := Some(sc.options))))
    case VerboseFlag => Continue(i + 1, cfg.(verbose := true))
    case DebugFlag => Continue(i + 1, cfg.(debug := true, verbose := true))
    case VersionFlag => Stop(Exit(0, Version))
    case UnknownFlag => Stop(Exit(2, UnknownArgument(args[i])))
  }

  /** The loop from index `i` with the config built so far. */
  function ParseFrom(args: seq<string>, i: nat, cfg: Config): Outcome
    decreases |args| - i
  {
    if i >= |args| then Run(cfg)
    else match ParseOption(args, i, cfg)
      case Stop(o) => o
      case Continue(next, c) => ParseFrom(args, next, c)
  }

  /** The outcome of the command line `args` (`process.argv.slice(2)`). */
  function ParseCommandLine(args: seq<string>, env: Environment): Outcome {
    ParseFrom(args, 0, DefaultConfig(env))
  }

  /** The argument loop of server.js, lines 25-153. */
  method ParseArgs(args: seq<string>, env: Environment) returns (outcome: Outcome)
    ensures outcome == ParseCommandLine(args, env)
  {
    var config := DefaultConfig(env);
    var i := 0;
    while i < |args|
      invariant ParseFrom(args, i, config) == ParseCommandLine(args, env)
      decreases |args| - i
    {
      match FlagOf(args[i]) {
        case HelpFlag =>
          return Exit(0, Help);
        case ListFlag =>
          return ListPorts;
        case PortFlag =>
          var port := ParseArgument(Next(args, i));
          i := i + 1;
          if !(port.Some? && port.value > 0) {
            return Exit(2, BadPortNumber);
          }
          config := config.(port := port.value);
        case ModeFlag =>
          config := config.(mode := Next(args, i));
          i := i + 1;
        case PrefixFlag =>
          config := config.(prefix := Next(args, i));
          i := i + 1;
        case NoListFlag =>
          config := config.(permissions := config.permissions.(list := false));
        case NoReadFlag =>
          config := config.(permissions := config.permissions.(read := false));
        case NoWriteFlag =>
          config := config.(permissions := config.permissions.(write := false));
        case NoUiFlag =>
          config := config.(permissions := config.permissions.(ui := false));
        case NoWsFlag =>
          config := config.(permissions := config.permissions.(ws := false));
        case AllowPortsFlag =>
          var ports := Next(args, i);
          i := i + 1;
          if ports.None? || ports.value == "" {
            return Exit(2, MissingAllowPorts);
          }
          config := config.(permissions := config.permissions.(allowedPorts := Some(Split(ports.value, ','))));
        case ConfigFlag =>
          var ssp := Next(args, i);
          i := i + 1;
          if ssp.None? {
            return Crash(MissingConfigValue);
          }
          var parsed := ParseConfigOption(ssp.value);
          if parsed.Failure? {
            return Crash(parsed.error);
          }
          config := config.(portname := Some(parsed.value.portname), options := Some(parsed.value.options));
        case VerboseFlag =>
          config := config.(verbose := true);
        case DebugFlag =>
          config := config.(debug := true, verbose := true);
        case VersionFlag =>
          return Exit(0, Version);
        case UnknownFlag =>
          return Exit(2, UnknownArgument(args[i]));
      }
      i := i + 1;
    }
    return Run(config);
  }

  // ---------------------------------------------------------------------
  // Properties of the command line
  // ---------------------------------------------------------------------

  /** An argument from index `i` on selects case `f`. */
  predicate Mentions(args: seq<string>, i: nat, f: Flag) {
    exists k | i <= k < |args| :: FlagOf(args[k]) == f
  }

  /** Only the exact spelling `--no-read` selects its case (likewise for the other four). */
  lemma PermissionFlags(a: string)
    ensures FlagOf(a) == NoListFlag <==> a == "--no-list"
    ensures FlagOf(a) == NoReadFlag <==> a == "--no-read"
    ensures FlagOf(a) == NoWriteFlag <==> a == "--no-write"
    ensures FlagOf(a) == NoUiFlag <==> a == "--no-ui"
    ensures FlagOf(a) == NoWsFlag <==> a == "--no-ws"
  {
  }

  /**
   * What one option changes in the permissions: each is turned off only by
   * its own `--no-X`.
   */
  lemma ParseOptionEffect(args: seq<string>, i: nat, cfg: Config)
    requires i < |args| && ParseOption(args, i, cfg).Continue?
    ensures var c := ParseOption(args, i, cfg).config.permissions;
      var f := FlagOf(args[i]);
      && c.list == (cfg.permissions.list && f != NoListFlag)
      && c.read == (cfg.permissions.read && f != NoReadFlag)
      && c.write == (cfg.permissions.write && f != NoWriteFlag)
      && c.ui == (cfg.permissions.ui && f != NoUiFlag)
      && c.ws == (cfg.permissions.ws && f != NoWsFlag)
  {
    match FlagOf(args[i])
    case ConfigFlag =>
      ConfigOptionEffect(args, i, cfg);
    case _ =>
  }

  /** The allow-list changes only to the non-empty result of splitting the next argument. */
  lemma AllowListEffect(args: seq<string>, i: nat, cfg: Config)
    requires i < |args| && ParseOption(args, i, cfg).Continue?
    ensures var a := ParseOption(args, i, cfg).config.permissions.allowedPorts;
      a == cfg.permissions.allowedPorts || (a.Some? && a.value != [] && FlagOf(args[i]) == AllowPortsFlag)
  {
    match FlagOf(args[i])
    case AllowPortsFlag =>
      assert |Split(Next(args, i).value, ',')| >= 1;
    case ConfigFlag =>
      ConfigOptionEffect(args, i, cfg);
    case _ =>
  }

  /** `--config` sets the serial port name and options and nothing else. */
  lemma ConfigOptionEffect(args: seq<string>, i: nat, cfg: Config)
    requires i < |args| && ParseOption(args, i, cfg).Continue? && FlagOf(args[i]) == ConfigFlag
    ensures var c := ParseOption(args, i, cfg).config;
      c == cfg.(portname := c.portname, options := c.options)
  {
    var sc := ParseSerialConfig(Next(args, i).value).value;
    assert ParseOption(args, i, cfg).config == cfg.(portname := Some(sc.portname), options := Some(sc.options));
  }

  /** The port number changes only through `-p`/`--port`, and only to a number above 0. */
  lemma PortOptionEffect(args: seq<string>, i: nat, cfg: Config)
    requires i < |args| && ParseOption(args, i, cfg).Continue?
    ensures var c := ParseOption(args, i, cfg).config;
      c.port == cfg.port || (c.port > 0 && FlagOf(args[i]) == PortFlag)
  {
    if FlagOf(args[i]) == ConfigFlag {
      ConfigOptionEffect(args, i, cfg);
    }
  }

  /**
   * A configuration the command line runs with always has a port number
   * above 0: the default is 5147 and `--port` refuses anything else.
   */
  lemma {:induction false} RunHasPositivePort(args: seq<string>, i: nat, cfg: Config)
    requires cfg.port > 0
    requires ParseFrom(args, i, cfg).Run?
    ensures ParseFrom(args, i, cfg).config.port > 0
    decreases |args| - i
  {
    if i < |args| {
      var step := ParseOption(args, i, cfg);
      if step.Continue? {
        PortOptionEffect(args, i, cfg);
        RunHasPositivePort(args, step.next, step.config);
      }
    }
  }

  /**
   * A permission is off in the running configuration only if it was off
   * before or the matching `--no-X` option appears among the arguments.
   */
  lemma {:induction false} PermissionOffOnlyByOption(args: seq<string>, i: nat, cfg: Config)
    requires ParseFrom(args, i, cfg).Run?
    ensures var p := ParseFrom(args, i, cfg).config.permissions;
      && (!p.list ==> !cfg.permissions.list || Mentions(args, i, NoListFlag))
      && (!p.read ==> !cfg.permissions.read || Mentions(args, i, NoReadFlag))
      && (!p.write ==> !cfg.permissions.write || Mentions(args, i, NoWriteFlag))
      && (!p.ui ==> !cfg.permissions.ui || Mentions(args, i, NoUiFlag))
      && (!p.ws ==> !cfg.permissions.ws || Mentions(args, i, NoWsFlag))
    decreases |args| - i
  {
    if i < |args| {
      var step := ParseOption(args, i, cfg);
      if step.Continue? {
        ParseOptionEffect(args, i, cfg);
        PermissionOffOnlyByOption(args, step.next, step.config);
        forall f | Mentions(args, step.next, f) || FlagOf(args[i]) == f
          ensures Mentions(args, i, f)
        {
          if FlagOf(args[i]) != f {
            var k :| step.next <= k < |args| && FlagOf(args[k]) == f;
          }
        }
      }
    }
  }

  /** So with no `--no-X` option every permission is on. */
  lemma AllPermissionsByDefault(args: seq<string>, env: Environment)
    requires ParseCommandLine(args, env).Run?
    requires forall a | a in args :: a !in ["--no-list", "--no-read", "--no-write", "--no-ui", "--no-ws"]
    ensures var p := ParseCommandLine(args, env).config.permissions;
      p.list && p.read && p.write && p.ui && p.ws
  {
    forall k | 0 <= k < |args|
      ensures FlagOf(args[k]) !in {NoListFlag, NoReadFlag, NoWriteFlag, NoUiFlag, NoWsFlag}
    {
      assert args[k] in args;
      PermissionFlags(args[k]);
    }
    PermissionOffOnlyByOption(args, 0, DefaultConfig(env));
  }

  /**
   * An allow-list from the command line is never empty: `split` always
   * yields at least one entry.
   */
  lemma {:induction false} AllowListNeverEmpty(args: seq<string>, i: nat, cfg: Config)
    requires cfg.permissions.allowedPorts.None? || cfg.permissions.allowedPorts.value != []
    requires ParseFrom(args, i, cfg).Run?
    ensures var a := ParseFrom(args, i, cfg).config.permissions.allowedPorts; a.None? || a.value != []
    decreases |args| - i
  {
    if i < |args| {
      var step := ParseOption(args, i, cfg);
      if step.Continue? {
        AllowListEffect(args, i, cfg);
        AllowListNeverEmpty(args, step.next, step.config);
      }
    }
  }

  /**
   * With no arguments the server runs from the command line on port 5147 in
   * http mode under "/api/v1", with every permission on, no allow-list and
   * no serial configuration; the two environment flags set verbose and debug.
   */
  lemma NoArguments(env: Environment)
    ensures ParseCommandLine([], env).Run?
    ensures var c := ParseCommandLine([], env).config;
      && c.cli && c.port == 5147 && c.mode == Some("http") && c.prefix == Some("/api/v1")
      && c.verbose == (env.nodeVerbose in {Some("true"), Some("1")})
      && c.debug == (env.nodeDebug in {Some("true"), Some("1")})
      && c.permissions == Permissions(true, true, true, true, true, None)
      && c.portname.None? && c.options.None?
  {
  }

  /** A port option reads the next argument as a number. */
  lemma PortOption(args: seq<string>, i: nat, cfg: Config)
    requires i < |args| && FlagOf(args[i]) == PortFlag
    ensures var p := ParseArgument(Next(args, i));
      ParseOption(args, i, cfg) ==
        if p.Some? && p.value > 0 then Continue(i + 2, cfg.(port := p.value)) else Stop(Exit(2, BadPortNumber))
  {
  }

  /**
   * Of two port options (`-p a --port b`, in any spelling) the later wins,
   * provided both values are numbers above 0; a bad value in either exits
   * with status 2.
   */
  lemma LastPortWins(args: seq<string>, env: Environment)
    requires |args| == 4 && FlagOf(args[0]) == PortFlag && FlagOf(args[2]) == PortFlag
    ensures var pa, pb := ParseInt(args[1]), ParseInt(args[3]);
      ParseCommandLine(args, env) ==
        if !(pa.Some? && pa.value > 0) || !(pb.Some? && pb.value > 0) then Exit(2, BadPortNumber)
        else Run(DefaultConfig(env).(port := pb.value))
  {
    var c0 := DefaultConfig(env);
    PortOption(args, 0, c0);
    var pa := ParseInt(args[1]);
    if pa.Some? && pa.value > 0 {
      var c1 := c0.(port := pa.value);
      assert ParseCommandLine(args, env) == ParseFrom(args, 2, c1);
      PortOption(args, 2, c1);
      var pb := ParseInt(args[3]);
      if pb.Some? && pb.value > 0 {
        assert ParseFrom(args, 2, c1) == ParseFrom(args, 4, c1.(port := pb.value));
      }
    }
  }

  /** The spellings the switch knows; every other argument is unknown. */
  const KnownArguments: set<string> := {
    "--help", "--list", "-p", "--port", "-m", "--mode", "--prefix", "--no-list", "--no-read",
    "--no-write", "--no-ui", "--no-ws", "--allow-ports", "--config", "--verbose", "--debug", "--version"
  }

  /** An unknown argument ends the loop with status 2, naming the argument. */
  lemma UnknownArgumentExits(args: seq<string>, i: nat, cfg: Config)
    requires i < |args| && args[i] !in KnownArguments
    ensures ParseOption(args, i, cfg) == Stop(Exit(2, UnknownArgument(args[i])))
    ensures ParseFrom(args, i, cfg) == Exit(2, UnknownArgument(args[i]))
  {
    assert FlagOf(args[i]) == UnknownFlag;
  }

  /** A command line that starts with an unknown argument exits whatever follows. */
  lemma UnknownFirstArgument(a: string, rest: seq<string>, env: Environment)
    requires a !in KnownArguments
    ensures ParseCommandLine([a] + rest, env) == Exit(2, UnknownArgument(a))
  {
    UnknownArgumentExits([a] + rest, 0, DefaultConfig(env));
  }

  /**
   * `--allow-ports` needs a non-empty value; the list it sets is that value
   * cut at the commas, and joining it again gives the value back.
   */
  lemma AllowPortsOption(args: seq<string>, i: nat, cfg: Config)
    requires i < |args| && FlagOf(args[i]) == AllowPortsFlag
    ensures i + 1 >= |args| || args[i + 1] == "" ==> ParseOption(args, i, cfg) == Stop(Exit(2, MissingAllowPorts))
    ensures i + 1 < |args| && args[i + 1] != "" ==>
      var r := ParseOption(args, i, cfg);
      && r.Continue? && r.next == i + 2
      && r.config == cfg.(permissions := r.config.permissions)
      && r.config.permissions == cfg.permissions.(allowedPorts := r.config.permissions.allowedPorts)
      && r.config.permissions.allowedPorts.Some?
      && Join(r.config.permissions.allowedPorts.value, ',') == args[i + 1]
      && forall k | 0 <= k < |r.config.permissions.allowedPorts.value| :: ',' !in r.config.permissions.allowedPorts.value[k]
  {
    if i + 1 < |args| && args[i + 1] != "" {
      var list := Split(args[i + 1], ',');
      assert ParseOption(args, i, cfg).config.permissions.allowedPorts == Some(list);
    }
  }

  /** `--allow-ports` as the last argument, or with an empty value, exits with status 2. */
  lemma AllowPortsMissing(rest: seq<string>, env: Environment)
    ensures ParseCommandLine(["--allow-ports"], env) == Exit(2, MissingAllowPorts)
    ensures ParseCommandLine(["--allow-ports", ""] + rest, env) == Exit(2, MissingAllowPorts)
  {
    AllowPortsOption(["--allow-ports"], 0, DefaultConfig(env));
    AllowPortsOption(["--allow-ports", ""] + rest, 0, DefaultConfig(env));
  }

  /** `--debug` turns on both debug and verbose output, and changes nothing else. */
  lemma DebugOption(args: seq<string>, i: nat, cfg: Config)
    requires i < |args| && args[i] == "--debug"
    ensures ParseOption(args, i, cfg) == Continue(i + 1, cfg.(debug := true, verbose := true))
  {
    assert FlagOf(args[i]) == DebugFlag;
  }

  /** No option turns verbose or debug output off again. */
  lemma {:induction false} OutputFlagsStayOn(args: seq<string>, i: nat, cfg: Config)
    requires ParseFrom(args, i, cfg).Run?
    ensures var c := ParseFrom(args, i, cfg).config;
      (cfg.verbose ==> c.verbose) && (cfg.debug ==> c.debug)
    decreases |args| - i
  {
    if i < |args| {
      var step := ParseOption(args, i, cfg);
      if step.Continue? {
        if FlagOf(args[i]) == ConfigFlag {
          ConfigOptionEffect(args, i, cfg);
        }
        OutputFlagsStayOn(args, step.next, step.config);
      }
    }
  }

  /** A command line that starts with `--debug` runs, if at all, with debug and verbose output. */
  lemma DebugFirst(rest: seq<string>, env: Environment)
    requires ParseCommandLine(["--debug"] + rest, env).Run?
    ensures var c := ParseCommandLine(["--debug"] + rest, env).config; c.debug && c.verbose
  {
    var args := ["--debug"] + rest;
    var c0 := DefaultConfig(env);
    DebugOption(args, 0, c0);
    OutputFlagsStayOn(args, 1, c0.(debug := true, verbose := true));
  }

  // ---------------------------------------------------------------------
  // The mode switch
  // ---------------------------------------------------------------------

  datatype Transport = UdpTransport | TcpTransport

  /** What the switch on `config.mode` starts. */
  datatype Launch = StartRelay(transport: Transport, startup: Startup) | StartHttp | StartEcho | LaunchExit(status: int)

  /**
   * udp and tcp start a relay, whose failed checks exit with status 1; http
   * starts the web server; echo starts its server unless the serial port
   * name is missing (lib/echo.js throws, and the exception exits with 1);
   * any other mode, or none, exits with 2.
   */
  function Dispatch(cfg: Config): (r: Launch)
    ensures r == LaunchExit(2) <==> cfg.mode !in {Some("udp"), Some("tcp"), Some("http"), Some("echo")}
    ensures r == StartHttp <==> cfg.mode == Some("http")
    ensures r.StartRelay? ==> Validate(Some(cfg)) == Success(r.startup)
    ensures r.StartRelay? <==> cfg.mode in {Some("udp"), Some("tcp")} && Validate(Some(cfg)).Success?
    ensures r.StartRelay? ==> (r.transport == UdpTransport <==> cfg.mode == Some("udp"))
    ensures cfg.mode in {Some("udp"), Some("tcp")} && Validate(Some(cfg)).Failure? ==> r == LaunchExit(1)
    ensures cfg.mode == Some("echo") && cfg.portname.GetOr("") == "" ==> r == LaunchExit(1)
    ensures r == LaunchExit(1) <==>
      || (cfg.mode in {Some("udp"), Some("tcp")} && Validate(Some(cfg)).Failure?)
      || (cfg.mode == Some("echo") && cfg.portname.GetOr("") == "")
    ensures r == StartEcho <==> cfg.mode == Some("echo") && cfg.portname.GetOr("") != ""
  {
    match cfg.mode
    case Some("udp") =>
      (match Validate(Some(cfg))
       case Failure(_) => LaunchExit(1)
       case Success(st) => StartRelay(UdpTransport, st))
    case Some("tcp") =>
      (match Validate(Some(cfg))
       case Failure(_) => LaunchExit(1)
       case Success(st) => StartRelay(TcpTransport, st))
    case Some("http") => StartHttp
    case Some("echo") => if cfg.portname.GetOr("") == "" then LaunchExit(1) else StartEcho
    case _ => LaunchExit(2)
  }

  /**
   * Started from the command line, a relay or the echo server can only fail
   * its checks for a missing serial port name. The port-number check cannot
   * fail there.
   */
  lemma StartFailsOnlyWithoutPortName(args: seq<string>, env: Environment)
    requires ParseCommandLine(args, env).Run?
    ensures var c := ParseCommandLine(args, env).config;
      Dispatch(c) == LaunchExit(1) <==> c.mode in {Some("udp"), Some("tcp"), Some("echo")} && c.portname.GetOr("") == ""
  {
    RunHasPositivePort(args, 0, DefaultConfig(env));
  }

  // ---------------------------------------------------------------------
  // The received fan-out
  // ---------------------------------------------------------------------

  /** One `ws.send(e.data)`. */
  datatype WsSend = WsSend(to: WebSocketId, data: seq<Byte>)

  /**
   * The `received` listener: the chunk is sent to every data-line client of
   * the record now held under the name, in list order, and only while
   * reading is permitted. A missing record or list sends nothing.
   */
  method ForwardReceived(spm: Registry, e: Received, canRead: bool) returns (sends: seq<WsSend>)
    ensures e.port !in spm.ports || spm.ports[e.port].websockets.None? || !canRead ==> sends == []
    ensures e.port in spm.ports && spm.ports[e.port].websockets.Some? && canRead ==>
      var list := spm.ports[e.port].websockets.value;
      && |sends| == |list|
      && forall k | 0 <= k < |list| :: sends[k] == WsSend(list[k], e.data)
  {
    sends := [];
    if e.port !in spm.ports {
      return;
    }
    var port := spm.ports[e.port];
    if port.websockets.None? {
      return;
    }
    var websockets := port.websockets.value;
    if canRead {
      for i := 0 to |websockets|
        invariant |sends| == i
        invariant forall k | 0 <= k < i :: sends[k] == WsSend(websockets[k], e.data)
      {
        sends := sends + [WsSend(websockets[i], e.data)];
      }
    }
  }
}
