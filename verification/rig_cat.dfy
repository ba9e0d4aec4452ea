/**
 * The CAT dispatcher: the one rig control object (globals.rig_cat) and the
 * functions that select, configure, command and close it.
 *
 * The PyRigCat backends are not part of this model. A backend is known by
 * its NAME, and every call made to it is recorded in a trace; what the
 * backend answers (config_port's success, the responses of ascii_cmd and
 * setup_split) is a parameter of the operation that calls it.
 */
module RigCat {
  import opened Wrappers
  import opened PyText
  import opened PresetUtils
  import opened ConfigStore

  /** The section init_rig_cat reads the active connection from. */
  const CatSection := "CAT"

  /** RigName.FT817, RigName.FT991 and RigName.IC7000, the supported rigs. */
  const Ft817 := "FT-817"
  const Ft991 := "FT-991"
  const Ic7000 := "IC-7000"

  /** The NAME of the base PyRigCat object bound at start-up, which supports no rig. */
  const BaseName := "NONE"

  datatype Datasize = DataFive | DataSix | DataSeven | DataEight
  datatype ParityMode = ParityNone | ParityEven | ParityOdd
  datatype Stopbits = StopOne | StopOnePointFive | StopTwo

  /** The arguments of config_port. */
  datatype PortSettings = PortSettings(
    port: string, baudrate: int, datasize: Datasize, parity: ParityMode, stopbits: Stopbits)

  /** What happens to the rig control object, in order. */
  datatype Call =
    | Instantiate(name: string)     // globals.rig_cat = PyRigCat_<name>()
    | ConfigPort(settings: PortSettings)
    | InitRig
    | AsciiCmd(opcode: string, args: seq<string>)
    | SetupSplit(vfoaHz: int, modea: string, split: bool, vfobHz: int, modeb: string)
    | Close

  /** The supported rig an upper-cased name denotes, or None. */
  function SupportedRig(rig: string): (r: Option<string>)
    ensures r.Some? <==> rig in {Ft817, Ft991, Ic7000}
    ensures r.Some? ==> r.value == rig
  {
    if rig == Ft817 then Some(Ft817)
    else if rig == Ft991 then Some(Ft991)
    else if rig == Ic7000 then Some(Ic7000)
    else None
  }

  /** The rig a requested name selects: the name is upper-cased first. */
  function SelectRig(requested: string): Option<string> {
    SupportedRig(Upper(requested))
  }

  /** The data bits: '5', '6', '7', anything else eight. */
  function DatasizeOf(data: string): Datasize {
    if data == "5" then DataFive
    else if data == "6" then DataSix
    else if data == "7" then DataSeven
    else DataEight
  }

  /** The parity: 'EVEN', 'ODD', anything else none. */
  function ParityOf(parity: string): ParityMode {
    if parity == "EVEN" then ParityEven
    else if parity == "ODD" then ParityOdd
    else ParityNone
  }

  /** The stop bits: '1.5', '2', anything else one. */
  function StopbitsOf(stop: string): Stopbits {
    if stop == "1.5" then StopOnePointFive
    else if stop == "2" then StopTwo
    else StopOne
  }

  /** The text the configuration dialog offers for each setting. */
  function DatasizeText(d: Datasize): string {
    match d
    case DataFive => "5"
    case DataSix => "6"
    case DataSeven => "7"
    case DataEight => "8"
  }

  function ParityText(p: ParityMode): string {
    match p
    case ParityNone => "NONE"
    case ParityEven => "EVEN"
    case ParityOdd => "ODD"
  }

  function StopbitsText(s: Stopbits): string {
    match s
    case StopOne => "1"
    case StopOnePointFive => "1.5"
    case StopTwo => "2"
  }

  /** Every setting is reached from its own text, so the mapping loses no choice. */
  lemma SettingsFromText(d: Datasize, p: ParityMode, s: Stopbits)
    ensures DatasizeOf(DatasizeText(d)) == d
    ensures ParityOf(ParityText(p)) == p
    ensures StopbitsOf(StopbitsText(s)) == s
  {
  }

  /** Only the exact texts select the non-default settings; anything else gives the defaults. */
  lemma SettingsDefaults(data: string, parity: string, stop: string)
    ensures DatasizeOf(data) != DataEight <==> data in {"5", "6", "7"}
    ensures ParityOf(parity) != ParityNone <==> parity in {"EVEN", "ODD"}
    ensures StopbitsOf(stop) != StopOne <==> stop in {"1.5", "2"}
  {
  }

  /** Matching is case-insensitive: a name and its upper-cased form select the same rig. */
  lemma SelectRigIgnoresCase(requested: string)
    ensures SelectRig(Upper(requested)) == SelectRig(requested)
  {
    UpperIdempotent(requested);
  }

  /** How init_rig_cat ends: its return value, or the exception it raises. */
  datatype InitOutcome = InitOutcome(calls: seq<Call>, result: Result<bool, PyError>, name: string)

  /** The calls after the selection: none when int(baud) raised, else config_port, then init_rig if it succeeded. */
  function PortCalls(port: string, baud: Result<int, PyError>, data: string, parity: string, stop: string,
                     portOk: bool): (calls: seq<Call>)
    ensures forall i :: 0 <= i < |calls| ==> !calls[i].Instantiate?
  {
    match baud
    case Failure(_) => []
    case Success(b) =>
      var settings := PortSettings(port, b, DatasizeOf(data), ParityOf(parity), StopbitsOf(stop));
      [ConfigPort(settings)] + (if portOk then [InitRig] else [])
  }

  /** init_rig_cat's result once a rig is selected: config_port's answer, or int(baud)'s exception. */
  function PortResult(baud: Result<int, PyError>, portOk: bool): Result<bool, PyError> {
    match baud
    case Success(_) => Success(portOk)
    case Failure(e) => Failure(e)
  }

  /**
   * What init_rig_cat does, given the store, the NAME of the bound object
   * and what config_port will answer: the calls made, the value returned
   * (or the ValueError of int(baud)) and the NAME bound afterwards.
   */
  function InitPlan(c: Contents, bound: string, portOk: bool): InitOutcome {
    match SelectRig(Lookup(c, CatSection, Rig))
    case None => InitOutcome([], Success(false), bound)
    case Some(rig) =>
      var select := if bound != rig then [Instantiate(rig)] else [];
      var baud := Int(PyStr(Lookup(c, CatSection, Baud)));
      var calls := PortCalls(Lookup(c, CatSection, Port), baud, Lookup(c, CatSection, Data),
                             Lookup(c, CatSection, Parity), Lookup(c, CatSection, Stop), portOk);
      InitOutcome(select + calls, PortResult(baud, portOk), rig)
  }

  /** An unsupported rig returns False before the object or the port is touched. */
  lemma UnsupportedRigTouchesNothing(c: Contents, bound: string, portOk: bool)
    requires SelectRig(Lookup(c, CatSection, Rig)).None?
    ensures InitPlan(c, bound, portOk) == InitOutcome([], Success(false), bound)
  {
  }

  /**
   * The object is replaced exactly when the bound NAME differs from the
   * selected rig, and then before any other call; afterwards the selected
   * rig is bound.
   */
  lemma ReplacedOnlyOnNameChange(c: Contents, bound: string, portOk: bool)
    requires SelectRig(Lookup(c, CatSection, Rig)).Some?
    ensures var rig := SelectRig(Lookup(c, CatSection, Rig)).value;
            var plan := InitPlan(c, bound, portOk);
            && plan.name == rig
            && (Instantiate(rig) in plan.calls <==> bound != rig)
            && (bound != rig ==> plan.calls[0] == Instantiate(rig))
            && (forall i :: 0 < i < |plan.calls| ==> !plan.calls[i].Instantiate?)
  {
  }

  /** The first successful selection after start-up always instantiates. */
  lemma FirstSelectionInstantiates(c: Contents, portOk: bool)
    requires SelectRig(Lookup(c, CatSection, Rig)).Some?
    ensures InitPlan(c, BaseName, portOk).calls[0].Instantiate?
  {
  }

  /**
   * init_rig is called exactly when config_port succeeds, and then the
   * result is True; when it fails the result is False. Both need a
   * supported rig and a baud rate int() accepts.
   */
  lemma InitRigIffPortOk(c: Contents, bound: string, portOk: bool)
    ensures var plan := InitPlan(c, bound, portOk);
            InitRig in plan.calls <==>
              (&& SelectRig(Lookup(c, CatSection, Rig)).Some?
               && Int(PyStr(Lookup(c, CatSection, Baud))).Success?
               && portOk)
    ensures var plan := InitPlan(c, bound, portOk);
            plan.result.Success? ==> plan.result.value == (InitRig in plan.calls)
  {
  }

  /** int(baud) has no fallback: a baud rate int() rejects escapes as ValueError, with no port call. */
  lemma BadBaudRaises(c: Contents, bound: string, portOk: bool)
    requires SelectRig(Lookup(c, CatSection, Rig)).Some?
    requires ParseInt(Lookup(c, CatSection, Baud)).None?
    ensures InitPlan(c, bound, portOk).result == Failure(ValueError)
    ensures forall k :: 0 <= k < |InitPlan(c, bound, portOk).calls| ==>
              InitPlan(c, bound, portOk).calls[k].Instantiate?
  {
  }

  /** The opcode and argument list send_rig_cat_cmd passes to ascii_cmd. */
  function CommandTokens(cmd: string): (r: (string, seq<string>))
    ensures |r.1| >= 1
  {
    var parts := SplitOn(Strip(cmd), ' ');
    var padded := if |parts| < 2 then parts + [""] else parts;
    (padded[0], padded[1..])
  }

  /**
   * The tokens are the stripped command cut at every single space: joined
   * back they give the command, with the one '' argument added when there
   * is only an opcode. No token holds a space.
   */
  lemma CommandTokensRejoin(cmd: string)
    ensures var (op, args) := CommandTokens(cmd);
            && ' ' !in op
            && (forall i :: 0 <= i < |args| ==> ' ' !in args[i])
            && (if args == [""] then op == Strip(cmd) || Join([op] + args, ' ') == Strip(cmd)
                else Join([op] + args, ' ') == Strip(cmd))
  {
    var parts := SplitOn(Strip(cmd), ' ');
    JoinSplit(Strip(cmd), ' ');
    if |parts| >= 2 {
      assert [parts[0]] + parts[1..] == parts;
    } else {
      assert Join(parts, ' ') == parts[0];
    }
  }

  /** A command with no space in it is sent as its stripped opcode with the single argument ''. */
  lemma SingleTokenCommand(cmd: string)
    requires ' ' !in Strip(cmd)
    ensures CommandTokens(cmd) == (Strip(cmd), [""])
  {
    JoinSplit(Strip(cmd), ' ');
  }

  /** The one backend call send_rig_cat_cmd(cmd) makes. */
  function AsciiCall(cmd: string): Call {
    AsciiCmd(CommandTokens(cmd).0, CommandTokens(cmd).1)
  }

  /** The opcode is empty exactly when the command is blank: a blank command is still sent, as ascii_cmd('', ['']). */
  lemma OpcodeEmptyIffBlank(cmd: string)
    ensures CommandTokens(cmd).0 == "" <==> Strip(cmd) == ""
    ensures Strip(cmd) == "" ==> AsciiCall(cmd) == AsciiCmd("", [""])
  {
    SplitFirstEmpty(Strip(cmd), ' ');
    if Strip(cmd) != "" {
      assert !IsSpace(Strip(cmd)[0]);
    }
  }

  /** Stripping a command before sending it changes nothing: send_rig_cat_cmd strips it again. */
  lemma AsciiCallOfStripped(cmd: string)
    ensures AsciiCall(Strip(cmd)) == AsciiCall(cmd)
  {
    StripIdempotent(cmd);
  }

  /** A command of two words is sent as that opcode with that one argument. */
  lemma TwoWordCommand(op: string, arg: string)
    requires op != "" && arg != "" && ' ' !in op && ' ' !in arg
    requires !IsSpace(op[0]) && !IsSpace(arg[|arg| - 1])
    ensures AsciiCall(op + " " + arg) == AsciiCmd(op, [arg])
  {
    var cmd := op + " " + arg;
    assert cmd == op + [' '] + arg;
    assert cmd[0] == op[0] && cmd[|cmd| - 1] == arg[|arg| - 1];
    StripTrimmed(cmd);
    SplitOnAtSep(op, arg, ' ');
    SplitOnWithoutSep(op, ' ');
    SplitOnWithoutSep(arg, ' ');
    assert SplitOn(cmd, ' ') == [op, arg];
  }

  /** A command of three words is sent as that opcode with the other two as arguments. */
  lemma ThreeWordCommand(op: string, a: string, b: string)
    requires op != "" && b != "" && ' ' !in op && ' ' !in a && ' ' !in b
    requires !IsSpace(op[0]) && !IsSpace(b[|b| - 1])
    ensures AsciiCall(op + " " + a + " " + b) == AsciiCmd(op, [a, b])
  {
    var head := op + " " + a;
    var cmd := op + " " + a + " " + b;
    assert head == op + [' '] + a;
    assert cmd == head + [' '] + b;
    assert cmd[0] == op[0] && cmd[|cmd| - 1] == b[|b| - 1];
    StripTrimmed(cmd);
    SplitOnAtSep(head, b, ' ');
    SplitOnAtSep(op, a, ' ');
    SplitOnWithoutSep(op, ' ');
    SplitOnWithoutSep(a, ' ');
    SplitOnWithoutSep(b, ' ');
    assert SplitOn(cmd, ' ') == [op, a, b];
  }

  /** The rig control object: the bound backend's NAME and every call made so far. */
  class RigControl {
    var name: string
    var trace: seq<Call>

    /** globals.rig_cat = PyRigCat(): the base object, nothing called yet. */
    constructor ()
      ensures name == BaseName && trace == []
    {
      name := BaseName;
      trace := [];
    }

    /**
     * init_rig_cat(): select the rig named in section CAT, re-instantiating
     * only on a change of NAME, convert the serial settings, configure the
     * port and, if that succeeds, initialise the rig.
     */
    method InitRigCat(cfg: ConfigFile, portOk: bool) returns (r: Result<bool, PyError>)
      modifies this
      ensures var plan := InitPlan(cfg.contents, old(name), portOk);
              r == plan.result && name == plan.name && trace == old(trace) + plan.calls
    {
      var rig := Upper(cfg.Get(CatSection, Rig));
      var port := cfg.Get(CatSection, Port);
      var baud := cfg.Get(CatSection, Baud);
      var data := cfg.Get(CatSection, Data);
      var parity := cfg.Get(CatSection, Parity);
      var stop := cfg.Get(CatSection, Stop);
      ghost var before := trace;
      ghost var select := if name != rig then [Instantiate(rig)] else [];
      var supported := Bind(rig);
      if !supported {
        return Success(false);
      }
      r := ConfigurePort(port, baud, data, parity, stop, portOk);
      ghost var calls := PortCalls(port, Int(PyStr(baud)), data, parity, stop, portOk);
      assert trace == before + select + calls;
      AppendAssoc(before, select, calls);
    }

    /** The rig selection of init_rig_cat, on the upper-cased name: False for an unsupported rig. */
    method Bind(rig: string) returns (supported: bool)
      modifies this
      ensures supported <==> SupportedRig(rig).Some?
      ensures supported ==> name == rig && trace == old(trace) + (if old(name) != rig then [Instantiate(rig)] else [])
      ensures !supported ==> name == old(name) && trace == old(trace)
    {
      if rig == Ft817 {
        if name != Ft817 {
          name := Ft817;
          trace := trace + [Instantiate(Ft817)];
        }
      } else if rig == Ft991 {
        if name != Ft991 {
          name := Ft991;
          trace := trace + [Instantiate(Ft991)];
        }
      } else if rig == Ic7000 {
        if name != Ic7000 {
          name := Ic7000;
          trace := trace + [Instantiate(Ic7000)];
        }
      } else {
        return false;
      }
      supported := true;
    }

    /** The rest of init_rig_cat: int(baud), the mapped settings, config_port, then init_rig if it succeeded. */
    method ConfigurePort(port: string, baud: string, data: string, parity: string, stop: string, portOk: bool)
      returns (r: Result<bool, PyError>)
      modifies this
      ensures name == old(name)
      ensures r == PortResult(Int(PyStr(baud)), portOk)
      ensures trace == old(trace) + PortCalls(port, Int(PyStr(baud)), data, parity, stop, portOk)
    {
      var baudT: int;
      match Int(PyStr(baud)) {
        case Failure(e) =>
          return Failure(e);
        case Success(b) =>
          baudT := b;
      }
      var settings := PortSettings(port, baudT, DatasizeOf(data), ParityOf(parity), StopbitsOf(stop));
      trace := trace + [ConfigPort(settings)];
      if portOk {
        trace := trace + [InitRig];
      }
      r := Success(portOk);
    }

    /**
     * send_rig_cat_cmd(cmd): cut the stripped command at single spaces and
     * send the first token as opcode with the rest as arguments; the
     * response is ascii_cmd's. The ERROR branch cannot be taken.
     */
    method SendRigCatCmd(cmd: string, response: string) returns (resp: string)
      modifies this
      ensures resp == response
      ensures name == old(name)
      ensures trace == old(trace) + [AsciiCall(cmd)]
    {
      var cmdList := SplitOn(Strip(cmd), ' ');
      if |cmdList| > 0 {
        if |cmdList| < 2 {
          cmdList := cmdList + [""];
        }
        trace := trace + [AsciiCmd(cmdList[0], cmdList[1..])];
        resp := response;
      } else {
        assert false;
      }
    }

    /** setup_split(...): one backend call, its response returned. */
    method SetupSplitCall(vfoaHz: int, modea: string, split: bool, vfobHz: int, modeb: string,
                          response: string) returns (resp: string)
      modifies this
      ensures resp == response && name == old(name)
      ensures trace == old(trace) + [SetupSplit(vfoaHz, modea, split, vfobHz, modeb)]
    {
      trace := trace + [SetupSplit(vfoaHz, modea, split, vfobHz, modeb)];
      resp := response;
    }

    /**
     * close_rig_cat(): close the bound object. One is always bound (the base
     * object from start-up on), so close() is always called, and the
     * object stays bound.
     */
    method CloseRigCat()
      modifies this
      ensures name == old(name) && trace == old(trace) + [Close]
    {
      trace := trace + [Close];
    }
  }
}
