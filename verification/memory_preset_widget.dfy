/**
 * WidgetMemoryPreset: the row of memory preset <id>: its description, its
 * frequency label and the button that tunes the rig to it.
 *
 * '{:0.6f}' formatting and the MHz to Hz conversion int(f * 1E6) are
 * floating point; they are parameters here (fmt and toHz).
 */
module MemoryPresetWidget {
  import opened Wrappers
  import opened PyText
  import opened PresetUtils
  import opened ConfigStore
  import opened MemoryPresets
  import opened RigCat

  /** The frequency label of update_widget: empty without a description, VFO-A, then '/VFO-B' in split. */
  function FreqLabel(desc: string, split: bool, vfoa: string, vfob: string): string {
    if |desc| > 0 then vfoa + (if split then "/" + vfob else "") else ""
  }

  /** The tone command of _on_left_click: 'TONE <config>', then ' <tone>' unless the config is 'OFF'. */
  function ToneCommand(ctcss: string, tone: int): (cmd: string)
    ensures |cmd| > 0
  {
    "TONE " + ctcss + (if ctcss != "OFF" then " " + IntToString(tone) else "")
  }

  /** The calls _send_cat_cmd makes: one send, unstripped, unless the command is empty. */
  function MemorySend(cmd: string): seq<Call> {
    if |cmd| > 0 then [AsciiCall(cmd)] else []
  }

  /** The calls _send_cat_cmd makes for the given commands, in order. */
  function MemorySends(cmds: seq<string>): seq<Call> {
    if cmds == [] then []
    else MemorySends(cmds[..|cmds| - 1]) + MemorySend(cmds[|cmds| - 1])
  }

  /** The commands a click sends after setup_split: the tone command, then command 1 to 6. */
  function ActionCommands(p: MemoryPreset): seq<string> {
    [ToneCommand(p.ctcssConfig, p.ctcssTone)] + p.commands
  }

  /** Without a description the label is empty, and with one it never is (given non-empty formatted texts). */
  lemma FreqLabelEmptyIff(desc: string, split: bool, vfoa: string, vfob: string)
    requires vfoa != []
    ensures FreqLabel(desc, split, vfoa, vfob) == "" <==> desc == ""
  {
  }

  /** The '/' of the VFO-B suffix appears exactly when the preset is split and described (given no '/' in the formatted texts). */
  lemma FreqLabelSlash(desc: string, split: bool, vfoa: string, vfob: string)
    requires '/' !in vfoa && '/' !in vfob
    ensures '/' in FreqLabel(desc, split, vfoa, vfob) <==> desc != "" && split
  {
    if desc != "" && split {
      assert (vfoa + "/" + vfob)[|vfoa|] == '/';
      assert vfoa + ("/" + vfob) == vfoa + "/" + vfob;
    } else if desc != "" {
      assert vfoa + "" == vfoa;
    }
  }

  /**
   * The tone command reaches ascii_cmd as opcode TONE with the config, and
   * the tone as a second argument unless the config is OFF.
   */
  lemma ToneCommandCall(ctcss: string, tone: int)
    requires ctcss in CtcssConfigs
    ensures ctcss == "OFF" ==> AsciiCall(ToneCommand(ctcss, tone)) == AsciiCmd("TONE", ["OFF"])
    ensures ctcss != "OFF" ==> AsciiCall(ToneCommand(ctcss, tone)) == AsciiCmd("TONE", [ctcss, IntToString(tone)])
  {
    if ctcss == "OFF" {
      assert ToneCommand(ctcss, tone) == "TONE" + " " + "OFF";
      TwoWordCommand("TONE", "OFF");
    } else {
      NoSpaceInIntText(tone);
      assert ToneCommand(ctcss, tone) == "TONE" + " " + ctcss + " " + IntToString(tone);
      ThreeWordCommand("TONE", ctcss, IntToString(tone));
    }
  }

  /**
   * init() does not validate the CTCSS config: a preset whose section has no
   * CTCSS_CONFIG sends 'TONE  <tone>', an empty first argument.
   */
  lemma UnconfiguredToneCommand(tone: int)
    ensures AsciiCall(ToneCommand("", tone)) == AsciiCmd("TONE", ["", IntToString(tone)])
  {
    NoSpaceInIntText(tone);
    assert ToneCommand("", tone) == "TONE" + " " + "" + " " + IntToString(tone);
    ThreeWordCommand("TONE", "", IntToString(tone));
  }

  /** The tone command is always sent; the six commands only when they are not empty. */
  lemma {:induction false} MemorySendsCount(cmds: seq<string>)
    ensures |MemorySends(cmds)| <= |cmds|
    ensures |MemorySends(cmds)| == |cmds| <==> forall i :: 0 <= i < |cmds| ==> cmds[i] != ""
  {
    if cmds != [] {
      var init, last := cmds[..|cmds| - 1], cmds[|cmds| - 1];
      MemorySendsCount(init);
      assert MemorySends(cmds) == MemorySends(init) + MemorySend(last);
      assert |MemorySend(last)| == if last == "" then 0 else 1;
      assert forall i :: 0 <= i < |init| ==> init[i] == cmds[i];
    }
  }

  /**
   * _send_cat_cmd does not strip: a command of blanks read back from the
   * file is still sent, as ascii_cmd('', ['']).
   */
  lemma BlankCommandSent(cmd: string)
    requires cmd != "" && Strip(cmd) == ""
    ensures MemorySend(cmd) == [AsciiCmd("", [""])]
  {
    OpcodeEmptyIffBlank(cmd);
  }

  /** A trace that grew by the calls for command k has grown by the calls for commands 0..k. */
  lemma TraceStep(t0: seq<Call>, cmds: seq<string>, k: nat, t1: seq<Call>)
    requires k < |cmds|
    requires t1 == t0 + MemorySends(cmds[..k]) + MemorySend(cmds[k])
    ensures t1 == t0 + MemorySends(cmds[..k + 1])
  {
    assert cmds[..k + 1][..k] == cmds[..k];
    AppendAssoc(t0, MemorySends(cmds[..k]), MemorySend(cmds[k]));
  }

  /** The row of one memory preset and the store object behind it. */
  class WidgetMemoryPreset {
    var id: int
    var descText: string
    var freqText: string
    var config: MemoryPresetStore

    ghost predicate Valid()
      reads this, config
    {
      config.Valid() && config.id == id
    }

    /** WidgetMemoryPreset(parent, id): int(id), 0 on any exception; the store object, which runs init(); then update_widget. */
    constructor (idArg: PyValue, cfg: ConfigFile, fmt: FloatText -> string)
      modifies cfg
      ensures Valid() && id == CoerceId(idArg) && fresh(config)
      ensures cfg.contents == InitEffect(old(cfg.contents), id)
      ensures cfg.disk == old(cfg.disk) && cfg.flushes == old(cfg.flushes)
      ensures config.Record() == if id > 0 then Hydrate(old(cfg.contents), id) else Defaults
      ensures descText == config.presetDesc
      ensures freqText == FreqLabel(config.presetDesc, config.split, fmt(config.vfoaFreqMhz), fmt(config.vfobFreqMhz))
    {
      id := CoerceId(idArg);
      descText := "";
      freqText := "";
      var n := CoerceId(idArg);
      config := new MemoryPresetStore(PyInt(n), cfg);
      new;
      UpdateWidget(fmt);
    }

    /** update_widget(): the description, and the frequency label built from it. */
    method UpdateWidget(fmt: FloatText -> string)
      modifies this
      ensures id == old(id) && config == old(config)
      ensures descText == config.presetDesc
      ensures freqText == FreqLabel(config.presetDesc, config.split, fmt(config.vfoaFreqMhz), fmt(config.vfobFreqMhz))
    {
      var desc := config.presetDesc;
      descText := desc;
      var split := config.split;
      var vfoa := fmt(config.vfoaFreqMhz);
      var vfob := fmt(config.vfobFreqMhz);
      var text := "";
      if |desc| > 0 {
        text := vfoa;
        if split {
          text := text + "/" + vfob;
        }
      }
      freqText := text;
    }

    /**
     * _on_left_click(): init_rig_cat(); when it returns True, one
     * setup_split call, then the tone command and commands 1 to 6, each
     * only if not empty; then close_rig_cat(). The ValueError of
     * init_rig_cat escapes before the close.
     */
    method OnLeftClick(rc: RigControl, cfg: ConfigFile, portOk: bool, toHz: FloatText -> int,
                       splitReply: string, reply: string) returns (outcome: Outcome)
      requires Valid()
      modifies rc
      ensures var plan := InitPlan(cfg.contents, old(rc.name), portOk);
              var p := config.Record();
              && rc.name == plan.name
              && (plan.result.Failure? ==>
                    outcome == Raised(plan.result.error) && rc.trace == old(rc.trace) + plan.calls)
              && (plan.result.Success? ==>
                    && outcome == Returned
                    && rc.trace == old(rc.trace) + plan.calls
                                   + (if plan.result.value
                                      then [SetupSplit(toHz(p.vfoaFreqMhz), p.modea, p.split, toHz(p.vfobFreqMhz), p.modeb)]
                                           + MemorySends(ActionCommands(p))
                                      else [])
                                   + [Close])
    {
      var r := rc.InitRigCat(cfg, portOk);
      if r.Failure? {
        return Raised(r.error);
      }
      if r.value {
        ghost var t0 := rc.trace;
        var vfoaHz := toHz(config.vfoaFreqMhz);
        var vfobHz := toHz(config.vfobFreqMhz);
        var resp := rc.SetupSplitCall(vfoaHz, config.modea, config.split, vfobHz, config.modeb, splitReply);
        var ctcss := config.ctcssConfig;
        var cmd := "TONE " + ctcss;
        if ctcss != "OFF" {
          var tone := IntToString(config.ctcssTone);
          cmd := cmd + (" " + tone);
        }
        assert cmd == ToneCommand(ctcss, config.ctcssTone);
        ghost var t1 := rc.trace;
        SendActionCommands(rc, cmd, config.commands, reply);
        AppendAssoc(t0, [SetupSplit(vfoaHz, config.modea, config.split, vfobHz, config.modeb)],
                    MemorySends([cmd] + config.commands));
      }
      rc.CloseRigCat();
      outcome := Returned;
    }

    /** _send_cat_cmd(cmd): send the command, unstripped, unless it is empty. */
    static method SendCatCmd(rc: RigControl, cmd: string, reply: string)
      modifies rc
      ensures rc.name == old(rc.name) && rc.trace == old(rc.trace) + MemorySend(cmd)
    {
      if |cmd| > 0 {
        var resp := rc.SendRigCatCmd(cmd, reply);
      }
    }

    /** The seven _send_cat_cmd calls of _on_left_click: the tone command, then command 1 to 6. */
    static method SendActionCommands(rc: RigControl, tone: string, commands: seq<string>, reply: string)
      requires |commands| == NumCommands
      modifies rc
      ensures rc.name == old(rc.name) && rc.trace == old(rc.trace) + MemorySends([tone] + commands)
    {
      ghost var all := [tone] + commands;
      ghost var t0 := rc.trace;
      assert all[..0] == [];
      SendCatCmd(rc, tone, reply);
      TraceStep(t0, all, 0, rc.trace);
      SendCatCmd(rc, commands[0], reply);
      TraceStep(t0, all, 1, rc.trace);
      SendCatCmd(rc, commands[1], reply);
      TraceStep(t0, all, 2, rc.trace);
      SendCatCmd(rc, commands[2], reply);
      TraceStep(t0, all, 3, rc.trace);
      SendCatCmd(rc, commands[3], reply);
      TraceStep(t0, all, 4, rc.trace);
      SendCatCmd(rc, commands[4], reply);
      TraceStep(t0, all, 5, rc.trace);
      SendCatCmd(rc, commands[5], reply);
      TraceStep(t0, all, 6, rc.trace);
      assert all[..7] == all;
    }
  }
}
