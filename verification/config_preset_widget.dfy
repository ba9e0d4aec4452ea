/**
 * WidgetConfigPreset: the button of configuration preset <id>. Its text is
 * the preset's name, and a click sends the preset's commands to the rig.
 */
module ConfigPresetWidget {
  import opened Wrappers
  import opened PyText
  import opened PresetUtils
  import opened ConfigStore
  import opened ConfigPresets
  import opened RigCat

  /** The button text _set_name settles on: the preset name, or 'C<id>' when it is empty. */
  function ButtonName(name: string, id: int): (r: string)
    ensures r != []
    ensures name != [] ==> r == name
  {
    if |name| == 0 then "C" + IntToString(id) else name
  }

  /** The calls the click's loop makes for one command: its stripped text is sent unless it is empty. */
  function ConfigSend(raw: string): seq<Call> {
    if !Blank(raw) then [AsciiCall(Strip(raw))] else []
  }

  /** The calls the click's loop makes for the given commands, in order. */
  function ConfigSends(cmds: seq<string>): seq<Call> {
    if cmds == [] then []
    else ConfigSends(cmds[..|cmds| - 1]) + ConfigSend(cmds[|cmds| - 1])
  }

  /** Naming twice is naming once: the default name, once set, is kept. */
  lemma ButtonNameIdempotent(name: string, id: int)
    ensures ButtonName(ButtonName(name, id), id) == ButtonName(name, id)
  {
  }

  /** The sends for two runs of commands are the sends for the first, then for the second. */
  lemma {:induction false} ConfigSendsAppend(a: seq<string>, b: seq<string>)
    ensures ConfigSends(a + b) == ConfigSends(a) + ConfigSends(b)
    decreases |b|
  {
    if b == [] {
      assert a + b == a;
    } else {
      var last := b[|b| - 1];
      assert (a + b)[..|a + b| - 1] == a + b[..|b| - 1];
      assert (a + b)[|a + b| - 1] == last;
      ConfigSendsAppend(a, b[..|b| - 1]);
    }
  }

  /** A command that the click skips: blank once stripped. */
  predicate Blank(cmd: string) {
    Strip(cmd) == ""
  }

  /** No call is made exactly when every command is blank. */
  lemma {:induction false} ConfigSendsEmpty(cmds: seq<string>)
    ensures ConfigSends(cmds) == [] <==> forall i :: 0 <= i < |cmds| ==> Blank(cmds[i])
  {
    if cmds != [] {
      var init := cmds[..|cmds| - 1];
      ConfigSendsEmpty(init);
      assert forall i :: 0 <= i < |init| ==> init[i] == cmds[i];
    }
  }

  /** Every call made sends a non-empty opcode: blank commands are skipped before sending. */
  lemma {:induction false} ConfigSendsOpcodes(cmds: seq<string>)
    ensures forall i :: 0 <= i < |ConfigSends(cmds)| ==>
              ConfigSends(cmds)[i].AsciiCmd? && ConfigSends(cmds)[i].opcode != ""
  {
    if cmds != [] {
      var init := cmds[..|cmds| - 1];
      var cmd := cmds[|cmds| - 1];
      ConfigSendsOpcodes(init);
      if !Blank(cmd) {
        OpcodeEmptyIffBlank(Strip(cmd));
        StripIdempotent(cmd);
      }
    }
  }

  /** One more command adds its send, if any, at the end. */
  lemma ConfigSendsStep(cmds: seq<string>, idx: nat)
    requires idx < |cmds|
    ensures ConfigSends(cmds[..idx + 1]) == ConfigSends(cmds[..idx]) + ConfigSend(cmds[idx])
  {
    assert cmds[..idx + 1][..idx] == cmds[..idx];
  }

  /** A trace that grew by the calls for command idx has grown by the calls for commands 0..idx. */
  lemma TraceStep(t0: seq<Call>, cmds: seq<string>, idx: nat, t1: seq<Call>)
    requires idx < |cmds|
    requires t1 == t0 + ConfigSends(cmds[..idx]) + ConfigSend(cmds[idx])
    ensures t1 == t0 + ConfigSends(cmds[..idx + 1])
  {
    ConfigSendsStep(cmds, idx);
    AppendAssoc(t0, ConfigSends(cmds[..idx]), ConfigSend(cmds[idx]));
  }

  /** A single command is sent, stripped, when it is not blank. */
  lemma ConfigSendsOne(cmd: string)
    ensures ConfigSends([cmd]) == if !Blank(cmd) then [AsciiCall(cmd)] else []
  {
    assert [cmd][..0] == [];
    AsciiCallOfStripped(cmd);
  }

  /** The button of one configuration preset and the store object behind it. */
  class WidgetConfigPreset {
    var id: int
    var nameText: string
    var config: ConfigPresetStore

    ghost predicate Valid()
      reads this, config
    {
      config.Valid() && config.id == id
    }

    /**
     * WidgetConfigPreset(parent, id): int(id), 0 on any exception; then the
     * store object, which runs init(); then _set_name.
     */
    constructor (idArg: PyValue, cfg: ConfigFile)
      modifies cfg
      ensures Valid() && id == CoerceId(idArg) && fresh(config)
      ensures cfg.contents == InitEffect(old(cfg.contents), id)
      ensures cfg.disk == old(cfg.disk) && cfg.flushes == old(cfg.flushes)
      ensures var stored := if id > 0 then Hydrate(old(cfg.contents), id) else Defaults;
              && config.Record() == stored.(name := ButtonName(stored.name, id))
              && nameText == ButtonName(stored.name, id)
    {
      id := CoerceId(idArg);
      nameText := "";
      var n := CoerceId(idArg);
      config := new ConfigPresetStore(PyInt(n), cfg);
      new;
      ghost var stored := config.Record();
      SetName();
      assert config.Record() == stored.(name := ButtonName(stored.name, id));
    }

    /** _set_name(): an empty name becomes 'C<id>' on the store object only; the button shows the name. */
    method SetName()
      requires Valid()
      modifies this, config
      ensures Valid() && id == old(id) && config == old(config)
      ensures config.Record() == old(config.Record()).(name := ButtonName(old(config.presetName), id))
      ensures nameText == ButtonName(old(config.presetName), id)
    {
      var cfgName := config.presetName;
      if |cfgName| == 0 {
        cfgName := "C" + IntToString(id);
        config.SetPresetName(cfgName);
      }
      nameText := cfgName;
    }

    /**
     * _on_left_click(): init_rig_cat(); when it returns True, send every
     * command that is not blank once stripped, in index order; then
     * close_rig_cat(). The ValueError of init_rig_cat escapes before the close.
     */
    method OnLeftClick(rc: RigControl, cfg: ConfigFile, portOk: bool, reply: string) returns (outcome: Outcome)
      requires Valid()
      modifies rc
      ensures var plan := InitPlan(cfg.contents, old(rc.name), portOk);
              && rc.name == plan.name
              && (plan.result.Failure? ==>
                    outcome == Raised(plan.result.error) && rc.trace == old(rc.trace) + plan.calls)
              && (plan.result.Success? ==>
                    && outcome == Returned
                    && rc.trace == old(rc.trace) + plan.calls
                                   + (if plan.result.value then ConfigSends(config.cmd) else []) + [Close])
    {
      var r := rc.InitRigCat(cfg, portOk);
      if r.Failure? {
        return Raised(r.error);
      }
      if r.value {
        SendCommands(rc, config.cmd, reply);
      }
      rc.CloseRigCat();
      outcome := Returned;
    }

    /** The loop of _on_left_click: every command, by index. */
    static method SendCommands(rc: RigControl, cmds: seq<string>, reply: string)
      requires |cmds| == NumConfigCommands
      modifies rc
      ensures rc.name == old(rc.name) && rc.trace == old(rc.trace) + ConfigSends(cmds)
    {
      ghost var t0 := rc.trace;
      ghost var name0 := rc.name;
      for idx := 0 to |cmds|
        invariant rc.trace == t0 + ConfigSends(cmds[..idx])
        invariant rc.name == name0
      {
        var cmd := CmdAt(cmds, idx);
        assert cmd == cmds[idx];
        SendStripped(rc, cmd, reply);
        TraceStep(t0, cmds, idx, rc.trace);
      }
      assert cmds[..|cmds|] == cmds;
    }

    /** The loop body: strip the command, and send it unless that leaves it empty. */
    static method SendStripped(rc: RigControl, raw: string, reply: string)
      modifies rc
      ensures rc.name == old(rc.name) && rc.trace == old(rc.trace) + ConfigSend(raw)
    {
      var cmd := Strip(raw);
      if |cmd| > 0 {
        var resp := rc.SendRigCatCmd(cmd, reply);
      }
    }
  }
}
