/**
 * ConfigPresetStore: a configuration preset, a name and ten CAT command
 * texts, laid over section CONFIG_PRESET<id:03d> of the store. Command
 * index idx (0-based) is stored under key CMD<idx+1:03d>.
 */
module ConfigPresets {
  import opened PyText
  import opened PresetUtils
  import opened ConfigStore

  /** globals.NUM_CONFIG_PRESETS. */
  const NumConfigPresets := 6

  /** globals.NUM_CONFIG_COMMANDS. */
  const NumConfigCommands := 10

  /** The fields of a configuration preset. */
  datatype ConfigPreset = ConfigPreset(name: string, cmds: seq<string>)

  /** The values the constructor gives the fields before init(). */
  const Defaults := ConfigPreset("", seq(NumConfigCommands, _ => ""))

  /** 'CONFIG_PRESET{:03d}'.format(id), the same in init and write_config. */
  function SectionName(id: int): string {
    "CONFIG_PRESET" + Format03d(id)
  }

  /** get_config_cmd(idx): the command at idx, "" for an index out of range. */
  function CmdAt(cmds: seq<string>, idx: int): string {
    if 0 <= idx < NumConfigCommands && idx < |cmds| then cmds[idx] else ""
  }

  /** set_config_cmd(idx, cmd): the stripped text at idx, no change for an index out of range. */
  function WithCmd(cmds: seq<string>, idx: int, cmd: string): (r: seq<string>)
    ensures |r| == |cmds|
  {
    if 0 <= idx < NumConfigCommands && idx < |cmds| then cmds[idx := Strip(cmd)] else cmds
  }

  /** The texts of CMD001 .. CMD<n:03d> of section s, in order. */
  function ReadCmds(c: Contents, s: string, n: nat): (r: seq<string>)
    ensures |r| == n
    ensures forall i :: 0 <= i < n ==> r[i] == Lookup(c, s, Cmd(i + 1))
  {
    if n == 0 then [] else ReadCmds(c, s, n - 1) + [Lookup(c, s, Cmd(n))]
  }

  /** The store after setting CMD001 .. CMD<n:03d> of section s from cmds, in order. */
  function WriteCmds(c: Contents, s: string, cmds: seq<string>, n: nat): Contents
    requires n <= |cmds|
  {
    if n == 0 then c else Assign(WriteCmds(c, s, cmds, n - 1), s, Cmd(n), cmds[n - 1])
  }

  /** The record init() reads from the store for a positive id. */
  function Hydrate(c: Contents, id: int): ConfigPreset {
    var s := SectionName(id);
    ConfigPreset(Lookup(c, s, PresetName), ReadCmds(c, s, NumConfigCommands))
  }

  /** The store after write_config() for a positive id, before the flush. */
  function Persist(c: Contents, id: int, p: ConfigPreset): Contents
    requires |p.cmds| == NumConfigCommands
  {
    var s := SectionName(id);
    WriteCmds(Assign(WithSection(c, s), s, PresetName, p.name), s, p.cmds, NumConfigCommands)
  }

  /** The store after init(): the section exists, for a positive id only. */
  function InitEffect(c: Contents, id: int): Contents {
    if id > 0 then WithSection(c, SectionName(id)) else c
  }

  /** The store after write_config(): every key written, for a positive id only. */
  function WriteEffect(c: Contents, id: int, p: ConfigPreset): Contents
    requires |p.cmds| == NumConfigCommands
  {
    if id > 0 then Persist(c, id, p) else c
  }

  /** Reading a command back gives what set_config_cmd stored; other indices are unchanged. */
  lemma CmdAtWithCmd(cmds: seq<string>, i: int, j: int, cmd: string)
    requires |cmds| == NumConfigCommands
    ensures CmdAt(WithCmd(cmds, i, cmd), j)
         == if i == j && 0 <= i < NumConfigCommands then Strip(cmd) else CmdAt(cmds, j)
  {
  }

  /** An index out of range is ignored by set_config_cmd and reads as "". */
  lemma OutOfRangeCmd(cmds: seq<string>, idx: int, cmd: string)
    requires |cmds| == NumConfigCommands
    requires idx < 0 || idx >= NumConfigCommands
    ensures WithCmd(cmds, idx, cmd) == cmds
    ensures CmdAt(cmds, idx) == ""
  {
  }

  /** Setting the same command twice is the same as setting it once. */
  lemma WithCmdIdempotent(cmds: seq<string>, idx: int, cmd: string)
    ensures WithCmd(WithCmd(cmds, idx, cmd), idx, cmd) == WithCmd(cmds, idx, cmd)
  {
  }

  /** Writing the first n commands sets exactly CMD001 .. CMD<n:03d> of section s. */
  lemma {:induction false} WriteCmdsLookup(c: Contents, s: string, cmds: seq<string>, n: nat, t: string, k: Key)
    requires n <= |cmds|
    ensures Lookup(WriteCmds(c, s, cmds, n), t, k)
         == if t == s && k.Cmd? && 1 <= k.n <= n then cmds[k.n - 1] else Lookup(c, t, k)
  {
    if n > 0 {
      WriteCmdsLookup(c, s, cmds, n - 1, t, k);
    }
  }

  lemma {:induction false} WriteCmdsSections(c: Contents, s: string, cmds: seq<string>, n: nat)
    requires n <= |cmds|
    ensures WriteCmds(c, s, cmds, n).sections == c.sections
  {
    if n > 0 {
      WriteCmdsSections(c, s, cmds, n - 1);
    }
  }

  /** write_config then init reproduces the name and every command. */
  lemma PersistThenHydrate(c: Contents, id: int, p: ConfigPreset)
    requires |p.cmds| == NumConfigCommands
    ensures Hydrate(Persist(c, id, p), id) == p
  {
    var s := SectionName(id);
    var c0 := Assign(WithSection(c, s), s, PresetName, p.name);
    var d := Persist(c, id, p);
    WriteCmdsLookup(c0, s, p.cmds, NumConfigCommands, s, PresetName);
    var r := ReadCmds(d, s, NumConfigCommands);
    forall i | 0 <= i < NumConfigCommands
      ensures r[i] == p.cmds[i]
    {
      WriteCmdsLookup(c0, s, p.cmds, NumConfigCommands, s, Cmd(i + 1));
    }
  }

  /** write_config creates its section and changes no key of any other section. */
  lemma PersistFrame(c: Contents, id: int, p: ConfigPreset)
    requires |p.cmds| == NumConfigCommands
    ensures Persist(c, id, p).sections == c.sections + {SectionName(id)}
    ensures SameOutside(c, Persist(c, id, p), SectionName(id))
  {
    var s := SectionName(id);
    var c0 := Assign(WithSection(c, s), s, PresetName, p.name);
    WriteCmdsSections(c0, s, p.cmds, NumConfigCommands);
    forall t: string, k: Key | t != s
      ensures Lookup(c, t, k) == Lookup(Persist(c, id, p), t, k)
    {
      WriteCmdsLookup(c0, s, p.cmds, NumConfigCommands, t, k);
    }
  }

  /** Writing one configuration preset leaves what every other one hydrates to unchanged. */
  lemma PersistKeepsOtherPresets(c: Contents, a: int, b: int, p: ConfigPreset)
    requires |p.cmds| == NumConfigCommands
    requires a != b
    ensures Hydrate(Persist(c, a, p), b) == Hydrate(c, b)
  {
    if SectionName(a) == SectionName(b) {
      NumberedNameInjective("CONFIG_PRESET", a, b);
    }
    PersistFrame(c, a, p);
    var r := ReadCmds(Persist(c, a, p), SectionName(b), NumConfigCommands);
    assert r == ReadCmds(c, SectionName(b), NumConfigCommands);
  }

  /** Hydrating an absent section gives an empty name and ten empty commands. */
  lemma HydrateEmpty(id: int)
    ensures Hydrate(Empty(), id) == Defaults
  {
    assert ReadCmds(Empty(), SectionName(id), NumConfigCommands) == Defaults.cmds;
  }

  /** A configuration preset held in memory, with its id. */
  class ConfigPresetStore {
    var id: int
    var presetName: string
    var cmd: seq<string>

    ghost predicate Valid()
      reads this
    {
      |cmd| == NumConfigCommands
    }

    /** The record the fields hold. */
    function Record(): ConfigPreset
      reads this
    {
      ConfigPreset(presetName, cmd)
    }

    /** ConfigPresetStore(id): coerce the id, set the defaults, then init(). */
    constructor (idArg: PyValue, cfg: ConfigFile)
      modifies cfg
      ensures Valid()
      ensures id == CoerceId(idArg)
      ensures cfg.contents == InitEffect(old(cfg.contents), id)
      ensures cfg.disk == old(cfg.disk) && cfg.flushes == old(cfg.flushes)
      ensures Record() == if id > 0 then Hydrate(old(cfg.contents), id) else Defaults
    {
      id := CoerceId(idArg);
      presetName := "";
      cmd := seq(NumConfigCommands, _ => "");
      new;
      Init(cfg);
    }

    /** set_id(val): to_int(val); its TypeError propagates and keeps the old id. */
    method SetId(val: PyValue) returns (outcome: Outcome)
      modifies this
      ensures ToInt(val).Success? ==> outcome == Returned && id == ToInt(val).value
      ensures ToInt(val).Failure? ==> outcome == Raised(TypeError) && id == old(id)
      ensures Record() == old(Record())
    {
      match ToInt(val)
      case Success(n) =>
        id := n;
        outcome := Returned;
      case Failure(e) =>
        outcome := Raised(e);
    }

    method SetPresetName(val: string)
      modifies this
      ensures id == old(id) && Record() == old(Record()).(name := val)
    {
      presetName := val;
    }

    function GetConfigCmd(idx: int): string
      reads this
    {
      CmdAt(cmd, idx)
    }

    method SetConfigCmd(idx: int, val: string)
      modifies this
      ensures id == old(id) && Record() == old(Record()).(cmds := WithCmd(old(cmd), idx, val))
    {
      if 0 <= idx < NumConfigCommands && idx < |cmd| {
        cmd := cmd[idx := Strip(val)];
      }
    }

    /** init(): for a positive id, create the section if absent and read the name and every command. */
    method Init(cfg: ConfigFile)
      requires Valid()
      modifies this, cfg
      ensures Valid() && id == old(id)
      ensures cfg.contents == InitEffect(old(cfg.contents), id)
      ensures cfg.disk == old(cfg.disk) && cfg.flushes == old(cfg.flushes)
      ensures Record() == if id > 0 then Hydrate(old(cfg.contents), id) else old(Record())
    {
      if id > 0 {
        var s := SectionName(id);
        if !cfg.HasSection(s) {
          cfg.AddSection(s);
        }
        presetName := cfg.Get(s, PresetName);
        for idx := 0 to NumConfigCommands
          invariant |cmd| == NumConfigCommands
          invariant cmd[..idx] == ReadCmds(cfg.contents, s, idx)
          invariant id == old(id) && presetName == Lookup(cfg.contents, s, PresetName)
          modifies this
        {
          cmd := cmd[idx := cfg.Get(s, Cmd(idx + 1))];
        }
        assert cmd == cmd[..NumConfigCommands];
      }
    }

    /** write_config(): for a positive id, write the name and every command, then flush once. */
    method WriteConfig(cfg: ConfigFile)
      requires Valid()
      modifies cfg
      ensures cfg.contents == WriteEffect(old(cfg.contents), id, Record())
      ensures id > 0 ==> cfg.disk == cfg.contents && cfg.flushes == old(cfg.flushes) + 1
      ensures id <= 0 ==> cfg.disk == old(cfg.disk) && cfg.flushes == old(cfg.flushes)
    {
      if id > 0 {
        var s := SectionName(id);
        if !cfg.HasSection(s) {
          cfg.AddSection(s);
        }
        cfg.Set(s, PresetName, presetName);
        ghost var c0 := cfg.contents;
        assert c0 == Assign(WithSection(old(cfg.contents), s), s, PresetName, presetName);
        for idx := 0 to NumConfigCommands
          invariant cfg.contents == WriteCmds(c0, s, cmd, idx)
          invariant cfg.disk == old(cfg.disk) && cfg.flushes == old(cfg.flushes)
        {
          cfg.Set(s, Cmd(idx + 1), cmd[idx]);
        }
        cfg.Write();
      }
    }
  }
}
