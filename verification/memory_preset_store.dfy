/**
 * MemoryPresetStore: an emulated memory preset, a typed record laid over
 * section MEMORY_PRESET<id:03d> of the store.
 *
 * The six fields _command1 .. _command6 are the six entries of `commands`
 * (entry n-1 is _command<n>). OperatingMode is not part of this model: its
 * UNKNOWN value is taken to be the text "UNKNOWN" and is_valid is passed
 * to the mode setters as a predicate.
 */
module MemoryPresets {
  import opened PyText
  import opened PresetUtils
  import opened ConfigStore

  /** globals.NUM_MEMORY_PRESETS. */
  const NumMemoryPresets := 32

  /** The number of text commands a memory preset holds. */
  const NumCommands := 6

  /** CTCSS_CONFIG: the accepted CTCSS/DCS configurations. */
  const CtcssConfigs: seq<string> := ["OFF", "ENC", "DEC"]

  /** OperatingMode.UNKNOWN. */
  const UnknownMode := "UNKNOWN"

  /** The fields of a memory preset. */
  datatype MemoryPreset = MemoryPreset(
    desc: string,
    vfoaFreqMhz: FloatText,
    vfobFreqMhz: FloatText,
    split: bool,
    modea: string,
    modeb: string,
    ctcssConfig: string,
    ctcssTone: int,
    commands: seq<string>)

  /** The values the constructor gives the fields before init(). */
  const Defaults := MemoryPreset("", ZeroFloat, ZeroFloat, false, UnknownMode, UnknownMode, "OFF", 0,
                                 ["", "", "", "", "", ""])

  /** 'MEMORY_PRESET{:03d}'.format(id), the same in init and write_config. */
  function SectionName(id: int): string {
    "MEMORY_PRESET" + Format03d(id)
  }

  /** The stored text of the split flag. */
  function SplitText(split: bool): string {
    if split then "ON" else "OFF"
  }

  /** The texts a memory preset's section holds, one per key. */
  datatype StoredTexts = StoredTexts(
    desc: string,
    vfoaFreqMhz: string,
    vfobFreqMhz: string,
    split: string,
    modea: string,
    modeb: string,
    ctcssConfig: string,
    ctcssTone: string,
    commands: seq<string>)

  /** The texts write_config() gives each key: str() of each field, 'ON'/'OFF' for the split flag. */
  function Encode(p: MemoryPreset): StoredTexts {
    StoredTexts(p.desc, p.vfoaFreqMhz, p.vfobFreqMhz, SplitText(p.split), p.modea, p.modeb,
                p.ctcssConfig, IntToString(p.ctcssTone), p.commands)
  }

  /** The fields init() makes of the texts: to_float, `== 'ON'`, to_int, and str() for the rest. */
  function Decode(t: StoredTexts): MemoryPreset {
    MemoryPreset(t.desc, ToFloat(t.vfoaFreqMhz), ToFloat(t.vfobFreqMhz), t.split == "ON",
                 t.modea, t.modeb, t.ctcssConfig, TextToInt(t.ctcssTone), t.commands)
  }

  /** The texts of section s, missing keys read as "". */
  function ReadTexts(c: Contents, s: string): StoredTexts {
    StoredTexts(
      Lookup(c, s, PresetDesc), Lookup(c, s, VfoaFreqMhz), Lookup(c, s, VfobFreqMhz),
      Lookup(c, s, Split), Lookup(c, s, Modea), Lookup(c, s, Modeb),
      Lookup(c, s, CtcssConfig), Lookup(c, s, CtcssTone),
      [Lookup(c, s, Command(1)), Lookup(c, s, Command(2)), Lookup(c, s, Command(3)),
       Lookup(c, s, Command(4)), Lookup(c, s, Command(5)), Lookup(c, s, Command(6))])
  }

  /** The store after setting every key of section s, in write_config's order. */
  function WriteTexts(c: Contents, s: string, t: StoredTexts): Contents
    requires |t.commands| == NumCommands
  {
    var c1 := Assign(c, s, PresetDesc, t.desc);
    var c2 := Assign(c1, s, VfoaFreqMhz, t.vfoaFreqMhz);
    var c3 := Assign(c2, s, VfobFreqMhz, t.vfobFreqMhz);
    var c4 := Assign(c3, s, Split, t.split);
    var c5 := Assign(c4, s, Modea, t.modea);
    var c6 := Assign(c5, s, Modeb, t.modeb);
    var c7 := Assign(c6, s, CtcssConfig, t.ctcssConfig);
    var c8 := Assign(c7, s, CtcssTone, t.ctcssTone);
    var c9 := Assign(c8, s, Command(1), t.commands[0]);
    var c10 := Assign(c9, s, Command(2), t.commands[1]);
    var c11 := Assign(c10, s, Command(3), t.commands[2]);
    var c12 := Assign(c11, s, Command(4), t.commands[3]);
    var c13 := Assign(c12, s, Command(5), t.commands[4]);
    Assign(c13, s, Command(6), t.commands[5])
  }

  /** write_config's sequence of config.set() calls, one per key. */
  method StoreTexts(cfg: ConfigFile, s: string, t: StoredTexts)
    requires |t.commands| == NumCommands
    modifies cfg
    ensures cfg.contents == WriteTexts(old(cfg.contents), s, t)
    ensures cfg.disk == old(cfg.disk) && cfg.flushes == old(cfg.flushes)
  {
    cfg.Set(s, PresetDesc, t.desc);
    cfg.Set(s, VfoaFreqMhz, t.vfoaFreqMhz);
    cfg.Set(s, VfobFreqMhz, t.vfobFreqMhz);
    cfg.Set(s, Split, t.split);
    cfg.Set(s, Modea, t.modea);
    cfg.Set(s, Modeb, t.modeb);
    cfg.Set(s, CtcssConfig, t.ctcssConfig);
    cfg.Set(s, CtcssTone, t.ctcssTone);
    cfg.Set(s, Command(1), t.commands[0]);
    cfg.Set(s, Command(2), t.commands[1]);
    cfg.Set(s, Command(3), t.commands[2]);
    cfg.Set(s, Command(4), t.commands[3]);
    cfg.Set(s, Command(5), t.commands[4]);
    cfg.Set(s, Command(6), t.commands[5]);
  }

  /** The record init() reads from the store for a positive id. */
  function Hydrate(c: Contents, id: int): MemoryPreset {
    Decode(ReadTexts(c, SectionName(id)))
  }

  /** The store after write_config() for a positive id, before the flush. */
  function Persist(c: Contents, id: int, p: MemoryPreset): Contents
    requires |p.commands| == NumCommands
  {
    var s := SectionName(id);
    WriteTexts(WithSection(c, s), s, Encode(p))
  }

  /** The store after init(): the section exists, for a positive id only. */
  function InitEffect(c: Contents, id: int): Contents {
    if id > 0 then WithSection(c, SectionName(id)) else c
  }

  /** The store after write_config(): every key written, for a positive id only. */
  function WriteEffect(c: Contents, id: int, p: MemoryPreset): Contents
    requires |p.commands| == NumCommands
  {
    if id > 0 then Persist(c, id, p) else c
  }

  /**
   * init() undoes write_config() field by field: the split flag through
   * 'ON'/'OFF', the tone through its decimal text, the frequencies through
   * their float text.
   */
  lemma DecodeEncode(p: MemoryPreset)
    ensures Decode(Encode(p)) == p
  {
    ToIntOfIntText(p.ctcssTone);
    ToFloatOfFloatText(p.vfoaFreqMhz);
    ToFloatOfFloatText(p.vfobFreqMhz);
  }

  /** Reading a section back gives exactly the texts just written to it, whatever it held before. */
  lemma ReadWriteTexts(c: Contents, s: string, t: StoredTexts)
    requires |t.commands| == NumCommands
    ensures ReadTexts(WriteTexts(c, s, t), s) == t
  {
    var r := ReadTexts(WriteTexts(c, s, t), s);
    assert r.commands == t.commands;
  }

  /** write_config then init reproduces every field of the preset. */
  lemma PersistThenHydrate(c: Contents, id: int, p: MemoryPreset)
    requires |p.commands| == NumCommands
    ensures Hydrate(Persist(c, id, p), id) == p
  {
    var s := SectionName(id);
    ReadWriteTexts(WithSection(c, s), s, Encode(p));
    DecodeEncode(p);
  }

  /** write_config creates its section and changes no key of any other section. */
  lemma PersistFrame(c: Contents, id: int, p: MemoryPreset)
    requires |p.commands| == NumCommands
    ensures Persist(c, id, p).sections == c.sections + {SectionName(id)}
    ensures SameOutside(c, Persist(c, id, p), SectionName(id))
  {
  }

  /** Writing one memory preset leaves what every other one hydrates to unchanged. */
  lemma PersistKeepsOtherPresets(c: Contents, a: int, b: int, p: MemoryPreset)
    requires |p.commands| == NumCommands
    requires a != b
    ensures Hydrate(Persist(c, a, p), b) == Hydrate(c, b)
  {
    if SectionName(a) == SectionName(b) {
      NumberedNameInjective("MEMORY_PRESET", a, b);
    }
    PersistFrame(c, a, p);
  }

  /**
   * init does not re-validate: whatever text is stored for the modes and the
   * CTCSS configuration is hydrated as it is, values the setters refuse included.
   */
  lemma HydrateKeepsUnvalidatedText(c: Contents, id: int, mode: string, config: string)
    ensures var s := SectionName(id);
            var d := Assign(Assign(Assign(c, s, Modea, mode), s, Modeb, mode), s, CtcssConfig, config);
            Hydrate(d, id).modea == mode && Hydrate(d, id).modeb == mode && Hydrate(d, id).ctcssConfig == config
  {
  }

  /** Hydrating an absent section gives empty texts, a cleared split flag and zeroes. */
  lemma HydrateEmpty(id: int)
    ensures Hydrate(Empty(), id)
         == MemoryPreset("", ZeroFloat, ZeroFloat, false, "", "", "", 0, ["", "", "", "", "", ""])
  {
    assert ReadTexts(Empty(), SectionName(id))
        == StoredTexts("", "", "", "", "", "", "", "", ["", "", "", "", "", ""]);
    assert Strip("") == "" && !IsFloatText("");
    assert ParseInt("").None?;
  }

  class MemoryPresetStore {
    var id: int
    var presetDesc: string
    var vfoaFreqMhz: FloatText
    var vfobFreqMhz: FloatText
    var split: bool
    var modea: string
    var modeb: string
    var ctcssConfig: string
    var ctcssTone: int
    var commands: seq<string>

    ghost predicate Valid()
      reads this
    {
      |commands| == NumCommands
    }

    /** The record the fields hold. */
    function Record(): MemoryPreset
      reads this
    {
      MemoryPreset(presetDesc, vfoaFreqMhz, vfobFreqMhz, split, modea, modeb,
                   ctcssConfig, ctcssTone, commands)
    }

    /** MemoryPresetStore(id): coerce the id, set the defaults, then init(). */
    constructor (idArg: PyValue, cfg: ConfigFile)
      modifies cfg
      ensures Valid()
      ensures id == CoerceId(idArg)
      ensures cfg.contents == InitEffect(old(cfg.contents), id)
      ensures cfg.disk == old(cfg.disk) && cfg.flushes == old(cfg.flushes)
      ensures Record() == if id > 0 then Hydrate(old(cfg.contents), id) else Defaults
    {
      id := CoerceId(idArg);
      presetDesc := "";
      vfoaFreqMhz := ZeroFloat;
      vfobFreqMhz := ZeroFloat;
      split := false;
      modea := UnknownMode;
      modeb := UnknownMode;
      ctcssConfig := "OFF";
      ctcssTone := 0;
      commands := ["", "", "", "", "", ""];
      new;
      Init(cfg);
    }

    /** set_id(val): to_int(val); its TypeError propagates and keeps the old id. */
    method SetId(val: PyValue) returns (outcome: Outcome)
      modifies this
      ensures ToInt(val).Success? ==> outcome == Returned && id == ToInt(val).value
      ensures ToInt(val).Failure? ==> outcome == Raised(TypeError) && id == old(id)
      ensures Record() == old(Record())
    {
      match ToInt(val)
      case Success(n) =>
        id := n;
        outcome := Returned;
      case Failure(e) =>
        outcome := Raised(e);
    }

    method SetPresetDesc(val: string)
      modifies this
      ensures id == old(id) && Record() == old(Record()).(desc := val)
    {
      presetDesc := val;
    }

    method SetVfoaFreqMhz(val: string)
      modifies this
      ensures id == old(id) && Record() == old(Record()).(vfoaFreqMhz := ToFloat(val))
    {
      vfoaFreqMhz := ToFloat(val);
    }

    method SetVfobFreqMhz(val: string)
      modifies this
      ensures id == old(id) && Record() == old(Record()).(vfobFreqMhz := ToFloat(val))
    {
      vfobFreqMhz := ToFloat(val);
    }

    method SetSplit(val: bool)
      modifies this
      ensures id == old(id) && Record() == old(Record()).(split := val)
    {
      split := val;
    }

    /** set_modea(val): the upper-cased text, kept only when it is a valid mode. */
    method SetModea(val: string, isValidMode: string -> bool)
      modifies this
      ensures isValidMode(Upper(val)) ==> Record() == old(Record()).(modea := Upper(val))
      ensures !isValidMode(Upper(val)) ==> Record() == old(Record())
      ensures id == old(id)
    {
      var mode := Upper(val);
      if isValidMode(mode) {
        modea := mode;
      }
    }

    /** set_modeb(val): the upper-cased text, kept only when it is a valid mode. */
    method SetModeb(val: string, isValidMode: string -> bool)
      modifies this
      ensures isValidMode(Upper(val)) ==> Record() == old(Record()).(modeb := Upper(val))
      ensures !isValidMode(Upper(val)) ==> Record() == old(Record())
      ensures id == old(id)
    {
      var mode := Upper(val);
      if isValidMode(mode) {
        modeb := mode;
      }
    }

    /** set_ctcss_config(val): kept only when it is one of CTCSS_CONFIG, case-sensitively. */
    method SetCtcssConfig(val: string)
      modifies this
      ensures val in CtcssConfigs ==> Record() == old(Record()).(ctcssConfig := val)
      ensures val !in CtcssConfigs ==> Record() == old(Record())
      ensures id == old(id)
    {
      if val in CtcssConfigs {
        ctcssConfig := val;
      }
    }

    /** set_ctcss_tone(val): to_int(val); its TypeError propagates and keeps the old tone. */
    method SetCtcssTone(val: PyValue) returns (outcome: Outcome)
      modifies this
      ensures ToInt(val).Success? ==>
                outcome == Returned && Record() == old(Record()).(ctcssTone := ToInt(val).value)
      ensures ToInt(val).Failure? ==> outcome == Raised(TypeError) && Record() == old(Record())
      ensures id == old(id)
    {
      match ToInt(val)
      case Success(n) =>
        ctcssTone := n;
        outcome := Returned;
      case Failure(e) =>
        outcome := Raised(e);
    }

    /** set_command<n>(val) for n in 1..6: the text with surrounding whitespace stripped. */
    method SetCommand(n: nat, val: string)
      requires Valid() && 1 <= n <= NumCommands
      modifies this
      ensures Valid() && id == old(id)
      ensures Record() == old(Record()).(commands := old(commands)[n - 1 := Strip(val)])
    {
      commands := commands[n - 1 := Strip(val)];
    }

    /** Give every field but the id the value the record holds. */
    method Load(p: MemoryPreset)
      requires |p.commands| == NumCommands
      modifies this
      ensures Valid() && id == old(id) && Record() == p
    {
      presetDesc := p.desc;
      vfoaFreqMhz := p.vfoaFreqMhz;
      vfobFreqMhz := p.vfobFreqMhz;
      split := p.split;
      modea := p.modea;
      modeb := p.modeb;
      ctcssConfig := p.ctcssConfig;
      ctcssTone := p.ctcssTone;
      commands := p.commands;
    }

    /** init(): for a positive id, create the section if absent and read every field. */
    method Init(cfg: ConfigFile)
      requires Valid()
      modifies this, cfg
      ensures Valid() && id == old(id)
      ensures cfg.contents == InitEffect(old(cfg.contents), id)
      ensures cfg.disk == old(cfg.disk) && cfg.flushes == old(cfg.flushes)
      ensures Record() == if id > 0 then Hydrate(old(cfg.contents), id) else old(Record())
    {
      if id > 0 {
        var s := SectionName(id);
        if !cfg.HasSection(s) {
          cfg.AddSection(s);
        }
        Load(Hydrate(cfg.contents, id));
      }
    }

    /** write_config(): for a positive id, write every key, then flush once. */
    method WriteConfig(cfg: ConfigFile)
      requires Valid()
      modifies cfg
      ensures cfg.contents == WriteEffect(old(cfg.contents), id, Record())
      ensures id > 0 ==> cfg.disk == cfg.contents && cfg.flushes == old(cfg.flushes) + 1
      ensures id <= 0 ==> cfg.disk == old(cfg.disk) && cfg.flushes == old(cfg.flushes)
    {
      if id > 0 {
        var s := SectionName(id);
        if !cfg.HasSection(s) {
          cfg.AddSection(s);
        }
        StoreTexts(cfg, s, Encode(Record()));
        cfg.Write();
      }
    }
  }
}
