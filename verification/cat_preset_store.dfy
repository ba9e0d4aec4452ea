/**
 * CatPresetStore: a CAT preset, the serial connection to one rig, laid over
 * section CAT_PRESET<id:03d> of the store. Every field is a text stored as
 * it is given: no trimming, no validation.
 *
 * The store keeps the preset's name under PRESET_NAME; the configuration
 * dialog and the preset button use NAME in the same section instead (see
 * PersistLeavesDialogName).
 */
module CatPresets {
  import opened PyText
  import opened PresetUtils
  import opened ConfigStore

  /** globals.NUM_CAT_PRESETS. */
  const NumCatPresets := 4

  /** The fields of a CAT preset. */
  datatype CatPreset = CatPreset(
    name: string,
    rig: string,
    port: string,
    baud: string,
    data: string,
    parity: string,
    stop: string)

  /** The values the constructor gives the fields before init(). */
  const Defaults := CatPreset("", "", "", "", "", "", "")

  /** 'CAT_PRESET{:03d}'.format(id), the same in init and write_config. */
  function SectionName(id: int): string {
    "CAT_PRESET" + Format03d(id)
  }

  /** The keys write_config() sets. */
  const WrittenKeys: set<Key> := {PresetName, Rig, Port, Baud, Data, Parity, Stop}

  /** The record init() reads from the store for a positive id. */
  function Hydrate(c: Contents, id: int): CatPreset {
    var s := SectionName(id);
    CatPreset(Lookup(c, s, PresetName), Lookup(c, s, Rig), Lookup(c, s, Port), Lookup(c, s, Baud),
              Lookup(c, s, Data), Lookup(c, s, Parity), Lookup(c, s, Stop))
  }

  /** The store after setting the seven keys of section s, in write_config's order. */
  function WriteFields(c: Contents, s: string, p: CatPreset): Contents {
    var c1 := Assign(c, s, PresetName, p.name);
    var c2 := Assign(c1, s, Rig, p.rig);
    var c3 := Assign(c2, s, Port, p.port);
    var c4 := Assign(c3, s, Baud, p.baud);
    var c5 := Assign(c4, s, Data, p.data);
    var c6 := Assign(c5, s, Parity, p.parity);
    Assign(c6, s, Stop, p.stop)
  }

  /** The store after write_config() for a positive id, before the flush. */
  function Persist(c: Contents, id: int, p: CatPreset): Contents {
    var s := SectionName(id);
    WriteFields(WithSection(c, s), s, p)
  }

  /** The store after init(): the section exists, for a positive id only. */
  function InitEffect(c: Contents, id: int): Contents {
    if id > 0 then WithSection(c, SectionName(id)) else c
  }

  /** The store after write_config(): every key written, for a positive id only. */
  function WriteEffect(c: Contents, id: int, p: CatPreset): Contents {
    if id > 0 then Persist(c, id, p) else c
  }

  /** write_config then init reproduces all seven fields. */
  lemma PersistThenHydrate(c: Contents, id: int, p: CatPreset)
    ensures Hydrate(Persist(c, id, p), id) == p
  {
  }

  /**
   * write_config creates its section and sets exactly the seven keys: every
   * other key of its section, and every key of any other section, reads as before.
   */
  lemma PersistFrame(c: Contents, id: int, p: CatPreset)
    ensures Persist(c, id, p).sections == c.sections + {SectionName(id)}
    ensures forall s: string, k: Key :: s != SectionName(id) || k !in WrittenKeys ==>
              Lookup(Persist(c, id, p), s, k) == Lookup(c, s, k)
  {
  }

  /** Writing one CAT preset leaves what every other one hydrates to unchanged. */
  lemma PersistKeepsOtherPresets(c: Contents, a: int, b: int, p: CatPreset)
    requires a != b
    ensures Hydrate(Persist(c, a, p), b) == Hydrate(c, b)
  {
    if SectionName(a) == SectionName(b) {
      NumberedNameInjective("CAT_PRESET", a, b);
    }
    PersistFrame(c, a, p);
  }

  /**
   * The name the store writes under PRESET_NAME is not the NAME the dialog
   * and the preset button read: write_config leaves NAME as it was.
   */
  lemma PersistLeavesDialogName(c: Contents, id: int, p: CatPreset)
    ensures Lookup(Persist(c, id, p), SectionName(id), Name) == Lookup(c, SectionName(id), Name)
    ensures Lookup(Persist(c, id, p), SectionName(id), PresetName) == p.name
  {
    PersistFrame(c, id, p);
  }

  /** Hydrating an absent section gives seven empty texts, the constructor's defaults. */
  lemma HydrateEmpty(id: int)
    ensures Hydrate(Empty(), id) == Defaults
  {
  }

  /** A CAT preset held in memory, with its id. */
  class CatPresetStore {
    var id: int
    var presetName: string
    var rig: string
    var port: string
    var baud: string
    var data: string
    var parity: string
    var stop: string

    /** The record the fields hold. */
    function Record(): CatPreset
      reads this
    {
      CatPreset(presetName, rig, port, baud, data, parity, stop)
    }

    /** CatPresetStore(id): coerce the id, set the defaults, then init(). */
    constructor (idArg: PyValue, cfg: ConfigFile)
      modifies cfg
      ensures id == CoerceId(idArg)
      ensures cfg.contents == InitEffect(old(cfg.contents), id)
      ensures cfg.disk == old(cfg.disk) && cfg.flushes == old(cfg.flushes)
      ensures Record() == if id > 0 then Hydrate(old(cfg.contents), id) else Defaults
    {
      id := CoerceId(idArg);
      presetName := "";
      rig := "";
      port := "";
      baud := "";
      data := "";
      parity := "";
      stop := "";
      new;
      Init(cfg);
    }

    /** set_id(val): to_int(val); its TypeError propagates and keeps the old id. */
    method SetId(val: PyValue) returns (outcome: Outcome)
      modifies this
      ensures ToInt(val).Success? ==> outcome == Returned && id == ToInt(val).value
      ensures ToInt(val).Failure? ==> outcome == Raised(TypeError) && id == old(id)
      ensures Record() == old(Record())
    {
      match ToInt(val)
      case Success(n) =>
        id := n;
        outcome := Returned;
      case Failure(e) =>
        outcome := Raised(e);
    }

    method SetPresetName(val: string)
      modifies this
      ensures id == old(id) && Record() == old(Record()).(name := val)
    {
      presetName := val;
    }

    method SetRig(val: string)
      modifies this
      ensures id == old(id) && Record() == old(Record()).(rig := val)
    {
      rig := val;
    }

    method SetPort(val: string)
      modifies this
      ensures id == old(id) && Record() == old(Record()).(port := val)
    {
      port := val;
    }

    method SetBaud(val: string)
      modifies this
      ensures id == old(id) && Record() == old(Record()).(baud := val)
    {
      baud := val;
    }

    method SetData(val: string)
      modifies this
      ensures id == old(id) && Record() == old(Record()).(data := val)
    {
      data := val;
    }

    method SetParity(val: string)
      modifies this
      ensures id == old(id) && Record() == old(Record()).(parity := val)
    {
      parity := val;
    }

    method SetStop(val: string)
      modifies this
      ensures id == old(id) && Record() == old(Record()).(stop := val)
    {
      stop := val;
    }

    /** init(): for a positive id, create the section if absent and read all seven keys. */
    method Init(cfg: ConfigFile)
      modifies this, cfg
      ensures id == old(id)
      ensures cfg.contents == InitEffect(old(cfg.contents), id)
      ensures cfg.disk == old(cfg.disk) && cfg.flushes == old(cfg.flushes)
      ensures Record() == if id > 0 then Hydrate(old(cfg.contents), id) else old(Record())
    {
      if id > 0 {
        var s := SectionName(id);
        if !cfg.HasSection(s) {
          cfg.AddSection(s);
        }
        presetName := cfg.Get(s, PresetName);
        rig := cfg.Get(s, Rig);
        port := cfg.Get(s, Port);
        baud := cfg.Get(s, Baud);
        data := cfg.Get(s, Data);
        parity := cfg.Get(s, Parity);
        stop := cfg.Get(s, Stop);
      }
    }

    /** write_config(): for a positive id, write all seven keys, then flush once. */
    method WriteConfig(cfg: ConfigFile)
      modifies cfg
      ensures cfg.contents == WriteEffect(old(cfg.contents), id, Record())
      ensures id > 0 ==> cfg.disk == cfg.contents && cfg.flushes == old(cfg.flushes) + 1
      ensures id <= 0 ==> cfg.disk == old(cfg.disk) && cfg.flushes == old(cfg.flushes)
    {
      if id > 0 {
        var s := SectionName(id);
        if !cfg.HasSection(s) {
          cfg.AddSection(s);
        }
        cfg.Set(s, PresetName, presetName);
        cfg.Set(s, Rig, rig);
        cfg.Set(s, Port, port);
        cfg.Set(s, Baud, baud);
        cfg.Set(s, Data, data);
        cfg.Set(s, Parity, parity);
        cfg.Set(s, Stop, stop);
        cfg.Write();
      }
    }
  }
}
