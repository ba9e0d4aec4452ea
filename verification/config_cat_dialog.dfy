/**
 * DlgConfigCat: the dialog that edits CAT preset <id>, section
 * CAT_PRESET<id:03d>. Opening it fills every empty stored value with a
 * default for display; OK writes the seven shown values back and flushes.
 *
 * The dialog keeps the preset's name under NAME, where CatPresetStore uses
 * PRESET_NAME; the two are left apart, as in the program.
 */
module ConfigCatDialog {
  import opened Wrappers
  import opened PyText
  import opened PresetUtils
  import opened ConfigStore
  import opened CatPresets
  import opened RigCat

  /** rig_list: the transceivers the rig menu offers. */
  const RigList: seq<string> := ["NONE", "FT-817", "FT-991", "IC-7000"]

  /** baud_list: the baud rates the baud menu offers. */
  const BaudList: seq<string> := ["1200", "2400", "4800", "9600", "19200", "38400", "57600", "115200"]

  /** data_list: the data bit sizes the data menu offers. */
  const DataList: seq<string> := ["5", "6", "7", "8"]

  /** parity_list: the parity types the parity menu offers. */
  const ParityList: seq<string> := ["NONE", "EVEN", "ODD"]

  /** stop_list: the stop bit sizes the stop menu offers. */
  const StopList: seq<string> := ["1", "1.5", "2"]

  /** The first entry of the port menu, which comes before every serial port found. */
  const NoPort := "NONE"

  /** A stored value, or the default shown in its place when it is empty. */
  function OrDefault(stored: string, default: string): (r: string)
    ensures |stored| > 0 ==> r == stored
    ensures |stored| == 0 ==> r == default
  {
    if |stored| > 0 then stored else default
  }

  /** The name shown for a preset whose NAME is empty. */
  function DefaultName(id: int): string {
    "Rig " + IntToString(id)
  }

  /** The seven values _dlg_init shows, read from section CAT_PRESET<id:03d>; BAUD has no default. */
  function Displayed(c: Contents, id: int): CatPreset {
    var s := SectionName(id);
    CatPreset(
      OrDefault(Lookup(c, s, Name), DefaultName(id)),
      OrDefault(Lookup(c, s, Rig), RigList[0]),
      OrDefault(Lookup(c, s, Port), NoPort),
      Lookup(c, s, Baud),
      OrDefault(Lookup(c, s, Data), "8"),
      OrDefault(Lookup(c, s, Parity), "NONE"),
      OrDefault(Lookup(c, s, Stop), "1"))
  }

  /** The keys the OK handler sets. */
  const OkKeys: set<Key> := {Name, Rig, Port, Baud, Data, Parity, Stop}

  /** The store after the OK handler, before the flush: the section exists and the seven keys hold the shown values. */
  function OkEffect(c: Contents, id: int, f: CatPreset): Contents {
    var s := SectionName(id);
    var c0 := WithSection(c, s);
    var c1 := Assign(c0, s, Name, f.name);
    var c2 := Assign(c1, s, Rig, f.rig);
    var c3 := Assign(c2, s, Port, f.port);
    var c4 := Assign(c3, s, Baud, f.baud);
    var c5 := Assign(c4, s, Data, f.data);
    var c6 := Assign(c5, s, Parity, f.parity);
    Assign(c6, s, Stop, f.stop)
  }

  /** Every shown value other than the baud rate is non-empty. */
  lemma DisplayedNonEmpty(c: Contents, id: int)
    ensures var f := Displayed(c, id);
            && f.name != [] && f.rig != [] && f.port != []
            && f.data != [] && f.parity != [] && f.stop != []
  {
  }

  /** Opening the dialog on an unconfigured preset shows the defaults, with an empty baud rate. */
  lemma DisplayedEmpty(id: int)
    ensures Displayed(Empty(), id) == CatPreset(DefaultName(id), "NONE", "NONE", "", "8", "NONE", "1")
  {
  }

  /** OK creates the section and sets exactly the seven keys; nothing else changes. */
  lemma OkFrame(c: Contents, id: int, f: CatPreset)
    ensures OkEffect(c, id, f).sections == c.sections + {SectionName(id)}
    ensures forall s: string, k: Key :: s != SectionName(id) || k !in OkKeys ==>
              Lookup(OkEffect(c, id, f), s, k) == Lookup(c, s, k)
  {
  }

  /**
   * OK then reopening shows what was confirmed, with the defaults standing
   * in for the values left empty.
   */
  lemma OkThenReopen(c: Contents, id: int, f: CatPreset)
    ensures Displayed(OkEffect(c, id, f), id) ==
              CatPreset(OrDefault(f.name, DefaultName(id)), OrDefault(f.rig, "NONE"), OrDefault(f.port, NoPort),
                        f.baud, OrDefault(f.data, "8"), OrDefault(f.parity, "NONE"), OrDefault(f.stop, "1"))
  {
  }

  /** Opening the dialog and pressing OK without an edit, then reopening, shows the same values. */
  lemma ReopenStable(c: Contents, id: int)
    ensures Displayed(OkEffect(c, id, Displayed(c, id)), id) == Displayed(c, id)
  {
    OkThenReopen(c, id, Displayed(c, id));
  }

  /** OK writes NAME, not the PRESET_NAME the preset store reads: a CatPresetStore init() does not see the dialog's name. */
  lemma OkLeavesStoreName(c: Contents, id: int, f: CatPreset)
    ensures Lookup(OkEffect(c, id, f), SectionName(id), PresetName) == Lookup(c, SectionName(id), PresetName)
    ensures Lookup(OkEffect(c, id, f), SectionName(id), Name) == f.name
  {
  }

  /** NONE is the one rig entry init_rig_cat refuses; every other entry selects itself. */
  lemma RigMenuSelection(i: int)
    requires 0 <= i < |RigList|
    ensures i == 0 ==> SelectRig(RigList[i]).None?
    ensures i > 0 ==> SelectRig(RigList[i]) == Some(RigList[i])
  {
    assert Upper("NONE") == "NONE";
    assert Upper(Ft817) == Ft817 && Upper(Ft991) == Ft991 && Upper(Ic7000) == Ic7000;
  }

  /** Each data, parity and stop entry is read back by init_rig_cat as the setting it names, and every setting is offered. */
  lemma SerialMenusRoundTrip(d: Datasize, p: ParityMode, s: Stopbits)
    ensures forall v :: v in DataList ==> DatasizeText(DatasizeOf(v)) == v
    ensures forall v :: v in ParityList ==> ParityText(ParityOf(v)) == v
    ensures forall v :: v in StopList ==> StopbitsText(StopbitsOf(v)) == v
    ensures DatasizeText(d) in DataList && ParityText(p) in ParityList && StopbitsText(s) in StopList
  {
  }

  /** Every baud entry is a decimal int() reads without raising. */
  lemma BaudMenuParses(b: string)
    requires b in BaudList
    ensures AllDigits(b) && ParseInt(b) == Some(DigitsValue(b))
  {
    assert AllDigits(b);
    DigitTextParses(b);
  }

  /** A non-empty run of digits reads back through int() as its decimal value. */
  lemma DigitTextParses(b: string)
    requires b != [] && AllDigits(b)
    ensures ParseInt(b) == Some(DigitsValue(b))
  {
    assert !IsSpace(b[0]) && !IsSpace(b[|b| - 1]);
    StripTrimmed(b);
    ParseUnsignedOfDigits(b);
  }

  /** A preset whose baud rate was never chosen makes int() raise once it is selected, since BAUD has no default. */
  lemma EmptyBaudRaises(c: Contents, bound: string, portOk: bool)
    requires SelectRig(Lookup(c, CatSection, Rig)).Some?
    requires Lookup(c, CatSection, Baud) == ""
    ensures InitPlan(c, bound, portOk).result == Failure(ValueError)
  {
    BadBaudRaises(c, bound, portOk);
  }

  /** The dialog with the values it shows; Cancel only closes it, so it has no member here. */
  class DlgConfigCat {
    var id: int
    var section: string
    var nameText: string
    var rigText: string
    var portText: string
    var baudText: string
    var dataBitsText: string
    var parityText: string
    var stopBitsText: string

    /** The seven values shown. */
    function Shown(): CatPreset
      reads this
    {
      CatPreset(nameText, rigText, portText, baudText, dataBitsText, parityText, stopBitsText)
    }

    /** DlgConfigCat(root, id): the section for id, then _dlg_init's values; the store is only read. */
    constructor (idArg: int, cfg: ConfigFile)
      ensures id == idArg && section == SectionName(idArg)
      ensures Shown() == Displayed(cfg.contents, idArg)
    {
      id := idArg;
      section := SectionName(idArg);
      var s := SectionName(idArg);
      var name := cfg.Get(s, Name);
      if |name| > 0 { nameText := name; } else { nameText := "Rig " + IntToString(idArg); }
      var rig := cfg.Get(s, Rig);
      if |rig| > 0 { rigText := rig; } else { rigText := RigList[0]; }
      var port := cfg.Get(s, Port);
      if |port| > 0 { portText := port; } else { portText := NoPort; }
      baudText := cfg.Get(s, Baud);
      var data := cfg.Get(s, Data);
      if |data| > 0 { dataBitsText := data; } else { dataBitsText := "8"; }
      var parity := cfg.Get(s, Parity);
      if |parity| > 0 { parityText := parity; } else { parityText := "NONE"; }
      var stop := cfg.Get(s, Stop);
      if |stop| > 0 { stopBitsText := stop; } else { stopBitsText := "1"; }
    }

    /** A choice in the dialog's entry and menus: the shown values become f. */
    method Edit(f: CatPreset)
      modifies this
      ensures id == old(id) && section == old(section) && Shown() == f
    {
      nameText, rigText, portText, baudText := f.name, f.rig, f.port, f.baud;
      dataBitsText, parityText, stopBitsText := f.data, f.parity, f.stop;
    }

    /** _dlg_config_cat_ok(): create the section if absent, set the seven keys, flush once. */
    method Ok(cfg: ConfigFile)
      requires section == SectionName(id)
      modifies cfg
      ensures cfg.contents == OkEffect(old(cfg.contents), id, Shown())
      ensures cfg.disk == cfg.contents && cfg.flushes == old(cfg.flushes) + 1
    {
      if !cfg.HasSection(section) {
        cfg.AddSection(section);
      }
      cfg.Set(section, Name, nameText);
      cfg.Set(section, Rig, rigText);
      cfg.Set(section, Port, portText);
      cfg.Set(section, Baud, baudText);
      cfg.Set(section, Data, dataBitsText);
      cfg.Set(section, Parity, parityText);
      cfg.Set(section, Stop, stopBitsText);
      cfg.Write();
    }
  }
}
