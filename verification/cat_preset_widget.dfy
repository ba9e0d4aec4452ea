/**
 * WidgetCatPreset: the row of radio buttons that selects the active CAT
 * preset. A button's label is the preset's NAME, and a click copies the
 * preset's serial settings into section CAT, where init_rig_cat reads them.
 */
module CatPresetWidget {
  import opened Wrappers
  import opened PyText
  import opened PresetUtils
  import opened ConfigStore
  import opened CatPresets
  import opened RigCat
  import ConfigCatDialog

  /** The label of button pnum: the stored NAME, or 'Rig <pnum>' when it is empty. */
  function LabelText(c: Contents, pnum: int): (r: string)
    ensures r != []
  {
    var name := Lookup(c, SectionName(pnum), Name);
    if |name| > 0 then name else "Rig " + IntToString(pnum)
  }

  /** The labels of the four buttons, button idx showing preset idx + 1. */
  function Labels(c: Contents): (r: seq<string>)
    ensures |r| == NumCatPresets
  {
    seq(NumCatPresets, idx => LabelText(c, idx + 1))
  }

  /** The selection _widget_init ends with: int(CAT/PRESET), or 0 when it is empty; int() may raise. */
  function InitialSelection(c: Contents): Result<int, PyError> {
    var preset := Lookup(c, CatSection, Preset);
    if |preset| > 0 then Int(PyStr(preset)) else Success(0)
  }

  /** The keys a click copies from the preset into section CAT. */
  const CopiedKeys: set<Key> := {Rig, Port, Baud, Data, Parity, Stop}

  /** The store after _on_left_click for preset pnum, before the flush. */
  function SelectEffect(c: Contents, pnum: int): Contents {
    var src := SectionName(pnum);
    var c0 := WithSection(WithSection(c, src), CatSection);
    var c1 := Assign(c0, CatSection, Preset, IntToString(pnum));
    var c2 := Assign(c1, CatSection, Rig, Lookup(c, src, Rig));
    var c3 := Assign(c2, CatSection, Port, Lookup(c, src, Port));
    var c4 := Assign(c3, CatSection, Baud, Lookup(c, src, Baud));
    var c5 := Assign(c4, CatSection, Data, Lookup(c, src, Data));
    var c6 := Assign(c5, CatSection, Parity, Lookup(c, src, Parity));
    Assign(c6, CatSection, Stop, Lookup(c, src, Stop))
  }

  /** A preset's section is never section CAT. */
  lemma PresetSectionIsNotCat(pnum: int)
    ensures SectionName(pnum) != CatSection
  {
    assert |SectionName(pnum)| > |CatSection|;
  }

  /** Every store in which an absent section reads as empty texts, as ConfigFile.get() promises. */
  ghost predicate AbsentReadsEmpty(c: Contents) {
    forall s: string, k: Key :: s !in c.sections ==> Lookup(c, s, k) == ""
  }

  /** A click creates the preset's section and section CAT, and no other. */
  lemma SelectSections(c: Contents, pnum: int)
    ensures SelectEffect(c, pnum).sections == c.sections + {SectionName(pnum), CatSection}
  {
  }

  /** A click sets CAT/PRESET to the preset number and copies the six settings into CAT unchanged. */
  lemma SelectCopiesSettings(c: Contents, pnum: int)
    ensures Lookup(SelectEffect(c, pnum), CatSection, Preset) == IntToString(pnum)
    ensures forall k :: k in CopiedKeys ==> Lookup(SelectEffect(c, pnum), CatSection, k) == Lookup(c, SectionName(pnum), k)
  {
  }

  /** A click changes no other key: the preset's own section, in particular, reads as before. */
  lemma SelectFrame(c: Contents, pnum: int)
    ensures forall s: string, k: Key :: s != CatSection || (k != Preset && k !in CopiedKeys) ==>
              Lookup(SelectEffect(c, pnum), s, k) == Lookup(c, s, k)
    ensures SameInside(SelectEffect(c, pnum), c, SectionName(pnum))
  {
    PresetSectionIsNotCat(pnum);
  }

  /** Selecting a preset whose section is absent writes empty settings into CAT. */
  lemma SelectUnconfigured(c: Contents, pnum: int)
    requires AbsentReadsEmpty(c) && SectionName(pnum) !in c.sections
    ensures forall k :: k in CopiedKeys ==> Lookup(SelectEffect(c, pnum), CatSection, k) == ""
  {
    SelectCopiesSettings(c, pnum);
  }

  /** A click keeps the store's absent sections reading empty. */
  lemma SelectKeepsAbsentEmpty(c: Contents, pnum: int)
    requires AbsentReadsEmpty(c)
    ensures AbsentReadsEmpty(SelectEffect(c, pnum))
  {
    SelectSections(c, pnum);
    SelectFrame(c, pnum);
  }

  /** After a click, the next start of the widget selects the same button. */
  lemma SelectThenRestart(c: Contents, pnum: int)
    ensures InitialSelection(SelectEffect(c, pnum)) == Success(pnum)
  {
    SelectCopiesSettings(c, pnum);
    NoSpaceInIntText(pnum);
    ParseIntToString(pnum);
  }

  /** A CAT/PRESET text int() cannot read makes the widget's start raise a ValueError. */
  lemma BadSelectionRaises(c: Contents)
    requires Lookup(c, CatSection, Preset) != [] && ParseInt(Lookup(c, CatSection, Preset)).None?
    ensures InitialSelection(c) == Failure(ValueError)
  {
  }

  /** After a click, init_rig_cat selects the preset's rig: a preset with an unsupported rig connects nothing. */
  lemma SelectThenInitUnsupported(c: Contents, pnum: int, bound: string, portOk: bool)
    requires SelectRig(Lookup(c, SectionName(pnum), Rig)).None?
    ensures InitPlan(SelectEffect(c, pnum), bound, portOk) == InitOutcome([], Success(false), bound)
  {
    SelectCopiesSettings(c, pnum);
  }

  /** After a click on a preset with a supported rig and a valid baud rate, the port is configured with the preset's settings. */
  lemma SelectThenInitConfigures(c: Contents, pnum: int, bound: string, portOk: bool)
    requires SelectRig(Lookup(c, SectionName(pnum), Rig)).Some?
    requires ParseInt(Lookup(c, SectionName(pnum), Baud)).Some?
    ensures var s := SectionName(pnum);
            var settings := PortSettings(Lookup(c, s, Port), ParseInt(Lookup(c, s, Baud)).value,
                                         DatasizeOf(Lookup(c, s, Data)), ParityOf(Lookup(c, s, Parity)),
                                         StopbitsOf(Lookup(c, s, Stop)));
            ConfigPort(settings) in InitPlan(SelectEffect(c, pnum), bound, portOk).calls
  {
    var d := SelectEffect(c, pnum);
    var s := SectionName(pnum);
    SelectCopiesSettings(c, pnum);
    assert Rig in CopiedKeys && Port in CopiedKeys && Baud in CopiedKeys;
    assert Data in CopiedKeys && Parity in CopiedKeys && Stop in CopiedKeys;
    var rig := SelectRig(Lookup(c, s, Rig)).value;
    var select := if bound != rig then [Instantiate(rig)] else [];
    var calls := PortCalls(Lookup(d, CatSection, Port), Int(PyStr(Lookup(d, CatSection, Baud))), Lookup(d, CatSection, Data),
                           Lookup(d, CatSection, Parity), Lookup(d, CatSection, Stop), portOk);
    assert InitPlan(d, bound, portOk).calls == select + calls;
    assert (select + calls)[|select|] == calls[0];
  }

  /** The label shows the name confirmed in the configuration dialog, or 'Rig <pnum>' when it was left empty. */
  lemma LabelAfterDialog(c: Contents, pnum: int, f: CatPreset)
    ensures LabelText(ConfigCatDialog.OkEffect(c, pnum, f), pnum) == ConfigCatDialog.OrDefault(f.name, "Rig " + IntToString(pnum))
  {
  }

  /** A CatPresetStore write_config() does not rename a button: the label reads NAME, the store writes PRESET_NAME. */
  lemma LabelIgnoresStoreWrite(c: Contents, pnum: int, p: CatPreset)
    ensures LabelText(Persist(c, pnum, p), pnum) == LabelText(c, pnum)
  {
    PersistLeavesDialogName(c, pnum, p);
  }

  /** The radio buttons: their labels and the selected preset number. */
  class WidgetCatPreset {
    var labels: seq<string>
    var value: int

    ghost predicate Valid()
      reads this
    {
      |labels| == NumCatPresets
    }

    /** The label and selection variables before _widget_init fills them. */
    constructor ()
      ensures Valid() && labels == ["", "", "", ""] && value == 0
    {
      labels := ["", "", "", ""];
      value := 0;
    }

    /** _set_label(pnum): the label of button pnum from the store's NAME. */
    method SetLabel(cfg: ConfigFile, pnum: int)
      requires Valid() && 1 <= pnum <= NumCatPresets
      modifies this
      ensures Valid() && value == old(value)
      ensures labels == old(labels)[pnum - 1 := LabelText(cfg.contents, pnum)]
    {
      var idx := pnum - 1;
      var section := SectionName(pnum);
      var name := cfg.Get(section, Name);
      if |name| > 0 {
        labels := labels[idx := name];
      } else {
        labels := labels[idx := "Rig " + IntToString(pnum)];
      }
    }

    /** _widget_init(): label every button, then select int(CAT/PRESET), 0 when empty; a ValueError keeps the old selection. */
    method WidgetInit(cfg: ConfigFile) returns (outcome: Outcome)
      requires Valid()
      modifies this
      ensures Valid() && labels == Labels(cfg.contents)
      ensures InitialSelection(cfg.contents).Success? ==>
                outcome == Returned && value == InitialSelection(cfg.contents).value
      ensures InitialSelection(cfg.contents).Failure? ==>
                outcome == Raised(InitialSelection(cfg.contents).error) && value == old(value)
    {
      for idx := 0 to NumCatPresets
        invariant Valid() && value == old(value)
        invariant forall j :: 0 <= j < idx ==> labels[j] == LabelText(cfg.contents, j + 1)
      {
        var pnum := idx + 1;
        SetLabel(cfg, pnum);
      }
      assert labels == Labels(cfg.contents);
      var pnum := 0;
      var preset := cfg.Get(CatSection, Preset);
      if |preset| > 0 {
        match Int(PyStr(preset))
        case Failure(e) =>
          return Raised(e);
        case Success(n) =>
          pnum := n;
      }
      value := pnum;
      outcome := Returned;
    }

    /**
     * A click on radio button `clicked`: Tk first sets the shared variable to
     * the button's value, then _on_left_click() reads it back, copies that preset's
     * settings into CAT and flushes once.
     */
    method OnLeftClick(cfg: ConfigFile, clicked: int)
      requires Valid() && 1 <= clicked <= NumCatPresets
      modifies this, cfg
      ensures Valid() && labels == old(labels) && value == clicked
      ensures cfg.contents == SelectEffect(old(cfg.contents), clicked)
      ensures cfg.disk == cfg.contents && cfg.flushes == old(cfg.flushes) + 1
    {
      value := clicked;
      ghost var c := cfg.contents;
      var pnum := value;
      var section := SectionName(pnum);
      if !cfg.HasSection(section) {
        cfg.AddSection(section);
      }
      assert cfg.contents == WithSection(c, section);
      var rig := cfg.Get(section, Rig);
      var port := cfg.Get(section, Port);
      var baud := cfg.Get(section, Baud);
      var data := cfg.Get(section, Data);
      var parity := cfg.Get(section, Parity);
      var stop := cfg.Get(section, Stop);
      section := CatSection;
      if !cfg.HasSection(section) {
        cfg.AddSection(section);
      }
      assert cfg.contents == WithSection(WithSection(c, SectionName(pnum)), CatSection);
      assert rig == Lookup(c, SectionName(pnum), Rig) && port == Lookup(c, SectionName(pnum), Port);
      assert baud == Lookup(c, SectionName(pnum), Baud) && data == Lookup(c, SectionName(pnum), Data);
      assert parity == Lookup(c, SectionName(pnum), Parity) && stop == Lookup(c, SectionName(pnum), Stop);
      cfg.Set(section, Preset, IntToString(pnum));
      cfg.Set(section, Rig, rig);
      cfg.Set(section, Port, port);
      cfg.Set(section, Baud, baud);
      cfg.Set(section, Data, data);
      cfg.Set(section, Parity, parity);
      cfg.Set(section, Stop, stop);
      cfg.Write();
    }
  }
}
