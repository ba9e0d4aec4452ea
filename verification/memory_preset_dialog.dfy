/**
 * DlgMemoryPreset: the dialog that edits one memory preset through its
 * MemoryPresetStore object. Opening it re-reads the store; OK copies the
 * shown texts into the store object through its setters and writes the
 * section back; Clear resets the shown texts and leaves the store alone.
 *
 * '{:0.6f}' and '{:0.1f}' formatting and the tone's float(text) * 10.0
 * are floating point; they are parameters here (fmt, fmtTone and the
 * scaled tone, None when float() raises).
 */
module MemoryPresetDialog {
  import opened Wrappers
  import opened PyText
  import opened PresetUtils
  import opened ConfigStore
  import opened MemoryPresets

  /** '{:0.6f}'.format(0.0): the VFO-B text of a preset that is not split. */
  const ZeroMhz: string := "0.000000"

  /** Six empty texts, the commands Clear shows. */
  const NoCommands: seq<string> := ["", "", "", "", "", ""]

  /** The texts the dialog's entries and menus show. */
  datatype DialogTexts = DialogTexts(
    desc: string,
    vfoa: string,
    vfob: string,
    split: string,
    modea: string,
    modeb: string,
    ctcssConfig: string,
    ctcssTone: string,
    commands: seq<string>)

  /** What the split handler keeps: with split OFF, VFO-B shows zero. */
  predicate SplitShown(t: DialogTexts) {
    t.split == "OFF" ==> t.vfob == ZeroMhz
  }

  /** The split handler after split_text is set to v. */
  function WithSplit(t: DialogTexts, v: string): (r: DialogTexts)
    ensures SplitShown(r) && r.split == v
  {
    if v == "OFF" then t.(split := v, vfob := ZeroMhz) else t.(split := v)
  }

  /** The texts _dlg_init shows for the record p; an empty CTCSS config shows as OFF. */
  function Displayed(p: MemoryPreset, fmt: FloatText -> string, fmtTone: int -> string): DialogTexts {
    var t := DialogTexts(p.desc, fmt(p.vfoaFreqMhz), fmt(p.vfobFreqMhz), "", p.modea, p.modeb,
                         if |p.ctcssConfig| > 0 then p.ctcssConfig else "OFF",
                         fmtTone(p.ctcssTone), p.commands);
    var s := WithSplit(t, SplitText(p.split));
    s
  }

  /** The record after the OK handler's setters up to set_split, the point where float() may raise. */
  function OkBeforeTone(p: MemoryPreset, t: DialogTexts, isValidMode: string -> bool): MemoryPreset {
    p.(desc := t.desc,
       vfoaFreqMhz := ToFloat(t.vfoa),
       vfobFreqMhz := ToFloat(t.vfob),
       modea := if isValidMode(Upper(t.modea)) then Upper(t.modea) else p.modea,
       modeb := if isValidMode(Upper(t.modeb)) then Upper(t.modeb) else p.modeb,
       ctcssConfig := if t.ctcssConfig in CtcssConfigs then t.ctcssConfig else p.ctcssConfig,
       split := t.split == "ON")
  }

  /** The record after the whole OK handler, for the scaled tone float(text) * 10.0. */
  function OkRecord(p: MemoryPreset, t: DialogTexts, isValidMode: string -> bool, scaled: FloatText): MemoryPreset {
    OkBeforeTone(p, t, isValidMode).(ctcssTone := Truncate(scaled), commands := StripAll(t.commands))
  }

  /** The texts after _dlg_config_preset_clear: the modes are kept. */
  function Cleared(t: DialogTexts): DialogTexts {
    WithSplit(t.(desc := "", vfoa := ZeroMhz, vfob := ZeroMhz, ctcssConfig := "OFF",
                 ctcssTone := "0.0", commands := NoCommands), "OFF")
  }

  /** Opening shows ON or OFF, and a preset that is not split with VFO-B at zero. */
  lemma DisplayedSplit(p: MemoryPreset, fmt: FloatText -> string, fmtTone: int -> string)
    ensures Displayed(p, fmt, fmtTone).split in {"ON", "OFF"}
    ensures !p.split ==> Displayed(p, fmt, fmtTone).vfob == ZeroMhz
    ensures p.split ==> Displayed(p, fmt, fmtTone).vfob == fmt(p.vfobFreqMhz)
  {
  }

  /** The split flag survives opening and OK. */
  lemma SplitRoundTrip(p: MemoryPreset, q: MemoryPreset, fmt: FloatText -> string, fmtTone: int -> string,
                       isValidMode: string -> bool)
    ensures OkBeforeTone(q, Displayed(p, fmt, fmtTone), isValidMode).split == p.split
  {
  }

  lemma ZeroMhzReadsBack()
    ensures IsFloatText(ZeroMhz) && ToFloat(ZeroMhz) == ZeroMhz
  {
    assert IsFloatText(ZeroMhz);
    ToFloatOfFloatText(ZeroMhz);
  }

  /**
   * Opening a preset and pressing OK: the description and split survive, the
   * frequencies are re-read from their formatted texts, VFO-B drops to zero
   * when not split, an empty CTCSS config becomes OFF, a valid mode is
   * upper-cased, and the commands are stripped.
   */
  lemma OpenThenOk(p: MemoryPreset, fmt: FloatText -> string, fmtTone: int -> string,
                   isValidMode: string -> bool, scaled: FloatText)
    ensures var r := OkRecord(p, Displayed(p, fmt, fmtTone), isValidMode, scaled);
            && r.desc == p.desc && r.split == p.split
            && r.vfoaFreqMhz == ToFloat(fmt(p.vfoaFreqMhz))
            && r.vfobFreqMhz == (if p.split then ToFloat(fmt(p.vfobFreqMhz)) else ZeroMhz)
            && r.ctcssConfig == (if p.ctcssConfig == "" then "OFF" else p.ctcssConfig)
            && r.modea == (if isValidMode(Upper(p.modea)) then Upper(p.modea) else p.modea)
            && r.modeb == (if isValidMode(Upper(p.modeb)) then Upper(p.modeb) else p.modeb)
            && r.ctcssTone == Truncate(scaled)
            && r.commands == StripAll(p.commands)
  {
    var d := Displayed(p, fmt, fmtTone);
    assert d.desc == p.desc && d.vfoa == fmt(p.vfoaFreqMhz) && d.commands == p.commands;
    assert d.modea == p.modea && d.modeb == p.modeb;
    assert d.split == SplitText(p.split) && (!p.split ==> d.vfob == ZeroMhz);
    assert d.ctcssConfig == (if p.ctcssConfig == "" then "OFF" else p.ctcssConfig);
    ZeroMhzReadsBack();
    assert "OFF" in CtcssConfigs && "OFF" != "ON";
  }

  /**
   * Clear then OK: no description, both VFOs and the tone at zero, split and
   * CTCSS OFF, no commands; the modes are untouched by Clear. The scaled tone
   * is float('0.0') * 10.0 of the cleared tone text, that is 0.0.
   */
  lemma ClearThenOk(p: MemoryPreset, t: DialogTexts, isValidMode: string -> bool, scaled: FloatText)
    requires scaled == ZeroFloat
    ensures var r := OkRecord(p, Cleared(t), isValidMode, scaled);
            && r.desc == "" && r.vfoaFreqMhz == ZeroMhz && r.vfobFreqMhz == ZeroMhz
            && !r.split && r.ctcssConfig == "OFF" && r.ctcssTone == 0
            && r.commands == NoCommands
            && Cleared(t).modea == t.modea && Cleared(t).modeb == t.modeb
    ensures ToFloat(Cleared(t).ctcssTone) == scaled
  {
    var c := Cleared(t);
    assert c.desc == "" && c.vfoa == ZeroMhz && c.vfob == ZeroMhz && c.split == "OFF";
    assert c.ctcssConfig == "OFF" && c.commands == NoCommands;
    ZeroMhzReadsBack();
    assert "OFF" in CtcssConfigs && "OFF" != "ON";
    NoCommandsStripped();
    assert Unsigned(scaled) == "0.0" && "0.0"[1..] == ".0";
    assert Truncate(scaled) == 0;
  }

  /** Stripping six empty texts leaves them empty. */
  lemma NoCommandsStripped()
    ensures StripAll(NoCommands) == NoCommands
  {
    var r := StripAll(NoCommands);
    assert r[0] == "" && r[1] == "" && r[2] == "" && r[3] == "" && r[4] == "" && r[5] == "";
  }

  /** Six command updates, one per index, in order, give the six new commands. */
  lemma SixUpdates(p0: MemoryPreset, p1: MemoryPreset, p2: MemoryPreset, p3: MemoryPreset,
                   p4: MemoryPreset, p5: MemoryPreset, p6: MemoryPreset, s: seq<string>)
    requires |p0.commands| == 6 && |s| == 6
    requires p1 == p0.(commands := p0.commands[0 := s[0]])
    requires p2 == p1.(commands := p1.commands[1 := s[1]])
    requires p3 == p2.(commands := p2.commands[2 := s[2]])
    requires p4 == p3.(commands := p3.commands[3 := s[3]])
    requires p5 == p4.(commands := p4.commands[4 := s[4]])
    requires p6 == p5.(commands := p5.commands[5 := s[5]])
    ensures p6 == p0.(commands := s)
  {
    assert p6.commands == s;
  }

  /** The dialog's texts and the store object they are read from and written to. */
  class DlgMemoryPreset {
    var config: MemoryPresetStore
    var descText: string
    var vfoaText: string
    var vfobText: string
    var splitText: string
    var modeaText: string
    var modebText: string
    var ctcssConfigText: string
    var ctcssToneText: string
    var commandTexts: seq<string>

    /** The texts shown. */
    function Shown(): DialogTexts
      reads this
    {
      DialogTexts(descText, vfoaText, vfobText, splitText, modeaText, modebText,
                  ctcssConfigText, ctcssToneText, commandTexts)
    }

    ghost predicate Valid()
      reads this, config
    {
      config.Valid() && |commandTexts| == NumCommands && SplitShown(Shown())
    }

    /** DlgMemoryPreset(root, config): the text variables, then _dlg_init. */
    constructor (store: MemoryPresetStore, cfg: ConfigFile, fmt: FloatText -> string, fmtTone: int -> string)
      requires store.Valid()
      modifies store, cfg
      ensures Valid() && config == store && store.id == old(store.id)
      ensures cfg.contents == InitEffect(old(cfg.contents), store.id)
      ensures cfg.disk == old(cfg.disk) && cfg.flushes == old(cfg.flushes)
      ensures store.Record() == if store.id > 0 then Hydrate(old(cfg.contents), store.id) else old(store.Record())
      ensures Shown() == Displayed(store.Record(), fmt, fmtTone)
    {
      config := store;
      descText, vfoaText, vfobText, splitText := "", "", "", "";
      modeaText, modebText, ctcssConfigText, ctcssToneText := "", "", "", "";
      commandTexts := NoCommands;
      new;
      DlgInit(cfg, fmt, fmtTone);
    }

    /** _split_handler after split_text.set(v): OFF puts VFO-B back to zero. */
    method SetSplitText(v: string)
      modifies this
      ensures config == old(config) && Shown() == WithSplit(old(Shown()), v)
    {
      splitText := v;
      if v == "OFF" {
        vfobText := ZeroMhz;
      }
    }

    /** The initialisation part of _dlg_init: config.init(), then every text from the store object. */
    method DlgInit(cfg: ConfigFile, fmt: FloatText -> string, fmtTone: int -> string)
      requires config.Valid()
      modifies this, config, cfg
      ensures Valid() && config == old(config) && config.id == old(config.id)
      ensures cfg.contents == InitEffect(old(cfg.contents), config.id)
      ensures cfg.disk == old(cfg.disk) && cfg.flushes == old(cfg.flushes)
      ensures config.Record() == if config.id > 0 then Hydrate(old(cfg.contents), config.id) else old(config.Record())
      ensures Shown() == Displayed(config.Record(), fmt, fmtTone)
    {
      config.Init(cfg);
      ShowRecord(fmt, fmtTone);
    }

    /** _dlg_init's texts for the record the store object holds. */
    method ShowRecord(fmt: FloatText -> string, fmtTone: int -> string)
      requires config.Valid()
      modifies this
      ensures Valid() && config == old(config)
      ensures Shown() == Displayed(config.Record(), fmt, fmtTone)
    {
      ghost var p := config.Record();
      var desc := config.presetDesc;
      var vfoa := fmt(config.vfoaFreqMhz);
      var vfob := fmt(config.vfobFreqMhz);
      var onOff := if config.split then "ON" else "OFF";
      var modea, modeb := config.modea, config.modeb;
      var ctcss := "OFF";
      if |config.ctcssConfig| > 0 {
        ctcss := config.ctcssConfig;
      }
      var tone := fmtTone(config.ctcssTone);
      var commands := config.commands;
      assert Displayed(p, fmt, fmtTone) ==
             WithSplit(DialogTexts(desc, vfoa, vfob, "", modea, modeb, ctcss, tone, commands), onOff);
      ShowTexts(DialogTexts(desc, vfoa, vfob, "", modea, modeb, ctcss, tone, commands), onOff);
    }

    /** The setters of _dlg_init in order; setting the split text runs the split handler. */
    method ShowTexts(t: DialogTexts, onOff: string)
      requires config.Valid() && |t.commands| == NumCommands
      modifies this
      ensures Valid() && config == old(config) && Shown() == WithSplit(t, onOff)
    {
      descText, vfoaText, vfobText := t.desc, t.vfoa, t.vfob;
      SetSplitText(onOff);
      modeaText, modebText, ctcssConfigText, ctcssToneText := t.modea, t.modeb, t.ctcssConfig, t.ctcssTone;
      commandTexts := t.commands;
    }

    /** Typing into the entries and choosing from the menus, the split menu last: the shown texts become t, VFO-B reset by the handler when split is OFF. */
    method Edit(t: DialogTexts)
      requires |t.commands| == NumCommands && config.Valid()
      modifies this
      ensures Valid() && config == old(config) && Shown() == WithSplit(t, t.split)
    {
      descText, vfoaText, vfobText := t.desc, t.vfoa, t.vfob;
      modeaText, modebText, ctcssConfigText, ctcssToneText := t.modea, t.modeb, t.ctcssConfig, t.ctcssTone;
      commandTexts := t.commands;
      SetSplitText(t.split);
    }

    /**
     * _dlg_config_preset_clear(): every text but the modes back to its empty
     * or zero value; setting the split text runs the split handler. The store
     * object and the store are not touched.
     */
    method Clear()
      requires Valid()
      modifies this
      ensures Valid() && config == old(config) && Shown() == Cleared(old(Shown()))
    {
      descText := "";
      vfoaText := ZeroMhz;
      vfobText := ZeroMhz;
      SetSplitText("OFF");
      ctcssConfigText := "OFF";
      ctcssToneText := "0.0";
      commandTexts := NoCommands;
    }

    /**
     * _dlg_config_preset_ok(): the setters in the handler's order, then
     * write_config(). scaled is float(tone text) * 10.0, None when float()
     * raises its ValueError: the setters before it have run, the rest and
     * the write do not.
     */
    method Ok(cfg: ConfigFile, isValidMode: string -> bool, scaled: Option<FloatText>) returns (outcome: Outcome)
      requires Valid()
      modifies config, cfg
      ensures config.Valid() && config.id == old(config.id)
      ensures scaled.None? ==>
                && outcome == Raised(ValueError)
                && config.Record() == OkBeforeTone(old(config.Record()), Shown(), isValidMode)
                && unchanged(cfg)
      ensures scaled.Some? ==>
                && outcome == Returned
                && config.Record() == OkRecord(old(config.Record()), Shown(), isValidMode, scaled.value)
                && cfg.contents == WriteEffect(old(cfg.contents), config.id, config.Record())
                && (config.id > 0 ==> cfg.disk == cfg.contents && cfg.flushes == old(cfg.flushes) + 1)
    {
      ApplyTexts(isValidMode);
      if scaled.None? {
        return Raised(ValueError);
      }
      ghost var r1 := config.Record();
      FinishOk(cfg, scaled.value);
      assert config.Record() == r1.(ctcssTone := Truncate(scaled.value), commands := StripAll(commandTexts));
      outcome := Returned;
    }

    /** The OK handler's setters before the tone: description, frequencies, modes, CTCSS config, split. */
    method ApplyTexts(isValidMode: string -> bool)
      requires Valid()
      modifies config
      ensures Valid() && config.id == old(config.id)
      ensures config.Record() == OkBeforeTone(old(config.Record()), Shown(), isValidMode)
    {
      config.SetPresetDesc(descText);
      config.SetVfoaFreqMhz(vfoaText);
      config.SetVfobFreqMhz(vfobText);
      config.SetModea(modeaText, isValidMode);
      config.SetModeb(modebText, isValidMode);
      config.SetCtcssConfig(ctcssConfigText);
      if splitText == "ON" {
        config.SetSplit(true);
      } else {
        config.SetSplit(false);
      }
    }

    /** The OK handler from the tone on: set_ctcss_tone, set_command1 to 6, then write_config(). */
    method FinishOk(cfg: ConfigFile, scaled: FloatText)
      requires Valid()
      modifies config, cfg
      ensures Valid() && config.id == old(config.id)
      ensures config.Record() == old(config.Record()).(ctcssTone := Truncate(scaled), commands := StripAll(commandTexts))
      ensures cfg.contents == WriteEffect(old(cfg.contents), config.id, config.Record())
      ensures config.id > 0 ==> cfg.disk == cfg.contents && cfg.flushes == old(cfg.flushes) + 1
    {
      assert ToInt(PyFloat(scaled)) == Success(Truncate(scaled));
      ghost var r0 := config.Record();
      var toneOutcome := config.SetCtcssTone(PyFloat(scaled));
      ghost var r1 := config.Record();
      ApplyCommands(config, commandTexts);
      assert config.Record() == r1.(commands := StripAll(commandTexts));
      config.WriteConfig(cfg);
    }

    /** set_command1 to set_command6, each from its entry. */
    static method ApplyCommands(store: MemoryPresetStore, texts: seq<string>)
      requires store.Valid() && |texts| == NumCommands
      modifies store
      ensures store.Valid() && store.id == old(store.id)
      ensures store.Record() == old(store.Record()).(commands := StripAll(texts))
    {
      ghost var p0 := store.Record();
      store.SetCommand(1, texts[0]);
      ghost var p1 := store.Record();
      store.SetCommand(2, texts[1]);
      ghost var p2 := store.Record();
      store.SetCommand(3, texts[2]);
      ghost var p3 := store.Record();
      store.SetCommand(4, texts[3]);
      ghost var p4 := store.Record();
      store.SetCommand(5, texts[4]);
      ghost var p5 := store.Record();
      store.SetCommand(6, texts[5]);
      SixUpdates(p0, p1, p2, p3, p4, p5, store.Record(), StripAll(texts));
    }
  }
}
