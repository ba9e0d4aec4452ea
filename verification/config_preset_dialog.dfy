/**
 * DlgConfigPreset: the dialog that edits one configuration preset through
 * its ConfigPresetStore object. Opening it shows what the store object
 * holds, without re-reading the store, so a default name the button gave
 * the object is shown and kept; OK copies the texts back through the
 * setters and writes the section; Clear empties the texts.
 */
module ConfigPresetDialog {
  import opened PyText
  import opened PresetUtils
  import opened ConfigStore
  import opened ConfigPresets
  import ConfigPresetWidget

  /** The record OK leaves in the store object: the shown name, and every shown command stripped. */
  function Confirmed(name: string, cmds: seq<string>): ConfigPreset {
    ConfigPreset(name, StripAll(cmds))
  }

  /** Ten empty texts, what Clear shows. */
  const NoCommands: seq<string> := seq(NumConfigCommands, _ => "")

  /** OK on what was just opened changes the record only by stripping its commands; stored commands are already stripped. */
  lemma OpenThenOk(p: ConfigPreset)
    ensures Confirmed(p.name, p.cmds) == p.(cmds := StripAll(p.cmds))
    ensures (forall i :: 0 <= i < |p.cmds| ==> IsTrimmed(p.cmds[i])) ==> Confirmed(p.name, p.cmds) == p
  {
    if forall i :: 0 <= i < |p.cmds| ==> IsTrimmed(p.cmds[i]) {
      StripAllTrimmed(p.cmds);
    }
  }

  /** OK twice writes the same record as OK once. */
  lemma OkIdempotent(name: string, cmds: seq<string>)
    ensures Confirmed(Confirmed(name, cmds).name, Confirmed(name, cmds).cmds) == Confirmed(name, cmds)
  {
    StripAllIdempotent(cmds);
  }

  /**
   * The reason the dialog does not call init(): a preset stored without a
   * name gets 'C<id>' from its button, the dialog shows that name, and OK
   * writes it, so the next start reads it back.
   */
  lemma DefaultNamePersists(c: Contents, id: int, cmds: seq<string>)
    requires id > 0 && |cmds| == NumConfigCommands
    requires Hydrate(c, id).name == ""
    ensures var shown := ConfigPresetWidget.ButtonName(Hydrate(c, id).name, id);
            && shown == "C" + IntToString(id)
            && Hydrate(WriteEffect(c, id, Confirmed(shown, cmds)), id).name == shown
  {
    var shown := ConfigPresetWidget.ButtonName(Hydrate(c, id).name, id);
    PersistThenHydrate(c, id, Confirmed(shown, cmds));
  }

  /** Clear then OK writes an empty name and ten empty commands; the next start of the button names it 'C<id>' again. */
  lemma ClearThenOk(c: Contents, id: int)
    requires id > 0
    ensures Confirmed("", NoCommands) == ConfigPreset("", NoCommands)
    ensures Hydrate(WriteEffect(c, id, Confirmed("", NoCommands)), id) == ConfigPreset("", NoCommands)
    ensures ConfigPresetWidget.ButtonName(Hydrate(WriteEffect(c, id, Confirmed("", NoCommands)), id).name, id) ==
              "C" + IntToString(id)
  {
    assert forall i :: 0 <= i < |NoCommands| ==> NoCommands[i] == "";
    StripAllTrimmed(NoCommands);
    PersistThenHydrate(c, id, ConfigPreset("", NoCommands));
  }

  /** The dialog's texts and the store object they come from and go back to; Cancel only closes it, so it has no member here. */
  class DlgConfigPreset {
    var config: ConfigPresetStore
    var nameText: string
    var cmdTexts: seq<string>

    ghost predicate Valid()
      reads this, config
    {
      config.Valid() && |cmdTexts| == NumConfigCommands
    }

    /** DlgConfigPreset(root, config): the text variables, then _dlg_init's values from the store object as it is. */
    constructor (store: ConfigPresetStore)
      requires store.Valid()
      ensures Valid() && config == store
      ensures nameText == store.presetName && cmdTexts == store.cmd
    {
      config := store;
      nameText := store.presetName;
      cmdTexts := NoCommands;
      new;
      for idx := 0 to NumConfigCommands
        invariant |cmdTexts| == NumConfigCommands && config == store && nameText == store.presetName
        invariant forall j :: 0 <= j < idx ==> cmdTexts[j] == store.cmd[j]
      {
        cmdTexts := cmdTexts[idx := config.GetConfigCmd(idx)];
      }
      assert cmdTexts == store.cmd;
    }

    /** _dlg_config_preset_clear(): an empty name and ten empty commands. */
    method Clear()
      requires Valid()
      modifies this
      ensures Valid() && config == old(config)
      ensures nameText == "" && cmdTexts == NoCommands
    {
      nameText := "";
      for idx := 0 to NumConfigCommands
        invariant |cmdTexts| == NumConfigCommands && config == old(config) && nameText == ""
        invariant forall j :: 0 <= j < idx ==> cmdTexts[j] == ""
      {
        cmdTexts := cmdTexts[idx := ""];
      }
      assert cmdTexts == NoCommands;
    }

    /** _dlg_config_preset_ok(): set_preset_name, set_config_cmd for every index, then write_config(). */
    method Ok(cfg: ConfigFile)
      requires Valid()
      modifies config, cfg
      ensures Valid() && config.id == old(config.id)
      ensures config.Record() == Confirmed(nameText, cmdTexts)
      ensures cfg.contents == WriteEffect(old(cfg.contents), config.id, config.Record())
      ensures config.id > 0 ==> cfg.disk == cfg.contents && cfg.flushes == old(cfg.flushes) + 1
      ensures config.id <= 0 ==> cfg.disk == old(cfg.disk) && cfg.flushes == old(cfg.flushes)
    {
      config.SetPresetName(nameText);
      SetCommands(config, cmdTexts);
      config.WriteConfig(cfg);
    }

    /** The loop of the OK handler: set_config_cmd(idx, text) for every index. */
    static method SetCommands(store: ConfigPresetStore, texts: seq<string>)
      requires store.Valid() && |texts| == NumConfigCommands
      modifies store
      ensures store.Valid() && store.id == old(store.id)
      ensures store.Record() == old(store.Record()).(cmds := StripAll(texts))
    {
      for idx := 0 to NumConfigCommands
        invariant store.Valid() && store.id == old(store.id) && store.presetName == old(store.presetName)
        invariant forall j :: 0 <= j < idx ==> store.cmd[j] == Strip(texts[j])
      {
        store.SetConfigCmd(idx, texts[idx]);
      }
      assert store.cmd == StripAll(texts);
    }
  }
}
