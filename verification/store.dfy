/**
 * The section-keyed string store held in globals.config (a ConfigFile).
 * ConfigFile is not part of this model; the contract assumed for it:
 * get() returns "" for a missing section or key, set() stores the value as
 * text, add_section() is idempotent, write() flushes everything to the file.
 */
module ConfigStore {
  import opened PyText

  /**
   * The keys the modelled code reads and writes. Each stands for the
   * literal key text KeyText gives; distinct keys have distinct texts
   * (KeyTextInjective), so a key is identified by its constructor.
   */
  datatype Key =
    | PresetDesc | VfoaFreqMhz | VfobFreqMhz | Split | Modea | Modeb
    | CtcssConfig | CtcssTone
    | Command(n: nat)   // COMMAND<n>, the memory preset's text commands
    | PresetName
    | Cmd(n: nat)       // CMD<n:03d>, the configuration preset's commands
    | Name | Rig | Port | Baud | Data | Parity | Stop
    | Preset

  /** The key text written to the file. */
  function KeyText(k: Key): string {
    match k
    case PresetDesc => "PRESET_DESC"
    case VfoaFreqMhz => "VFOA_FREQ_MHZ"
    case VfobFreqMhz => "VFOB_FREQ_MHZ"
    case Split => "SPLIT"
    case Modea => "MODEA"
    case Modeb => "MODEB"
    case CtcssConfig => "CTCSS_CONFIG"
    case CtcssTone => "CTCSS_TONE"
    case Command(n) => "COMMAND" + IntToString(n)
    case PresetName => "PRESET_NAME"
    case Cmd(n) => "CMD" + Format03d(n)
    case Name => "NAME"
    case Rig => "RIG"
    case Port => "PORT"
    case Baud => "BAUD"
    case Data => "DATA"
    case Parity => "PARITY"
    case Stop => "STOP"
    case Preset => "PRESET"
  }

  /** Distinct keys are distinct texts in the file. */
  lemma KeyTextInjective(a: Key, b: Key)
    requires KeyText(a) == KeyText(b)
    ensures a == b
  {
    var t := KeyText(a);
    if a.Command? && b.Command? {
      assert IntToString(a.n) == t[7..] == IntToString(b.n);
      ParseIntToString(a.n);
      ParseIntToString(b.n);
    } else if a.Cmd? && b.Cmd? {
      NumberedNameInjective("CMD", a.n, b.n);
    } else if a.Command? || a.Cmd? || b.Command? || b.Cmd? {
      // "COMMAND<n>" and "CMD<nnn>" are the only key texts starting "CO" and "CM".
      assert t[1] == KeyText(b)[1];
    }
  }

  /**
   * The store's state: the sections that exist and the text of every key of
   * every section, "" for one never set.
   */
  datatype Contents = Contents(sections: set<string>, values: (string, Key) -> string)

  /** An empty store. */
  function Empty(): Contents {
    Contents({}, (s: string, k: Key) => "")
  }

  /** config.get(section, key). */
  function Lookup(c: Contents, section: string, key: Key): string {
    c.values(section, key)
  }

  /** `if not config.has_section(s): config.add_section(s)`. */
  function WithSection(c: Contents, section: string): Contents {
    c.(sections := c.sections + {section})
  }

  /** config.set(section, key, value). */
  function Assign(c: Contents, section: string, key: Key, value: string): Contents {
    c.(values := (s: string, k: Key) => if s == section && k == key then value else c.values(s, k))
  }

  /** c and d have the same sections and every key reads the same in both. */
  ghost predicate Same(c: Contents, d: Contents) {
    && c.sections == d.sections
    && forall s: string, k: Key :: Lookup(c, s, k) == Lookup(d, s, k)
  }

  /** Every key outside the given section reads the same in c and d. */
  ghost predicate SameOutside(c: Contents, d: Contents, section: string) {
    forall s: string, k: Key :: s != section ==> Lookup(c, s, k) == Lookup(d, s, k)
  }

  /** Every key of the given section reads the same in c and d. */
  ghost predicate SameInside(c: Contents, d: Contents, section: string) {
    forall k: Key :: Lookup(c, section, k) == Lookup(d, section, k)
  }

  /** The in-memory store shared by every preset, widget and dialog. */
  class ConfigFile {
    /** The texts as the program currently sees them. */
    var contents: Contents
    /** The texts as the last write() left them in the file. */
    var disk: Contents
    /** How many times write() has been called. */
    var flushes: nat

    constructor (initial: Contents)
      ensures contents == initial && disk == initial && flushes == 0
    {
      contents := initial;
      disk := initial;
      flushes := 0;
    }

    function Get(section: string, key: Key): string
      reads this
    {
      Lookup(contents, section, key)
    }

    predicate HasSection(section: string)
      reads this
    {
      section in contents.sections
    }

    method AddSection(section: string)
      modifies this
      ensures contents == WithSection(old(contents), section)
      ensures disk == old(disk) && flushes == old(flushes)
    {
      contents := WithSection(contents, section);
    }

    method Set(section: string, key: Key, value: string)
      modifies this
      ensures contents == Assign(old(contents), section, key, value)
      ensures disk == old(disk) && flushes == old(flushes)
    {
      contents := Assign(contents, section, key, value);
    }

    /** write(): flush the whole store to the file. */
    method Write()
      modifies this
      ensures contents == old(contents) && disk == contents
      ensures flushes == old(flushes) + 1
    {
      disk := contents;
      flushes := flushes + 1;
    }
  }
}
