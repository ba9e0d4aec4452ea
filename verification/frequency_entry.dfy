/**
 * WidgetFrequencyEntry: the entry box that tunes VFO-A. Keystrokes pass
 * through _validate_float; Return sends 'FREQA <hz>' to the rig.
 *
 * int(float(text) * 1E6) is floating point; it is the parameter toHz
 * here, None where float() raises its ValueError.
 */
module FrequencyEntry {
  import opened Wrappers
  import opened PyText
  import opened PresetUtils
  import opened ConfigStore
  import opened RigCat
  import opened Validators

  /** 'FREQA {}'.format(hz). */
  function FreqCommand(hz: int): (cmd: string)
    ensures |cmd| > 0
  {
    "FREQA " + IntToString(hz)
  }

  /** The frequency command reaches ascii_cmd as opcode FREQA with the Hz value as its one argument. */
  lemma FreqCommandCall(hz: int)
    ensures AsciiCall(FreqCommand(hz)) == AsciiCmd("FREQA", [IntToString(hz)])
  {
    NoSpaceInIntText(hz);
    var op := "FREQA";
    assert ' ' !in op && !IsSpace(op[0]);
    assert FreqCommand(hz) == op + " " + IntToString(hz);
    TwoWordCommand(op, IntToString(hz));
  }

  /** The entry and the text it holds. */
  class WidgetFrequencyEntry {
    var freqMhzText: string

    /** WidgetFrequencyEntry(parent): an empty entry. */
    constructor ()
      ensures freqMhzText == ""
    {
      freqMhzText := "";
    }

    /**
     * A keystroke: Tk calls the validator with (why, where, what, all) and
     * applies the edit, leaving all in the entry, only when it returns
     * True. A ValueError from int(where) is passed on and the text is kept.
     * The validator is _validate_float as written, so a '.' typed in front
     * of an existing one gets in (SecondDotAccepted).
     */
    method Keystroke(why: string, where: string, what: string, all: string) returns (outcome: Outcome)
      modifies this
      ensures ValidateFloat(why, where, what, all).Failure? ==>
                outcome == Raised(ValidateFloat(why, where, what, all).error) && freqMhzText == old(freqMhzText)
      ensures ValidateFloat(why, where, what, all).Success? ==>
                && outcome == Returned
                && freqMhzText == if ValidateFloat(why, where, what, all).value then all else old(freqMhzText)
    {
      match ValidateFloat(why, where, what, all)
      case Failure(e) =>
        return Raised(e);
      case Success(ok) =>
        if ok {
          freqMhzText := all;
        }
        outcome := Returned;
    }

    /**
     * _set_frequency(event): strip the text; nothing at all happens when it
     * is empty. Otherwise float() may raise before init_rig_cat is called;
     * if init_rig_cat() returns True one FREQA command is sent; then
     * close_rig_cat(). The ValueError of init_rig_cat escapes before the close.
     */
    method SetFrequency(rc: RigControl, cfg: ConfigFile, portOk: bool, toHz: string -> Option<int>,
                        reply: string) returns (outcome: Outcome)
      modifies rc
      ensures var text := Strip(freqMhzText);
              var plan := InitPlan(cfg.contents, old(rc.name), portOk);
              && (text == "" ==> outcome == Returned && rc.trace == old(rc.trace) && rc.name == old(rc.name))
              && (text != "" && toHz(text).None? ==>
                    outcome == Raised(ValueError) && rc.trace == old(rc.trace) && rc.name == old(rc.name))
              && (text != "" && toHz(text).Some? ==>
                    && rc.name == plan.name
                    && (plan.result.Failure? ==>
                          outcome == Raised(plan.result.error) && rc.trace == old(rc.trace) + plan.calls)
                    && (plan.result.Success? ==>
                          && outcome == Returned
                          && rc.trace == old(rc.trace) + plan.calls
                                         + (if plan.result.value then [AsciiCall(FreqCommand(toHz(text).value))] else [])
                                         + [Close]))
    {
      var freqStr := Strip(freqMhzText);
      if |freqStr| > 0 {
        var hz := toHz(freqStr);
        if hz.None? {
          return Raised(ValueError);
        }
        var freqHz := hz.value;
        var r := rc.InitRigCat(cfg, portOk);
        if r.Failure? {
          return Raised(r.error);
        }
        if r.value {
          var cmd := "FREQA " + IntToString(freqHz);
          var resp := rc.SendRigCatCmd(cmd, reply);
        }
        rc.CloseRigCat();
      }
      outcome := Returned;
    }
  }
}
