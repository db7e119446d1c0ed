/**
 * OptionsController: the edit/save cycle of the options window. The
 * controller marks the edit copy of the configuration as edited (three
 * independent flags) and, on save, runs a fixed sequence of signals and
 * configuration-manager calls with two early exits.
 *
 * The signals the controller emits and the calls it makes into the
 * configuration manager and the main manager are recorded, in order, in one
 * trace.
 */
module OptionsControllerModel {
  import opened QtTypes

  /** The three edit flags of the edit copy of the configuration. */
  datatype EditState = EditState(optEdited: bool, flagsEdited: bool, iniEdited: bool)

  const NothingEdited := EditState(false, false, false)

  /** FirewallConf::anyEdited(). */
  predicate AnyEdited(e: EditState)
  {
    e.optEdited || e.flagsEdited || e.iniEdited
  }

  datatype EditFlag = Opt | Flags | IniFlag

  function Edited(e: EditState, f: EditFlag): bool
  {
    match f
    case Opt => e.optEdited
    case Flags => e.flagsEdited
    case IniFlag => e.iniEdited
  }

  /** The edit state with flag f set. */
  function Mark(e: EditState, f: EditFlag): (r: EditState)
    ensures Edited(r, f)
    ensures forall g :: g != f ==> Edited(r, g) == Edited(e, g)
    ensures AnyEdited(r)
  {
    match f
    case Opt => e.(optEdited := true)
    case Flags => e.(flagsEdited := true)
    case IniFlag => e.(iniEdited := true)
  }

  datatype Event =
    // signals of the controller
    | EditedChanged(edited: bool)
    | EditResetted
    | AboutToSave
    // calls into the configuration manager and the main manager
    | InitConfToEdit
    | ClearConfToEdit
    | SaveConf
    | ApplySavedConf
    | CloseOptionsWindow

  /** The signals set<Flag>Edited emits: editedChanged(true) on the first marking only. */
  function MarkEvents(e: EditState, f: EditFlag): (evs: seq<Event>)
    ensures evs == [] || evs == [EditedChanged(true)]
    ensures evs == [] <==> Edited(e, f)
  {
    if Edited(e, f) then [] else [EditedChanged(true)]
  }

  /** Marking twice is marking once, and the second marking emits nothing. */
  lemma {:induction false} MarkIdempotent(e: EditState, f: EditFlag)
    ensures Mark(Mark(e, f), f) == Mark(e, f)
    ensures MarkEvents(Mark(e, f), f) == []
  {
    assert Edited(Mark(e, f), f);
    var m := Mark(e, f);
    forall g: EditFlag ensures Edited(Mark(m, f), g) == Edited(m, g) {
    }
    assert Mark(m, f).optEdited == m.optEdited by {
      assert Edited(Mark(m, f), Opt) == Edited(m, Opt);
    }
    assert Mark(m, f).flagsEdited == m.flagsEdited by {
      assert Edited(Mark(m, f), Flags) == Edited(m, Flags);
    }
    assert Mark(m, f).iniEdited == m.iniEdited by {
      assert Edited(Mark(m, f), IniFlag) == Edited(m, IniFlag);
    }
  }

  /** The trace of save(closeOnSuccess) from edit state e, when saveConf answers saveOk. */
  function SaveTrace(e: EditState, closeOnSuccess: bool, saveOk: bool): seq<Event>
  {
    if !AnyEdited(e) then [AboutToSave, EditedChanged(false)]
    else if !saveOk then [AboutToSave, SaveConf]
    else if closeOnSuccess then [AboutToSave, SaveConf, ApplySavedConf, CloseOptionsWindow]
    else [AboutToSave, SaveConf, ApplySavedConf, InitConfToEdit, EditedChanged(false), EditResetted]
  }

  /** save emits aboutToSave before anything else. */
  lemma SaveStartsWithAboutToSave(e: EditState, closeOnSuccess: bool, saveOk: bool)
    ensures |SaveTrace(e, closeOnSuccess, saveOk)| >= 2
    ensures SaveTrace(e, closeOnSuccess, saveOk)[0] == AboutToSave
    ensures AboutToSave !in SaveTrace(e, closeOnSuccess, saveOk)[1..]
  {
  }

  /** saveConf is called exactly when something is edited; otherwise editedChanged(false) follows. */
  lemma SaveCallsSaveConfIffEdited(e: EditState, closeOnSuccess: bool, saveOk: bool)
    ensures SaveConf in SaveTrace(e, closeOnSuccess, saveOk) <==> AnyEdited(e)
    ensures !AnyEdited(e) ==> SaveTrace(e, closeOnSuccess, saveOk) == [AboutToSave, EditedChanged(false)]
  {
  }

  /**
   * The saved configuration is applied exactly when something was edited and
   * saveConf succeeded; a failed save applies, closes and resets nothing.
   */
  lemma SaveAppliesIffSaved(e: EditState, closeOnSuccess: bool, saveOk: bool)
    ensures ApplySavedConf in SaveTrace(e, closeOnSuccess, saveOk) <==> AnyEdited(e) && saveOk
    ensures AnyEdited(e) && !saveOk ==>
              var t := SaveTrace(e, closeOnSuccess, saveOk);
              CloseOptionsWindow !in t && EditResetted !in t && InitConfToEdit !in t
              && EditedChanged(false) !in t
  {
  }

  /**
   * After a successful save the window closes when asked to; otherwise a new
   * edit copy is made and editedChanged(false) then editResetted close the trace.
   */
  lemma SaveSuccessEnding(e: EditState, closeOnSuccess: bool)
    requires AnyEdited(e)
    ensures var t := SaveTrace(e, closeOnSuccess, true);
      && t[..3] == [AboutToSave, SaveConf, ApplySavedConf]
      && (closeOnSuccess ==> t[3..] == [CloseOptionsWindow])
      && (!closeOnSuccess ==> t[3..] == [InitConfToEdit, EditedChanged(false), EditResetted])
  {
  }

  class OptionsController {
    /** The configuration manager's edit copy (None: no edit copy). */
    var confToEdit: Option<EditState>
    var trace: seq<Event>

    /** The controller asks for a fresh edit copy of the configuration. */
    constructor ()
      ensures confToEdit == Some(NothingEdited)
      ensures trace == [InitConfToEdit]
    {
      confToEdit := Some(NothingEdited);
      trace := [InitConfToEdit];
    }

    /** The destructor drops the edit copy. */
    method Destroy()
      modifies this
      ensures confToEdit == None
      ensures trace == old(trace) + [ClearConfToEdit]
    {
      confToEdit := None;
      trace := trace + [ClearConfToEdit];
    }

    method EmitEdited(edited: bool)
      modifies this`trace
      ensures trace == old(trace) + [EditedChanged(edited)]
    {
      trace := trace + [EditedChanged(edited)];
    }

    method ResetEdited()
      modifies this`trace
      ensures trace == old(trace) + [EditedChanged(false), EditResetted]
    {
      EmitEdited(false);
      trace := trace + [EditResetted];
    }

    method SetOptEdited()
      requires confToEdit.Some?
      modifies this
      ensures confToEdit == Some(Mark(old(confToEdit.value), Opt))
      ensures trace == old(trace) + MarkEvents(old(confToEdit.value), Opt)
    {
      if !confToEdit.value.optEdited {
        confToEdit := Some(confToEdit.value.(optEdited := true));
        EmitEdited(true);
      }
    }

    method SetFlagsEdited()
      requires confToEdit.Some?
      modifies this
      ensures confToEdit == Some(Mark(old(confToEdit.value), Flags))
      ensures trace == old(trace) + MarkEvents(old(confToEdit.value), Flags)
    {
      if !confToEdit.value.flagsEdited {
        confToEdit := Some(confToEdit.value.(flagsEdited := true));
        EmitEdited(true);
      }
    }

    method SetIniEdited()
      requires confToEdit.Some?
      modifies this
      ensures confToEdit == Some(Mark(old(confToEdit.value), IniFlag))
      ensures trace == old(trace) + MarkEvents(old(confToEdit.value), IniFlag)
    {
      if !confToEdit.value.iniEdited {
        confToEdit := Some(confToEdit.value.(iniEdited := true));
        EmitEdited(true);
      }
    }

    /** A migrated configuration counts as an edited one. */
    method Initialize(confMigrated: bool)
      requires confToEdit.Some?
      modifies this
      ensures confToEdit == Some(if confMigrated then Mark(old(confToEdit.value), Opt) else old(confToEdit.value))
      ensures trace == old(trace) + (if confMigrated then MarkEvents(old(confToEdit.value), Opt) else [])
    {
      if confMigrated {
        SetOptEdited();
      }
    }

    method CloseWindow()
      modifies this`trace
      ensures trace == old(trace) + [CloseOptionsWindow]
    {
      trace := trace + [CloseOptionsWindow];
    }

    /** saveOk is what the configuration manager's saveConf answers. */
    method Save(closeOnSuccess: bool, saveOk: bool)
      requires confToEdit.Some?
      modifies this
      ensures trace == old(trace) + SaveTrace(old(confToEdit.value), closeOnSuccess, saveOk)
      ensures confToEdit ==
                if AnyEdited(old(confToEdit.value)) && saveOk && !closeOnSuccess then Some(NothingEdited)
                else old(confToEdit)
    {
      trace := trace + [AboutToSave];

      if !AnyEdited(confToEdit.value) {
        EmitEdited(false);
        return;
      }

      trace := trace + [SaveConf];
      if !saveOk {
        return;
      }

      trace := trace + [ApplySavedConf];

      if closeOnSuccess {
        CloseWindow();
      } else {
        confToEdit := Some(NothingEdited);
        trace := trace + [InitConfToEdit];
        ResetEdited();
      }
    }
  }
}
