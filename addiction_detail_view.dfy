/** The state the addiction detail screen keeps between renders: the record it was given, the
    copy the settings dialog edits, and the last breakdown the one-second timer computed.
    Callbacks to the parent (onUpdate) become returned records. */
module AddictionDetailView {
  import opened Types
  import opened AddictionDetail

  /** The settings dialog edits the name, the emoji and the colour, and nothing else. */
  predicate OnlyDialogFieldsDiffer(current: Addiction, edited: Addiction)
  {
    edited.(name := current.name, emoji := current.emoji, color := current.color) == current
  }

  /** The dialog's three fields laid over the record the screen shows now. */
  function MergeEdits(current: Addiction, edited: Addiction): (u: Addiction)
    ensures u.name == edited.name && u.emoji == edited.emoji && u.color == edited.color
    ensures OnlyDialogFieldsDiffer(current, u)
  {
    current.(name := edited.name, emoji := edited.emoji, color := edited.color)
  }

  /** While the edited copy differs from the shown record only in the dialog's fields, saving
      the merge is saving the copy, as the screen does. */
  lemma MergeIsCopyWhenInSync(current: Addiction, edited: Addiction)
    ensures OnlyDialogFieldsDiffer(current, edited) <==> MergeEdits(current, edited) == edited
  {
  }

  /** The merge never touches the streak: start date and relapses are the shown record's. */
  lemma MergeKeepsHistory(current: Addiction, edited: Addiction)
    ensures MergeEdits(current, edited).relapses == current.relapses
    ensures MergeEdits(current, edited).startDate == current.startDate
    ensures MergeEdits(current, edited).id == current.id
  {
  }

  class DetailView {
    var addiction: Addiction   // the prop given by the parent
    var edited: Addiction      // editedAddiction, initialised once from the first prop
    var progress: Progress     // the breakdown last computed

    constructor (a: Addiction, now: int)
      ensures addiction == a && edited == a
      ensures progress == CalculateProgress(a.startDate, now)
    {
      addiction := a;
      edited := a;
      progress := CalculateProgress(a.startDate, now);
    }

    predicate InSync()
      reads this
    {
      OnlyDialogFieldsDiffer(addiction, edited)
    }

    /** One tick of the one-second interval. */
    method Tick(now: int)
      modifies this`progress
      ensures progress == CalculateProgress(addiction.startDate, now)
    {
      progress := CalculateProgress(addiction.startDate, now);
    }

    /** The parent re-renders the screen with a new record. useState ignores a new initial
        value, so the edited copy and the breakdown stay as they were until the next tick. */
    method ReceiveProps(a: Addiction)
      modifies this`addiction
      ensures addiction == a
    {
      addiction := a;
    }

    method EditName(name: string)
      modifies this`edited
      ensures edited == old(edited).(name := name)
    {
      edited := edited.(name := name);
    }

    method EditEmoji(emoji: string)
      modifies this`edited
      ensures edited == old(edited).(emoji := emoji)
    {
      edited := edited.(emoji := emoji);
    }

    method EditColor(color: string)
      modifies this`edited
      ensures edited == old(edited).(color := color)
    {
      edited := edited.(color := color);
    }

    /** "Registrar Recaída": the record to hand to onUpdate. */
    method RecordRelapse(now: int) returns (u: Addiction)
      ensures u.relapses == addiction.relapses + [now]
      ensures u == AddRelapse(addiction, now)
    {
      u := AddRelapse(addiction, now);
    }

    /** "Salvar" as the screen does it: hand the edited copy to onUpdate. */
    method SaveSettingsAsWritten() returns (u: Addiction)
      ensures u == edited
    {
      u := edited;
    }

    /** "Salvar" with the dialog's fields laid over the current record: the same as the screen's
        while the copy is in sync, and never losing a relapse or a restart. */
    method SaveSettings() returns (u: Addiction)
      ensures u == MergeEdits(addiction, edited)
      ensures InSync() ==> u == edited
      ensures u.relapses == addiction.relapses && u.startDate == addiction.startDate
    {
      u := MergeEdits(addiction, edited);
    }
  }

  /** As written: record a relapse, let the parent pass the updated record back, then save the
      settings dialog. The saved record is the snapshot from before the relapse, so the parent's
      onUpdate overwrites the stored record and the relapse is gone. */
  method StaleSaveDropsRelapse(a: Addiction, now: int) returns (current: Addiction, saved: Addiction)
    ensures current == AddRelapse(a, now)
    ensures saved.relapses == a.relapses
    ensures |saved.relapses| + 1 == |current.relapses|
  {
    var view := new DetailView(a, now);
    current := view.RecordRelapse(now);
    view.ReceiveProps(current);
    saved := view.SaveSettingsAsWritten();
  }

  /** The same sequence with the corrected save: the relapse survives and the edit applies. */
  method SaveAfterRelapseKeepsIt(a: Addiction, now: int, name: string)
    returns (current: Addiction, saved: Addiction)
    ensures current == AddRelapse(a, now)
    ensures saved.relapses == a.relapses + [now]
    ensures saved.name == name
    ensures saved == current.(name := name)
  {
    var view := new DetailView(a, now);
    current := view.RecordRelapse(now);
    view.ReceiveProps(current);
    view.EditName(name);
    saved := view.SaveSettings();
  }
}
