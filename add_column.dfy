/** The add-column form (`outerbase-add-column`): a name field and a submit that checks it. */
module AddColumn {
  import opened Wrappers
  import opened Events

  const MissingNameMessage := "Missing column name"

  class AddColumnElement {
    var columnName: string
    /** Whether the warning under the name field is shown. */
    var errorShown: bool
    /** Events dispatched by the form, oldest first. */
    var log: seq<Notification>

    constructor ()
      ensures columnName == "" && !errorShown && log == []
    {
      columnName, errorShown, log := "", false, [];
    }

    /** An `input` event on the name field. */
    method OnChange(value: string)
      modifies this`columnName
      ensures columnName == value
    {
      columnName := value;
    }

    /** `submit`: show the warning, then require a name and announce the new column. */
    method OnSubmit() returns (outcome: Outcome, prevented: bool)
      modifies this`errorShown, this`log
      ensures errorShown && prevented
      ensures outcome.Threw? <==> columnName == ""
      ensures outcome.Threw? ==> outcome.message == MissingNameMessage && log == old(log)
      ensures outcome.Done? ==> log == old(log) + [ColumnAddedEvent(ColumnAttributes(columnName, None))]
    {
      prevented := true;
      errorShown := true;
      if columnName == "" {
        return Threw(MissingNameMessage), prevented;
      }
      log := log + [ColumnAddedEvent(ColumnAttributes(columnName, None))];
      outcome := Done;
    }
  }

  /** Typing a name and submitting adds a column of that name and nothing else. */
  method TypeAndSubmit(f: AddColumnElement, name: string) returns (outcome: Outcome)
    requires name != ""
    modifies f
    ensures outcome == Done && f.log == old(f.log) + [ColumnAdded(ColumnAttributes(name, None))]
  {
    f.OnChange(name);
    var prevented;
    outcome, prevented := f.OnSubmit();
  }
}
