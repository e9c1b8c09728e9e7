/** The earlier case-form variant: screen flags, a contact selection list
    built from `Name(Email)` labels, the selected values shown joined by `,`,
    published subject and description changes, and the same uploaded-file
    lists as the support form, with names shown after a `・` bullet and
    removal done locally. */
module NewCaseForm {
  import opened Lwc

  /** The case record `handleSubmit` builds. */
  datatype NewCase = NewCase(Subject: string, Description: string, Status: string)

  const FilenamePrefix := "・"
  const ValueSeparator := ','
  const SubmitAlert := "ケースデータがコンソールに出力されました。"

  class CaseFormTest {
    var documents: seq<string>
    var filenames: seq<string>
    var fileMap: seq<FileEntry>
    var isComplete: bool
    var contactData: seq<ContactRecord>
    var selectList: seq<SelectOption>
    var selectedValues: seq<string>
    var subject: string
    var description: string
    var selectedValue: string
    var createFlag: bool
    var confirmFlag: bool
    var completeFlag: bool

    /** The field initialisers: the form opens on the create screen. */
    constructor ()
      ensures createFlag && !confirmFlag && !completeFlag
      ensures documents == [] && filenames == [] && fileMap == [] && !isComplete
      ensures contactData == [] && selectList == [] && selectedValues == []
      ensures subject == "" && description == "" && selectedValue == ""
    {
      documents, filenames, fileMap := [], [], [];
      isComplete := false;
      contactData, selectList, selectedValues := [], [], [];
      subject, description, selectedValue := "", "", "";
      createFlag, confirmFlag, completeFlag := true, false, false;
    }

    /** The contact records arrived: they are kept, and the selection list is
        reset and then given one `Name(Email)` option per record, in order. */
    method ContactRecordsLoaded(result: seq<ContactRecord>)
      modifies this`contactData, this`selectList
      ensures contactData == result
      ensures selectList == ContactOptions(result)
    {
      contactData := result;
      selectList := [];
      for i := 0 to |contactData|
        invariant contactData == result
        invariant selectList == ContactOptions(result[..i])
      {
        assert result[..i + 1][..i] == result[..i];
        var c := contactData[i];
        selectList := selectList + [SelectOption(c.Name + "(" + c.Email + ")", c.Id)];
      }
      assert result[..|result|] == result;
    }

    /** The selection changed. */
    method HandleChange(value: seq<string>)
      modifies this`selectedValues
      ensures selectedValues == value
    {
      selectedValues := value;
    }

    /** The selected values joined by `,`: the text holds no `,` exactly when
        at most one value is selected and that value holds none. */
    function SelectedValuesDisplay(): (display: string)
      reads this
      ensures ValueSeparator !in display <==> |selectedValues| <= 1 && (|selectedValues| == 1 ==> ValueSeparator !in selectedValues[0])
      ensures |selectedValues| == 1 ==> display == selectedValues[0]
    {
      Join(selectedValues, ValueSeparator)
    }

    /** When at least one value is selected and none contains `,`, splitting
        the shown text at `,` gives the selection back. */
    lemma SelectedValuesReadBack()
      requires |selectedValues| > 0
      requires forall k :: 0 <= k < |selectedValues| ==> ValueSeparator !in selectedValues[k]
      ensures Split(SelectedValuesDisplay(), ValueSeparator) == selectedValues
    {
      SplitJoin(selectedValues, ValueSeparator);
    }

    /** The selection list offered to the combobox. */
    function Options(): (options: seq<SelectOption>)
      reads this
      ensures options == selectList
    {
      selectList
    }

    /** The subject input: store the value and publish it on the deflection channel. */
    method HandleSubjectInputChange(name: string, value: string) returns (effects: seq<Effect>)
      modifies this`subject
      ensures subject == value
      ensures effects == [Publish(Payload(name, value))]
    {
      subject := value;
      effects := [Publish(Payload(name, value))];
    }

    /** The description input: store the value and publish it on the deflection channel. */
    method HandleDescriptionInputChange(name: string, value: string) returns (effects: seq<Effect>)
      modifies this`description
      ensures description == value
      ensures effects == [Publish(Payload(name, value))]
    {
      description := value;
      effects := [Publish(Payload(name, value))];
    }

    /** The upload control finished: each file, in order, is appended to
        `documents` (its id), `filenames` (`・` and its name) and `fileMap`
        (the id with `・` and its name). */
    method HandleUploadFinished(files: seq<UploadedFile>)
      modifies this`documents, this`filenames, this`fileMap
      ensures documents == old(documents) + VersionIds(files)
      ensures filenames == old(filenames) + DisplayNames(files, FilenamePrefix)
      ensures fileMap == old(fileMap) + FileEntries(files, FilenamePrefix)
    {
      for k := 0 to |files|
        invariant documents == old(documents) + VersionIds(files[..k])
        invariant filenames == old(filenames) + DisplayNames(files[..k], FilenamePrefix)
        invariant fileMap == old(fileMap) + FileEntries(files[..k], FilenamePrefix)
      {
        assert files[..k + 1][..k] == files[..k];
        var file := files[k];
        documents := documents + [file.contentVersionId];
        filenames := filenames + [FilenamePrefix + file.name];
        fileMap := fileMap + [FileEntry(file.contentVersionId, FilenamePrefix + file.name)];
      }
      assert files[..|files|] == files;
    }

    /** The remove button, handled locally at once: every `documents` entry
        equal to the one at the index goes (none when the index is outside the
        list), the `filenames` entry at the index goes, `fileMap` is kept. */
    method HandleRemoveFile(index: int)
      modifies this`documents, this`filenames
      ensures documents == RemoveAllOf(old(documents), ElementAt(old(documents), index))
      ensures filenames == RemoveAt(old(filenames), index)
    {
      var removedFile := ElementAt(documents, index);
      documents := RemoveAllOf(documents, removedFile);
      filenames := RemoveAt(filenames, index);
    }

    /** The submit button: the case record is built from the current subject
        and description with status `New` and shown in an alert; no state changes. */
    method HandleSubmit() returns (newCase: NewCase, effects: seq<Effect>)
      ensures newCase.Subject == subject && newCase.Description == description && newCase.Status == "New"
      ensures effects == [Alert(SubmitAlert)]
    {
      newCase := NewCase(subject, description, "New");
      effects := [Alert(SubmitAlert)];
    }
  }
}
