/** The contact-support case form: a three-step workflow (`'1'` input,
    `'2'` confirmation, `'3'` completed) with a required-field gate and an
    attachment limit on entering the confirmation step, an optimistic move to
    the completed step around the remote create call, a resolution deadline
    built from a date and a time, and the uploaded-file lists. */
module ContactSupportCaseForm {
  import opened Lwc

  /** A rendered `lightning-input`, `lightning-textarea` or `lightning-combobox`:
      whether it is marked required and whether its validity check passes. */
  datatype InputField = InputField(required: bool, valid: bool)

  /** The case record sent to the create call. */
  datatype NewCase = NewCase(Subject: string, Description: string, Status: string, Priority: string, Origin: string)

  /** Arguments of the remote create call. */
  datatype CreateRequest = CreateRequest(newCase: NewCase, documents: seq<string>, resolutionDate: string, resolutionTime: string)

  /** A file removal in flight: the parsed index and the id found there
      (`None` when the index is outside `documents`), which is what the remote
      delete call receives. */
  datatype PendingRemoval = PendingRemoval(index: int, removedFile: Option<string>)

  /** The part of the Case object metadata the form reads: the default record
      type and the `length` of the Subject and Description fields (`None` when
      the field or its length is absent). */
  datatype ObjectInfo = ObjectInfo(defaultRecordTypeId: string, subjectLength: Option<int>, descriptionLength: Option<int>)

  const AttachmentLimit: nat := 10
  const DefaultTime := "18:00"

  const RequiredFieldsToast := Toast("必須項目が未入力です。", "※が付いている項目は入力必須項目です。", "error", Dismissible)
  const AttachmentLimitToast := Toast("添付ファイルが制限に達しました", "お問い合わせ登録の添付ファイルは最大10件までとなります。", "error", Dismissible)
  const SubmitFailedToast := Toast("エラーが発生しました", "登録に失敗しました。サポートへメールでご連絡ください。\nsupport@pathoslogos.co.jp", "error", Sticky)

  /** The three values the handlers ever give `step`. */
  predicate ValidStep(step: string)
  {
    step == "1" || step == "2" || step == "3"
  }

  /** True when every required input passes its validity check; inputs not
      marked required are ignored. */
  predicate AllRequiredValid(fields: seq<InputField>)
  {
    forall i :: 0 <= i < |fields| ==> fields[i].required ==> fields[i].valid
  }

  /** The positions, in rendering order, of the required inputs whose validity
      check fails: the inputs on which `reportValidity` is called. */
  function InvalidRequired(fields: seq<InputField>): (r: seq<nat>)
    ensures forall k :: 0 <= k < |r| ==> r[k] < |fields|
    ensures forall k, l :: 0 <= k < l < |r| ==> r[k] < r[l]
    ensures forall i :: 0 <= i < |fields| ==> (i in r <==> fields[i].required && !fields[i].valid)
  {
    if fields == [] then []
    else
      var last := |fields| - 1;
      var init := fields[..last];
      assert forall i :: 0 <= i < last ==> init[i] == fields[i];
      if fields[last].required && !fields[last].valid then InvalidRequired(init) + [last]
      else InvalidRequired(init)
  }

  /** One `reportValidity` effect per position, in order. */
  function Reports(positions: seq<nat>): (effects: seq<Effect>)
    ensures |effects| == |positions|
    ensures forall k :: 0 <= k < |positions| ==> effects[k] == ReportValidity(positions[k])
  {
    if positions == [] then [] else [ReportValidity(positions[0])] + Reports(positions[1..])
  }

  /** The validation gate passes exactly when no required input is invalid. */
  lemma {:induction false} GateIffNoReports(fields: seq<InputField>)
    ensures AllRequiredValid(fields) <==> InvalidRequired(fields) == []
  {
    var r := InvalidRequired(fields);
    if r != [] {
      assert r[0] in r;
      assert fields[r[0]].required && !fields[r[0]].valid;
    }
    if !AllRequiredValid(fields) {
      var i :| 0 <= i < |fields| && fields[i].required && !fields[i].valid;
      assert i in r;
    }
  }

  /** The resolution deadline shown to the user: empty without a date; the
      date and `18:00` when the time is empty or holds no `:`; otherwise the
      date, a space, and the first two `:`-separated parts of the time joined
      by `:`. */
  function FormatDeadline(date: string, time: string): (formatted: string)
    ensures formatted == "" <==> date == ""
    ensures date != "" ==> |formatted| > |date| && formatted[..|date| + 1] == date + " "
  {
    if date != "" then
      if time == "" then date + " " + DefaultTime
      else
        var hhmm := Split(time, ':');
        if |hhmm| > 1 then date + " " + hhmm[0] + ":" + hhmm[1]
        else date + " " + DefaultTime
    else ""
  }

  /** A time without `:` (the empty time included) falls back to `18:00`. */
  lemma FormatDeadlineDefault(date: string, time: string)
    requires date != "" && ':' !in time
    ensures FormatDeadline(date, time) == date + " 18:00"
  {
    SplitLength(time, ':');
  }

  /** A time `hh:mm`, possibly followed by `:` and more, is shown as `hh:mm`
      after the date: only the first two parts count. */
  lemma FormatDeadlineHourMinute(date: string, hh: string, mm: string, rest: string)
    requires date != "" && ':' !in hh && ':' !in mm
    requires rest == "" || rest[0] == ':'
    ensures FormatDeadline(date, hh + ":" + mm + rest) == date + " " + hh + ":" + mm
  {
    var time := hh + ":" + mm + rest;
    assert time == hh + [':'] + (mm + rest);
    SplitAtFirstSep(hh, mm + rest, ':');
    if rest == "" {
      assert mm + rest == mm;
      SplitWithoutSep(mm, ':');
    } else {
      assert mm + rest == mm + [':'] + rest[1..];
      SplitAtFirstSep(mm, rest[1..], ':');
    }
    assert Split(time, ':')[0] == hh && Split(time, ':')[1] == mm;
  }

  class ContactSupportCaseForm {
    var documents: seq<string>
    var filenames: seq<string>
    var fileMap: seq<FileEntry>
    var isLoading: bool
    var step: string
    var subject: string
    var description: string
    var priorityValue: string
    var resolutionDate: string
    var resolutionTime: string
    var resolutionFormattedDate: string
    var hhmmList: seq<string>
    var recordTypeId: Option<string>
    var subjectMaxLen: int
    var descriptionMaxLen: int
    var deleteNgFlag: bool
    var caseNumber: string

    ghost predicate Valid()
      reads this
    {
      ValidStep(step)
    }

    /** The field initialisers of the component. */
    constructor ()
      ensures Valid() && step == "1"
      ensures documents == [] && filenames == [] && fileMap == [] && !isLoading
      ensures subject == "" && description == "" && priorityValue == "低"
      ensures resolutionDate == "" && resolutionTime == "" && resolutionFormattedDate == "" && hhmmList == []
      ensures recordTypeId == None && subjectMaxLen == 255 && descriptionMaxLen == 32000
      ensures deleteNgFlag && caseNumber == ""
    {
      documents, filenames, fileMap := [], [], [];
      isLoading := false;
      step := "1";
      subject, description, priorityValue := "", "", "低";
      resolutionDate, resolutionTime, resolutionFormattedDate := "", "", "";
      hhmmList := [];
      recordTypeId := None;
      subjectMaxLen, descriptionMaxLen := 255, 32000;
      deleteNgFlag := true;
      caseNumber := "";
    }

    /** The `getObjectInfo` wire handler: with data, it records the default
        record type and takes each field length that is present and non-zero. */
    method CaseObjectInfo(data: Option<ObjectInfo>)
      modifies this`recordTypeId, this`subjectMaxLen, this`descriptionMaxLen
      ensures data.None? ==> unchanged(this)
      ensures data.Some? ==> recordTypeId == Some(data.value.defaultRecordTypeId)
      ensures subjectMaxLen ==
        if data.Some? && data.value.subjectLength.Some? && data.value.subjectLength.value != 0
        then data.value.subjectLength.value else old(subjectMaxLen)
      ensures descriptionMaxLen ==
        if data.Some? && data.value.descriptionLength.Some? && data.value.descriptionLength.value != 0
        then data.value.descriptionLength.value else old(descriptionMaxLen)
    {
      if data.Some? {
        var info := data.value;
        recordTypeId := Some(info.defaultRecordTypeId);
        if info.subjectLength.Some? && info.subjectLength.value != 0 {
          subjectMaxLen := info.subjectLength.value;
        }
        if info.descriptionLength.Some? && info.descriptionLength.value != 0 {
          descriptionMaxLen := info.descriptionLength.value;
        }
      }
    }

    function IsApplicationStep(): (b: bool)
      reads this
      ensures b <==> step == "1"
      ensures b ==> ValidStep(step)
    {
      step == "1"
    }

    function IsConfirmationStep(): (b: bool)
      reads this
      ensures b <==> step == "2"
      ensures b ==> ValidStep(step)
    {
      step == "2"
    }

    function IsCompletedStep(): (b: bool)
      reads this
      ensures b <==> step == "3"
      ensures b ==> ValidStep(step)
    {
      step == "3"
    }

    /** Exactly one of the three step getters holds in every valid state. */
    lemma ExactlyOneStep()
      requires Valid()
      ensures IsApplicationStep() || IsConfirmationStep() || IsCompletedStep()
      ensures !(IsApplicationStep() && IsConfirmationStep())
      ensures !(IsApplicationStep() && IsCompletedStep())
      ensures !(IsConfirmationStep() && IsCompletedStep())
    {
    }

    /** The back button: back to the input step from anywhere, without validation. */
    method GoBack() returns (effects: seq<Effect>)
      modifies this`step
      ensures Valid() && IsApplicationStep()
      ensures effects == [ScrollToTop]
    {
      step := "1";
      effects := [ScrollToTop];
    }

    /** The validation pass: every required input is checked and every failing
        one is reported, with no short-circuit; inputs not marked required are
        skipped. */
    method IsInputValid(fields: seq<InputField>) returns (isValid: bool, reported: seq<nat>)
      ensures isValid <==> AllRequiredValid(fields)
      ensures reported == InvalidRequired(fields)
    {
      isValid := true;
      reported := [];
      for i := 0 to |fields|
        invariant reported == InvalidRequired(fields[..i])
        invariant isValid <==> reported == []
      {
        assert fields[..i + 1][..i] == fields[..i];
        var inputField := fields[i];
        if inputField.required && !inputField.valid {
          reported := reported + [i];
          isValid := false;
        }
      }
      assert fields[..|fields|] == fields;
      GateIffNoReports(fields);
    }

    /** The register button: when some required input is invalid, report the
        invalid ones and show the required-fields toast; when they are all
        valid but more than ten files are attached, show the attachment-limit
        toast; otherwise go to the confirmation step. The step changes only in
        the last case. */
    method GoConfirmation(fields: seq<InputField>) returns (effects: seq<Effect>)
      requires Valid()
      modifies this`step
      ensures Valid()
      ensures AllRequiredValid(fields) && |documents| <= AttachmentLimit ==>
        IsConfirmationStep() && effects == [ScrollToTop]
      ensures AllRequiredValid(fields) && |documents| > AttachmentLimit ==>
        step == old(step) && effects == [ShowToast(AttachmentLimitToast)]
      ensures !AllRequiredValid(fields) ==>
        step == old(step) && effects == Reports(InvalidRequired(fields)) + [ShowToast(RequiredFieldsToast)]
    {
      var isValid, reported := IsInputValid(fields);
      if isValid {
        if |documents| > AttachmentLimit {
          effects := [ShowToast(AttachmentLimitToast)];
          return;
        }
        step := "2";
        effects := [ScrollToTop];
      } else {
        effects := Reports(reported) + [ShowToast(RequiredFieldsToast)];
      }
    }

    /** The confirm button, up to the remote call: the step moves to completed
        and the loading flag is raised before the create call is issued. */
    method GoCompleted() returns (request: CreateRequest)
      modifies this`step, this`isLoading
      ensures Valid() && IsCompletedStep() && isLoading
      ensures request.newCase == NewCase(subject, description, "新規", priorityValue, "Web")
      ensures request.documents == documents
      ensures request.resolutionDate == resolutionDate && request.resolutionTime == resolutionTime
    {
      step := "3";
      isLoading := true;
      var newCase := NewCase(subject, description, "新規", priorityValue, "Web");
      request := CreateRequest(newCase, documents, resolutionDate, resolutionTime);
    }

    /** The create call resolved: the case number is the result and loading ends. */
    method GoCompletedSucceeded(result: string) returns (effects: seq<Effect>)
      modifies this`caseNumber, this`isLoading
      ensures caseNumber == result && !isLoading
      ensures effects == [ScrollToTop]
    {
      caseNumber := result;
      effects := [ScrollToTop];
      isLoading := false;
    }

    /** The create call failed: loading ends and a sticky toast is shown; the
        case number and the completed step stay as they were. */
    method GoCompletedFailed() returns (effects: seq<Effect>)
      modifies this`isLoading
      ensures !isLoading
      ensures effects == [ShowToast(SubmitFailedToast)]
    {
      isLoading := false;
      effects := [ShowToast(SubmitFailedToast)];
    }

    /** The back-to-list button: navigate to the list view of Case records. */
    method GoContactListPage() returns (effects: seq<Effect>)
      ensures effects == [Navigate(ObjectPage("", "Case", "list"))]
    {
      effects := [Navigate(ObjectPage("", "Case", "list"))];
    }

    /** The subject input: store the value and publish it on the deflection channel. */
    method HandleSubjectInputChange(name: string, value: string) returns (effects: seq<Effect>)
      modifies this`subject
      ensures subject == value
      ensures effects == [Publish(Payload(name, value))]
    {
      subject := value;
      effects := [Publish(Payload(name, value))];
    }

    /** The description input: store the value and publish it on the deflection channel. */
    method HandleDescriptionInputChange(name: string, value: string) returns (effects: seq<Effect>)
      modifies this`description
      ensures description == value
      ensures effects == [Publish(Payload(name, value))]
    {
      description := value;
      effects := [Publish(Payload(name, value))];
    }

    method HandlePriorityChange(value: string)
      modifies this`priorityValue
      ensures priorityValue == value
    {
      priorityValue := value;
    }

    /** Recompute the shown deadline from the current date and time. */
    method FormattedResolutionDate()
      modifies this`resolutionFormattedDate, this`hhmmList
      ensures resolutionFormattedDate == FormatDeadline(resolutionDate, resolutionTime)
      ensures hhmmList == if resolutionDate != "" && resolutionTime != "" then Split(resolutionTime, ':') else old(hhmmList)
    {
      if resolutionDate != "" {
        if resolutionTime == "" {
          resolutionFormattedDate := resolutionDate + " " + DefaultTime;
        } else {
          hhmmList := [];
          hhmmList := Split(resolutionTime, ':');
          if |hhmmList| > 1 {
            var hh := hhmmList[0];
            var mm := hhmmList[1];
            resolutionFormattedDate := resolutionDate + " " + hh + ":" + mm;
          } else {
            resolutionFormattedDate := resolutionDate + " " + DefaultTime;
          }
        }
      } else {
        resolutionFormattedDate := "";
      }
    }

    /** The date input: clearing it (`undefined`) clears the date and the time;
        setting it keeps an existing time and defaults an empty one to `18:00`. */
    method HandleResolutionDateChange(value: Option<string>)
      modifies this`resolutionDate, this`resolutionTime, this`resolutionFormattedDate, this`hhmmList
      ensures value.None? ==> resolutionDate == "" && resolutionTime == ""
      ensures value.Some? ==> resolutionDate == value.value
      ensures value.Some? ==> resolutionTime == if old(resolutionTime) == "" then DefaultTime else old(resolutionTime)
      ensures resolutionFormattedDate == FormatDeadline(resolutionDate, resolutionTime)
      ensures hhmmList == if resolutionDate != "" && resolutionTime != "" then Split(resolutionTime, ':') else old(hhmmList)
    {
      if value.None? {
        resolutionDate := "";
        resolutionTime := "";
      } else {
        resolutionDate := value.value;
        if resolutionTime == "" {
          resolutionTime := DefaultTime;
        }
      }
      FormattedResolutionDate();
    }

    /** The time input: clearing it (`undefined`) empties the time; the date is kept. */
    method HandleResolutionTimeChange(value: Option<string>)
      modifies this`resolutionTime, this`resolutionFormattedDate, this`hhmmList
      ensures resolutionTime == if value.None? then "" else value.value
      ensures resolutionFormattedDate == FormatDeadline(resolutionDate, resolutionTime)
      ensures hhmmList == if resolutionDate != "" && resolutionTime != "" then Split(resolutionTime, ':') else old(hhmmList)
    {
      if value.None? {
        resolutionTime := "";
      } else {
        resolutionTime := value.value;
      }
      FormattedResolutionDate();
    }

    /** The upload control finished: each file, in order, is appended to
        `documents` (its id), `filenames` (its name) and `fileMap` (both). */
    method HandleUploadFinished(files: seq<UploadedFile>)
      modifies this`documents, this`filenames, this`fileMap
      ensures documents == old(documents) + VersionIds(files)
      ensures filenames == old(filenames) + DisplayNames(files, "")
      ensures fileMap == old(fileMap) + FileEntries(files, "")
    {
      for k := 0 to |files|
        invariant documents == old(documents) + VersionIds(files[..k])
        invariant filenames == old(filenames) + DisplayNames(files[..k], "")
        invariant fileMap == old(fileMap) + FileEntries(files[..k], "")
      {
        assert files[..k + 1][..k] == files[..k];
        var file := files[k];
        assert "" + file.name == file.name;
        documents := documents + [file.contentVersionId];
        filenames := filenames + [file.name];
        fileMap := fileMap + [FileEntry(file.contentVersionId, file.name)];
      }
      assert files[..|files|] == files;
    }

    /** The remove button, up to the remote call: the id at the parsed index
        (`undefined` outside the list) is sent to the delete call. */
    method HandleRemoveFile(index: int) returns (pending: PendingRemoval)
      ensures pending.index == index
      ensures pending.removedFile.Some? <==> 0 <= index < |documents|
      ensures pending.removedFile.Some? ==> pending.removedFile.value == documents[index]
    {
      pending := PendingRemoval(index, ElementAt(documents, index));
    }

    /** The delete call resolved: every `documents` entry equal to the removed
        id goes, the `filenames` entry at the index goes, `fileMap` is kept. */
    method HandleRemoveFileSucceeded(pending: PendingRemoval)
      modifies this`documents, this`filenames
      ensures documents == RemoveAllOf(old(documents), pending.removedFile)
      ensures filenames == RemoveAt(old(filenames), pending.index)
    {
      documents := RemoveAllOf(documents, pending.removedFile);
      filenames := RemoveAt(filenames, pending.index);
    }

    /** The delete call failed: only a console message, nothing changes. */
    method HandleRemoveFileFailed(pending: PendingRemoval)
      ensures unchanged(this)
    {
    }
  }
}
