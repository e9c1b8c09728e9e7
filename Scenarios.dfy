/** Client walks through the support form, using only the contracts of its
    methods: the happy path, the attachment limit, a failed submission, and
    the deadline shown for a date with and without a time. */
module Scenarios {
  import opened Lwc
  import opened ContactSupportCaseForm

  /** All nine inputs filled in, no attachment: confirm, submit, and the case
      number arrives while the form stays on the completed step. */
  method HappyPath()
  {
    var form := new ContactSupportCaseForm();
    var fields := seq(9, _ => InputField(true, true));
    var effects := form.GoConfirmation(fields);
    assert form.IsConfirmationStep() && effects == [ScrollToTop];
    var request := form.GoCompleted();
    assert form.IsCompletedStep() && form.isLoading;
    assert request.documents == [];
    effects := form.GoCompletedSucceeded("00012345");
    assert form.caseNumber == "00012345" && !form.isLoading && form.IsCompletedStep();
  }

  /** Eleven uploaded files keep the form on the input step with the limit toast. */
  method AttachmentLimitBlocks(files: seq<UploadedFile>)
    requires |files| == 11
  {
    var form := new ContactSupportCaseForm();
    form.HandleUploadFinished(files);
    assert |form.documents| == 11;
    var effects := form.GoConfirmation([InputField(true, true), InputField(false, false)]);
    assert form.IsApplicationStep();
    assert effects == [ShowToast(AttachmentLimitToast)];
  }

  /** An empty required input is reported, and the form does not move. */
  method RequiredFieldBlocks()
  {
    var form := new ContactSupportCaseForm();
    var fields := [InputField(true, true), InputField(true, false), InputField(false, false)];
    var effects := form.GoConfirmation(fields);
    assert !AllRequiredValid(fields) by { assert fields[1].required && !fields[1].valid; }
    var reported := InvalidRequired(fields);
    assert 1 in reported && 0 !in reported && 2 !in reported;
    assert effects[|effects| - 1] == ShowToast(RequiredFieldsToast);
    assert form.IsApplicationStep();
  }

  /** A failed submission leaves the form on the completed step with no case number. */
  method SubmissionFails()
  {
    var form := new ContactSupportCaseForm();
    var effects := form.GoConfirmation([]);
    var request := form.GoCompleted();
    effects := form.GoCompletedFailed();
    assert form.IsCompletedStep() && !form.isLoading && form.caseNumber == "";
    assert effects == [ShowToast(SubmitFailedToast)];
    effects := form.GoBack();
    assert form.IsApplicationStep();
  }

  /** A date alone is shown at 18:00, and clearing the date clears everything. */
  method DeadlineWithDefaultTime(date: string)
    requires date != ""
  {
    var form := new ContactSupportCaseForm();
    form.HandleResolutionDateChange(Some(date));
    assert form.resolutionTime == DefaultTime;
    FormatDeadlineHourMinute(date, "18", "00", "");
    assert form.resolutionFormattedDate == date + " 18:00";
    form.HandleResolutionDateChange(None);
    assert form.resolutionDate == "" && form.resolutionTime == "" && form.resolutionFormattedDate == "";
  }

  /** A time with seconds is shown as hours and minutes only. */
  method DeadlineWithSeconds(date: string, hh: string, mm: string, seconds: string)
    requires date != "" && ':' !in hh && ':' !in mm
  {
    var form := new ContactSupportCaseForm();
    form.HandleResolutionDateChange(Some(date));
    var rest := ":" + seconds;
    var time := hh + ":" + mm + rest;
    form.HandleResolutionTimeChange(Some(time));
    FormatDeadlineHourMinute(date, hh, mm, rest);
    assert form.resolutionDate == date && form.resolutionTime == time;
    assert form.resolutionFormattedDate == date + " " + hh + ":" + mm;
  }
}
