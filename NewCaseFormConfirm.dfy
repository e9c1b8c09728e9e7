/** The staged-draft committer: it reads the draft id from the page state,
    fetches the staged draft, and on confirmation commits it as a new case with
    its attachments, whose ids the draft keeps as one `;`-separated string. */
module NewCaseFormConfirm {
  import opened Lwc

  /** The staged draft record; each field may be missing. */
  datatype CaseTemp = CaseTemp(
    Subject__c: Option<string>, Description__c: Option<string>, Priority__c: Option<string>,
    ResolveLimit__c: Option<string>, AttachmentId__c: Option<string>)

  /** The case record sent to the create call. */
  datatype NewCase = NewCase(
    Subject: Option<string>, Description: Option<string>, Priority: Option<string>,
    Status: string, Origin: string, ResolveLimit__c: Option<string>)

  /** Arguments of the remote fetch of a staged draft. */
  datatype FetchRequest = FetchRequest(caseTempId: string)

  /** Arguments of the remote create call. */
  datatype CreateRequest = CreateRequest(newCase: NewCase, documents: seq<string>)

  const AttachmentSeparator := ';'

  /** The staged fields renamed to the create call's names, with the fixed
      status and origin. */
  function CaseFromTemp(t: CaseTemp): (c: NewCase)
    ensures c.Status == "新規" && c.Origin == "Web"
    ensures c.Subject == t.Subject__c && c.Description == t.Description__c && c.Priority == t.Priority__c
    ensures c.ResolveLimit__c == t.ResolveLimit__c
  {
    NewCase(t.Subject__c, t.Description__c, t.Priority__c, "新規", "Web", t.ResolveLimit__c)
  }

  /** `AttachmentId__c ? AttachmentId__c.split(';') : []`: a missing or empty
      value gives no ids; any other value gives the pieces between its `;`s,
      one more than it has `;`s, which joined with `;` give the value back. */
  function AttachmentIds(a: Option<string>): (docs: seq<string>)
    ensures a.None? || a.value == "" <==> docs == []
    ensures a.Some? && a.value != "" ==> Join(docs, AttachmentSeparator) == a.value
    ensures a.Some? && a.value != "" ==> |docs| == Count(a.value, AttachmentSeparator) + 1
    ensures forall k :: 0 <= k < |docs| ==> AttachmentSeparator !in docs[k]
  {
    if a.Some? && a.value != "" then
      JoinSplit(a.value, AttachmentSeparator);
      SplitLength(a.value, AttachmentSeparator);
      SplitPiecesFree(a.value, AttachmentSeparator);
      Split(a.value, AttachmentSeparator)
    else []
  }

  /** The commit request for a draft. */
  function CommitRequest(t: CaseTemp): (r: CreateRequest)
    ensures r.newCase == CaseFromTemp(t) && r.documents == AttachmentIds(t.AttachmentId__c)
  {
    CreateRequest(CaseFromTemp(t), AttachmentIds(t.AttachmentId__c))
  }

  /** Nothing staged is lost in the commit: two drafts whose attachment field
      is present and that give the same commit request are the same draft. */
  lemma CommitRequestInjective(t1: CaseTemp, t2: CaseTemp)
    requires t1.AttachmentId__c.Some? && t2.AttachmentId__c.Some?
    requires CommitRequest(t1) == CommitRequest(t2)
    ensures t1 == t2
  {
  }

  class NewCaseFormConfirm {
    var recordId: Option<string>
    var caseTemp: Option<CaseTemp>
    var caseTarget: Option<string>
    var isComplete: bool

    constructor ()
      ensures recordId == None && caseTemp == None && caseTarget == None && !isComplete
    {
      recordId, caseTemp, caseTarget := None, None, None;
      isComplete := false;
    }

    /** A new page reference: the record id is taken from the page state, and
        the draft is fetched only when the id is defined. */
    method HandlePageReference(stateRecordId: Option<string>) returns (request: Option<FetchRequest>)
      modifies this`recordId
      ensures recordId == stateRecordId
      ensures request.Some? <==> stateRecordId.Some?
      ensures request.Some? ==> request.value == FetchRequest(stateRecordId.value)
    {
      recordId := stateRecordId;
      if recordId.Some? {
        request := Some(FetchRequest(recordId.value));
      } else {
        request := None;
      }
    }

    /** The fetch resolved: the draft is the result (which may be `null`). */
    method FetchSucceeded(result: Option<CaseTemp>)
      modifies this`caseTemp
      ensures caseTemp == result
    {
      caseTemp := result;
    }

    /** The fetch failed: only console output, nothing changes. */
    method FetchFailed()
      ensures unchanged(this)
    {
    }

    /** The done button, up to the remote call: without a draft nothing is
        sent; with one, the renamed record and the split attachment ids are.
        No state changes here. */
    method HandleDone() returns (request: Option<CreateRequest>)
      ensures request.None? <==> caseTemp.None?
      ensures request.Some? ==> request.value == CommitRequest(caseTemp.value)
    {
      if caseTemp.None? {
        return None;
      }
      var t := caseTemp.value;
      var newCase := CaseFromTemp(t);
      var documents := AttachmentIds(t.AttachmentId__c);
      request := Some(CreateRequest(newCase, documents));
    }

    /** The create call resolved: the flow is complete and holds the result. */
    method DoneSucceeded(result: string)
      modifies this`isComplete, this`caseTarget
      ensures isComplete && caseTarget == Some(result)
    {
      isComplete := true;
      caseTarget := Some(result);
    }

    /** The create call failed: only console output, nothing changes. */
    method DoneFailed()
      ensures unchanged(this)
    {
    }
  }
}
