# Case-intake portal components: a verified model

This project models the client-side logic of five Salesforce Lightning Web
Components of a customer-support portal, and proves properties of that model
in Dafny.

- **Contact-support case form** (`ContactSupportCaseForm`). A three-step
  workflow: `'1'` input, `'2'` confirmation, `'3'` completed.
  - Entering the confirmation step passes a required-field gate and a limit
    of ten attachments.
  - The form moves optimistically to the completed step around the remote
    create call.
  - A resolution deadline is built from a date and a time, with an `18:00`
    default.
  - Three lists (`documents`, `filenames`, `fileMap`) are appended on upload
    and filtered on removal.
- **Search results** (`SearchResult`). A tag table looked up by
  (Type, SubType) with a fallback, the mapping of a search result to results
  with tags plus the two counters, the navigation target of a clicked tile,
  and fixed demonstration data.
- **Staged-draft committer** (`NewCaseFormConfirm`). It fetches a staged
  draft by the id in the page state. It commits the draft under the create
  call's field names, sending the attachment ids split at `;`.
- **Earlier case-form variant** (`NewCaseForm`, class `CaseFormTest`). A
  `Name(Email)` selection list, the selected values joined by `,`, published
  subject and description changes, and the same file lists with a `・` prefix
  on names and a local removal.
- **Notice list** (`NoticeSelectDataList`). The fetched records, a
  `Name(Email)` selection list, and navigation to an article or a topic page.

`Lwc.dfy` holds what the components share:
- the emitted platform effects (toasts, scrolling, message-channel
  publishing, navigation, `reportValidity`, `alert`) as values;
- JavaScript `split` and `join` on one separator character, with their
  round-trip lemmas;
- `filter` by value and by index, and array indexing that may give
  `undefined`.

Each component with state is a `class` whose fields are the component's
fields. A handler that starts a remote call is a method returning the call's
arguments. Its `.then` and `.catch` continuations are separate methods,
called afterwards with the call's result. `Scenarios.dfy` walks through the
support form using only the method contracts.

## Behaviour worth noting

- After a failed submission the case number is left as it was, not set to an
  error value.
- Removing an attachment deletes, from `documents`, every entry equal to the
  id at the index. From `filenames` it deletes the entry at the index.
  `fileMap` is not touched. `RemovalKeepsListsParallel` shows that
  `documents` and `filenames` stay parallel when the ids are distinct.
  `fileMap` keeps the removed file's entry.
- If the staged-draft fetch or commit fails, nothing changes, and the form
  has no separate failed state: the commit can be attempted again.
- No required field depends on a case category; the required inputs are
  exactly those the form marks `required`.
- `generateDemoData` is not called anywhere: without a search term the
  result list is emptied.

## Model

| member | source | states |
|---|---|---|
| `Lwc.Count` | force-app/main/default/lwc/newCaseFormConfirm/newCaseFormConfirm.js:82 | the number of separators is zero exactly when the separator does not occur, and is at most the length |
| `Lwc.Split` | force-app/main/default/lwc/newCaseFormConfirm/newCaseFormConfirm.js:82 | `split` always yields at least one piece, even for the empty string |
| `Lwc.Join` | force-app/main/default/lwc/newCaseForm/newCaseForm.js:105 | `join` puts one separator between neighbouring parts: no parts give `''`, one part is itself, and the text holds no separator exactly when there is at most one part and that part holds none |
| `Lwc.JoinSplit` | force-app/main/default/lwc/newCaseFormConfirm/newCaseFormConfirm.js:82 | joining the pieces of a split with the same separator gives back the original string |
| `Lwc.SplitLength` | force-app/main/default/lwc/newCaseFormConfirm/newCaseFormConfirm.js:82 | a split yields one more piece than the string has separators |
| `Lwc.SplitPiecesFree` | force-app/main/default/lwc/newCaseFormConfirm/newCaseFormConfirm.js:82 | no piece of a split contains the separator |
| `Lwc.SplitWithoutSep` | force-app/main/default/lwc/contactSupportCaseForm/contactSupportCaseForm.js:243-249 | a string without the separator splits into itself alone, which is why a time without `:` falls back to the default |
| `Lwc.SplitAtFirstSep` | force-app/main/default/lwc/contactSupportCaseForm/contactSupportCaseForm.js:243-246 | the first separator ends the first piece, and the rest is split on its own |
| `Lwc.SplitJoin` | force-app/main/default/lwc/newCaseForm/newCaseForm.js:104-106 | splitting a join of non-empty, separator-free value lists gives back the list |
| `Lwc.ElementAt` | force-app/main/default/lwc/contactSupportCaseForm/contactSupportCaseForm.js:274-275 | `documents[index]` is defined exactly for an index inside the list, and is then that entry |
| `Lwc.RemoveAll` | force-app/main/default/lwc/contactSupportCaseForm/contactSupportCaseForm.js:278 | `filter(id => id !== removed)` leaves no copy of the removed id and never grows the list |
| `Lwc.RemoveAllCounts` | force-app/main/default/lwc/contactSupportCaseForm/contactSupportCaseForm.js:278 | every other id keeps its number of occurrences, and the length drops by exactly the removed id's count |
| `Lwc.RemoveAllAppend` | force-app/main/default/lwc/contactSupportCaseForm/contactSupportCaseForm.js:278 | removal by value distributes over concatenation, so the remaining ids keep their order |
| `Lwc.RemoveAllAbsent` | force-app/main/default/lwc/contactSupportCaseForm/contactSupportCaseForm.js:278 | removing an id that is not in the list changes nothing |
| `Lwc.RemoveAllOf` | force-app/main/default/lwc/contactSupportCaseForm/contactSupportCaseForm.js:274-278 | `filter(id => id !== removedFile)` with a `removedFile` that may be `undefined`: `undefined` equals no id, so nothing goes; otherwise no copy of the id is left, the list does not grow, and every other id stays (the same filter is at newCaseForm.js:248) |
| `Lwc.RemoveAt` | force-app/main/default/lwc/contactSupportCaseForm/contactSupportCaseForm.js:279 | `filter((_, i) => i !== index)` drops exactly the entry at an index inside the list, keeping the others in order, and changes nothing for an index outside it |
| `Lwc.RemovalKeepsListsParallel` | force-app/main/default/lwc/contactSupportCaseForm/contactSupportCaseForm.js:273-279 | with distinct ids, removing by value drops exactly the entry at the index, so `documents` and `filenames` keep equal lengths |
| `Lwc.UploadParallel` | force-app/main/default/lwc/contactSupportCaseForm/contactSupportCaseForm.js:258-265 | what one upload appends is parallel: the `k`-th `fileMap` entry pairs the `k`-th id with the `k`-th name, both from the `k`-th file |
| `Lwc.ContactOption` | force-app/main/default/lwc/newCaseForm/newCaseForm.js:59 | the option's value is the record's `Id` and its label is `Name(Email)` |
| `Lwc.ContactOptions` | force-app/main/default/lwc/newCaseForm/newCaseForm.js:57-60 | one option per record, in the records' order |
| `Lwc.ContactLabelSplit` | force-app/main/default/lwc/newCaseForm/newCaseForm.js:59 | when neither the name nor the e-mail contains `(`, the label splits at `(` into the name and the e-mail followed by `)` |
| `Lwc.HandleKeyDown` | force-app/main/default/lwc/newCaseForm/newCaseForm.js:138-142 | the default action is prevented exactly for the Enter key; the support form's handler at contactSupportCaseForm.js:174-178 is the same |
| `ContactSupportCaseForm.InvalidRequired` | force-app/main/default/lwc/contactSupportCaseForm/contactSupportCaseForm.js:155-169 | the reported inputs are exactly the required inputs that fail their check, in rendering order, each once; inputs not marked required never appear |
| `ContactSupportCaseForm.Reports` | force-app/main/default/lwc/contactSupportCaseForm/contactSupportCaseForm.js:162-166 | one `reportValidity` per failing input, in order |
| `ContactSupportCaseForm.GateIffNoReports` | force-app/main/default/lwc/contactSupportCaseForm/contactSupportCaseForm.js:155-169 | the gate passes exactly when no required input fails (both directions) |
| `ContactSupportCaseForm.FormatDeadline` | force-app/main/default/lwc/contactSupportCaseForm/contactSupportCaseForm.js:237-255 | the shown deadline is empty exactly when the date is empty, and otherwise starts with the date and a space |
| `ContactSupportCaseForm.FormatDeadlineDefault` | force-app/main/default/lwc/contactSupportCaseForm/contactSupportCaseForm.js:238-251 | with a date and a time that is empty or has no `:`, the deadline is the date followed by ` 18:00` |
| `ContactSupportCaseForm.FormatDeadlineHourMinute` | force-app/main/default/lwc/contactSupportCaseForm/contactSupportCaseForm.js:241-248 | a time `hh:mm`, optionally followed by `:` and more, is shown as `date hh:mm`: only the first two parts count |
| `ContactSupportCaseForm.ContactSupportCaseForm.constructor` | force-app/main/default/lwc/contactSupportCaseForm/contactSupportCaseForm.js:18-38 | the form starts on step `'1'` with empty lists, priority `低`, default field lengths 255 and 32000, and no case number |
| `ContactSupportCaseForm.ContactSupportCaseForm.CaseObjectInfo` | force-app/main/default/lwc/contactSupportCaseForm/contactSupportCaseForm.js:44-54 | with metadata, the default record type is stored and each field length is taken only when present and non-zero; without metadata nothing changes |
| `ContactSupportCaseForm.ContactSupportCaseForm.IsApplicationStep` | force-app/main/default/lwc/contactSupportCaseForm/contactSupportCaseForm.js:65-67 | true exactly on step `'1'`, which is a valid step; `ExactlyOneStep` shows that no other getter holds then |
| `ContactSupportCaseForm.ContactSupportCaseForm.IsConfirmationStep` | force-app/main/default/lwc/contactSupportCaseForm/contactSupportCaseForm.js:69-71 | true exactly on step `'2'`, which is a valid step |
| `ContactSupportCaseForm.ContactSupportCaseForm.IsCompletedStep` | force-app/main/default/lwc/contactSupportCaseForm/contactSupportCaseForm.js:73-75 | true exactly on step `'3'`, which is a valid step |
| `ContactSupportCaseForm.ContactSupportCaseForm.ExactlyOneStep` | force-app/main/default/lwc/contactSupportCaseForm/contactSupportCaseForm.js:65-75 | in every state the handlers reach, exactly one of the three step getters is true |
| `ContactSupportCaseForm.ContactSupportCaseForm.GoBack` | force-app/main/default/lwc/contactSupportCaseForm/contactSupportCaseForm.js:80-83 | from any step the form returns to step `'1'`, without validation, and scrolls to the top |
| `ContactSupportCaseForm.ContactSupportCaseForm.IsInputValid` | force-app/main/default/lwc/contactSupportCaseForm/contactSupportCaseForm.js:155-169 | the loop's result is true exactly when every required input is valid, and it reports every failing required input with no short-circuit |
| `ContactSupportCaseForm.ContactSupportCaseForm.GoConfirmation` | force-app/main/default/lwc/contactSupportCaseForm/contactSupportCaseForm.js:85-100 | an invalid input reports the failing inputs and shows the dismissible required-fields toast; valid input with more than ten attachments shows the attachment-limit toast; in both cases the step does not change. Otherwise (ten attachments included) the step becomes `'2'` and the page scrolls to the top |
| `ContactSupportCaseForm.ContactSupportCaseForm.GoCompleted` | force-app/main/default/lwc/contactSupportCaseForm/contactSupportCaseForm.js:102-117 | before the create call, the step is `'3'` and `isLoading` is true; the call carries the case with status `新規` and origin `Web`, the attachment ids, and the date and time |
| `ContactSupportCaseForm.ContactSupportCaseForm.GoCompletedSucceeded` | force-app/main/default/lwc/contactSupportCaseForm/contactSupportCaseForm.js:118-123 | on success the case number is the result, the page scrolls to the top and loading ends; the step stays `'3'` |
| `ContactSupportCaseForm.ContactSupportCaseForm.GoCompletedFailed` | force-app/main/default/lwc/contactSupportCaseForm/contactSupportCaseForm.js:124-129 | on failure loading ends and a sticky toast is shown; the case number and step `'3'` are unchanged |
| `ContactSupportCaseForm.ContactSupportCaseForm.GoContactListPage` | force-app/main/default/lwc/contactSupportCaseForm/contactSupportCaseForm.js:132-141 | navigates to the Case list view |
| `ContactSupportCaseForm.ContactSupportCaseForm.HandleSubjectInputChange` | force-app/main/default/lwc/contactSupportCaseForm/contactSupportCaseForm.js:191-198 | the subject is stored and `{modifiedField, modifiedFieldValue}` is published |
| `ContactSupportCaseForm.ContactSupportCaseForm.HandleDescriptionInputChange` | force-app/main/default/lwc/contactSupportCaseForm/contactSupportCaseForm.js:200-207 | the description is stored and `{modifiedField, modifiedFieldValue}` is published |
| `ContactSupportCaseForm.ContactSupportCaseForm.HandlePriorityChange` | force-app/main/default/lwc/contactSupportCaseForm/contactSupportCaseForm.js:209-211 | the priority is stored |
| `ContactSupportCaseForm.ContactSupportCaseForm.FormattedResolutionDate` | force-app/main/default/lwc/contactSupportCaseForm/contactSupportCaseForm.js:237-255 | the shown deadline is the deadline of the current date and time; the hour-minute list is replaced only when both are non-empty |
| `ContactSupportCaseForm.ContactSupportCaseForm.HandleResolutionDateChange` | force-app/main/default/lwc/contactSupportCaseForm/contactSupportCaseForm.js:214-226 | clearing the date clears date and time; setting it defaults an empty time to `18:00` and keeps an existing one; the shown deadline follows |
| `ContactSupportCaseForm.ContactSupportCaseForm.HandleResolutionTimeChange` | force-app/main/default/lwc/contactSupportCaseForm/contactSupportCaseForm.js:228-235 | clearing the time makes it `''`, otherwise it takes the value; the date is kept and the shown deadline follows |
| `ContactSupportCaseForm.ContactSupportCaseForm.HandleUploadFinished` | force-app/main/default/lwc/contactSupportCaseForm/contactSupportCaseForm.js:258-265 | each file, in order, is appended to `documents`, `filenames` and `fileMap`; what was there is kept |
| `ContactSupportCaseForm.ContactSupportCaseForm.HandleRemoveFile` | force-app/main/default/lwc/contactSupportCaseForm/contactSupportCaseForm.js:273-276 | the delete call receives the id at the index, or `undefined` for an index outside the list; no state changes yet |
| `ContactSupportCaseForm.ContactSupportCaseForm.HandleRemoveFileSucceeded` | force-app/main/default/lwc/contactSupportCaseForm/contactSupportCaseForm.js:277-279 | every `documents` entry equal to the removed id goes, the `filenames` entry at the index goes, and `fileMap` is untouched |
| `ContactSupportCaseForm.ContactSupportCaseForm.HandleRemoveFileFailed` | force-app/main/default/lwc/contactSupportCaseForm/contactSupportCaseForm.js:280-283 | a failed delete changes nothing |
| `SearchResult.GenerateTags` | force-app/main/default/lwc/searchResult/searchResult.js:280-300 | total and never empty. Each of the nine known (Type, SubType) pairs, listed independently of the table, gets three tags led by its Type's tag. Exactly the other pairs get `['その他']` |
| `SearchResult.WithTags` | force-app/main/default/lwc/searchResult/searchResult.js:158-163 | the item keeps all its fields except `Tags`, which becomes the generated tags of its Type and SubType |
| `SearchResult.FindById` | force-app/main/default/lwc/searchResult/searchResult.js:316 | `find` gives the first item with the Id, or nothing when no item has it |
| `SearchResult.NavigationFor` | force-app/main/default/lwc/searchResult/searchResult.js:327-359 | only `Knowledge` and `Case` items navigate. A knowledge item opens `Article_Detail_Mock2` under its URL name, or under `リリースノート-テスト` when that name is empty, so the name is never empty. A case opens `/case/` followed by its Id |
| `SearchResult.TileTarget` | force-app/main/default/lwc/searchResult/searchResult.js:316-322 | the target is that of the first item with the clicked Id, and there is none when no item has it |
| `SearchResult.CaseTargetsDistinct` | force-app/main/default/lwc/searchResult/searchResult.js:342-354 | two cases with different Ids lead to different pages |
| `SearchResult.GenerateDemoData` | force-app/main/default/lwc/searchResult/searchResult.js:199-274 | eight entries with the distinct Ids `demo1`..`demo8` in order, all knowledge manuals with a URL name and at least one tag |
| `SearchResult.SearchResult.constructor` | force-app/main/default/lwc/searchResult/searchResult.js:90-141 | the component starts with no data and both counts 0 |
| `SearchResult.SearchResult.ConnectedCallback` | force-app/main/default/lwc/searchResult/searchResult.js:147-192 | without a term (`undefined` or `null`), the data is emptied, both counts become 0 and nothing is searched. With a term, the search is issued with limit 2000 and nothing changes yet |
| `SearchResult.SearchResult.ConnectedCallbackSucceeded` | force-app/main/default/lwc/searchResult/searchResult.js:155-167 | the data is the result in the same order and length, each item with its tags; both counts equal the result's length |
| `SearchResult.SearchResult.ConnectedCallbackFailed` | force-app/main/default/lwc/searchResult/searchResult.js:176-186 | a failed search leaves the data and both counts unchanged |
| `SearchResult.SearchResult.TileClick` | force-app/main/default/lwc/searchResult/searchResult.js:308-363 | at most one navigation, to the target of the first matching item |
| `NewCaseFormConfirm.CaseFromTemp` | force-app/main/default/lwc/newCaseFormConfirm/newCaseFormConfirm.js:72-79 | Subject, Description and Priority come from `Subject__c`, `Description__c` and `Priority__c`; `ResolveLimit__c` is copied; the status is `新規` and the origin `Web` |
| `NewCaseFormConfirm.AttachmentIds` | force-app/main/default/lwc/newCaseFormConfirm/newCaseFormConfirm.js:82 | a missing or empty value gives no ids. Otherwise there is one id more than the value has `;`s, no id contains `;`, and joining the ids with `;` gives the value back |
| `NewCaseFormConfirm.CommitRequest` | force-app/main/default/lwc/newCaseFormConfirm/newCaseFormConfirm.js:72-85 | the create call carries the renamed record and the split attachment ids |
| `NewCaseFormConfirm.CommitRequestInjective` | force-app/main/default/lwc/newCaseFormConfirm/newCaseFormConfirm.js:72-82 | nothing staged is lost: two drafts with an attachment field that give the same request are equal |
| `NewCaseFormConfirm.NewCaseFormConfirm.constructor` | force-app/main/default/lwc/newCaseFormConfirm/newCaseFormConfirm.js:9-12 | no record id, draft or case target, and not complete |
| `NewCaseFormConfirm.NewCaseFormConfirm.HandlePageReference` | force-app/main/default/lwc/newCaseFormConfirm/newCaseFormConfirm.js:16-24 | the record id comes from `state.c__recordId`, and the fetch is issued exactly when it is defined |
| `NewCaseFormConfirm.NewCaseFormConfirm.FetchSucceeded` | force-app/main/default/lwc/newCaseFormConfirm/newCaseFormConfirm.js:25-27 | the draft is the fetch result |
| `NewCaseFormConfirm.NewCaseFormConfirm.FetchFailed` | force-app/main/default/lwc/newCaseFormConfirm/newCaseFormConfirm.js:28-35 | a failed fetch leaves the draft unchanged |
| `NewCaseFormConfirm.NewCaseFormConfirm.HandleDone` | force-app/main/default/lwc/newCaseFormConfirm/newCaseFormConfirm.js:64-85 | without a draft no call is issued; with one, the commit request of the draft is sent; no state changes in either case |
| `NewCaseFormConfirm.NewCaseFormConfirm.DoneSucceeded` | force-app/main/default/lwc/newCaseFormConfirm/newCaseFormConfirm.js:86-91 | the flow is complete and the case target is the result |
| `NewCaseFormConfirm.NewCaseFormConfirm.DoneFailed` | force-app/main/default/lwc/newCaseFormConfirm/newCaseFormConfirm.js:92-99 | a failed commit leaves `isComplete` and the case target unchanged |
| `NewCaseForm.CaseFormTest.constructor` | force-app/main/default/lwc/newCaseForm/newCaseForm.js:19-32 | the form opens on the create screen (`createFlag` true, `confirmFlag` and `completeFlag` false) with empty lists |
| `NewCaseForm.CaseFormTest.ContactRecordsLoaded` | force-app/main/default/lwc/newCaseForm/newCaseForm.js:54-60 | the records are kept, and the selection list is reset and then holds one `Name(Email)` option per record, in order |
| `NewCaseForm.CaseFormTest.HandleChange` | force-app/main/default/lwc/newCaseForm/newCaseForm.js:97-101 | the selected values are the event's value |
| `NewCaseForm.CaseFormTest.SelectedValuesDisplay` | force-app/main/default/lwc/newCaseForm/newCaseForm.js:104-106 | the values are joined by `,`. The text holds no `,` exactly when at most one value is selected and that value holds none, and a single value is shown as it is |
| `NewCaseForm.CaseFormTest.SelectedValuesReadBack` | force-app/main/default/lwc/newCaseForm/newCaseForm.js:104-106 | a non-empty selection of `,`-free values can be read back from the shown text by splitting it at `,` |
| `NewCaseForm.CaseFormTest.Options` | force-app/main/default/lwc/newCaseForm/newCaseForm.js:108-110 | the combobox offers the selection list |
| `NewCaseForm.CaseFormTest.HandleSubjectInputChange` | force-app/main/default/lwc/newCaseForm/newCaseForm.js:116-123 | the subject is stored and `{modifiedField: name, modifiedFieldValue: value}` is published |
| `NewCaseForm.CaseFormTest.HandleDescriptionInputChange` | force-app/main/default/lwc/newCaseForm/newCaseForm.js:125-132 | the description is stored and `{modifiedField: name, modifiedFieldValue: value}` is published |
| `NewCaseForm.CaseFormTest.HandleUploadFinished` | force-app/main/default/lwc/newCaseForm/newCaseForm.js:145-151 | each file, in order, appends its id to `documents`, `'・' + name` to `filenames`, and `{id, '・' + name}` to `fileMap` |
| `NewCaseForm.CaseFormTest.HandleRemoveFile` | force-app/main/default/lwc/newCaseForm/newCaseForm.js:243-249 | done locally at once: every `documents` entry equal to the one at the index goes, the `filenames` entry at the index goes, `fileMap` is untouched |
| `NewCaseForm.CaseFormTest.HandleSubmit` | force-app/main/default/lwc/newCaseForm/newCaseForm.js:187-237 | the record is `{Subject, Description, Status: 'New'}` from the current fields and an alert is shown; no state changes |
| `NoticeSelectDataList.RowTarget` | force-app/main/default/lwc/noticeSelectDataList/noticeSelectDataList.js:33-39 | the knowledge article page `Article_Detail` under the row's URL name |
| `NoticeSelectDataList.TopicTarget` | force-app/main/default/lwc/noticeSelectDataList/noticeSelectDataList.js:44-49 | a web page whose URL is `/topic/` followed by the topic, from which the topic can be read back |
| `NoticeSelectDataList.TopicTargetInjective` | force-app/main/default/lwc/noticeSelectDataList/noticeSelectDataList.js:44 | different topics lead to different pages |
| `NoticeSelectDataList.NoticeSelectDataList.constructor` | force-app/main/default/lwc/noticeSelectDataList/noticeSelectDataList.js:7-10 | empty notice, record and selection lists, and the given limit |
| `NoticeSelectDataList.NoticeSelectDataList.ConnectedCallback` | force-app/main/default/lwc/noticeSelectDataList/noticeSelectDataList.js:12-14 | the records are requested with the component's limit |
| `NoticeSelectDataList.NoticeSelectDataList.ConnectedCallbackSucceeded` | force-app/main/default/lwc/noticeSelectDataList/noticeSelectDataList.js:15-24 | `notice` and `contactData` both equal the result; the selection list is reset and then holds one `Name(Email)` option per record, in order, as many as records |
| `NoticeSelectDataList.NoticeSelectDataList.ConnectedCallbackFailed` | force-app/main/default/lwc/noticeSelectDataList/noticeSelectDataList.js:25-27 | a failure leaves `notice`, `contactData` and the selection list unchanged |
| `NoticeSelectDataList.NoticeSelectDataList.HandleRowAction` | force-app/main/default/lwc/noticeSelectDataList/noticeSelectDataList.js:31-40 | one navigation, to the row's article page |
| `NoticeSelectDataList.NoticeSelectDataList.HandleRowTagAction` | force-app/main/default/lwc/noticeSelectDataList/noticeSelectDataList.js:42-51 | one navigation, to the topic page |

## Left out

- Remote Apex calls are not modelled as remote operations. A start method
  returns the call's arguments, and its `.then` and `.catch` bodies are
  methods called with the result. Which continuation runs, and when, is up
  to the caller. Double submission, interleaving and the lack of
  cancellation are not modelled.
- Platform effects are not executed: `ShowToastEvent`,
  `NavigationMixin.Navigate`, message-channel `publish`, `window.scrollTo`,
  `reportValidity` and `alert` are returned as `Effect` values. `console`
  output is dropped, and so is the error-message extraction that only feeds
  it.
- The DOM query in `isInputValid` is not modelled. The rendered inputs are
  given as a sequence of (required, valid) pairs, and an input is
  identified by its position. The filter followed by `forEach` is one loop
  that skips inputs not marked required.
- `parseInt(dataset.index, 10)` is not modelled: the index is an integer
  argument. A `NaN` index behaves like any index outside the list, and that
  case is modelled.
- The `getPicklistValues` wires (`priorityOptions`) are left out. They only
  hold platform metadata.
- newCaseForm.js `connectedCallback` calls `getContactRecords` (line 53) and
  `deleteContentDocument` (line 71), whose imports are commented out. In an
  ES module an undeclared identifier throws a `ReferenceError`, and
  `createFlag` starts true, so as shipped `connectedCallback` throws at line
  53. It never reaches the `.then` continuation that
  `CaseFormTest.ContactRecordsLoaded` models, nor lines 67-78. Only that
  continuation, the list construction from the contact records, is modelled.
  `disconnectedCallback` and the older `handleSubmit` are commented out.
- `generateTags` treats the tag table as a plain dictionary. Names inherited
  from `Object.prototype` (such as `constructor`) are not modelled as keys.
- Missing text fields of a search item are modelled as `""`. Every use of
  them (`||`, `===` against a non-empty literal, the tag lookup) treats
  `undefined` and `""` alike. Dataset values (item id, URL name, topic) are
  modelled as strings.
- knowledgeDataList2.js, knowledgeDataTileList.js and breadCrumbComp.js only
  copy a remote result into a field, and eslint.config.js is build
  configuration. None of them is part of this model.
- Strings are sequences of Unicode characters, not UTF-16 code units. No
  property here depends on the difference.
