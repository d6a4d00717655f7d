# Money requests and the report-actions migration, in Dafny

This project models two parts of the Expensify app.

**The money-request action layer** (`src/libs/actions/IOU.ts`). The app keeps its local
state in Onyx, a key-value store. Every action that talks to the server hands `API.write`
three lists of store updates:

- the *optimistic* list, applied at once;
- the *success* list, applied when the server accepts;
- the *failure* list, applied when it rejects.

Each update is a `SET` (replace the value at a key, `null` deletes it) or a `MERGE` (merge
an object into the stored one; a `null` field deletes that field). The model follows the
actions below:

- requesting money (`getMoneyRequestInformation`, `buildOnyxDataForMoneyRequest`);
- editing a request (`getUpdateMoneyRequestParams`, `editRegularMoneyRequest`);
- deleting one (`deleteMoneyRequest`);
- splitting a bill (`createSplitsAndOnyxData`);
- approving, submitting, paying and cancelling a payment;
- detaching and replacing a receipt;
- the draft setters of the creation flow, which write straight to the store.

For each action the model builds the same three lists from the same inputs. It then proves
what applying them does to the reports, transactions, actions and next steps involved.

**The migration** (`src/libs/migrations/CheckForPreviousReportActionID.js`). It looks at the
first non-empty report-actions entry of the store, and at the first action in it that has a
`reportActionID`. If that action lacks `previousReportActionID`, the migration empties every
non-empty entry with one `multiSet`.

Files:

| file | module | contents |
|---|---|---|
| `wrappers.dfy` | `Wrappers` | `Option` |
| `onyx.dfy` | `Onyx` | JSON values, store keys, `SET`/`MERGE`, applying update lists; the `Store` class the draft setters change |
| `iou_data.dfy` | `IouData` | constants, truthiness, field access, the clock, error values, the snapshot the module-level caches hold |
| `iou_create.dfy` | `IouCreate` | requesting money |
| `iou_delete.dfy` | `IouDelete` | deleting a request |
| `iou_edit.dfy` | `IouEdit` | editing a request, both variants |
| `iou_split.dfy` | `IouSplit` | the split-bill builder; its per-participant loop is a method |
| `iou_status.dfy` | `IouStatus` | approve, submit, pay, cancel payment |
| `iou_receipt.dfy` | `IouReceipt` | detach and replace a receipt |
| `iou_drafts.dfy` | `IouDrafts` | the draft and old-flow setters, `String.prototype.trim`, `getIOUReportID` |
| `migration.dfy` | `ReportActionsMigration` | the migration |

The source does not always do what a plain reading of the design promises. The model
follows the code every time, and a lemma states what the code does:

- A rejected request leaves the IOU report's total as the optimistic list set it. The
  design describes the rollback as exact (`FailureKeepsOptimisticTotal`).
- A rejected approval leaves the report APPROVED (`ApproveFailureKeepsApproved`).
- A rejected payment cancellation resets the status but not the state
  (`CancelPaymentFailureRestoresStatusOnly`).
- A rejected deletion puts the thread report back but not its actions
  (`DeletedThreadActionsNotRestored`).
- The preview rollback carries the rewritten message (`FailurePreviewKeepsNewMessage`).
- A request in another currency leaves the total alone, but deleting it still adds its
  amount back (`ForeignCurrencyDeleteShiftsTotal`).

## Model

| member | source | states |
|---|---|---|
| `IouCreate.GetReceiptError` | src/libs/actions/IOU.ts:364-368 | keyed by the current microsecond, the error names the receipt exactly for a scan with a non-empty receipt (receipt source, file name, the receipt error key); otherwise it is the generic creation message |
| `IouCreate.IOUReportValue` | src/libs/actions/IOU.ts:408-420 | the IOU report as written keeps every field of the given report except the last message and pending fields |
| `IouCreate.ExpenseTotalOnRequest` | src/libs/actions/IOU.ts:739-745 | on an expense report, a request in the report's currency lowers the total by the amount; in another currency the report is unchanged |
| `IouCreate.RequestTotalOnExistingExpenseReport` | src/libs/actions/IOU.ts:720-756 | the IOU report a policy-chat request goes to carries `total - amount` when the currencies match, the old total otherwise |
| `IouCreate.RequestTransactionSign` | src/libs/actions/IOU.ts:761-763 | the transaction holds the amount negated exactly when its report is an expense report |
| `IouCreate.GetMoneyRequestInformation` | src/libs/actions/IOU.ts:677-887 | the payer's account ID and email; the transaction's amount negated exactly on an expense report; each created-action ID "0" when that chat or report was not created |
| `IouCreate.RequestPartsReportAndSign` | src/libs/actions/IOU.ts:720-774 | the request goes to the report chosen for it, and its transaction carries the amount signed for that report |
| `IouCreate.RequestInformationStored` | src/libs/actions/IOU.ts:868-887 | after the returned optimistic list the store holds the returned transaction at its key and the returned report's total at the report's key |
| `IouCreate.RequestThenDeleteRestoresTotal` | src/libs/actions/IOU.ts:742-745 | a request and then its deletion, in the report's currency, leave the expense report as it was |
| `IouCreate.ForeignCurrencyDeleteShiftsTotal` | src/libs/actions/IOU.ts:2631-2637 | a request in another currency followed by its deletion raises the total by the amount |
| `IouCreate.OptimisticStoresTransaction` | src/libs/actions/IOU.ts:421-425 | after the optimistic list the transaction key holds exactly the request's transaction |
| `IouCreate.RequestStoresTransaction` | src/libs/actions/IOU.ts:421-425 | the same, for the lists `buildOnyxDataForMoneyRequest` returns |
| `IouCreate.RequestRemovesDraft` | src/libs/actions/IOU.ts:460-600 | the creation flow's draft transaction is gone after the optimistic list and after a failure |
| `IouCreate.RequestKeysCovered` | src/libs/actions/IOU.ts:371-675 | every key the success and failure lists write was written by the optimistic list |
| `IouCreate.OptimisticTotal` | src/libs/actions/IOU.ts:408-420 | after the optimistic list the IOU report holds the total it was built with |
| `IouCreate.FailureKeepsOptimisticTotal` | src/libs/actions/IOU.ts:576-585 | the failure list does not name the total, so a rejected request keeps the optimistic total |
| `IouCreate.ExistingReportRequestParts` | src/libs/actions/IOU.ts:739-756 | on an existing expense report in its currency, the builder gets the lowered total and the request's lists are the builder's |
| `IouDelete.IOUReportDeletePatch` | src/libs/actions/IOU.ts:2706-2710 | the optimistic IOU report update is a merge at the IOU report key |
| `IouDelete.DeleteThreadFlags` | src/libs/actions/IOU.ts:2597-2598 | the thread is deleted exactly when there is one with no visible action; the deleted-request message shows exactly when there is one with visible actions; never both |
| `IouDelete.PreviewCountDecrement` | src/libs/actions/IOU.ts:2664-2666 | a positive request count on the preview drops by one; zero, negative or missing counts are kept |
| `IouDelete.PreviewPendingAction` | src/libs/actions/IOU.ts:2629-2630 | the preview is marked DELETE exactly when the IOU report is deleted, UPDATE otherwise |
| `IouDelete.FailurePreviewKeepsNewMessage` | src/libs/actions/IOU.ts:2659-2662 | the rolled-back preview carries the rewritten message text |
| `IouDelete.ExpenseTotalRestoredOnDelete` | src/libs/actions/IOU.ts:2631-2637 | an expense report's total rises by `getAmount(transaction, true)` (the input `expenseAmount`), the negation of the stored amount |
| `IouDelete.OutstandingChildRequestInLists` | src/libs/actions/IOU.ts:2720-2728 | when the last request goes and the report stays, the chat loses the outstanding flag, and a failure sets it back |
| `IouDelete.DeleteOutstandingChildRequest` | src/libs/actions/IOU.ts:2720-2851 | the same, for the lists `deleteMoneyRequest` sends |
| `IouDelete.OptimisticExpenseTotal` | src/libs/actions/IOU.ts:2706-2710 | after the optimistic list, the expense report's total has the amount added back |
| `IouDelete.DeleteRaisesExpenseTotal` | src/libs/actions/IOU.ts:2631-2741 | the same, for the lists `deleteMoneyRequest` sends |
| `IouDelete.SuccessRemovesIOUReport` | src/libs/actions/IOU.ts:2769-2775 | when the IOU report goes with its last request, the success list deletes it |
| `IouDelete.FailureRestoresIOUReport` | src/libs/actions/IOU.ts:2812-2822 | the failure list puts the cached IOU report back exactly |
| `IouDelete.DeletedIOUReportRoundTrip` | src/libs/actions/IOU.ts:2624-2851 | accepted, the report is gone; rejected, it holds exactly what it held |
| `IouDelete.SetRestores` | src/libs/actions/IOU.ts:2777-2783 | the only `SET` of a null-free record leaves exactly that record at its key |
| `IouDelete.DeleteFailureRestoresTransaction` | src/libs/actions/IOU.ts:2777-2783 | a rejected deletion puts back exactly the cached transaction |
| `IouDelete.DeletedThreadRestored` | src/libs/actions/IOU.ts:2793-2799 | a rejected deletion that removed the thread puts the thread report back exactly |
| `IouDelete.DeletedThreadActionsNotRestored` | src/libs/actions/IOU.ts:2685-2697 | the thread's actions, removed with it, stay removed after a failure |
| `IouEdit.PendingFields` | src/libs/actions/IOU.ts:991-993 | every changed field is pending UPDATE, and no other |
| `IouEdit.ClearedPendingFields` | src/libs/actions/IOU.ts:991-993 | every changed field's pending mark is null, and no other |
| `IouEdit.ErrorFields` | src/libs/actions/IOU.ts:991-993 | every changed field carries the edit error keyed by the current microsecond |
| `IouEdit.ReportWithEditedTotal` | src/libs/actions/IOU.ts:1054-1076 | an expense report's total moves by the edit's difference, and the cached display total is set |
| `IouEdit.EditedTransactionPatch` | src/libs/actions/IOU.ts:1080-1089 | the transaction gets its changed fields pending, loading exactly for a waypoint edit, errors cleared |
| `IouEdit.TransactionSettled` | src/libs/actions/IOU.ts:1121-1138 | on success, pending marks and errors are cleared and loading stops |
| `IouEdit.TransactionFailed` | src/libs/actions/IOU.ts:1141-1158 | on failure, pending marks are cleared, loading stops, and every changed field shows the error |
| `IouEdit.DetailsSent` | src/libs/actions/IOU.ts:1008-1016 | the details sent are those of the transaction, all or only the changed ones |
| `IouEdit.UpdateParams` | src/libs/actions/IOU.ts:1008-1024 | the parameters carry the transaction ID, the report ID when there is one, the action ID, and the chosen details |
| `IouEdit.WaypointEditWritesNoReport` | src/libs/actions/IOU.ts:1022-1049 | a waypoint edit writes neither an action nor a report |
| `IouEdit.EditWritesReportIffTotalFollows` | src/libs/actions/IOU.ts:1054-1076 | otherwise a report is written exactly when the total follows the edit |
| `IouEdit.EditMovesExpenseTotal` | src/libs/actions/IOU.ts:1054-1076 | then the expense report's total moves by the difference |
| `IouEdit.EditLeavesReport` | src/libs/actions/IOU.ts:1054-1076 | otherwise the report is left as it was |
| `IouEdit.EditFailureResetsReport` | src/libs/actions/IOU.ts:1141-1158 | the failure list merges the cached report back, so every field it held is restored |
| `IouEdit.EditFailureRestoresTotal` | src/libs/actions/IOU.ts:1141-1158 | a rejected edit leaves the total where it was before the edit |
| `IouEdit.EditMarksTransactionPending` | src/libs/actions/IOU.ts:1080-1089 | after the optimistic list the transaction shows its changes pending and the loading flag |
| `IouEdit.EditSuccessSettlesTransaction` | src/libs/actions/IOU.ts:1121-1138 | after success: pending and errors cleared, loading stopped, a waypoint edit's draft deleted |
| `IouEdit.EditFailureFlagsTransaction` | src/libs/actions/IOU.ts:1141-1158 | after failure: pending cleared, loading stopped, the error on every changed field |
| `IouEdit.RegularReportPatch` | src/libs/actions/IOU.ts:2327-2338 | the regular edit merges the report, with the new total when the total follows the edit |
| `IouEdit.RegularPendingCleared` | src/libs/actions/IOU.ts:2452-2481 | success clears exactly the eight regular-edit pending marks |
| `IouEdit.TransactionRestored` | src/libs/actions/IOU.ts:2483-2527 | the cached transaction merged back, each modified field kept only when it was set |
| `IouEdit.ReportRestored` | src/libs/actions/IOU.ts:2483-2527 | the cached report merged back, its display total removed unless it was set |
| `IouEdit.RegularEditParams` | src/libs/actions/IOU.ts:2530-2556 | the parameters hold the transaction ID, the action ID when there is one, and the eight editable details exactly as the transaction has them |
| `IouEdit.EditableDetails` | src/libs/actions/IOU.ts:2530-2556 | the editable details are exactly those fields of the details |
| `IouEdit.RegularEditMovesExpenseTotal` | src/libs/actions/IOU.ts:2327-2338 | the regular edit moves an expense report's total by the difference |
| `IouEdit.RegularFailureRestoresReport` | src/libs/actions/IOU.ts:2483-2527 | a rejected regular edit restores the cached report's fields |
| `IouEdit.RegularFailureRestoresTransaction` | src/libs/actions/IOU.ts:2483-2527 | a rejected regular edit restores the cached transaction's fields |
| `IouEdit.RegularSuccessClearsPending` | src/libs/actions/IOU.ts:2452-2481 | success clears all eight pending marks |
| `IouSplit.SplitChatReport` | src/libs/actions/IOU.ts:1382-1391 | the split chat is marked read now; a new one is pending creation; an existing one keeps its pending fields |
| `IouSplit.SplitChatWrittenRead` | src/libs/actions/IOU.ts:1393-1422 | after the optimistic list the split chat holds the read time and, when new, the creation mark |
| `IouSplit.NewSplitChatCreated` | src/libs/actions/IOU.ts:1445-1451 | success clears a new split chat's creation mark |
| `IouSplit.NewSplitChatFailed` | src/libs/actions/IOU.ts:1479-1488 | failure puts the creation error on a new split chat |
| `IouSplit.MemberIOUReport` | src/libs/actions/IOU.ts:1543-1557 | an existing policy-chat expense report, as the cache holds it, has its total lowered by the split amount |
| `IouSplit.MemberSplit` | src/libs/actions/IOU.ts:1651-1662 | a participant's split carries their email, account ID, the split amount and the IDs built |
| `IouSplit.AddParticipants` | src/libs/actions/IOU.ts:1506-1668 | the loop appends exactly the splits and joins exactly the lists of the participants it does not skip, in order, each built from the cache the earlier ones left; the cache it returns is the one they leave |
| `IouSplit.CreateSplitsAndOnyxData` | src/libs/actions/IOU.ts:1328-1690 | the splits are the current user's followed by the participants'; the lists are the split chat's joined with theirs; the report cache is returned as the loop leaves it |
| `IouSplit.KeptPositionsAreTheUnskipped` | src/libs/actions/IOU.ts:1514-1516 | the participants kept are exactly the unskipped ones, in increasing order |
| `IouSplit.CollectedFollowsKept` | src/libs/actions/IOU.ts:1506-1668 | the i-th contribution collected is that of the i-th kept participant, made from the state the participants before it left |
| `IouSplit.NoneSkippedKeepsAll` | src/libs/actions/IOU.ts:1506-1668 | when nobody is skipped, everyone contributes |
| `IouSplit.KeptUpdatesAreJoined` | src/libs/actions/IOU.ts:1665-1667 | every update of a kept participant's lists is in the joined lists |
| `IouSplit.SplitsFollowOtherParticipants` | src/libs/actions/IOU.ts:1506-1668 | the participants' splits are those of the kept participants, in order, each from the cache as the earlier participants left it |
| `IouSplit.SplitsSkipCurrentUser` | src/libs/actions/IOU.ts:1514-1516 | no participant split has the current user's email; each has the split amount |
| `IouSplit.EveryOtherParticipantSplits` | src/libs/actions/IOU.ts:1506-1668 | with no participant the current user, every participant gets a split |
| `IouSplit.ParticipantRequestIsWritten` | src/libs/actions/IOU.ts:1636-1667 | every update of a kept participant's request reaches the lists returned |
| `IouSplit.CacheAfter` | src/libs/actions/IOU.ts:1549-1554 | a participant whose existing expense report is lowered where it lies leaves the cache holding the lowered report under its ID; every other report and cache entry is kept |
| `IouSplit.LowerOnce` | src/libs/actions/IOU.ts:1528-1554 | in the user's own workspace chat one participant lowers the shared cached report by one share |
| `IouSplit.SharedReportLowered` | src/libs/actions/IOU.ts:1528-1554 | in the user's own workspace chat the cache the i-th participant finds holds the shared report lowered by i shares |
| `IouSplit.SharedExpenseReportAccumulates` | src/libs/actions/IOU.ts:1528-1557 | in the user's own workspace chat with its expense report at total t, the i-th participant's request carries t lowered by i + 1 shares |
| `IouStatus.NextStepOptimistic` | src/libs/actions/IOU.ts:3331-3336 | the next-step update in flight writes only the report's next-step key |
| `IouStatus.NextStepFailure` | src/libs/actions/IOU.ts:3337-3342 | its rollback writes only the same key |
| `IouStatus.ApproveReportPatch` | src/libs/actions/IOU.ts:3294-3304 | the approval merges the report with APPROVED state and status |
| `IouStatus.SubmitReportPatch` | src/libs/actions/IOU.ts:3375-3385 | the submission merges the report with SUBMITTED state and status |
| `IouStatus.SubmitReopenPatch` | src/libs/actions/IOU.ts:3423-3430 | the submission's rollback merges OPEN state and status |
| `IouStatus.PayChatReportPatch` | src/libs/actions/IOU.ts:3130-3142 | paying clears the chat's outstanding-request flag |
| `IouStatus.PayIOUReportPatch` | src/libs/actions/IOU.ts:3153-3163 | paying sets the IOU report's status to REIMBURSED |
| `IouStatus.CancelReportPatch` | src/libs/actions/IOU.ts:3487-3497 | cancelling sets SUBMITTED on a free policy and OPEN otherwise, for state and status |
| `IouStatus.CancelFailurePatch` | src/libs/actions/IOU.ts:3535-3541 | the cancellation's rollback sets status REIMBURSED and does not name the state |
| `IouStatus.ApproveOptimisticApproves` | src/libs/actions/IOU.ts:3301-3302 | after the optimistic list the report is APPROVED |
| `IouStatus.ApproveMovesToApproved` | src/libs/actions/IOU.ts:3279-3355 | the same, for the request `approveMoneyRequest` sends |
| `IouStatus.ApproveFailureLeavesReport` | src/libs/actions/IOU.ts:3319-3329 | the approval's failure list does not touch the report |
| `IouStatus.ApproveFailureKeepsApproved` | src/libs/actions/IOU.ts:3319-3342 | so a rejected approval leaves the report APPROVED |
| `IouStatus.SubmitMovesToSubmitted` | src/libs/actions/IOU.ts:3382-3383 | after the optimistic list the report is SUBMITTED |
| `IouStatus.SubmitFailureReopens` | src/libs/actions/IOU.ts:3427-3428 | a rejected submission moves the report back to OPEN |
| `IouStatus.PayOptimisticReimburses` | src/libs/actions/IOU.ts:3161 | after the optimistic list the IOU report is REIMBURSED |
| `IouStatus.PayOptimisticClearsOutstanding` | src/libs/actions/IOU.ts:3137 | and the chat shows no outstanding request |
| `IouStatus.PayMovesToReimbursed` | src/libs/actions/IOU.ts:3106-3253 | the same two facts, for the lists `getPayMoneyRequestParams` returns |
| `IouStatus.MergedBackHolds` | src/libs/actions/IOU.ts:3194-3202 | a report merged back by the only update of its key holds every field it had |
| `IouStatus.PayFailureRestoresReports` | src/libs/actions/IOU.ts:3183-3204 | a rejected payment restores every field of both reports |
| `IouStatus.CancelOptimisticReopens` | src/libs/actions/IOU.ts:3494-3495 | after the optimistic list the report has the free-policy-dependent state and status |
| `IouStatus.CancelPaymentReopens` | src/libs/actions/IOU.ts:3472-3571 | the same, for the request `cancelPayment` sends |
| `IouStatus.CancelFailureRestoresStatusInLists` | src/libs/actions/IOU.ts:3539 | optimistic then failure: status REIMBURSED, state as the optimistic list left it |
| `IouStatus.CancelPaymentFailureRestoresStatusOnly` | src/libs/actions/IOU.ts:3525-3554 | a rejected cancellation resets the status to REIMBURSED but keeps the cancelled state |
| `IouStatus.NextStepRestored` | src/libs/actions/IOU.ts:3205-3216 | with a cached next step, optimistic deletes it and failure restores it exactly; without one, neither touches it |
| `IouStatus.ApproveRestoresNextStep` | src/libs/actions/IOU.ts:3331-3342 | approval removes the next step and a failure restores it |
| `IouStatus.SubmitRestoresNextStep` | src/libs/actions/IOU.ts:3444-3455 | submission removes the next step and a failure restores it |
| `IouStatus.PayRestoresNextStep` | src/libs/actions/IOU.ts:3205-3216 | payment removes the next step and a failure restores it |
| `IouReceipt.DetachClearsReceipt` | src/libs/actions/IOU.ts:3585-3595 | detaching leaves an empty file name and receipt, every other field as it was; with no cached transaction the key is deleted |
| `IouReceipt.DetachThenMergeBack` | src/libs/actions/IOU.ts:3597-3603 | setting the detached record then merging the original back restores every field, and the whole record exactly when it had a file name and receipt |
| `IouReceipt.DetachFailureRestores` | src/libs/actions/IOU.ts:3585-3606 | a rejected detach restores every field; exactly when the transaction had a file name and receipt |
| `IouReceipt.ReplaceReceiptSetsNewReceipt` | src/libs/actions/IOU.ts:3612-3624 | replacing puts the new source, OPEN, and the file's name on the transaction |
| `IouReceipt.ReplaceReceiptAsWrittenLosesOldReceipt` | src/libs/actions/IOU.ts:3608-3637 | as written, a rejected replacement leaves an empty receipt and the new file name, whatever the transaction had |
| `IouReceipt.ReplaceReceiptFailureRestores` | src/libs/actions/IOU.ts:3626-3637 | corrected, a rejected replacement restores the cached receipt and file name |
| `IouDrafts.Trim` | src/libs/actions/IOU.ts:291 | the result is the input without leading and trailing white space; empty exactly when the input is all white space |
| `IouDrafts.TrimIdempotent` | src/libs/actions/IOU.ts:296 | trimming twice is trimming once |
| `IouDrafts.NothingToTrim` | src/libs/actions/IOU.ts:3691 | text without edge white space is left as it is |
| `IouDrafts.ClearMoneyRequest` | src/libs/actions/IOU.ts:270-272 | the draft key is deleted and nothing else changes |
| `IouDrafts.NewDraft` | src/libs/actions/IOU.ts:239-267 | the new draft has amount 0, the optimistic transaction ID, empty waypoints exactly for a distance request, and the given date or today |
| `IouDrafts.StartMoneyRequest` | src/libs/actions/IOU.ts:239-268 | the draft is `SET` to the new draft |
| `IouDrafts.MergeDraft` | src/libs/actions/IOU.ts:275-327 | a draft merge changes only the draft key, field by field as the patch says |
| `IouDrafts.SetDraftAmount` | src/libs/actions/IOU.ts:275-277 | amount and currency set, other fields and keys unchanged |
| `IouDrafts.SetDraftCreated` | src/libs/actions/IOU.ts:280-282 | date set; the draft's other fields and every other key are unchanged |
| `IouDrafts.SetDraftCurrency` | src/libs/actions/IOU.ts:285-287 | currency set; the draft's other fields and every other key are unchanged |
| `IouDrafts.SetDraftDescription` | src/libs/actions/IOU.ts:290-292 | the comment holds the trimmed text; the draft's other fields and every other key are unchanged |
| `IouDrafts.SetDraftMerchant` | src/libs/actions/IOU.ts:295-297 | the merchant is the trimmed text; the draft's other fields and every other key are unchanged |
| `IouDrafts.SetDraftCategory` | src/libs/actions/IOU.ts:300-302 | category set; the draft's other fields and every other key are unchanged |
| `IouDrafts.ResetDraftCategory` | src/libs/actions/IOU.ts:305-307 | category removed; the draft's other fields and every other key are unchanged |
| `IouDrafts.SetDraftTag` | src/libs/actions/IOU.ts:310-312 | tag set; the draft's other fields and every other key are unchanged |
| `IouDrafts.ResetDraftTag` | src/libs/actions/IOU.ts:315-317 | tag removed; the draft's other fields and every other key are unchanged |
| `IouDrafts.SetDraftBillable` | src/libs/actions/IOU.ts:320-322 | billable set; the draft's other fields and every other key are unchanged |
| `IouDrafts.SetDraftParticipants` | src/libs/actions/IOU.ts:325-327 | participants set; the draft's other fields and every other key are unchanged |
| `IouDrafts.SetDraftTaxRate` | src/libs/actions/IOU.ts:3714-3716 | tax rate set; the draft's other fields and every other key are unchanged |
| `IouDrafts.SetDraftTaxAmount` | src/libs/actions/IOU.ts:3718-3720 | tax amount set; the draft's other fields and every other key are unchanged |
| `IouDrafts.SetMoneyRequestReceipt` | src/libs/actions/IOU.ts:329-334 | the receipt source and file name are set on the draft or the transaction, as asked; that record's other fields and every other key are unchanged |
| `IouDrafts.SetDraftSplitTransaction` | src/libs/actions/IOU.ts:2299-2309 | the split draft gets the updated draft, or the updated transaction when there is no draft, or an empty object |
| `IouDrafts.InitialIOU` | src/libs/actions/IOU.ts:343-358 | the reset request info has exactly the fourteen fields of the initial record: the ID, amount 0, no participants, the local currency or USD, the given date or today, a null billable flag, no split, and no other null |
| `IouDrafts.ResetMoneyRequestInfo` | src/libs/actions/IOU.ts:339-359 | each of the fourteen fields takes its initial value (billable is removed by its null); the record's other fields and every other key are unchanged |
| `IouDrafts.StartIOURequest` | src/libs/actions/IOU.ts:3669-3672 | the request info is reset as `resetMoneyRequestInfo` does under the ID `iouType + reportID`: all fourteen fields, including currency, date and billable; the record's other fields and every other key are unchanged |
| `IouDrafts.SetIOUField` | src/libs/actions/IOU.ts:3674-3728 | the store is the merge of the one field; that field set, other fields and keys unchanged |
| `IouDrafts.SetMoneyRequestId` | src/libs/actions/IOU.ts:3674-3676 | ID set; the record's other fields and every other key are unchanged |
| `IouDrafts.SetMoneyRequestAmount` | src/libs/actions/IOU.ts:3678-3680 | amount set; the record's other fields and every other key are unchanged |
| `IouDrafts.SetMoneyRequestCreated` | src/libs/actions/IOU.ts:3682-3684 | date set; the record's other fields and every other key are unchanged |
| `IouDrafts.SetMoneyRequestCurrency` | src/libs/actions/IOU.ts:3686-3688 | currency set; the record's other fields and every other key are unchanged |
| `IouDrafts.SetMoneyRequestDescription` | src/libs/actions/IOU.ts:3690-3692 | comment is the trimmed text; the record's other fields and every other key are unchanged |
| `IouDrafts.SetMoneyRequestMerchant` | src/libs/actions/IOU.ts:3694-3696 | merchant is the trimmed text; the record's other fields and every other key are unchanged |
| `IouDrafts.SetMoneyRequestCategory` | src/libs/actions/IOU.ts:3698-3700 | category set; the record's other fields and every other key are unchanged |
| `IouDrafts.ResetMoneyRequestCategory` | src/libs/actions/IOU.ts:3702-3704 | category is the empty string; the record's other fields and every other key are unchanged |
| `IouDrafts.SetMoneyRequestTag` | src/libs/actions/IOU.ts:3706-3708 | tag set; the record's other fields and every other key are unchanged |
| `IouDrafts.ResetMoneyRequestTag` | src/libs/actions/IOU.ts:3710-3712 | tag is the empty string; the record's other fields and every other key are unchanged |
| `IouDrafts.SetMoneyRequestBillable` | src/libs/actions/IOU.ts:3722-3724 | billable set; the record's other fields and every other key are unchanged |
| `IouDrafts.SetMoneyRequestParticipants` | src/libs/actions/IOU.ts:3726-3728 | participants set; the split flag set when given and kept when left undefined; the record's other fields and every other key are unchanged |
| `IouDrafts.OtherAccounts` | src/libs/actions/IOU.ts:3661 | the accounts kept are exactly the others than the current user's |
| `IouDrafts.AccountParticipants` | src/libs/actions/IOU.ts:3661 | one selected participant per account, in order |
| `IouDrafts.ParticipantsFromReport` | src/libs/actions/IOU.ts:3657-3661 | a policy expense chat gives itself as the one participant; any other chat gives its other members, selected |
| `IouDrafts.SetMoneyRequestParticipantsFromReport` | src/libs/actions/IOU.ts:3655-3664 | the draft gets those participants, marked auto-assigned; the draft's other fields and every other key are unchanged |
| `IouDrafts.SetUpDistanceTransaction` | src/libs/actions/IOU.ts:3730-3737 | the new transaction gets its ID and the distance custom-unit comment, and the request info points at it; the other fields of both records and every other key are unchanged |
| `IouDrafts.GetIOUReportID` | src/libs/actions/IOU.ts:3783-3787 | the route's report ID when truthy, else the first participant's when truthy, else the empty string |
| `ReportActionsMigration.FirstNonEmpty` | src/libs/migrations/CheckForPreviousReportActionID.js:35 | the first non-empty entry; none exactly when all are empty |
| `ReportActionsMigration.FirstWithReportActionID` | src/libs/migrations/CheckForPreviousReportActionID.js:36 | the first action with a `reportActionID`; none exactly when no action has one |
| `ReportActionsMigration.Migrate` | src/libs/migrations/CheckForPreviousReportActionID.js:28-60 | the loop's writes are the cleared entries exactly when the decision is to clear, and nothing otherwise |
| `ReportActionsMigration.AfterMultiSet` | src/libs/migrations/CheckForPreviousReportActionID.js:59 | `multiSet` keeps the entries and their order |
| `ReportActionsMigration.EmptyCollectionWritesNothing` | src/libs/migrations/CheckForPreviousReportActionID.js:30-33 | with no entries the migration skips |
| `ReportActionsMigration.NoValidActionWritesNothing` | src/libs/migrations/CheckForPreviousReportActionID.js:38-41 | with no non-empty entry the migration skips as having no valid action |
| `ReportActionsMigration.OnlyFirstEntryInspected` | src/libs/migrations/CheckForPreviousReportActionID.js:35-41 | when the first non-empty entry has no action with an ID, the later entries are not looked at |
| `ReportActionsMigration.FirstValidActionDecides` | src/libs/migrations/CheckForPreviousReportActionID.js:43-57 | the first valid action decides: `previousReportActionID` present means done, absent means clear |
| `ReportActionsMigration.ClearedWritesKeys` | src/libs/migrations/CheckForPreviousReportActionID.js:51-57 | the writes name exactly the non-empty entries, each set to `{}` |
| `ReportActionsMigration.EmptyEntriesLeftOut` | src/libs/migrations/CheckForPreviousReportActionID.js:53-55 | an empty entry is not written |
| `ReportActionsMigration.ClearingEmptiesEveryEntry` | src/libs/migrations/CheckForPreviousReportActionID.js:51-59 | after the writes every entry is empty |
| `ReportActionsMigration.MigrationIdempotent` | src/libs/migrations/CheckForPreviousReportActionID.js:28-60 | after one run, a second run clears nothing and changes nothing |

## Left out

- Network and navigation: `API.write`, `Navigation` and `Log` are not modelled. Each action
  returns the command name, its parameters and its three lists.
- Concurrency: the order in which Onyx applies queued writes, and the `Promise` behind the
  migration, are not modelled. The optimistic list applies first, then the success or
  failure list.
- Onyx's merge: react-native-onyx is not part of this model. `MERGE` is modelled as a
  shallow merge that deletes top-level `null` fields; nested objects are replaced, not
  merged. `undefined` object fields are taken as absent (`Assign` in `IouEdit`).
- Helpers outside `IOU.ts` are inputs. That covers ReportUtils, TransactionUtils, IOUUtils,
  OptionsListUtils, PolicyUtils, ViolationsUtils, ErrorUtils, DateUtils, NumberUtils,
  `Localize` and `TransactionUtils.getUpdatedTransaction`. The optimistic actions, reports
  and transactions they build arrive as records. The clock, random IDs and the time-keyed
  error are a `Clock` value. Of the optimistic transaction `buildOptimisticTransaction` returns, the
  model sets `amount`, `currency` and `reportID` itself, to the values passed to it
  (`IouCreate.RequestTransaction`, `IouSplit.MemberParts`); its other fields arrive as given.
  The payer's email (`addSMSDomainIfPhoneNumber(participant.login ?? '')`) is an input.
- Constants: CONST.ts is not part of this model. The state and status numbers, pending
  actions, the optimistic transaction ID and the partial merchant carry the app's values.
  The proofs use only their being distinct.
- `IouCreate.ExistingReportRequestParts`: `calculateAmount` rounding is not modelled.
- `IouSplit.MemberSplit`: `calculateAmount` rounding is not modelled. The split amount is
  an input.
- `IouSplit.MemberSplit`: `addSMSDomainIfPhoneNumber` and the lower-casing are inputs. Each
  participant's email arrives already normalised.
- In `createSplitsAndOnyxData`, the lookup of an existing split chat is an input.
- `IouSplit.CreateSplitsAndOnyxData`: the in-place `total -= splitAmount` on a cached expense
  report is modelled by carrying the report cache through the loop and returning it. That the
  module-level cache keeps the lowered object until Onyx next calls back is not modelled
  beyond that returned value.
- In `createSplitsAndOnyxData`, the in-place mutation of the split chat report is not
  modelled (setting `lastReadTime` and `pendingFields` on an object other lists share). The
  report is built once as a value; it is the same value in every place that uses it.
- `IouDrafts.SetMoneyRequestParticipants`: an undefined `isSplitRequest` is taken as
  absent from the merged patch. Onyx's own treatment of `undefined` is not modelled.
- The callers of the modelled functions are left out. They build their inputs and call
  `API.write` and `Navigation`. That covers `requestMoney`, `createDistanceRequest`,
  `sendMoney*`, `splitBill`, `splitBillAndOpenReport`, `startSplitBill` and
  `completeSplitBill`, the `updateMoneyRequest*`/`editMoneyRequest` wrappers,
  `payMoneyRequest`, `navigateToNextPage` and `getPayMoneyRequestParams`'s callers.
  `completeSplitBill`'s and `startSplitBill`'s own loops are also left out
  (src/libs/actions/IOU.ts:1979-2022, 2146-2258).
- Integers are unbounded; JavaScript numbers above 2^53 are not modelled.

## Findings

| source | as written | input that shows it | evidently intended | confidence | as-written member | corrected member |
|---|---|---|---|---|---|---|
| src/libs/actions/IOU.ts:3609 | `replaceReceipt` reads the cached transaction as `allTransactions.transactionID`, a literal key that no transaction has. So the failure list merges an empty receipt and an undefined file name back | a cached transaction `transactions_42` with receipt `{source: "a.jpg"}`; `replaceReceipt("42", file, "b.jpg")` rejected by the server never puts `{source: "a.jpg"}` back: under the modelled shallow merge the receipt is left `{}`; under Onyx's deep merge, merging `{}` and an undefined name changes nothing, so the new receipt and name stay. The old receipt is lost either way | read `allTransactions[transactions_${transactionID}]`, so a rejected replacement restores the old receipt and file name | not executed | `IouReceipt.ReplaceReceiptAsWrittenLosesOldReceipt` (on `IouReceipt.ReplaceReceiptAsWritten`) | `IouReceipt.ReplaceReceiptFailureRestores` (on `IouReceipt.ReplaceReceipt`) |
