# TaskWiseFinances back end: wallet ledger, operations and annotation lifecycle

This project is a Dafny model of the part of TaskWiseFinances' back end that keeps a user's
wallet balance consistent with their recorded wallet operations and with the status of
their annotations (bills and payments). It covers:

- the **wallet ledger**: `create`, `get`, `update`, `add` and `subtract`;
- the **operation recorder**: `create`, `get` and `remove` of wallet operations, removal by
  annotation and by a batch of annotations, the create/delete dispatch tables, and the filtered
  reads;
- the **annotation lifecycle**: `create`, `update`, `remove`, `confirmStatus`,
  `createOperationByStatus`, `checkStatus`, and the filtered reads;
- the **prediction date** store: `create`, `get` and `update`;
- the **error classifier**: `getNewResponseError`, the PostgreSQL error table and
  `routerErrorHandler`;
- the helpers: `reduceCheckedAnnotations`, `getRepeatedAnnotations`, `parseArrOfStrToInt` and
  `getFirstAndLastDayOfMonth`.

## How the model is built

- **The datastore.** The Supabase tables are a value, `Store.Tables`. It holds:
  - the wallets, as a map from user to balance;
  - the operations and annotations, as sequences in insertion order;
  - the prediction dates;
  - the next row ids;
  - a map of tables that are failing, each with the PostgREST error it returns.
- **Store calls.** Each Supabase call the controllers make is a function in `Store`. It returns
  a `Step`: the call's result paired with the new tables. `Datastore.Database` is a class whose
  fields are those tables. It has one method per mutating call, and each method's `ensures`
  ties it to the `Store` function.
- **Controller operations.** Each controller operation that changes state step by step is a
  `method` over a `Database`. It awaits the calls in the source's order and returns as soon as
  one fails, as the `try`/`throw` in the source does. Its `ensures` equates the result and the
  new state with a pure `…Effect` function of the old state, and the properties are proved
  about those functions.
- **Pure code.** Reads, `checkStatus` and the library helpers are pure functions.
- **Values.** Money is an unbounded integer. Dates are strings, and the `gte`/`lte` date
  bounds compare them as strings. That is date order only for zero-padded `YYYY-MM-DD` text,
  which the model assumes (see "## Left out").

Orderings and behaviours of the code that the model keeps as they are:

- **Deleting an operation.** `remove` on an operation deletes the row first and only then
  moves the wallet, so a failing wallet call leaves the row deleted.
- **Deleting an annotation.**
  - The annotation `remove` deletes the row first and then reverses it.
  - Because of the guard at line 76, it reverses every deleted annotation, not only confirmed
    ones (see "## Findings").
  - The reversal type comes from the stored status, not from the annotation type.
- **Unchecking an annotation.** `uncheckStatus` is called but defined in no file of this
  model, so the model takes it as a parameter.
- **Connection errors.** The error table has class keys such as `08*`, but the exact-key lookup
  never reaches them (see "## Findings").

## Model

| member | source | states |
|---|---|---|
| ErrorSystem.GetNewResponseError | dist/error_system/index.js:13-15 | the error carries the given message and status_code and is neither a PostgREST nor a validation error |
| ErrorSystem.TableStatusesAreMapped | src/error_system/postgresErrorToHttpStatus.ts:5-34 | every value in the SQLSTATE table is one of 400, 403, 404, 405, 409, 413, 500, 503 |
| ErrorSystem.StatusForCode | dist/error_system/index.js:33 | a code in the table gets exactly the table's status, and a code absent from the table gets 500; either way the status is a mapped one |
| ErrorSystem.KnownCodes | src/error_system/postgresErrorToHttpStatus.ts:10-33 | 23503 and 23505 give 409; 42883, 42P01, 42703 and 428C9 give 404; P0001 gives 400; 25006 gives 405 |
| ErrorSystem.RouterErrorHandler | dist/error_system/index.js:26-72 | the handled error keeps the thrown error; the status is a table status or 401, except that a response error keeps its own status_code |
| ErrorSystem.CodeTakesPrecedence | dist/error_system/index.js:27-34 | an error with a code is classified by the table, with its own message, even if it also has a status_code |
| ErrorSystem.ResponseErrorRoundTrip | dist/error_system/index.js:36-43 | classifying `getNewResponseError(m, c)` gives back status c and message m |
| ErrorSystem.FixedClassifications | dist/error_system/index.js:45-70 | with no code and no status_code: validation errors give 400 "Invalid Request", auth errors 401 "Unauthorized", everything else 500 "Server Error" |
| ErrorSystem.WildcardMissedByExactLookup | dist/error_system/index.js:33 | "08006" falls back to 500 under the exact lookup, but its class key "08*" maps to 503 |
| ErrorSystem.FiveCharCodesNeverHitWildcards | src/error_system/postgresErrorToHttpStatus.ts:6-29 | a five-character table key never ends in `*`, so no real SQLSTATE can equal a wildcard key |
| ErrorSystem.StatusForCodeByClass | src/error_system/postgresErrorToHttpStatus.ts:6-29 | the corrected lookup agrees with the table on exact keys and falls back to the two-character class key before 500 |
| ErrorSystem.ConnectionClassIs503 | src/error_system/postgresErrorToHttpStatus.ts:6 | every five-character connection-class code "08xxx" gives 503 under the corrected lookup and 500 as written |
| Decimal.FromNat | src/lib/functions/annotation_fns.ts:37 | the decimal rendering of a number is a non-empty digit string |
| Decimal.ValueOfFromNat | src/lib/functions/annotation_fns.ts:37 | reading back the rendered digits yields the number |
| Decimal.FromNatInjective | src/lib/functions/annotation_fns.ts:37-38 | different numbers render as different markers |
| CommunFns.TrimStart | src/lib/functions/commun_fns.ts:5 | the result is a suffix of the input, only white space was dropped, and it does not start with white space |
| CommunFns.DigitPrefix | src/lib/functions/commun_fns.ts:5 | the result is the longest prefix made of decimal digits |
| CommunFns.DigitPrefixOfDigits | src/lib/functions/commun_fns.ts:5 | a digit run followed by a non-digit is exactly the digit prefix |
| CommunFns.TrimStartSkipsWhiteSpace | src/lib/functions/commun_fns.ts:5 | leading white space does not change the trimmed text |
| CommunFns.ParseIntReadsPrintedNumber | src/lib/functions/commun_fns.ts:5-7 | `parseInt` of a printed number followed by a non-digit gives the number |
| CommunFns.ParseIntReadsNegative | src/lib/functions/commun_fns.ts:5-7 | `parseInt` of "-" and a printed number gives its negation |
| CommunFns.ParseIntSkipsWhiteSpace | src/lib/functions/commun_fns.ts:5 | leading white space does not change what `parseInt` reads |
| CommunFns.ParseIntWithoutDigitsIsNaN | src/lib/functions/commun_fns.ts:5-6 | text with no digit after white space and sign is NaN |
| CommunFns.ParseEach | src/lib/functions/commun_fns.ts:4-10 | success iff every element parses; then the output has the same length and order; otherwise the 400 "array must be an array of numbers" error |
| CommunFns.ParseArrOfStrToInt | src/lib/functions/commun_fns.ts:3-11 | the same, all-or-nothing, with `parseInt` base 10 on each element |
| Calendar.DaysInMonth | src/lib/functions/date.ts:5 | a month has 28 to 31 days; February has 29 exactly in leap years; every other month has at least 30 |
| Calendar.FormatDate | src/lib/functions/date.ts:7 | the `YYYY-MM-DD` rendering is ten characters long |
| Calendar.FormatDateRoundTrip | src/lib/functions/date.ts:7 | parsing the rendered date gives back the year, month and day |
| Calendar.GetFirstAndLastDayOfMonth | src/lib/functions/date.ts:3-8 | firstDay is the 1st of the month, lastDay the month's last day; both share year and month, and firstDay < lastDay as strings |
| AnnotationFns.FoldLeftMatchesReference | src/lib/functions/annotation_fns.ts:5-18 | the reduce from any accumulator appends the checked ids and adds the checked signed total |
| AnnotationFns.ReduceCheckedAnnotations | src/lib/functions/annotation_fns.ts:4-19 | ids are the ids of the payed or recived annotations in input order; value is the sum of +value for payments and -value otherwise |
| AnnotationFns.CheckedIdsMembership | src/lib/functions/annotation_fns.ts:7-9 | an id is collected iff some confirmed annotation carries it |
| AnnotationFns.UncheckedAreIgnored | src/lib/functions/annotation_fns.ts:14-16 | inserting an unconfirmed annotation anywhere does not change the result |
| AnnotationFns.NothingCheckedReducesToZero | src/lib/functions/annotation_fns.ts:4-19 | a list with no confirmed annotation, the empty list included, gives `{ids: [], value: 0}` |
| AnnotationFns.GetRepeatedAnnotations | src/lib/functions/annotation_fns.ts:23-47 | `[annotation]` when it never repeats or quantity <= 1; otherwise quantity drafts, the first the input, the i-th with name and description marked i+1, dated i units after the original, everything else unchanged |
| AnnotationFns.RepeatedNamesAreDistinct | src/lib/functions/annotation_fns.ts:37 | the drafts of one expansion have pairwise different names |
| AnnotationFns.RepeatedNameMarkerParses | src/lib/functions/annotation_fns.ts:37 | the marker after " - " in the i-th draft's name parses back to i+1 |
| Store.DeleteOperationById | src/controllers/wallet_op_controller.ts:81-84 | a delete that matched no row leaves the tables unchanged |
| Store.DeleteAnnotationById | src/controllers/annotation_controller.ts:72-74 | a delete that matched no row leaves the tables unchanged |
| Datastore.Database.InsertWallet | dist/controllers/wallet_controller.js:14 | the new tables are those of the wallet insert, which fails on a duplicate user with 23505 |
| Datastore.Database.UpdateWallet | dist/controllers/wallet_controller.js:46 | the new tables are those of the wallet update matched on user_id |
| Datastore.Database.InsertOperation | src/controllers/wallet_op_controller.ts:36-37 | the new tables are those of appending the operation row with the next id |
| Datastore.Database.DeleteOperationById | src/controllers/wallet_op_controller.ts:81-82 | returns the deleted rows matching id and user; the table keeps the rest |
| Datastore.Database.DeleteOperationsOfAnnotation | src/controllers/wallet_op_controller.ts:127 | removes every row linked to the annotation id, whatever its user |
| Datastore.Database.DeleteOperationsOfAnnotations | src/controllers/wallet_op_controller.ts:147-148 | removes every row whose annotation id is in the list |
| Datastore.Database.InsertAnnotation | src/controllers/annotation_controller.ts:48-49 | appends the annotation with the next id and returns the inserted row |
| Datastore.Database.DeleteAnnotationById | src/controllers/annotation_controller.ts:72 | returns the deleted rows matching id and user; the table keeps the rest |
| Datastore.Database.UpdateAnnotationById | src/controllers/annotation_controller.ts:114 | rewrites the columns of the rows matching id and user and returns them |
| Datastore.Database.UpdateAnnotationStatus | src/controllers/annotation_controller.ts:183-184 | sets the status of the rows matching id and user and returns them |
| Datastore.Database.InsertPredictionDate | src/controllers/prediction_date_controler.ts:12 | the new tables are those of the prediction date insert |
| Datastore.Database.UpdatePredictionDate | src/controllers/prediction_date_controler.ts:45-46 | overwrites the user's date if a row exists and creates none otherwise |
| WalletController.Opened | dist/controllers/wallet_controller.js:31-32 | opening a wallet adds the user at its current balance (0 when absent) and leaves every other wallet as it was |
| WalletController.CreateEffect | dist/controllers/wallet_controller.js:8-24 | succeeds iff the table works and the user has no wallet, replying 201 with a zero wallet; a duplicate fails with 23505 and changes nothing |
| WalletController.Create | dist/controllers/wallet_controller.js:8-24 | the method's result and new state are CreateEffect's |
| WalletController.GetEffect | dist/controllers/wallet_controller.js:25-42 | succeeds iff the table works; returns the stored wallet with 200, or creates a zero wallet and returns it with 201 |
| WalletController.Get | dist/controllers/wallet_controller.js:25-42 | the method's result and new state are GetEffect's |
| WalletController.UpdateEffect | dist/controllers/wallet_controller.js:43-56 | succeeds iff the table works; writes the user's balance if the wallet exists; other users and other tables are untouched |
| WalletController.Update | dist/controllers/wallet_controller.js:43-56 | the method's result and new state are UpdateEffect's |
| WalletController.AddEffect | dist/controllers/wallet_controller.js:57-71 | succeeds iff the table works, with the balance raised by the value whatever its sign |
| WalletController.Add | dist/controllers/wallet_controller.js:57-71 | the method's result and new state are AddEffect's |
| WalletController.SubtractEffect | dist/controllers/wallet_controller.js:72-87 | succeeds iff the table works and value <= balance, lowering the balance by value; otherwise 400 "value must be below wallet value" with only the lazily created wallet written |
| WalletController.Subtract | dist/controllers/wallet_controller.js:72-87 | the method's result and new state are SubtractEffect's |
| WalletController.GetIsIdempotent | dist/controllers/wallet_controller.js:25-36 | a second `get` returns the same wallet with 200 and changes nothing |
| WalletController.NoWalletNotFound | dist/controllers/wallet_controller.js:60-64 | `add` and `subtract` never fail with the 404 "wallet not found"; their only failures are the storage error and the 400 |
| WalletController.SubtractKeepsBalanceNonNegative | dist/controllers/wallet_controller.js:78-81 | a successful subtract from a non-negative balance leaves it non-negative, and subtracting the whole balance leaves 0 |
| WalletController.AddIsUnguarded | dist/controllers/wallet_controller.js:57-61 | `add` always moves the balance by the value, negative values included |
| WalletController.LedgerTouchesOnlyTheUser | dist/controllers/wallet_controller.js:46 | `add` and `subtract` leave other users' balances and every non-wallet table unchanged |
| WalletController.AddThenSubtractRestores | dist/controllers/wallet_controller.js:57-87 | from a non-negative balance, `add v` then `subtract v` succeeds and restores the balance |
| WalletController.SubtractThenAddRestores | dist/controllers/wallet_controller.js:57-87 | a successful `subtract v` followed by `add v` restores the balance |
| WalletOpController.Dispatch | src/controllers/wallet_op_controller.ts:14-21 | a successful dispatch moves the balance by the signed value; a failing one writes at most the lazily created wallet; `add` fails only on a storage error |
| WalletOpController.ApplyDispatch | src/controllers/wallet_op_controller.ts:14-21 | the method's result and new state are Dispatch's |
| WalletOpController.DispatchTablesAreInverse | src/controllers/wallet_op_controller.ts:14-21 | for each operation type the create and delete tables call opposite wallet functions whose movements cancel |
| WalletOpController.DispatchRoundTrip | src/controllers/wallet_op_controller.ts:14-21 | a successful create dispatch followed by the delete dispatch succeeds and restores the balance |
| WalletOpController.CreateEffect | src/controllers/wallet_op_controller.ts:24-51 | succeeds iff the wallet step succeeds and the insert works; it then appends the row dated today with the annotation id, moves only the user's balance, leaves annotations and prediction dates unchanged, and replies 201 without that id; a failed wallet step adds no row |
| WalletOpController.Create | src/controllers/wallet_op_controller.ts:24-51 | the method's result and new state are CreateEffect's |
| WalletOpController.UncoveredExpenseRecordsNothing | src/controllers/wallet_op_controller.ts:35-39 | an expense above the balance fails with the 400 and records no operation |
| WalletOpController.InsertFailureLeavesWalletMoved | src/controllers/wallet_op_controller.ts:35-39 | when the insert fails after the wallet step, the money stays moved with no row recording it |
| WalletOpController.Get | src/controllers/wallet_op_controller.ts:52-69 | returns with 200 the user's row with that id if one exists, otherwise 404 "operation not Found" |
| WalletOpController.UncheckStatus | src/controllers/wallet_op_controller.ts:109 | the method's result and new state are those of the uncheck parameter |
| WalletOpController.UpdateAnnByRemoveOpEffect | src/controllers/wallet_op_controller.ts:100-117 | after the annotation read, the state and the failure are those of the uncheck call |
| WalletOpController.UpdateAnnByRemoveOp | src/controllers/wallet_op_controller.ts:100-117 | the method's result and new state are UpdateAnnByRemoveOpEffect's |
| WalletOpController.RemoveEffect | src/controllers/wallet_op_controller.ts:76-98 | a failing table gives the TypeError on `data[0]`; no matching row gives the TypeError on `operation_type`, with nothing changed; success returns the deleted row with 200 |
| WalletOpController.Remove | src/controllers/wallet_op_controller.ts:76-98 | the method's result and new state are RemoveEffect's |
| WalletOpController.RemoveUnlinkedReverses | src/controllers/wallet_op_controller.ts:81-92 | removing an unlinked row the wallet can reverse deletes it and moves the balance back by the inverse dispatch |
| WalletOpController.RemoveIgnoresUncheckWithoutAnnotation | src/controllers/wallet_op_controller.ts:88-90 | without an annotation id, the uncheck call has no influence on the outcome |
| WalletOpController.RemoveUncoveredIncomeLosesRow | src/controllers/wallet_op_controller.ts:81-84 | removing an income above the balance fails with the 400 after the row is already deleted |
| WalletOpController.RemoveByAnnotationEffect | src/controllers/wallet_op_controller.ts:121-138 | one inverse dispatch of the given type and value, then the deletion of every row linked to the annotation; only the user's wallet and the operations change; a failed dispatch deletes nothing |
| WalletOpController.RemoveByAnnotation | src/controllers/wallet_op_controller.ts:121-138 | the method's result and new state are RemoveByAnnotationEffect's |
| WalletOpController.RemoveByAnnotationClearsTheLink | src/controllers/wallet_op_controller.ts:127 | afterwards no operation of any user links to the annotation, and every remaining row was there before |
| WalletOpController.RemoveByBulkAnnotationEffect | src/controllers/wallet_op_controller.ts:140-165 | succeeds iff both tables work; one `add` of the reduced value to the user's wallet only, then the deletion of every row linked to one of the ids; annotations, other wallets and prediction dates unchanged |
| WalletOpController.RemoveByBulkAnnotation | src/controllers/wallet_op_controller.ts:140-165 | the method's result and new state are RemoveByBulkAnnotationEffect's |
| WalletOpController.FilterWalletOperations | src/controllers/wallet_op_controller.ts:167-196 | status 200 and exactly the user's rows meeting every truthy bound (type, min, max, start, end) |
| WalletOpController.FalsyOperationBoundsAreSkipped | src/controllers/wallet_op_controller.ts:176-185 | bounds 0 and "" filter exactly as absent bounds do |
| WalletOpController.GetAll | src/controllers/wallet_op_controller.ts:199-208 | status 200 and exactly the user's operations |
| WalletOpController.GetAllType | src/controllers/wallet_op_controller.ts:210-219 | status 200 and exactly the user's operations of that type |
| WalletOpController.GetAllBetweenDates | src/controllers/wallet_op_controller.ts:222-232 | status 200 and exactly the user's operations dated within the two bounds |
| AnnotationReads.Get | src/controllers/annotation_controller.ts:132-147 | status 200 with the user's row with that id, or an empty array when there is none |
| AnnotationReads.GetStatus | src/controllers/annotation_controller.ts:148-164 | the stored status of the user's annotation with that id; 404 "Annotation not Found" iff there is none |
| AnnotationReads.FilterAnnotation | src/controllers/annotation_controller.ts:261-298 | status 201 and exactly the user's rows meeting the type, status list and every truthy bound |
| AnnotationReads.FalsyBoundsAreSkipped | src/controllers/annotation_controller.ts:279-282 | bounds 0 and "" filter exactly as absent bounds do |
| AnnotationReads.EmptyStatusListMatchesNothing | src/controllers/annotation_controller.ts:278 | an empty status list selects no row |
| AnnotationReads.GetAll | src/controllers/annotation_controller.ts:300-313 | status 200 and exactly the user's annotations |
| AnnotationReads.GetAllType | src/controllers/annotation_controller.ts:315-329 | status 200 and exactly the user's annotations of that type |
| AnnotationReads.GetAllStatus | src/controllers/annotation_controller.ts:330-344 | status 200 and exactly the user's annotations with that status |
| AnnotationReads.GetAllBetweenDates | src/controllers/annotation_controller.ts:346-361 | status 200 and exactly the user's annotations dated within the two bounds |
| AnnotationReads.GetAllPendentOrExpired | src/controllers/annotation_controller.ts:363-377 | status 200 and exactly the user's pendent or expired annotations dated on or before the offset date |
| AnnotationController.CheckStatus | src/controllers/annotation_controller.ts:201-216 | no action for equal statuses and between pendent and expired; create iff the new status is confirmed and differs; delete iff a confirmed status becomes unconfirmed |
| AnnotationController.CheckStatusFollowsConfirmation | src/controllers/annotation_controller.ts:205-214 | the decision by confirmation class, including create for payed to recived and back |
| AnnotationController.OpTypeFor | src/controllers/annotation_controller.ts:228 | the operation type is income exactly for payments |
| AnnotationController.CreateOperationByStatusEffect | src/controllers/annotation_controller.ts:217-257 | a missing annotation fails as the status read does, changing nothing; otherwise the state is that of doing nothing, the operation create, or removeByAnnotation, as CheckStatus decides; annotations and prediction dates are never changed |
| AnnotationController.CreateOperationByStatus | src/controllers/annotation_controller.ts:217-257 | the method's result and new state are CreateOperationByStatusEffect's |
| AnnotationController.ConfirmingRecordsOneOperation | src/controllers/annotation_controller.ts:232-242 | confirming an unconfirmed annotation appends exactly one operation, linked to it, of the annotation's value |
| AnnotationController.ConfirmTarget | src/controllers/annotation_controller.ts:178 | the target status is confirmed, and it is recived exactly for payments |
| AnnotationController.ConfirmStatusEffect | src/controllers/annotation_controller.ts:165-199 | a confirmed supplied status fails with 400 "Annotation already confirmed" and changes nothing; on success the new state is exactly the state after `createOperationByStatus` towards the target status with the matching rows' status then set to the target, and the reply holds those rows |
| AnnotationController.ConfirmStatus | src/controllers/annotation_controller.ts:165-199 | the method's result and new state are ConfirmStatusEffect's |
| AnnotationController.ConfirmingTwiceRecordsNothing | src/controllers/annotation_controller.ts:177-184 | when the stored status already is the target, no operation is created and the wallet is untouched |
| AnnotationController.CreateEffect | src/controllers/annotation_controller.ts:36-64 | succeeds iff the table works; on success the only change is the annotation appended with the next id (and that id counter advanced); on failure nothing changes |
| AnnotationController.Create | src/controllers/annotation_controller.ts:36-64 | the method's result and new state are CreateEffect's |
| AnnotationController.UpdateEffect | src/controllers/annotation_controller.ts:96-131 | runs createOperationByStatus first; a failure there leaves the annotation unchanged; on success wallets and operations are those createOperationByStatus left, the matching rows hold the new columns and every other row is unchanged |
| AnnotationController.Update | src/controllers/annotation_controller.ts:96-131 | the method's result and new state are UpdateEffect's |
| AnnotationController.UpdateOfMissingAnnotationChangesNothing | src/controllers/annotation_controller.ts:111-116 | updating an absent annotation fails with 404 and changes nothing |
| AnnotationController.ReversalGuardAlwaysHolds | src/controllers/annotation_controller.ts:76 | the guard as written holds for every status, and differs from the intended guard exactly on unconfirmed statuses |
| AnnotationController.ReversalType | src/controllers/annotation_controller.ts:77 | the reversal type is income exactly when the deleted row is recived |
| AnnotationController.RemoveWith | src/controllers/annotation_controller.ts:66-93 | no deleted row gives 404 "Annotation to delete not found" with nothing changed; success returns the deleted rows, leaves the others, and the new state is the deletion followed, when the guard holds for the first deleted row's status, by `removeByAnnotation` reversing its value in the wallet; nothing else changes |
| AnnotationController.RemoveGuarded | src/controllers/annotation_controller.ts:66-93 | the method's result and new state are RemoveWith's under the given guard |
| AnnotationController.Remove | src/controllers/annotation_controller.ts:66-93 | the method's result and new state are RemoveWith's under the guard as written |
| AnnotationController.RemoveIntended | src/controllers/annotation_controller.ts:76 | the method's result and new state are RemoveWith's under the intended guard |
| AnnotationController.RemovingUnconfirmedCreditsWallet | src/controllers/annotation_controller.ts:76-85 | as written, deleting a pendent or expired annotation moves the wallet as if reversing an expense |
| AnnotationController.RemovingUnconfirmedMovesNothing | src/controllers/annotation_controller.ts:76 | with the intended guard, deleting an unconfirmed annotation leaves wallets and operations unchanged |
| AnnotationController.RemovingConfirmedReverses | src/controllers/annotation_controller.ts:72-85 | under either guard, deleting a confirmed annotation reverses its wallet effect and unlinks its operations |
| PredictionDateController.CreateEffect | src/controllers/prediction_date_controler.ts:5-22 | succeeds iff the table works and the user has no row, inserting today's date; a failure changes nothing |
| PredictionDateController.Create | src/controllers/prediction_date_controler.ts:5-22 | the method's result and new state are CreateEffect's |
| PredictionDateController.GetEffect | src/controllers/prediction_date_controler.ts:23-40 | returns the stored date with 200, or inserts today's date and returns the new row with 201 |
| PredictionDateController.Get | src/controllers/prediction_date_controler.ts:23-40 | the method's result and new state are GetEffect's |
| PredictionDateController.UpdateEffect | src/controllers/prediction_date_controler.ts:42-56 | overwrites only that user's date, creates no row, and touches no other table |
| PredictionDateController.Update | src/controllers/prediction_date_controler.ts:42-56 | the method's result and new state are UpdateEffect's |
| PredictionDateController.GetCreatesOnce | src/controllers/prediction_date_controler.ts:25-33 | after a first `get`, a later `get` finds the row, returns the stored date and inserts nothing |
| PredictionDateController.UpdateThenGet | src/controllers/prediction_date_controler.ts:42-56 | a `get` after an `update` returns the updated date |
| Lifecycle.OnlyRowStatus | src/controllers/annotation_controller.ts:153-158 | a unique row's stored status is what the status read returns |
| Lifecycle.OnlyRowAfterStatusWrite | src/controllers/annotation_controller.ts:183-184 | after a status write, the unique row carries the new status |
| Lifecycle.RewriteRestores | src/controllers/annotation_controller.ts:114 | writing back a row's original columns after a status write restores the table |
| Lifecycle.DeleteAfterStatusWrite | src/controllers/annotation_controller.ts:72 | deleting a row after its status write leaves the same table as deleting it directly |
| Lifecycle.UnlinkAddedRow | src/controllers/wallet_op_controller.ts:127 | unlinking an annotation removes exactly the row its confirmation added |
| Lifecycle.ConfirmStep | src/controllers/annotation_controller.ts:165-199 | confirming appends one linked operation, sets the target status and moves the balance by the create dispatch |
| Lifecycle.RevertStep | src/controllers/annotation_controller.ts:96-131 | updating a confirmed annotation back to its unconfirmed columns unlinks it, reverses the balance and restores the row |
| Lifecycle.ConfirmThenRevertRestores | src/controllers/annotation_controller.ts:96-199 | confirm followed by an update back to the original status restores balance, operations and annotations |
| Lifecycle.ConfirmThenRemoveRestores | src/controllers/annotation_controller.ts:66-199 | confirm followed by remove restores balance and operations and leaves the annotation deleted |
| Lifecycle.ReversalTotalIsNegatedCheckedTotal | src/lib/functions/annotation_fns.ts:11-12 | the sum of the individual reversals is the negation of the reduced value |
| Lifecycle.BulkReversalMovesTheWrongWay | src/controllers/wallet_op_controller.ts:145 | as written, the bulk removal moves the balance by minus the sum of the individual reversals |
| Lifecycle.BulkReversalCounterexample | src/controllers/wallet_op_controller.ts:145 | bulk-removing one recived payment of 100 raises the balance by 100, where reversing it lowers it by 100 |
| Lifecycle.RemoveByBulkAnnotationIntendedEffect | src/controllers/wallet_op_controller.ts:140-165 | the corrected bulk removal lowers the balance by the reduced value and deletes every row linked to the ids |
| Lifecycle.BulkReversalIntendedMatchesIndividual | src/controllers/wallet_op_controller.ts:140-165 | the corrected bulk removal moves the balance exactly as the individual reversals together do and unlinks every checked id |

## Left out

- Routers, request validation, authentication, bootstrapping and console logging are left out. They are HTTP plumbing and foreign calls around the core.
- The reply `message` strings of successful replies are left out. They carry no state.
- `bulkCreate` and `bulkRemove` are left out. They are called by the routers but defined in no file of this model. `RemoveByBulkAnnotation` takes the reduced record they would pass.
- `uncheckStatus` is called by the operation `remove` but defined nowhere. It is a function parameter (`WalletOpController.Uncheck`) with an arbitrary effect on the tables. The call as written would throw a TypeError, which is one of the behaviours the parameter allows.
- The wall clock (`dayjs()`) is the `today` parameter.
- dayjs calendar arithmetic in `getRepeatedAnnotations` is the `AddUnits` parameter. The repeat unit is kept as an uninterpreted string.
- Concurrency and the missing transaction are not modelled. Requests run one after another, and each read-modify-write of a wallet is atomic in the model.
- Storage faults are static. A table either fails on every call of the request or on none, so a transient failure between two calls to the same table is not represented.
- Money and every numeric value are unbounded integers. Floating-point rounding, values above 2^53 and `-0` are not modelled.
- CommunFns.ParseArrOfStrToInt: results above 2^53 lose precision in JavaScript and are exact here.
- ErrorSystem.StatusForCode: it looks codes up in a Dafny map, so JavaScript prototype keys such as "constructor" are not modelled.
- Calendar.GetFirstAndLastDayOfMonth: requires a four-digit year and a month in 1..12. dayjs's behaviour on the unpadded text it builds outside that range is not modelled.
- AnnotationFns.GetRepeatedAnnotations: quantity is an integer. `new Array(quantity)` throwing on a fractional quantity is not modelled.
- WalletOpController.FilterWalletOperations: the type filter is an optional operation type, so an empty-string type is not represented.
- AnnotationReads.FilterAnnotation: the same holds for its type filter.
- Statuses, annotation types and operation types are enumerations. A stored value outside them, and the undefined that `checkStatus` and `confirmStatus` would produce for one, are not represented.
- WalletOpController.RemoveEffect: its contract states the failure cases and the reply. The state after a successful removal depends on the uncheck parameter and is stated by RemoveUnlinkedReverses and RemoveUncoveredIncomeLosesRow.
- Dates are assumed to be zero-padded `YYYY-MM-DD` text, so that string order is date order. The routers' date validators also accept other spellings, such as `YYYY/MM/DD`, and PostgreSQL compares a date column by its type, not as text. Neither is modelled.
- PredictionDateController.CreateEffect: the model keeps prediction dates in a map keyed by user, so an insert for a user who already has a row fails with 23505. No shown schema declares `user_id` unique on `prediction_dates`. `get` inserts only after an empty select, so that path is the same either way; a direct second `create` for one user is not modelled as producing two rows.
- The expiry sweeper (`setPendingToExpired`) is not in any file of this model.
- The superseded annotation draft controller, the compiled copies of the TypeScript files and the scratch copies of `reduceCheckedAnnotations` are not part of this model.
- The single-insert `createRow` of the TypeScript wallet controller is not part of this model. The ledger is modelled from the compiled wallet controller.

## Findings

| source | as written | input that shows it | evidently intended | confidence | as-written member | corrected member |
|---|---|---|---|---|---|---|
| src/controllers/annotation_controller.ts:76 | `status === 'recived' \|\| 'payed'` is always truthy, so every deleted annotation is reversed | deleting a pendent bill of 50 raises the wallet by 50 | reverse only annotations whose status is recived or payed | high, not executed | AnnotationController.RemovingUnconfirmedCreditsWallet | AnnotationController.RemovingUnconfirmedMovesNothing |
| dist/error_system/index.js:33 | the exact-key lookup never matches the class keys such as "08*" | a PostgREST error with code "08006" is classified 500 | connection-class codes classified 503 through their class key | high, not executed | ErrorSystem.WildcardMissedByExactLookup | ErrorSystem.ConnectionClassIs503 |
| src/controllers/wallet_op_controller.ts:145 | the bulk removal adds the reduced value, which is positive for payments | bulk-removing one recived payment of 100 raises the balance by 100 | the bulk removal moves the wallet as the individual reversals do, by minus the reduced value | medium (the caller is not shown), not executed | Lifecycle.BulkReversalCounterexample | Lifecycle.BulkReversalIntendedMatchesIndividual |
