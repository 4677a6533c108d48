/**
 * The operation recorder: every row of `wallet_operations` is an income or an
 * expense whose amount has been moved into or out of the user's wallet. Two
 * dispatch tables say which wallet call creates and which one reverses each
 * type; creating moves the money and then records the row, removing deletes
 * rows and then moves the money back.
 */
module WalletOpController {
  import opened Wrappers
  import opened ErrorSystem
  import opened Domain
  import opened Seqs
  import opened Calendar
  import opened Store
  import opened Datastore
  import opened AnnotationFns
  import AnnotationReads
  import opened WalletController

  /** The two wallet calls a dispatch table can name. */
  datatype WalletFn = AddFn | SubtractFn

  /** `op_create_map`: an expense subtracts from the wallet, an income adds to it. */
  function OpCreateMap(ty: OpType): WalletFn
  {
    match ty
    case Expanse => SubtractFn
    case Income => AddFn
  }

  /** `op_delete_map`: an income is reversed by subtracting, an expense by adding. */
  function OpDeleteMap(ty: OpType): WalletFn
  {
    match ty
    case Income => SubtractFn
    case Expanse => AddFn
  }

  /** The wallet call a dispatch table names, applied to `u` and `v`. */
  function Dispatch(t: Tables, f: WalletFn, u: UserId, v: Money): (s: Step<Reply<()>>)
    ensures s.0.Success? ==> s.1 == WithBalance(t, u, Balance(t, u) + Delta(f, v))
    ensures s.0.Failure? ==> s.1 == t || s.1 == Opened(t, u)
    ensures f == AddFn ==> (s.0.Success? <==> Wallets !in t.faults)
  {
    match f
    case AddFn => AddEffect(t, u, v)
    case SubtractFn => SubtractEffect(t, u, v)
  }

  /** The change a wallet call makes to the balance when it succeeds. */
  function Delta(f: WalletFn, v: Money): Money
  {
    match f
    case AddFn => v
    case SubtractFn => -v
  }

  method ApplyDispatch(db: Database, f: WalletFn, u: UserId, v: Money) returns (r: Result<Reply<()>, Thrown>)
    modifies db
    ensures (r, db.State()) == Dispatch(old(db.State()), f, u, v)
  {
    match f
    case AddFn =>
      r := Add(db, u, v);
    case SubtractFn =>
      r := Subtract(db, u, v);
  }

  /** For every type the two tables name opposite wallet calls, whose changes cancel. */
  lemma DispatchTablesAreInverse(ty: OpType, v: Money)
    ensures OpCreateMap(ty) != OpDeleteMap(ty)
    ensures Delta(OpCreateMap(ty), v) + Delta(OpDeleteMap(ty), v) == 0
  {
  }

  /**
   * A create-dispatch followed by the delete-dispatch of the same type and value
   * restores a non-negative balance: the reversing subtract of an income can
   * always be paid from the income itself.
   */
  lemma DispatchRoundTrip(t: Tables, ty: OpType, u: UserId, v: Money)
    requires Dispatch(t, OpCreateMap(ty), u, v).0.Success?
    requires Balance(t, u) >= 0
    ensures var c := Dispatch(t, OpCreateMap(ty), u, v);
            var d := Dispatch(c.1, OpDeleteMap(ty), u, v);
            d.0.Success? && d.1 == Opened(t, u)
  {
    match ty
    case Income => AddThenSubtractRestores(t, u, v);
    case Expanse => SubtractThenAddRestores(t, u, v);
  }

  /** The row `create` inserts. */
  function Draft(name: string, value: Money, description: string, ty: OpType, u: UserId,
                 typeId: Option<int>, annId: Option<int>, today: Date): OperationDraft
  {
    OperationDraft(name, u, value, description, ty, typeId, today, annId)
  }

  /**
   * `create(name, value, description, operation_type, user_id,
   * operation_type_id?, annotation_id?)`: moves the money through the create
   * table, then inserts the row dated `today`; the reply omits `annotation_id`.
   */
  function CreateEffect(t: Tables, name: string, value: Money, description: string, ty: OpType, u: UserId,
                        typeId: Option<int>, annId: Option<int>, today: Date): (s: Step<Reply<OperationInfo>>)
    ensures var w := Dispatch(t, OpCreateMap(ty), u, value);
            s.0.Success? <==> w.0.Success? && WalletOperations !in t.faults
    ensures s.0.Success? ==>
      && s.0.value == Reply(OperationInfo(name, u, value, description, ty, typeId, today), 201)
      && s.1.operations == t.operations + [Operation(t.nextOperationId, u, name, value, description, ty, typeId, today, annId)]
      && s.1.wallets == WithBalance(t, u, Balance(t, u) + Delta(OpCreateMap(ty), value)).wallets
      && s.1 == WithBalance(t, u, Balance(t, u) + Delta(OpCreateMap(ty), value)).(
                  operations := s.1.operations, nextOperationId := t.nextOperationId + 1)
    ensures s.0.Failure? ==> s.1.operations == t.operations && s.1.annotations == t.annotations
    ensures Dispatch(t, OpCreateMap(ty), u, value).0.Failure? ==> s == (Failure(Dispatch(t, OpCreateMap(ty), u, value).0.error), Dispatch(t, OpCreateMap(ty), u, value).1)
  {
    var w := Dispatch(t, OpCreateMap(ty), u, value);
    if w.0.Failure? then (Failure(w.0.error), w.1)
    else
      var ins := InsertOperation(w.1, Draft(name, value, description, ty, u, typeId, annId, today));
      if ins.0.Failure? then (Failure(ins.0.error), ins.1)
      else (Success(Reply(OperationInfo(name, u, value, description, ty, typeId, today), 201)), ins.1)
  }

  method Create(db: Database, name: string, value: Money, description: string, ty: OpType, u: UserId,
                typeId: Option<int>, annId: Option<int>, today: Date) returns (r: Result<Reply<OperationInfo>, Thrown>)
    modifies db
    ensures (r, db.State()) == CreateEffect(old(db.State()), name, value, description, ty, u, typeId, annId, today)
  {
    var w := ApplyDispatch(db, OpCreateMap(ty), u, value);
    if w.Failure? {
      r := Failure(w.error);
    } else {
      var ins := db.InsertOperation(Draft(name, value, description, ty, u, typeId, annId, today));
      if ins.Failure? {
        r := Failure(ins.error);
      } else {
        r := Success(Reply(OperationInfo(name, u, value, description, ty, typeId, today), 201));
      }
    }
  }

  /** An expense the wallet cannot cover is refused with 400 and leaves no operation row. */
  lemma UncoveredExpenseRecordsNothing(t: Tables, name: string, value: Money, description: string, u: UserId,
                                       typeId: Option<int>, annId: Option<int>, today: Date)
    requires Wallets !in t.faults
    requires Balance(t, u) < value
    ensures var s := CreateEffect(t, name, value, description, Expanse, u, typeId, annId, today);
            s.0 == Failure(Insufficient) && s.1 == Opened(t, u)
  {
  }

  /**
   * A failing `wallet_operations` insert after a successful wallet call leaves
   * the money moved with no row recording it (there is no transaction).
   */
  lemma InsertFailureLeavesWalletMoved(t: Tables, name: string, value: Money, description: string, ty: OpType,
                                       u: UserId, typeId: Option<int>, annId: Option<int>, today: Date)
    requires Wallets !in t.faults && WalletOperations in t.faults
    requires Balance(t, u) >= 0 && value > 0
    ensures var s := CreateEffect(t, name, value, description, Income, u, typeId, annId, today);
            s.0.Failure? && s.1.operations == t.operations && Balance(s.1, u) == Balance(t, u) + value
  {
  }

  const OperationNotFound: Thrown := GetNewResponseError("operation not Found", 404)

  /** `get(operation_id, user_id)`: the user's row with that id, or 404. */
  function Get(t: Tables, id: int, u: UserId): (r: Result<Reply<Operation>, Thrown>)
    ensures WalletOperations in t.faults ==> r == Failure(Raise(t.faults, WalletOperations))
    ensures r.Success? ==> r.value.status == 200 && r.value.data in t.operations
    ensures r.Success? ==> r.value.data.id == id && r.value.data.userId == u
    ensures WalletOperations !in t.faults ==>
      (r == Failure(OperationNotFound) <==> forall o | o in t.operations :: !(o.id == id && o.userId == u))
  {
    match SelectOperationById(t, id, u)
    case Failure(e) => Failure(e)
    case Success(rows) =>
      if rows == [] then Failure(OperationNotFound)
      else
        assert rows[0] in rows;
        Success(Reply(rows[0], 200))
  }

  /**
   * `annotation_controller.uncheckStatus(user_id, annotation_id)`. No shown
   * file defines it, so its effect on the tables is left open.
   */
  type Uncheck = (Tables, UserId, int) -> Step<()>

  method UncheckStatus(db: Database, uncheck: Uncheck, u: UserId, annId: int) returns (r: Result<(), Thrown>)
    modifies db
    ensures (r, db.State()) == uncheck(old(db.State()), u, annId)
  {
    var s := uncheck(db.State(), u, annId);
    db.Replace(s.1);
    r := s.0;
  }

  /**
   * `updateAnnByRemoveOp(user_id, annotation_id)`: reads the annotation, then
   * unchecks it. The read yields the row or an empty array, both truthy, so
   * its 404 branch cannot be taken.
   */
  function UpdateAnnByRemoveOpEffect(t: Tables, u: UserId, annId: int, uncheck: Uncheck): (s: Step<Reply<AnnotationReads.Found>>)
    ensures Annotations in t.faults ==> s == (Failure(Raise(t.faults, Annotations)), t)
    ensures Annotations !in t.faults ==> s.1 == uncheck(t, u, annId).1
    ensures Annotations !in t.faults ==> (s.0.Failure? <==> uncheck(t, u, annId).0.Failure?)
    ensures Annotations !in t.faults && s.0.Failure? ==> s.0.error == uncheck(t, u, annId).0.error
  {
    match AnnotationReads.Get(t, u, annId)
    case Failure(e) => (Failure(e), t)
    case Success(g) =>
      var un := uncheck(t, u, annId);
      if un.0.Failure? then (Failure(un.0.error), un.1)
      else (Success(Reply(g.data, 200)), un.1)
  }

  method UpdateAnnByRemoveOp(db: Database, u: UserId, annId: int, uncheck: Uncheck) returns (r: Result<Reply<AnnotationReads.Found>, Thrown>)
    modifies db
    ensures (r, db.State()) == UpdateAnnByRemoveOpEffect(old(db.State()), u, annId, uncheck)
  {
    var g := AnnotationReads.Get(db.State(), u, annId);
    match g
    case Failure(e) =>
      r := Failure(e);
    case Success(found) =>
      var un := UncheckStatus(db, uncheck, u, annId);
      if un.Failure? {
        r := Failure(un.error);
      } else {
        r := Success(Reply(found.data, 200));
      }
  }

  /** What reading `data[0]` throws when the delete failed and `data` is null. */
  const NullRows: Thrown := JsTypeError("Cannot read properties of null (reading '0')")

  /** What reading `data[0].operation_type` throws when no row was deleted. */
  const NoRow: Thrown := JsTypeError("Cannot read properties of undefined (reading 'operation_type')")

  /**
   * `remove(user_id, operation_id)`: deletes the user's row with that id, then
   * reverses its wallet effect through the delete table, then unchecks a
   * linked annotation. Reading the deleted rows comes before the error check,
   * so a failing delete and a missing row both throw a TypeError.
   */
  function RemoveEffect(t: Tables, u: UserId, id: int, uncheck: Uncheck): (s: Step<Reply<Operation>>)
    ensures WalletOperations in t.faults ==> s == (Failure(NullRows), t)
    ensures WalletOperations !in t.faults && OperationsWithId(t.operations, id, u) == [] ==> s == (Failure(NoRow), t)
    ensures s.0.Success? ==> s.0.value.status == 200 && s.0.value.data in t.operations
    ensures s.0.Success? ==> s.0.value.data.id == id && s.0.value.data.userId == u
  {
    var del := DeleteOperationById(t, id, u);
    if del.0.Failure? then (Failure(NullRows), del.1)
    else if del.0.value == [] then (Failure(NoRow), del.1)
    else
      var row := del.0.value[0];
      var w := Dispatch(del.1, OpDeleteMap(row.operationType), u, row.value);
      if w.0.Failure? then (Failure(w.0.error), w.1)
      else if TruthyNumber(row.annotationId) then
        var a := UpdateAnnByRemoveOpEffect(w.1, u, row.annotationId.value, uncheck);
        if a.0.Failure? then (Failure(a.0.error), a.1)
        else (Success(Reply(row, 200)), a.1)
      else (Success(Reply(row, 200)), w.1)
  }

  method Remove(db: Database, u: UserId, id: int, uncheck: Uncheck) returns (r: Result<Reply<Operation>, Thrown>)
    modifies db
    ensures (r, db.State()) == RemoveEffect(old(db.State()), u, id, uncheck)
  {
    var del := db.DeleteOperationById(id, u);
    if del.Failure? {
      r := Failure(NullRows);
    } else if del.value == [] {
      r := Failure(NoRow);
    } else {
      var row := del.value[0];
      var w := ApplyDispatch(db, OpDeleteMap(row.operationType), u, row.value);
      if w.Failure? {
        r := Failure(w.error);
      } else if TruthyNumber(row.annotationId) {
        var a := UpdateAnnByRemoveOp(db, u, row.annotationId.value, uncheck);
        if a.Failure? {
          r := Failure(a.error);
        } else {
          r := Success(Reply(row, 200));
        }
      } else {
        r := Success(Reply(row, 200));
      }
    }
  }

  /**
   * Removing a row without a linked annotation never calls `uncheckStatus`:
   * when it succeeds, the row is gone and its wallet effect is reversed.
   */
  lemma RemoveUnlinkedReverses(t: Tables, u: UserId, id: int, uncheck: Uncheck, o: Operation)
    requires WalletOperations !in t.faults && Wallets !in t.faults
    requires OperationsWithId(t.operations, id, u) == [o]
    requires !TruthyNumber(o.annotationId)
    requires o.operationType == Expanse || o.value <= Balance(t, u)
    ensures var s := RemoveEffect(t, u, id, uncheck);
            && s.0 == Success(Reply(o, 200))
            && s.1.operations == OperationsWithoutId(t.operations, id, u)
            && Balance(s.1, u) == Balance(t, u) + Delta(OpDeleteMap(o.operationType), o.value)
            && s.1.annotations == t.annotations
  {
  }

  /** What `remove` does not depend on: with no linked annotation, any two `uncheckStatus` give the same outcome. */
  lemma RemoveIgnoresUncheckWithoutAnnotation(t: Tables, u: UserId, id: int, uncheck1: Uncheck, uncheck2: Uncheck)
    requires WalletOperations !in t.faults
    requires OperationsWithId(t.operations, id, u) != []
    requires !TruthyNumber(OperationsWithId(t.operations, id, u)[0].annotationId)
    ensures RemoveEffect(t, u, id, uncheck1) == RemoveEffect(t, u, id, uncheck2)
  {
  }

  /**
   * Removing an income the wallet can no longer cover deletes the row but
   * leaves the money in the wallet: the row is gone before the reversal fails.
   */
  lemma RemoveUncoveredIncomeLosesRow(t: Tables, u: UserId, id: int, uncheck: Uncheck, o: Operation)
    requires WalletOperations !in t.faults && Wallets !in t.faults
    requires OperationsWithId(t.operations, id, u) == [o]
    requires o.operationType == Income && Balance(t, u) < o.value
    ensures var s := RemoveEffect(t, u, id, uncheck);
            && s.0 == Failure(Insufficient)
            && s.1.operations == OperationsWithoutId(t.operations, id, u)
            && Balance(s.1, u) == Balance(t, u)
  {
  }

  /**
   * `removeByAnnotation(user_id, annotation_id, operation_type, value)`: one
   * reversing wallet call of the given type and value, then the deletion of
   * every row linked to the annotation, whichever user owns it. Its data is null.
   */
  function RemoveByAnnotationEffect(t: Tables, u: UserId, annId: int, ty: OpType, value: Money): (s: Step<Reply<()>>)
    ensures var w := Dispatch(t, OpDeleteMap(ty), u, value);
            s.0.Success? <==> w.0.Success? && WalletOperations !in t.faults
    ensures s.0.Success? ==>
      && s.0.value.status == 200
      && s.1.operations == OperationsOutsideAnnotation(t.operations, annId)
      && s.1.wallets == WithBalance(t, u, Balance(t, u) + Delta(OpDeleteMap(ty), value)).wallets
      && s.1 == WithBalance(t, u, Balance(t, u) + Delta(OpDeleteMap(ty), value)).(operations := s.1.operations)
    ensures Dispatch(t, OpDeleteMap(ty), u, value).0.Failure? ==> s.1.operations == t.operations
    ensures s.1.annotations == t.annotations && s.1.predictionDates == t.predictionDates
  {
    var w := Dispatch(t, OpDeleteMap(ty), u, value);
    if w.0.Failure? then (Failure(w.0.error), w.1)
    else
      var d := DeleteOperationsOfAnnotation(w.1, annId);
      if d.0.Failure? then (Failure(d.0.error), d.1)
      else (Success(Reply((), 200)), d.1)
  }

  method RemoveByAnnotation(db: Database, u: UserId, annId: int, ty: OpType, value: Money) returns (r: Result<Reply<()>, Thrown>)
    modifies db
    ensures (r, db.State()) == RemoveByAnnotationEffect(old(db.State()), u, annId, ty, value)
  {
    var w := ApplyDispatch(db, OpDeleteMap(ty), u, value);
    if w.Failure? {
      r := Failure(w.error);
    } else {
      var d := db.DeleteOperationsOfAnnotation(annId);
      if d.Failure? {
        r := Failure(d.error);
      } else {
        r := Success(Reply((), 200));
      }
    }
  }

  /** After `removeByAnnotation`, no row of any user is linked to the annotation, and every other row stays. */
  lemma RemoveByAnnotationClearsTheLink(t: Tables, u: UserId, annId: int, ty: OpType, value: Money)
    requires RemoveByAnnotationEffect(t, u, annId, ty, value).0.Success?
    ensures var ops := RemoveByAnnotationEffect(t, u, annId, ty, value).1.operations;
            && (forall o | o in ops :: o.annotationId != Some(annId))
            && (forall o | o in t.operations && o.annotationId != Some(annId) :: o in ops)
  {
  }

  /**
   * `removeByBulkAnnotation(user_id, {ids, value})`: one `add` of `value`,
   * whatever its sign, then the deletion of every row linked to one of `ids`.
   */
  function RemoveByBulkAnnotationEffect(t: Tables, u: UserId, reduced: Reduced): (s: Step<Reply<()>>)
    ensures s.0.Success? <==> Wallets !in t.faults && WalletOperations !in t.faults
    ensures s.0.Success? ==>
      && s.0.value.status == 200
      && s.1.operations == OperationsOutsideAnnotations(t.operations, reduced.ids)
      && Balance(s.1, u) == Balance(t, u) + reduced.value
      && s.1.annotations == t.annotations
      && s.1 == WithBalance(t, u, Balance(t, u) + reduced.value).(operations := s.1.operations)
    ensures Wallets in t.faults ==> s.1 == t
  {
    var w := AddEffect(t, u, reduced.value);
    if w.0.Failure? then (Failure(w.0.error), w.1)
    else
      var d := DeleteOperationsOfAnnotations(w.1, reduced.ids);
      if d.0.Failure? then (Failure(d.0.error), d.1)
      else (Success(Reply((), 200)), d.1)
  }

  method RemoveByBulkAnnotation(db: Database, u: UserId, reduced: Reduced) returns (r: Result<Reply<()>, Thrown>)
    modifies db
    ensures (r, db.State()) == RemoveByBulkAnnotationEffect(old(db.State()), u, reduced)
  {
    var w := Add(db, u, reduced.value);
    if w.Failure? {
      r := Failure(w.error);
    } else {
      var d := db.DeleteOperationsOfAnnotations(reduced.ids);
      if d.Failure? {
        r := Failure(d.error);
      } else {
        r := Success(Reply((), 200));
      }
    }
  }

  /** What `filterWalletOperations` asks of a row, written bound by bound. */
  predicate OperationMeets(o: Operation, u: UserId, ty: Option<OpType>, minValue: Option<Money>, maxValue: Option<Money>,
                           startDate: Option<Date>, endDate: Option<Date>)
  {
    && o.userId == u
    && (ty.Some? ==> o.operationType == ty.value)
    && (TruthyNumber(minValue) ==> o.value >= minValue.value)
    && (TruthyNumber(maxValue) ==> o.value <= maxValue.value)
    && (TruthyString(startDate) ==> DateLe(startDate.value, o.date))
    && (TruthyString(endDate) ==> DateLe(o.date, endDate.value))
  }

  /**
   * `filterWalletOperations(user_id, operation_type?, minValue?, maxValue?,
   * startDate?, endDate?)`: the user's rows meeting every bound that is
   * present and truthy, in table order.
   */
  function FilterWalletOperations(t: Tables, u: UserId, ty: Option<OpType>, minValue: Option<Money>, maxValue: Option<Money>,
                                  startDate: Option<Date>, endDate: Option<Date>): (r: Result<Reply<seq<Operation>>, Thrown>)
    ensures r.Success? <==> WalletOperations !in t.faults
    ensures r.Success? ==> r.value.status == 200
    ensures r.Success? ==> forall o | o in r.value.data ::
      o in t.operations && OperationMeets(o, u, ty, minValue, maxValue, startDate, endDate)
    ensures r.Success? ==> forall o | o in t.operations && OperationMeets(o, u, ty, minValue, maxValue, startDate, endDate) ::
      o in r.value.data
  {
    var f := OperationFilter(u, ty, AnnotationReads.NumberBound(minValue), AnnotationReads.NumberBound(maxValue),
                             AnnotationReads.StringBound(startDate), AnnotationReads.StringBound(endDate));
    match SelectOperations(t, f)
    case Failure(e) => Failure(e)
    case Success(rows) => Success(Reply(rows, 200))
  }

  /** A bound of 0 or "" gives the same rows as no bound at all. */
  lemma FalsyOperationBoundsAreSkipped(t: Tables, u: UserId, ty: Option<OpType>)
    ensures FilterWalletOperations(t, u, ty, Some(0), Some(0), Some(""), Some(""))
         == FilterWalletOperations(t, u, ty, None, None, None, None)
  {
  }

  /** `getAll(user_id)`: every row of the user. */
  function GetAll(t: Tables, u: UserId): (r: Result<Reply<seq<Operation>>, Thrown>)
    ensures r.Success? <==> WalletOperations !in t.faults
    ensures r.Success? ==> r.value.status == 200
    ensures r.Success? ==> forall o | o in t.operations :: o in r.value.data <==> o.userId == u
  {
    FilterWalletOperations(t, u, None, None, None, None, None)
  }

  /** `getAllType(user_id, operation_type)`: the user's rows of one type. */
  function GetAllType(t: Tables, u: UserId, ty: OpType): (r: Result<Reply<seq<Operation>>, Thrown>)
    ensures r.Success? <==> WalletOperations !in t.faults
    ensures r.Success? ==> r.value.status == 200
    ensures r.Success? ==> forall o | o in t.operations :: o in r.value.data <==> o.userId == u && o.operationType == ty
  {
    FilterWalletOperations(t, u, Some(ty), None, None, None, None)
  }

  /** `getAllBetweenDates(user_id, startDate, endDate)`: the user's rows dated within the non-empty bounds. */
  function GetAllBetweenDates(t: Tables, u: UserId, startDate: Date, endDate: Date): (r: Result<Reply<seq<Operation>>, Thrown>)
    ensures r.Success? <==> WalletOperations !in t.faults
    ensures r.Success? ==> r.value.status == 200
    ensures r.Success? ==> forall o | o in t.operations :: o in r.value.data <==>
      o.userId == u && (startDate != "" ==> DateLe(startDate, o.date)) && (endDate != "" ==> DateLe(o.date, endDate))
  {
    FilterWalletOperations(t, u, None, None, None, Some(startDate), Some(endDate))
  }
}
