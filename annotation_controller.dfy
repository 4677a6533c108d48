/**
 * The annotation lifecycle: bills and payments move from pendent or expired to
 * payed or recived, and back. A change of status creates or deletes the
 * operation that moved the money, as the pure resolver `CheckStatus` decides.
 */
module AnnotationController {
  import opened Wrappers
  import opened ErrorSystem
  import opened Domain
  import opened Store
  import opened Datastore
  import opened AnnotationReads
  import WalletController
  import WalletOpController

  /** What a status change asks of the operations: `null`, `'create'` or `'delete'`. */
  datatype Action = NoAction | CreateOp | DeleteOp

  /** `checkStatus(newStatus, oldStatus)`. */
  function CheckStatus(newStatus: Status, oldStatus: Status): (a: Action)
    ensures newStatus == oldStatus ==> a == NoAction
    ensures {newStatus, oldStatus} == {Pendent, Expired} ==> a == NoAction
    ensures a == CreateOp <==> IsConfirmed(newStatus) && newStatus != oldStatus
    ensures a == DeleteOp <==> IsConfirmed(oldStatus) && !IsConfirmed(newStatus)
  {
    if newStatus == oldStatus then NoAction
    else if (newStatus == Expired && oldStatus == Pendent) || (newStatus == Pendent && oldStatus == Expired) then NoAction
    else if newStatus == Recived || newStatus == Payed then CreateOp
    else DeleteOp
  }

  /**
   * Confirmation and reversal match the resolver: leaving the confirmed statuses
   * deletes, entering them creates, and moving between payed and recived creates
   * a second operation without deleting the first.
   */
  lemma CheckStatusFollowsConfirmation(newStatus: Status, oldStatus: Status)
    ensures !IsConfirmed(oldStatus) && !IsConfirmed(newStatus) ==> CheckStatus(newStatus, oldStatus) == NoAction
    ensures !IsConfirmed(oldStatus) && IsConfirmed(newStatus) ==> CheckStatus(newStatus, oldStatus) == CreateOp
    ensures IsConfirmed(oldStatus) && !IsConfirmed(newStatus) ==> CheckStatus(newStatus, oldStatus) == DeleteOp
    ensures CheckStatus(Recived, Payed) == CreateOp && CheckStatus(Payed, Recived) == CreateOp
  {
  }

  /** The operation type of an annotation's money: income for a payment, expanse otherwise. */
  function OpTypeFor(ty: AnnotationType): (o: OpType)
    ensures o == Income <==> ty == Payment
  {
    if ty == Payment then Income else Expanse
  }

  /** What `createOperationByStatus` did: nothing, the operation it created, or a deletion. */
  datatype Outcome = NoOp | Created(info: OperationInfo) | Deleted

  function OperationName(name: string): string
  {
    "Operation from " + name
  }

  function OperationDescription(name: string, ty: AnnotationType): string
  {
    "This Operation was created from " + name + " annotation of type " + TypeName(ty)
  }

  /**
   * `createOperationByStatus(annotation_id, name, value, user_id, newStatus,
   * annotation_type)`: reads the stored status (404 when the annotation is
   * absent) and carries out `CheckStatus(newStatus, stored)`: nothing, an
   * operation created from the annotation, or `removeByAnnotation`.
   */
  function CreateOperationByStatusEffect(t: Tables, id: int, name: string, value: Money, u: UserId,
                                         newStatus: Status, ty: AnnotationType, today: Date): (s: Step<Reply<Outcome>>)
    ensures GetStatus(t, u, id).Failure? ==> s == (Failure(GetStatus(t, u, id).error), t)
    ensures s.0.Success? ==> s.0.value.status == 200
    ensures s.1.annotations == t.annotations && s.1.predictionDates == t.predictionDates
    ensures GetStatus(t, u, id).Success? ==>
      var stored := GetStatus(t, u, id).value.data;
      && (CheckStatus(newStatus, stored) == NoAction ==> s == (Success(Reply(NoOp, 200)), t))
      && (CheckStatus(newStatus, stored) == CreateOp ==>
            var c := WalletOpController.CreateEffect(t, OperationName(name), value, OperationDescription(name, ty),
                                                     OpTypeFor(ty), u, None, Some(id), today);
            s.1 == c.1 && (s.0.Success? <==> c.0.Success?))
      && (CheckStatus(newStatus, stored) == DeleteOp ==>
            var d := WalletOpController.RemoveByAnnotationEffect(t, u, id, OpTypeFor(ty), value);
            s.1 == d.1 && (s.0.Success? <==> d.0.Success?))
  {
    match GetStatus(t, u, id)
    case Failure(e) => (Failure(e), t)
    case Success(g) =>
      match CheckStatus(newStatus, g.data)
      case NoAction => (Success(Reply(NoOp, 200)), t)
      case CreateOp =>
        var c := WalletOpController.CreateEffect(t, OperationName(name), value, OperationDescription(name, ty),
                                                 OpTypeFor(ty), u, None, Some(id), today);
        if c.0.Failure? then (Failure(c.0.error), c.1) else (Success(Reply(Created(c.0.value.data), 200)), c.1)
      case DeleteOp =>
        var d := WalletOpController.RemoveByAnnotationEffect(t, u, id, OpTypeFor(ty), value);
        if d.0.Failure? then (Failure(d.0.error), d.1) else (Success(Reply(Deleted, 200)), d.1)
  }

  method CreateOperationByStatus(db: Database, id: int, name: string, value: Money, u: UserId,
                                 newStatus: Status, ty: AnnotationType, today: Date) returns (r: Result<Reply<Outcome>, Thrown>)
    modifies db
    ensures (r, db.State()) == CreateOperationByStatusEffect(old(db.State()), id, name, value, u, newStatus, ty, today)
  {
    var g := GetStatus(db.State(), u, id);
    if g.Failure? {
      r := Failure(g.error);
      return;
    }
    match CheckStatus(newStatus, g.value.data)
    case NoAction =>
      r := Success(Reply(NoOp, 200));
    case CreateOp =>
      var c := WalletOpController.Create(db, OperationName(name), value, OperationDescription(name, ty),
                                         OpTypeFor(ty), u, None, Some(id), today);
      if c.Failure? {
        r := Failure(c.error);
      } else {
        r := Success(Reply(Created(c.value.data), 200));
      }
    case DeleteOp =>
      var d := WalletOpController.RemoveByAnnotation(db, u, id, OpTypeFor(ty), value);
      if d.Failure? {
        r := Failure(d.error);
      } else {
        r := Success(Reply(Deleted, 200));
      }
  }

  /**
   * Confirming a stored unconfirmed annotation records exactly one operation
   * linked to it, of its value and of the type its kind calls for, and moves
   * the wallet by that operation.
   */
  lemma ConfirmingRecordsOneOperation(t: Tables, id: int, name: string, value: Money, u: UserId,
                                      newStatus: Status, ty: AnnotationType, today: Date, a: Annotation)
    requires AnnotationsWithId(t.annotations, id, u) == [a] && !IsConfirmed(a.status)
    requires IsConfirmed(newStatus)
    requires CreateOperationByStatusEffect(t, id, name, value, u, newStatus, ty, today).0.Success?
    ensures var s := CreateOperationByStatusEffect(t, id, name, value, u, newStatus, ty, today);
            && s.1.operations == t.operations + [Operation(t.nextOperationId, u, OperationName(name), value,
                                                           OperationDescription(name, ty), OpTypeFor(ty), None, today, Some(id))]
            && WalletController.Balance(s.1, u)
               == WalletController.Balance(t, u) + WalletOpController.Delta(WalletOpController.OpCreateMap(OpTypeFor(ty)), value)
  {
  }

  const AlreadyConfirmed: Thrown := GetNewResponseError("Annotation already confirmed", 400)

  /** The status a confirmation moves to: recived for a payment, payed for a bill. */
  function ConfirmTarget(ty: AnnotationType): (s: Status)
    ensures IsConfirmed(s)
    ensures s == Recived <==> ty == Payment
  {
    if ty == Payment then Recived else Payed
  }

  /**
   * `confirmStatus(user_id, annotation_id, name, value, status, annon_type)`:
   * refuses a status that is already payed or recived, before touching any
   * table; otherwise runs `createOperationByStatus` towards the confirmed
   * status of the type, then writes that status.
   */
  function ConfirmStatusEffect(t: Tables, u: UserId, id: int, name: string, value: Money,
                               status: Status, ty: AnnotationType, today: Date): (s: Step<Reply<seq<Annotation>>>)
    ensures IsConfirmed(status) ==> s == (Failure(AlreadyConfirmed), t)
    ensures s.0.Success? ==> s.0.value.status == 200
    ensures s.0.Success? ==> forall a | a in s.0.value.data :: a.id == id && a.userId == u && a.status == ConfirmTarget(ty)
    ensures s.0.Success? ==> forall a | a in s.1.annotations && a.id == id && a.userId == u :: a.status == ConfirmTarget(ty)
    ensures !IsConfirmed(status) ==>
      var c := CreateOperationByStatusEffect(t, id, name, value, u, ConfirmTarget(ty), ty, today);
      c.0.Failure? ==> s == (Failure(c.0.error), c.1)
    ensures s.0.Success? ==>
      var c := CreateOperationByStatusEffect(t, id, name, value, u, ConfirmTarget(ty), ty, today);
      && c.0.Success?
      && s.1 == c.1.(annotations := StatusRewritten(c.1.annotations, id, u, ConfirmTarget(ty)))
      && s.0.value.data == AnnotationsWithId(s.1.annotations, id, u)
  {
    if IsConfirmed(status) then (Failure(AlreadyConfirmed), t)
    else
      var c := CreateOperationByStatusEffect(t, id, name, value, u, ConfirmTarget(ty), ty, today);
      if c.0.Failure? then (Failure(c.0.error), c.1)
      else
        var up := UpdateAnnotationStatus(c.1, id, u, ConfirmTarget(ty));
        match up.0
        case Failure(e) => (Failure(e), up.1)
        case Success(rows) => (Success(Reply(rows, 200)), up.1)
  }

  method ConfirmStatus(db: Database, u: UserId, id: int, name: string, value: Money,
                       status: Status, ty: AnnotationType, today: Date) returns (r: Result<Reply<seq<Annotation>>, Thrown>)
    modifies db
    ensures (r, db.State()) == ConfirmStatusEffect(old(db.State()), u, id, name, value, status, ty, today)
  {
    if IsConfirmed(status) {
      r := Failure(AlreadyConfirmed);
      return;
    }
    var c := CreateOperationByStatus(db, id, name, value, u, ConfirmTarget(ty), ty, today);
    if c.Failure? {
      r := Failure(c.error);
      return;
    }
    var up := db.UpdateAnnotationStatus(id, u, ConfirmTarget(ty));
    match up
    case Failure(e) =>
      r := Failure(e);
    case Success(rows) =>
      r := Success(Reply(rows, 200));
  }

  /** Confirming an annotation whose stored status is already the target creates no operation. */
  lemma ConfirmingTwiceRecordsNothing(t: Tables, u: UserId, id: int, name: string, value: Money,
                                      status: Status, ty: AnnotationType, today: Date)
    requires !IsConfirmed(status)
    requires GetStatus(t, u, id) == Success(Reply(ConfirmTarget(ty), 200))
    ensures ConfirmStatusEffect(t, u, id, name, value, status, ty, today).1.operations == t.operations
    ensures ConfirmStatusEffect(t, u, id, name, value, status, ty, today).1.wallets == t.wallets
  {
  }

  /** The row `update` writes, and `create` inserts. */
  function Columns(u: UserId, name: string, description: string, value: Money, date: Date, repeat: Repeat,
                   status: Status, ty: AnnotationType, typeId: Option<int>): NewAnnotation
  {
    NewAnnotation(u, typeId, ty, name, description, value, date, repeat, status)
  }

  /**
   * `create(user_id, name, description, value, repeat, status, date,
   * annon_type, annon_type_id?)`: inserts the annotation as given, whatever its
   * status, and returns the inserted row with status 201. No money moves.
   */
  function CreateEffect(t: Tables, u: UserId, name: string, description: string, value: Money, repeat: Repeat,
                        status: Status, date: Date, ty: AnnotationType, typeId: Option<int>): (s: Step<Reply<seq<Annotation>>>)
    ensures s.0.Success? <==> Annotations !in t.faults
    ensures s.0.Success? ==>
      var row := WithId(Columns(u, name, description, value, date, repeat, status, ty, typeId), t.nextAnnotationId);
      && s.0.value == Reply([row], 201)
      && s.1 == t.(annotations := t.annotations + [row], nextAnnotationId := t.nextAnnotationId + 1)
    ensures s.0.Failure? ==> s.1 == t
    ensures s.1.wallets == t.wallets && s.1.operations == t.operations
  {
    var ins := InsertAnnotation(t, Columns(u, name, description, value, date, repeat, status, ty, typeId));
    if ins.0.Failure? then (Failure(ins.0.error), ins.1)
    else (Success(Reply(ins.0.value, 201)), ins.1)
  }

  method Create(db: Database, u: UserId, name: string, description: string, value: Money, repeat: Repeat,
                status: Status, date: Date, ty: AnnotationType, typeId: Option<int>) returns (r: Result<Reply<seq<Annotation>>, Thrown>)
    modifies db
    ensures (r, db.State()) == CreateEffect(old(db.State()), u, name, description, value, repeat, status, date, ty, typeId)
  {
    var ins := db.InsertAnnotation(Columns(u, name, description, value, date, repeat, status, ty, typeId));
    if ins.Failure? {
      r := Failure(ins.error);
    } else {
      r := Success(Reply(ins.value, 201));
    }
  }

  /**
   * `update(annotation_id, user_id, name, description, value, date, repeat,
   * status, annon_type, annon_type_id?)`: runs `createOperationByStatus`
   * towards the new status first, then overwrites every column of the row.
   */
  function UpdateEffect(t: Tables, id: int, u: UserId, name: string, description: string, value: Money, date: Date,
                        repeat: Repeat, status: Status, ty: AnnotationType, typeId: Option<int>, today: Date): (s: Step<Reply<seq<Annotation>>>)
    ensures var c := CreateOperationByStatusEffect(t, id, name, value, u, status, ty, today);
            c.0.Failure? ==> s == (Failure(c.0.error), c.1) && s.1.annotations == t.annotations
    ensures s.0.Success? ==> s.0.value.status == 200
    ensures s.0.Success? ==> forall a | a in s.0.value.data ::
      a == WithId(Columns(u, name, description, value, date, repeat, status, ty, typeId), id)
    ensures s.0.Success? ==> forall a | a in s.1.annotations && a.id == id && a.userId == u ::
      a == WithId(Columns(u, name, description, value, date, repeat, status, ty, typeId), id)
    ensures var c := CreateOperationByStatusEffect(t, id, name, value, u, status, ty, today);
            s.0.Success? ==> c.0.Success? && s.1.(annotations := t.annotations) == c.1
    ensures s.0.Success? ==> |s.1.annotations| == |t.annotations|
    ensures s.0.Success? ==> forall i | 0 <= i < |t.annotations| && !(t.annotations[i].id == id && t.annotations[i].userId == u) ::
      s.1.annotations[i] == t.annotations[i]
  {
    var c := CreateOperationByStatusEffect(t, id, name, value, u, status, ty, today);
    if c.0.Failure? then (Failure(c.0.error), c.1)
    else
      var up := UpdateAnnotationById(c.1, id, u, Columns(u, name, description, value, date, repeat, status, ty, typeId));
      match up.0
      case Failure(e) => (Failure(e), up.1)
      case Success(rows) => (Success(Reply(rows, 200)), up.1)
  }

  method Update(db: Database, id: int, u: UserId, name: string, description: string, value: Money, date: Date,
                repeat: Repeat, status: Status, ty: AnnotationType, typeId: Option<int>, today: Date) returns (r: Result<Reply<seq<Annotation>>, Thrown>)
    modifies db
    ensures (r, db.State()) == UpdateEffect(old(db.State()), id, u, name, description, value, date, repeat, status, ty, typeId, today)
  {
    var c := CreateOperationByStatus(db, id, name, value, u, status, ty, today);
    if c.Failure? {
      r := Failure(c.error);
      return;
    }
    var up := db.UpdateAnnotationById(id, u, Columns(u, name, description, value, date, repeat, status, ty, typeId));
    match up
    case Failure(e) =>
      r := Failure(e);
    case Success(rows) =>
      r := Success(Reply(rows, 200));
  }

  /** Updating an annotation that does not exist fails with 404 and changes nothing. */
  lemma UpdateOfMissingAnnotationChangesNothing(t: Tables, id: int, u: UserId, name: string, description: string, value: Money,
                                                date: Date, repeat: Repeat, status: Status, ty: AnnotationType,
                                                typeId: Option<int>, today: Date)
    requires Annotations !in t.faults
    requires forall a | a in t.annotations :: !(a.id == id && a.userId == u)
    ensures UpdateEffect(t, id, u, name, description, value, date, repeat, status, ty, typeId, today) == (Failure(NotFound), t)
  {
  }

  const AnnotationToDeleteNotFound: Thrown := GetNewResponseError("Annotation to delete not found", 404)

  /** JavaScript truthiness of a string. */
  predicate Truthy(s: string)
  {
    s != ""
  }

  /** The guard written at the reversal in `remove`: `status === 'recived' || 'payed'`. */
  predicate ReversalGuardAsWritten(s: Status)
  {
    s == Recived || Truthy("payed")
  }

  /** The guard the reversal evidently intends: the annotation's money has moved. */
  predicate ReversalGuardIntended(s: Status)
  {
    s == Recived || s == Payed
  }

  /** The guard as written holds for every status, so every removal reverses. */
  lemma ReversalGuardAlwaysHolds(s: Status)
    ensures ReversalGuardAsWritten(s)
    ensures ReversalGuardAsWritten(s) != ReversalGuardIntended(s) <==> !IsConfirmed(s)
  {
  }

  /** The reversal type `remove` picks: income only for a recived annotation. */
  function ReversalType(s: Status): (o: OpType)
    ensures o == Income <==> s == Recived
  {
    if s == Recived then Income else Expanse
  }

  /**
   * `remove(annotation_id, user_id)` with a given reversal guard: deletes the
   * row (404 when none matched), then, when the guard holds for its status,
   * calls `removeByAnnotation` with `ReversalType` and the row's value.
   */
  function RemoveWith(t: Tables, id: int, u: UserId, guard: Status -> bool): (s: Step<Reply<seq<Annotation>>>)
    ensures Annotations in t.faults ==> s == (Failure(Raise(t.faults, Annotations)), t)
    ensures Annotations !in t.faults && AnnotationsWithId(t.annotations, id, u) == [] ==>
      s == (Failure(AnnotationToDeleteNotFound), t)
    ensures s.0.Success? ==> s.0.value == Reply(AnnotationsWithId(t.annotations, id, u), 200)
    ensures s.0.Success? ==> s.1.annotations == AnnotationsWithoutId(t.annotations, id, u)
    ensures s.0.Success? && AnnotationsWithId(t.annotations, id, u) != [] ==>
      var row := AnnotationsWithId(t.annotations, id, u)[0];
      var del := t.(annotations := AnnotationsWithoutId(t.annotations, id, u));
      s.1 == (if guard(row.status)
              then WalletOpController.RemoveByAnnotationEffect(del, u, id, ReversalType(row.status), row.value).1
              else del)
  {
    var del := DeleteAnnotationById(t, id, u);
    if del.0.Failure? then (Failure(del.0.error), del.1)
    else if del.0.value == [] then (Failure(AnnotationToDeleteNotFound), del.1)
    else
      var row := del.0.value[0];
      if guard(row.status) then
        var rb := WalletOpController.RemoveByAnnotationEffect(del.1, u, id, ReversalType(row.status), row.value);
        if rb.0.Failure? then (Failure(rb.0.error), rb.1)
        else (Success(Reply(del.0.value, 200)), rb.1)
      else (Success(Reply(del.0.value, 200)), del.1)
  }

  method RemoveGuarded(db: Database, id: int, u: UserId, guard: Status -> bool) returns (r: Result<Reply<seq<Annotation>>, Thrown>)
    modifies db
    ensures (r, db.State()) == RemoveWith(old(db.State()), id, u, guard)
  {
    var del := db.DeleteAnnotationById(id, u);
    if del.Failure? {
      r := Failure(del.error);
    } else if del.value == [] {
      r := Failure(AnnotationToDeleteNotFound);
    } else {
      var row := del.value[0];
      if guard(row.status) {
        var rb := WalletOpController.RemoveByAnnotation(db, u, id, ReversalType(row.status), row.value);
        if rb.Failure? {
          r := Failure(rb.error);
        } else {
          r := Success(Reply(del.value, 200));
        }
      } else {
        r := Success(Reply(del.value, 200));
      }
    }
  }

  /** `remove` as written: every deleted annotation is reversed. */
  method Remove(db: Database, id: int, u: UserId) returns (r: Result<Reply<seq<Annotation>>, Thrown>)
    modifies db
    ensures (r, db.State()) == RemoveWith(old(db.State()), id, u, ReversalGuardAsWritten)
  {
    r := RemoveGuarded(db, id, u, ReversalGuardAsWritten);
  }

  /** `remove` as intended: only a confirmed annotation is reversed. */
  method RemoveIntended(db: Database, id: int, u: UserId) returns (r: Result<Reply<seq<Annotation>>, Thrown>)
    modifies db
    ensures (r, db.State()) == RemoveWith(old(db.State()), id, u, ReversalGuardIntended)
  {
    r := RemoveGuarded(db, id, u, ReversalGuardIntended);
  }

  /**
   * As written, deleting a pendent or expired annotation credits the wallet
   * with its value, although no operation ever debited it.
   */
  lemma RemovingUnconfirmedCreditsWallet(t: Tables, id: int, u: UserId, a: Annotation)
    requires Annotations !in t.faults && Wallets !in t.faults && WalletOperations !in t.faults
    requires AnnotationsWithId(t.annotations, id, u) == [a]
    requires !IsConfirmed(a.status)
    ensures var s := RemoveWith(t, id, u, ReversalGuardAsWritten);
            s.0.Success? && WalletController.Balance(s.1, u) == WalletController.Balance(t, u) + a.value
  {
  }

  /** As intended, deleting an unconfirmed annotation moves no money and deletes no operation. */
  lemma RemovingUnconfirmedMovesNothing(t: Tables, id: int, u: UserId, a: Annotation)
    requires Annotations !in t.faults
    requires AnnotationsWithId(t.annotations, id, u) == [a]
    requires !IsConfirmed(a.status)
    ensures var s := RemoveWith(t, id, u, ReversalGuardIntended);
            s.0.Success? && s.1.wallets == t.wallets && s.1.operations == t.operations
  {
  }

  /** Either way, deleting a confirmed annotation reverses it and removes its operations. */
  lemma RemovingConfirmedReverses(t: Tables, id: int, u: UserId, a: Annotation, guard: Status -> bool)
    requires guard == ReversalGuardAsWritten || guard == ReversalGuardIntended
    requires Annotations !in t.faults && Wallets !in t.faults && WalletOperations !in t.faults
    requires AnnotationsWithId(t.annotations, id, u) == [a]
    requires a.status == Payed || a.value <= WalletController.Balance(t, u)
    requires IsConfirmed(a.status)
    ensures var s := RemoveWith(t, id, u, guard);
            && s.0.Success?
            && s.1.operations == OperationsOutsideAnnotation(t.operations, id)
            && WalletController.Balance(s.1, u)
               == WalletController.Balance(t, u) + (if a.status == Recived then -a.value else a.value)
  {
  }
}
