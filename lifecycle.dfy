/**
 * Properties of whole request sequences: confirming an annotation and then
 * reverting or deleting it leaves the wallet and the operations as they were,
 * and the batch reversal built from `reduceCheckedAnnotations`.
 */
module Lifecycle {
  import opened Wrappers
  import opened ErrorSystem
  import opened Domain
  import opened Seqs
  import opened Store
  import opened AnnotationFns
  import opened AnnotationReads
  import opened WalletController
  import opened WalletOpController
  import AC = AnnotationController

  /** The only row with `a`'s key is `a`: it belongs to `u` and `GetStatus` reads its status. */
  lemma OnlyRowStatus(t: Tables, u: UserId, a: Annotation)
    requires Annotations !in t.faults
    requires AnnotationsWithId(t.annotations, a.id, u) == [a]
    ensures a.userId == u && a in t.annotations
    ensures GetStatus(t, u, a.id) == Success(Reply(a.status, 200))
  {
    assert a in AnnotationsWithId(t.annotations, a.id, u);
  }

  /** Writing the status of the only row with a key leaves it the only row with that key. */
  lemma OnlyRowAfterStatusWrite(anns: seq<Annotation>, u: UserId, a: Annotation, s: Status)
    requires AnnotationsWithId(anns, a.id, u) == [a]
    ensures AnnotationsWithId(StatusRewritten(anns, a.id, u, s), a.id, u) == [a.(status := s)]
  {
    FilterOfMap(anns, SetStatus(a.id, u, s), AnnotationKey(a.id, u));
    assert a in AnnotationsWithId(anns, a.id, u);
  }

  /** The columns of a stored annotation, as `update` takes them. */
  function ColumnsOf(a: Annotation): NewAnnotation
  {
    AC.Columns(a.userId, a.name, a.description, a.value, a.date, a.repeat, a.status, a.annonType, a.annonTypeId)
  }

  /** Writing a row's status and then writing its old columns back restores the table. */
  lemma RewriteRestores(anns: seq<Annotation>, u: UserId, a: Annotation, s: Status)
    requires AnnotationsWithId(anns, a.id, u) == [a]
    ensures AnnotationsRewritten(StatusRewritten(anns, a.id, u, s), a.id, u, ColumnsOf(a)) == anns
  {
    var r := AnnotationsRewritten(StatusRewritten(anns, a.id, u, s), a.id, u, ColumnsOf(a));
    forall i | 0 <= i < |anns|
      ensures r[i] == anns[i]
    {
      if anns[i].id == a.id && anns[i].userId == u {
        assert anns[i] in AnnotationsWithId(anns, a.id, u);
      }
    }
  }

  /** Deleting a row after writing its status leaves the other rows as they were. */
  lemma DeleteAfterStatusWrite(anns: seq<Annotation>, u: UserId, a: Annotation, s: Status)
    ensures AnnotationsWithoutId(StatusRewritten(anns, a.id, u, s), a.id, u) == AnnotationsWithoutId(anns, a.id, u)
  {
    RejectOfMap(anns, SetStatus(a.id, u, s), AnnotationKey(a.id, u));
  }

  /** Unlinking an annotation that no row was linked to, after one linked row was added, leaves the original rows. */
  lemma UnlinkAddedRow(ops: seq<Operation>, row: Operation, annId: int)
    requires forall o | o in ops :: o.annotationId != Some(annId)
    requires row.annotationId == Some(annId)
    ensures OperationsOutsideAnnotation(ops + [row], annId) == ops
  {
    RejectAppend(ops, row, LinkedTo(annId));
    RejectNone(ops, LinkedTo(annId));
  }

  /** The datastore is healthy: no table fails. */
  predicate Healthy(t: Tables)
  {
    t.faults == map[]
  }

  /** The wallet can carry the confirmation: a bill is covered, a payment starts from a non-negative balance. */
  predicate CanConfirm(t: Tables, u: UserId, a: Annotation)
  {
    && (a.annonType == Bill ==> a.value <= Balance(t, u))
    && (a.annonType == Payment ==> Balance(t, u) >= 0)
  }

  /** The operation a confirmation records for `a`. */
  function ConfirmationRow(t: Tables, u: UserId, a: Annotation, today: Date): Operation
  {
    Operation(t.nextOperationId, u, AC.OperationName(a.name), a.value, AC.OperationDescription(a.name, a.annonType),
              AC.OpTypeFor(a.annonType), None, today, Some(a.id))
  }

  /**
   * Confirming a stored unconfirmed annotation succeeds: it records one linked
   * operation, moves the wallet by it and writes the confirmed status.
   */
  lemma ConfirmStep(t: Tables, u: UserId, a: Annotation, today: Date)
    requires Healthy(t)
    requires AnnotationsWithId(t.annotations, a.id, u) == [a]
    requires !IsConfirmed(a.status)
    requires CanConfirm(t, u, a)
    ensures var s1 := AC.ConfirmStatusEffect(t, u, a.id, a.name, a.value, a.status, a.annonType, today);
            && s1.0.Success?
            && Healthy(s1.1)
            && s1.1.operations == t.operations + [ConfirmationRow(t, u, a, today)]
            && s1.1.annotations == StatusRewritten(t.annotations, a.id, u, AC.ConfirmTarget(a.annonType))
            && Balance(s1.1, u) == Balance(t, u) + Delta(OpCreateMap(AC.OpTypeFor(a.annonType)), a.value)
  {
    var target := AC.ConfirmTarget(a.annonType);
    OnlyRowStatus(t, u, a);
    assert AC.CheckStatus(target, a.status) == AC.CreateOp;
  }

  /**
   * Updating a confirmed annotation back to its unconfirmed columns succeeds
   * when the wallet covers the reversal: it unlinks the annotation's
   * operations, reverses the wallet and writes the columns.
   */
  lemma RevertStep(s: Tables, u: UserId, a: Annotation, later: Date)
    requires Healthy(s)
    requires !IsConfirmed(a.status)
    requires AnnotationsWithId(s.annotations, a.id, u) == [a.(status := AC.ConfirmTarget(a.annonType))]
    requires a.annonType == Payment ==> a.value <= Balance(s, u)
    ensures var s2 := AC.UpdateEffect(s, a.id, u, a.name, a.description, a.value, a.date, a.repeat, a.status,
                                      a.annonType, a.annonTypeId, later);
            && s2.0.Success?
            && s2.1.operations == OperationsOutsideAnnotation(s.operations, a.id)
            && Balance(s2.1, u) == Balance(s, u) + Delta(OpDeleteMap(AC.OpTypeFor(a.annonType)), a.value)
            && s2.1.annotations == AnnotationsRewritten(s.annotations, a.id, u, ColumnsOf(a))
  {
    var target := AC.ConfirmTarget(a.annonType);
    OnlyRowStatus(s, u, a.(status := target));
    assert AC.CheckStatus(a.status, target) == AC.DeleteOp;
  }

  /**
   * Confirming a stored unconfirmed annotation, then updating it back to its
   * old columns, leaves the balance, the operations and the annotations as
   * they were.
   */
  lemma {:induction false} ConfirmThenRevertRestores(t: Tables, u: UserId, a: Annotation, today: Date, later: Date)
    requires Healthy(t)
    requires AnnotationsWithId(t.annotations, a.id, u) == [a]
    requires !IsConfirmed(a.status)
    requires forall o | o in t.operations :: o.annotationId != Some(a.id)
    requires CanConfirm(t, u, a)
    ensures var s1 := AC.ConfirmStatusEffect(t, u, a.id, a.name, a.value, a.status, a.annonType, today);
            var s2 := AC.UpdateEffect(s1.1, a.id, u, a.name, a.description, a.value, a.date, a.repeat, a.status,
                                      a.annonType, a.annonTypeId, later);
            && s1.0.Success? && s2.0.Success?
            && Balance(s2.1, u) == Balance(t, u)
            && s2.1.operations == t.operations
            && s2.1.annotations == t.annotations
  {
    var target := AC.ConfirmTarget(a.annonType);
    ConfirmStep(t, u, a, today);
    var s1 := AC.ConfirmStatusEffect(t, u, a.id, a.name, a.value, a.status, a.annonType, today);
    OnlyRowStatus(t, u, a);
    OnlyRowAfterStatusWrite(t.annotations, u, a, target);
    RevertStep(s1.1, u, a, later);
    UnlinkAddedRow(t.operations, ConfirmationRow(t, u, a, today), a.id);
    RewriteRestores(t.annotations, u, a, target);
  }

  /**
   * Confirming a stored unconfirmed annotation and then deleting it leaves the
   * balance and the operations as they were, whichever reversal guard is used.
   */
  lemma {:induction false} ConfirmThenRemoveRestores(t: Tables, u: UserId, a: Annotation, today: Date, guard: Status -> bool)
    requires guard == AC.ReversalGuardAsWritten || guard == AC.ReversalGuardIntended
    requires Healthy(t)
    requires AnnotationsWithId(t.annotations, a.id, u) == [a]
    requires !IsConfirmed(a.status)
    requires forall o | o in t.operations :: o.annotationId != Some(a.id)
    requires CanConfirm(t, u, a)
    ensures var s1 := AC.ConfirmStatusEffect(t, u, a.id, a.name, a.value, a.status, a.annonType, today);
            var s2 := AC.RemoveWith(s1.1, a.id, u, guard);
            && s1.0.Success? && s2.0.Success?
            && Balance(s2.1, u) == Balance(t, u)
            && s2.1.operations == t.operations
            && s2.1.annotations == AnnotationsWithoutId(t.annotations, a.id, u)
  {
    var target := AC.ConfirmTarget(a.annonType);
    ConfirmStep(t, u, a, today);
    var s1 := AC.ConfirmStatusEffect(t, u, a.id, a.name, a.value, a.status, a.annonType, today);
    OnlyRowStatus(t, u, a);
    OnlyRowAfterStatusWrite(t.annotations, u, a, target);
    AC.RemovingConfirmedReverses(s1.1, a.id, u, a.(status := target), guard);
    UnlinkAddedRow(t.operations, ConfirmationRow(t, u, a, today), a.id);
    DeleteAfterStatusWrite(t.annotations, u, a, target);
  }

  /** Reference definition: the balance change that reversing each checked annotation on its own makes. */
  function ReversalTotal(anns: seq<Annotation>): Money
    decreases |anns|
  {
    if anns == [] then 0
    else (if IsChecked(anns[0]) then Delta(OpDeleteMap(AC.OpTypeFor(anns[0].annonType)), anns[0].value) else 0)
         + ReversalTotal(anns[1..])
  }

  /** The individual reversals add up to minus the signed total `reduceCheckedAnnotations` computes. */
  lemma {:induction false} ReversalTotalIsNegatedCheckedTotal(anns: seq<Annotation>)
    ensures ReversalTotal(anns) == -ReduceCheckedAnnotations(anns).value
    decreases |anns|
  {
    if anns != [] {
      ReversalTotalIsNegatedCheckedTotal(anns[1..]);
    }
  }

  /**
   * As written, `removeByBulkAnnotation` adds the reduced value, moving the
   * wallet by the opposite of the individual reversals: one recived payment
   * of 100 raises the balance by 100 where removing it alone lowers it by 100.
   */
  lemma BulkReversalMovesTheWrongWay(t: Tables, u: UserId, anns: seq<Annotation>)
    requires Healthy(t)
    ensures var s := RemoveByBulkAnnotationEffect(t, u, ReduceCheckedAnnotations(anns));
            s.0.Success? && Balance(s.1, u) == Balance(t, u) - ReversalTotal(anns)
  {
    ReversalTotalIsNegatedCheckedTotal(anns);
  }

  /** The counterexample: a single recived payment of 100. */
  lemma BulkReversalCounterexample(t: Tables, u: UserId, a: Annotation)
    requires Healthy(t)
    requires a.annonType == Payment && a.status == Recived && a.value == 100
    ensures ReversalTotal([a]) == -100
    ensures Balance(RemoveByBulkAnnotationEffect(t, u, ReduceCheckedAnnotations([a])).1, u) == Balance(t, u) + 100
  {
    BulkReversalMovesTheWrongWay(t, u, [a]);
  }

  /**
   * The bulk reversal as intended: one `add` of the negated reduced value, then
   * the deletion of every row linked to one of the ids.
   */
  function RemoveByBulkAnnotationIntendedEffect(t: Tables, u: UserId, reduced: Reduced): (s: Step<Reply<()>>)
    ensures s.0.Success? <==> Wallets !in t.faults && WalletOperations !in t.faults
    ensures s.0.Success? ==> s.1.operations == OperationsOutsideAnnotations(t.operations, reduced.ids)
    ensures s.0.Success? ==> Balance(s.1, u) == Balance(t, u) - reduced.value
  {
    RemoveByBulkAnnotationEffect(t, u, Reduced(reduced.ids, -reduced.value))
  }

  /** The intended bulk reversal moves the wallet exactly as the individual reversals together do, and unlinks every checked id. */
  lemma BulkReversalIntendedMatchesIndividual(t: Tables, u: UserId, anns: seq<Annotation>)
    requires Healthy(t)
    ensures var s := RemoveByBulkAnnotationIntendedEffect(t, u, ReduceCheckedAnnotations(anns));
            && s.0.Success?
            && Balance(s.1, u) == Balance(t, u) + ReversalTotal(anns)
            && (forall o | o in s.1.operations :: o in t.operations &&
                  !(o.annotationId.Some? && exists a | a in anns :: IsChecked(a) && a.id == o.annotationId.value))
  {
    ReversalTotalIsNegatedCheckedTotal(anns);
    var s := RemoveByBulkAnnotationIntendedEffect(t, u, ReduceCheckedAnnotations(anns));
    forall o | o in s.1.operations
      ensures !(o.annotationId.Some? && exists a | a in anns :: IsChecked(a) && a.id == o.annotationId.value)
    {
      if o.annotationId.Some? {
        forall a | a in anns && IsChecked(a)
          ensures a.id != o.annotationId.value
        {
          CheckedIdsMembership(anns, a.id);
        }
      }
    }
  }
}
