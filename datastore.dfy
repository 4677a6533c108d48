/** The datastore as a mutable object: one field per table, one method per call. */
module Datastore {
  import opened Wrappers
  import opened ErrorSystem
  import opened Domain
  import Store

  class Database {
    var wallets: map<UserId, Money>
    var operations: seq<Operation>
    var annotations: seq<Annotation>
    var predictionDates: map<UserId, Date>
    var nextOperationId: int
    var nextAnnotationId: int
    var faults: map<Store.Table, Store.PgError>

    /** The tables as a value. */
    function State(): Store.Tables
      reads this
    {
      Store.Tables(wallets, operations, annotations, predictionDates, nextOperationId, nextAnnotationId, faults)
    }

    constructor (t: Store.Tables)
      ensures State() == t
    {
      wallets, operations, annotations, predictionDates := t.wallets, t.operations, t.annotations, t.predictionDates;
      nextOperationId, nextAnnotationId, faults := t.nextOperationId, t.nextAnnotationId, t.faults;
    }

    /** Puts the tables into a given state (the effect of a collaborator the model does not see). */
    method Replace(t: Store.Tables)
      modifies this
      ensures State() == t
    {
      wallets, operations, annotations, predictionDates := t.wallets, t.operations, t.annotations, t.predictionDates;
      nextOperationId, nextAnnotationId, faults := t.nextOperationId, t.nextAnnotationId, t.faults;
    }

    method InsertWallet(u: UserId, v: Money) returns (r: Result<(), Thrown>)
      modifies this
      ensures (r, State()) == Store.InsertWallet(old(State()), u, v)
    {
      if Store.Wallets in faults {
        r := Failure(Store.Raise(faults, Store.Wallets));
      } else if u in wallets {
        r := Failure(Store.UniqueViolation);
      } else {
        wallets := wallets[u := v];
        r := Success(());
      }
    }

    method UpdateWallet(u: UserId, v: Money) returns (r: Result<(), Thrown>)
      modifies this
      ensures (r, State()) == Store.UpdateWallet(old(State()), u, v)
    {
      if Store.Wallets in faults {
        r := Failure(Store.Raise(faults, Store.Wallets));
      } else {
        if u in wallets {
          wallets := wallets[u := v];
        }
        r := Success(());
      }
    }

    method InsertOperation(d: Store.OperationDraft) returns (r: Result<(), Thrown>)
      modifies this
      ensures (r, State()) == Store.InsertOperation(old(State()), d)
    {
      if Store.WalletOperations in faults {
        r := Failure(Store.Raise(faults, Store.WalletOperations));
      } else {
        operations := operations + [Store.NewOperation(d, nextOperationId)];
        nextOperationId := nextOperationId + 1;
        r := Success(());
      }
    }

    method DeleteOperationById(id: int, u: UserId) returns (r: Result<seq<Operation>, Thrown>)
      modifies this
      ensures (r, State()) == Store.DeleteOperationById(old(State()), id, u)
    {
      if Store.WalletOperations in faults {
        r := Failure(Store.Raise(faults, Store.WalletOperations));
      } else {
        r := Success(Store.OperationsWithId(operations, id, u));
        operations := Store.OperationsWithoutId(operations, id, u);
      }
    }

    method DeleteOperationsOfAnnotation(annId: int) returns (r: Result<(), Thrown>)
      modifies this
      ensures (r, State()) == Store.DeleteOperationsOfAnnotation(old(State()), annId)
    {
      if Store.WalletOperations in faults {
        r := Failure(Store.Raise(faults, Store.WalletOperations));
      } else {
        operations := Store.OperationsOutsideAnnotation(operations, annId);
        r := Success(());
      }
    }

    method DeleteOperationsOfAnnotations(ids: seq<int>) returns (r: Result<(), Thrown>)
      modifies this
      ensures (r, State()) == Store.DeleteOperationsOfAnnotations(old(State()), ids)
    {
      if Store.WalletOperations in faults {
        r := Failure(Store.Raise(faults, Store.WalletOperations));
      } else {
        operations := Store.OperationsOutsideAnnotations(operations, ids);
        r := Success(());
      }
    }

    method InsertAnnotation(n: NewAnnotation) returns (r: Result<seq<Annotation>, Thrown>)
      modifies this
      ensures (r, State()) == Store.InsertAnnotation(old(State()), n)
    {
      if Store.Annotations in faults {
        r := Failure(Store.Raise(faults, Store.Annotations));
      } else {
        var row := WithId(n, nextAnnotationId);
        annotations := annotations + [row];
        nextAnnotationId := nextAnnotationId + 1;
        r := Success([row]);
      }
    }

    method DeleteAnnotationById(id: int, u: UserId) returns (r: Result<seq<Annotation>, Thrown>)
      modifies this
      ensures (r, State()) == Store.DeleteAnnotationById(old(State()), id, u)
    {
      if Store.Annotations in faults {
        r := Failure(Store.Raise(faults, Store.Annotations));
      } else {
        r := Success(Store.AnnotationsWithId(annotations, id, u));
        annotations := Store.AnnotationsWithoutId(annotations, id, u);
      }
    }

    method UpdateAnnotationById(id: int, u: UserId, n: NewAnnotation) returns (r: Result<seq<Annotation>, Thrown>)
      modifies this
      ensures (r, State()) == Store.UpdateAnnotationById(old(State()), id, u, n)
    {
      if Store.Annotations in faults {
        r := Failure(Store.Raise(faults, Store.Annotations));
      } else {
        annotations := Store.AnnotationsRewritten(annotations, id, u, n);
        r := Success(Store.AnnotationsWithId(annotations, id, u));
      }
    }

    method UpdateAnnotationStatus(id: int, u: UserId, s: Status) returns (r: Result<seq<Annotation>, Thrown>)
      modifies this
      ensures (r, State()) == Store.UpdateAnnotationStatus(old(State()), id, u, s)
    {
      if Store.Annotations in faults {
        r := Failure(Store.Raise(faults, Store.Annotations));
      } else {
        annotations := Store.StatusRewritten(annotations, id, u, s);
        r := Success(Store.AnnotationsWithId(annotations, id, u));
      }
    }

    method InsertPredictionDate(u: UserId, d: Date) returns (r: Result<(), Thrown>)
      modifies this
      ensures (r, State()) == Store.InsertPredictionDate(old(State()), u, d)
    {
      if Store.PredictionDates in faults {
        r := Failure(Store.Raise(faults, Store.PredictionDates));
      } else if u in predictionDates {
        r := Failure(Store.UniqueViolation);
      } else {
        predictionDates := predictionDates[u := d];
        r := Success(());
      }
    }

    method UpdatePredictionDate(u: UserId, d: Date) returns (r: Result<seq<Store.PredictionDate>, Thrown>)
      modifies this
      ensures (r, State()) == Store.UpdatePredictionDate(old(State()), u, d)
    {
      if Store.PredictionDates in faults {
        r := Failure(Store.Raise(faults, Store.PredictionDates));
      } else if u in predictionDates {
        predictionDates := predictionDates[u := d];
        r := Success([Store.PredictionDate(u, d)]);
      } else {
        r := Success([]);
      }
    }
  }
}
