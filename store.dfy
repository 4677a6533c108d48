/**
 * The datastore behind the Supabase client, as in-memory tables. Each function
 * here is one `supabase.from(table)` call, taken as one atomic step: it either
 * fails with the table's fault, leaving every table as it was, or applies its
 * filter, insert, update or delete.
 */
module Store {
  import opened Wrappers
  import opened ErrorSystem
  import opened Domain
  import opened Seqs
  import opened Calendar

  datatype Table = Wallets | WalletOperations | Annotations | PredictionDates

  /** The error a failing table reports for every call (a SQLSTATE code and a message). */
  datatype PgError = PgError(code: string, message: string)

  /**
   * The tables: `wallets` keyed by `user_id`, the rows of `wallet_operations`
   * and `annotations` in insertion order with the next serial id of each,
   * `prediction_dates` keyed by `user_id`, and the tables that are failing.
   */
  datatype Tables = Tables(
    wallets: map<UserId, Money>,
    operations: seq<Operation>,
    annotations: seq<Annotation>,
    predictionDates: map<UserId, Date>,
    nextOperationId: int,
    nextAnnotationId: int,
    faults: map<Table, PgError>)

  /** What a call returns, with the tables after it. */
  type Step<T> = (Result<T, Thrown>, Tables)

  /** The PostgREST error of a failing table. */
  function Raise(faults: map<Table, PgError>, table: Table): Thrown
    requires table in faults
  {
    PostgrestError(faults[table].code, faults[table].message)
  }

  /** The error an insert with an existing `user_id` key reports. */
  const UniqueViolation: Thrown := PostgrestError("23505", "duplicate key value violates unique constraint")

  // ----- wallets -----

  /** `select().eq('user_id', u)` on `wallets`. */
  function SelectWallet(t: Tables, u: UserId): Result<Option<Money>, Thrown>
  {
    if Wallets in t.faults then Failure(Raise(t.faults, Wallets))
    else Success(if u in t.wallets then Some(t.wallets[u]) else None)
  }

  /** `insert({user_id, value})` on `wallets`. */
  function InsertWallet(t: Tables, u: UserId, v: Money): Step<()>
  {
    if Wallets in t.faults then (Failure(Raise(t.faults, Wallets)), t)
    else if u in t.wallets then (Failure(UniqueViolation), t)
    else (Success(()), t.(wallets := t.wallets[u := v]))
  }

  /** The wallets after `update({value}).eq('user_id', u)`: only a matching row changes. */
  function WalletsUpdated(w: map<UserId, Money>, u: UserId, v: Money): map<UserId, Money>
  {
    if u in w then w[u := v] else w
  }

  /** `update({value}).eq('user_id', u)` on `wallets`. */
  function UpdateWallet(t: Tables, u: UserId, v: Money): Step<()>
  {
    if Wallets in t.faults then (Failure(Raise(t.faults, Wallets)), t)
    else (Success(()), t.(wallets := WalletsUpdated(t.wallets, u, v)))
  }

  // ----- wallet_operations -----

  /** The object passed to `insert` on `wallet_operations`. */
  datatype OperationDraft = OperationDraft(
    name: string,
    userId: UserId,
    value: Money,
    description: string,
    operationType: OpType,
    operationTypeId: Option<int>,
    date: Date,
    annotationId: Option<int>)

  function NewOperation(d: OperationDraft, id: int): Operation
  {
    Operation(id, d.userId, d.name, d.value, d.description, d.operationType, d.operationTypeId, d.date, d.annotationId)
  }

  /** `insert(draft)` on `wallet_operations`: the row gets the next serial id. */
  function InsertOperation(t: Tables, d: OperationDraft): Step<()>
  {
    if WalletOperations in t.faults then (Failure(Raise(t.faults, WalletOperations)), t)
    else (Success(()), t.(operations := t.operations + [NewOperation(d, t.nextOperationId)],
                          nextOperationId := t.nextOperationId + 1))
  }

  /** The condition `match({id, user_id})` on `wallet_operations`. */
  function OperationKey(id: int, u: UserId): Operation -> bool
  {
    (o: Operation) => o.id == id && o.userId == u
  }

  /** The rows matching `{id, user_id}`. */
  function OperationsWithId(ops: seq<Operation>, id: int, u: UserId): seq<Operation>
  {
    Filter(ops, OperationKey(id, u))
  }

  /** The rows not matching `{id, user_id}`. */
  function OperationsWithoutId(ops: seq<Operation>, id: int, u: UserId): seq<Operation>
  {
    Reject(ops, OperationKey(id, u))
  }

  /** `select().match({id, user_id})` on `wallet_operations`. */
  function SelectOperationById(t: Tables, id: int, u: UserId): Result<seq<Operation>, Thrown>
  {
    if WalletOperations in t.faults then Failure(Raise(t.faults, WalletOperations))
    else Success(OperationsWithId(t.operations, id, u))
  }

  /** `delete().match({id, user_id}).select()` on `wallet_operations`: returns the deleted rows. */
  function DeleteOperationById(t: Tables, id: int, u: UserId): (s: Step<seq<Operation>>)
    ensures s.0.Success? && s.0.value == [] ==> s.1 == t
  {
    FilterEmptyRejectsNothing(t.operations, OperationKey(id, u));
    if WalletOperations in t.faults then (Failure(Raise(t.faults, WalletOperations)), t)
    else (Success(OperationsWithId(t.operations, id, u)),
          t.(operations := OperationsWithoutId(t.operations, id, u)))
  }

  /** The condition `match({annotation_id})` on `wallet_operations`. */
  function LinkedTo(annId: int): Operation -> bool
  {
    (o: Operation) => o.annotationId == Some(annId)
  }

  /** The rows whose `annotation_id` is not `annId`. */
  function OperationsOutsideAnnotation(ops: seq<Operation>, annId: int): seq<Operation>
  {
    Reject(ops, LinkedTo(annId))
  }

  /** `delete().match({annotation_id})` on `wallet_operations`: every user's rows. */
  function DeleteOperationsOfAnnotation(t: Tables, annId: int): Step<()>
  {
    if WalletOperations in t.faults then (Failure(Raise(t.faults, WalletOperations)), t)
    else (Success(()), t.(operations := OperationsOutsideAnnotation(t.operations, annId)))
  }

  /** The rows whose `annotation_id` is not one of `ids` (a null id is in no list). */
  function OperationsOutsideAnnotations(ops: seq<Operation>, ids: seq<int>): seq<Operation>
  {
    Reject(ops, (o: Operation) => o.annotationId.Some? && o.annotationId.value in ids)
  }

  /** `delete().in('annotation_id', ids)` on `wallet_operations`. */
  function DeleteOperationsOfAnnotations(t: Tables, ids: seq<int>): Step<()>
  {
    if WalletOperations in t.faults then (Failure(Raise(t.faults, WalletOperations)), t)
    else (Success(()), t.(operations := OperationsOutsideAnnotations(t.operations, ids)))
  }

  /** The filters a select on `wallet_operations` carries: `match`, `gte` and `lte`. */
  datatype OperationFilter = OperationFilter(
    userId: UserId,
    operationType: Option<OpType>,
    valueGte: Option<Money>,
    valueLte: Option<Money>,
    dateGte: Option<Date>,
    dateLte: Option<Date>)

  predicate OperationPasses(f: OperationFilter, o: Operation)
  {
    && o.userId == f.userId
    && (f.operationType.Some? ==> o.operationType == f.operationType.value)
    && (f.valueGte.Some? ==> o.value >= f.valueGte.value)
    && (f.valueLte.Some? ==> o.value <= f.valueLte.value)
    && (f.dateGte.Some? ==> DateLe(f.dateGte.value, o.date))
    && (f.dateLte.Some? ==> DateLe(o.date, f.dateLte.value))
  }

  /** A filtered `select()` on `wallet_operations`. */
  function SelectOperations(t: Tables, f: OperationFilter): Result<seq<Operation>, Thrown>
  {
    if WalletOperations in t.faults then Failure(Raise(t.faults, WalletOperations))
    else Success(Filter(t.operations, PassesOperationFilter(f)))
  }

  /** `OperationPasses` as a condition on rows. */
  function PassesOperationFilter(f: OperationFilter): Operation -> bool
  {
    (o: Operation) => OperationPasses(f, o)
  }

  // ----- annotations -----

  /** `insert(annotation).select()` on `annotations`: returns the inserted row. */
  function InsertAnnotation(t: Tables, n: NewAnnotation): Step<seq<Annotation>>
  {
    if Annotations in t.faults then (Failure(Raise(t.faults, Annotations)), t)
    else (Success([WithId(n, t.nextAnnotationId)]),
          t.(annotations := t.annotations + [WithId(n, t.nextAnnotationId)],
             nextAnnotationId := t.nextAnnotationId + 1))
  }

  /** The condition `match({id, user_id})` on `annotations`. */
  function AnnotationKey(id: int, u: UserId): Annotation -> bool
  {
    (a: Annotation) => a.id == id && a.userId == u
  }

  /** The rows matching `{id, user_id}`. */
  function AnnotationsWithId(anns: seq<Annotation>, id: int, u: UserId): seq<Annotation>
  {
    Filter(anns, AnnotationKey(id, u))
  }

  /** The rows not matching `{id, user_id}`. */
  function AnnotationsWithoutId(anns: seq<Annotation>, id: int, u: UserId): seq<Annotation>
  {
    Reject(anns, AnnotationKey(id, u))
  }

  /** `select().match({id, user_id})` on `annotations`. */
  function SelectAnnotationById(t: Tables, id: int, u: UserId): Result<seq<Annotation>, Thrown>
  {
    if Annotations in t.faults then Failure(Raise(t.faults, Annotations))
    else Success(AnnotationsWithId(t.annotations, id, u))
  }

  /** `delete().match({id, user_id}).select()` on `annotations`: returns the deleted rows. */
  function DeleteAnnotationById(t: Tables, id: int, u: UserId): (s: Step<seq<Annotation>>)
    ensures s.0.Success? && s.0.value == [] ==> s.1 == t
  {
    FilterEmptyRejectsNothing(t.annotations, AnnotationKey(id, u));
    if Annotations in t.faults then (Failure(Raise(t.faults, Annotations)), t)
    else (Success(AnnotationsWithId(t.annotations, id, u)),
          t.(annotations := AnnotationsWithoutId(t.annotations, id, u)))
  }

  /** A row with its columns replaced by `n`'s when it matches `{id, user_id}`. */
  function Rewrite(id: int, u: UserId, n: NewAnnotation): Annotation -> Annotation
  {
    (a: Annotation) => if a.id == id && a.userId == u then WithId(n, id) else a
  }

  /** The rows after every row matching `{id, user_id}` has had its columns replaced by `n`'s. */
  function AnnotationsRewritten(anns: seq<Annotation>, id: int, u: UserId, n: NewAnnotation): seq<Annotation>
  {
    Map(anns, Rewrite(id, u, n))
  }

  /**
   * `update(columns).match({id, user_id}).select()` on `annotations`: returns
   * the updated rows.
   */
  function UpdateAnnotationById(t: Tables, id: int, u: UserId, n: NewAnnotation): Step<seq<Annotation>>
  {
    if Annotations in t.faults then (Failure(Raise(t.faults, Annotations)), t)
    else
      var anns := AnnotationsRewritten(t.annotations, id, u, n);
      (Success(AnnotationsWithId(anns, id, u)), t.(annotations := anns))
  }

  /** A row with its status set to `s` when it matches `{id, user_id}`. */
  function SetStatus(id: int, u: UserId, s: Status): Annotation -> Annotation
  {
    (a: Annotation) => if a.id == id && a.userId == u then a.(status := s) else a
  }

  /** The rows after every row matching `{id, user_id}` has had its status set to `s`. */
  function StatusRewritten(anns: seq<Annotation>, id: int, u: UserId, s: Status): seq<Annotation>
  {
    Map(anns, SetStatus(id, u, s))
  }

  /** `update({status}).match({id, user_id}).select()` on `annotations`. */
  function UpdateAnnotationStatus(t: Tables, id: int, u: UserId, s: Status): Step<seq<Annotation>>
  {
    if Annotations in t.faults then (Failure(Raise(t.faults, Annotations)), t)
    else
      var anns := StatusRewritten(t.annotations, id, u, s);
      (Success(AnnotationsWithId(anns, id, u)), t.(annotations := anns))
  }

  /** The filters a select on `annotations` carries: `match`, `in`, `gte` and `lte`. */
  datatype AnnotationFilter = AnnotationFilter(
    userId: UserId,
    annonType: Option<AnnotationType>,
    statusIn: Option<seq<Status>>,
    valueGte: Option<Money>,
    valueLte: Option<Money>,
    dateGte: Option<Date>,
    dateLte: Option<Date>)

  predicate AnnotationPasses(f: AnnotationFilter, a: Annotation)
  {
    && a.userId == f.userId
    && (f.annonType.Some? ==> a.annonType == f.annonType.value)
    && (f.statusIn.Some? ==> a.status in f.statusIn.value)
    && (f.valueGte.Some? ==> a.value >= f.valueGte.value)
    && (f.valueLte.Some? ==> a.value <= f.valueLte.value)
    && (f.dateGte.Some? ==> DateLe(f.dateGte.value, a.date))
    && (f.dateLte.Some? ==> DateLe(a.date, f.dateLte.value))
  }

  /** A filtered `select()` on `annotations`. */
  function SelectAnnotations(t: Tables, f: AnnotationFilter): Result<seq<Annotation>, Thrown>
  {
    if Annotations in t.faults then Failure(Raise(t.faults, Annotations))
    else Success(Filter(t.annotations, PassesAnnotationFilter(f)))
  }

  /** `AnnotationPasses` as a condition on rows. */
  function PassesAnnotationFilter(f: AnnotationFilter): Annotation -> bool
  {
    (a: Annotation) => AnnotationPasses(f, a)
  }

  // ----- prediction_dates -----

  /** A row of `prediction_dates`. */
  datatype PredictionDate = PredictionDate(userId: UserId, currentDate: Date)

  /** `select().eq('user_id', u)` on `prediction_dates`. */
  function SelectPredictionDate(t: Tables, u: UserId): Result<Option<Date>, Thrown>
  {
    if PredictionDates in t.faults then Failure(Raise(t.faults, PredictionDates))
    else Success(if u in t.predictionDates then Some(t.predictionDates[u]) else None)
  }

  /** `insert({user_id, current_date})` on `prediction_dates`. */
  function InsertPredictionDate(t: Tables, u: UserId, d: Date): Step<()>
  {
    if PredictionDates in t.faults then (Failure(Raise(t.faults, PredictionDates)), t)
    else if u in t.predictionDates then (Failure(UniqueViolation), t)
    else (Success(()), t.(predictionDates := t.predictionDates[u := d]))
  }

  /** `update({current_date}).eq('user_id', u).select()` on `prediction_dates`. */
  function UpdatePredictionDate(t: Tables, u: UserId, d: Date): Step<seq<PredictionDate>>
  {
    if PredictionDates in t.faults then (Failure(Raise(t.faults, PredictionDates)), t)
    else if u in t.predictionDates then (Success([PredictionDate(u, d)]), t.(predictionDates := t.predictionDates[u := d]))
    else (Success([]), t)
  }
}
