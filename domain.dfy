/** The records the backend stores and passes around, with their enumerations. */
module Domain {
  import opened Wrappers

  type UserId = string

  /** A calendar date, stored as `YYYY-MM-DD`. */
  type Date = string

  /** An amount of money (JavaScript numbers, taken as exact integers such as cents). */
  type Money = int

  /** `op_type`: 'expanse' or 'income'. */
  datatype OpType = Expanse | Income

  /** `AnnotationType`: 'bill' or 'payment'. */
  datatype AnnotationType = Bill | Payment

  /** `AnnotationStatus`: 'pendent', 'expired', 'payed' or 'recived'. */
  datatype Status = Pendent | Expired | Payed | Recived

  /** `AnnotationRepeat`: 'never', or a calendar unit whose spelling the model keeps abstract. */
  datatype Repeat = Never | Every(unit: string)

  /** A row of `wallet_operations`. */
  datatype Operation = Operation(
    id: int,
    userId: UserId,
    name: string,
    value: Money,
    description: string,
    operationType: OpType,
    operationTypeId: Option<int>,
    date: Date,
    annotationId: Option<int>)

  /** The operation a successful create returns: the inserted fields without `annotation_id`. */
  datatype OperationInfo = OperationInfo(
    name: string,
    userId: UserId,
    value: Money,
    description: string,
    operationType: OpType,
    operationTypeId: Option<int>,
    date: Date)

  /** An annotation before the datastore has given it an id. */
  datatype NewAnnotation = NewAnnotation(
    userId: UserId,
    annonTypeId: Option<int>,
    annonType: AnnotationType,
    name: string,
    description: string,
    value: Money,
    date: Date,
    repeat: Repeat,
    status: Status)

  /** A row of `annotations`. */
  datatype Annotation = Annotation(
    id: int,
    userId: UserId,
    annonTypeId: Option<int>,
    annonType: AnnotationType,
    name: string,
    description: string,
    value: Money,
    date: Date,
    repeat: Repeat,
    status: Status)

  /** A successful `ServerResponse`: its data and HTTP status (the message is not modelled). */
  datatype Reply<+T> = Reply(data: T, status: int)

  /** The row stored for a new annotation. */
  function WithId(n: NewAnnotation, id: int): Annotation
  {
    Annotation(id, n.userId, n.annonTypeId, n.annonType, n.name, n.description, n.value, n.date, n.repeat, n.status)
  }

  /** A confirmed annotation: one whose money has moved. */
  predicate IsConfirmed(s: Status)
  {
    s == Payed || s == Recived
  }

  /** The spelling of an annotation type inside a template literal. */
  function TypeName(t: AnnotationType): string
  {
    match t
    case Bill => "bill"
    case Payment => "payment"
  }

  /** JavaScript truthiness of an optional number: absent and 0 are falsy. */
  predicate TruthyNumber(x: Option<int>)
  {
    x.Some? && x.value != 0
  }

  /** JavaScript truthiness of an optional string: absent and "" are falsy. */
  predicate TruthyString(x: Option<string>)
  {
    x.Some? && x.value != ""
  }
}
