/**
 * The reads of the annotation controller: one annotation, its status, and the
 * conjunctive filter with its `getAll*` wrappers. They change no table.
 */
module AnnotationReads {
  import opened Wrappers
  import opened ErrorSystem
  import opened Domain
  import opened Seqs
  import opened Calendar
  import opened Store

  /**
   * `get(user_id, annotation_id)`: the matching row, or an empty array when
   * there is none (`data[0] || []`), which `Found` tells apart.
   */
  datatype Found = Row(row: Annotation) | EmptyArray

  function Get(t: Tables, u: UserId, id: int): (r: Result<Reply<Found>, Thrown>)
    ensures r.Success? <==> Annotations !in t.faults
    ensures r.Success? ==> r.value.status == 200
    ensures r.Success? && r.value.data.Row? ==>
      var a := r.value.data.row; a in t.annotations && a.id == id && a.userId == u
    ensures r.Success? && r.value.data.EmptyArray? ==>
      forall a | a in t.annotations :: !(a.id == id && a.userId == u)
  {
    match SelectAnnotationById(t, id, u)
    case Failure(e) => Failure(e)
    case Success(rows) => Success(Reply(if rows == [] then EmptyArray else Row(rows[0]), 200))
  }

  /** `getStatus(user_id, annotation_id)`: the stored status, or 404 when no row matches. */
  function GetStatus(t: Tables, u: UserId, id: int): (r: Result<Reply<Status>, Thrown>)
    ensures Annotations in t.faults ==> r == Failure(Raise(t.faults, Annotations))
    ensures r.Success? ==> r.value.status == 200
    ensures r.Success? ==> exists a | a in t.annotations :: a.id == id && a.userId == u && a.status == r.value.data
    ensures Annotations !in t.faults ==>
      (r.Failure? <==> forall a | a in t.annotations :: !(a.id == id && a.userId == u))
    ensures r.Failure? && Annotations !in t.faults ==> r.error == NotFound
  {
    match SelectAnnotationById(t, id, u)
    case Failure(e) => Failure(e)
    case Success(rows) =>
      if rows == [] then Failure(NotFound)
      else
        assert rows[0] in rows;
        Success(Reply(rows[0].status, 200))
  }

  const NotFound: Thrown := GetNewResponseError("Annotation not Found", 404)

  /** A number bound the query applies: absent and 0 skip it. */
  function NumberBound(x: Option<int>): (b: Option<int>)
    ensures b.Some? <==> TruthyNumber(x)
    ensures b.Some? ==> b == x
  {
    if TruthyNumber(x) then x else None
  }

  /** A date bound the query applies: absent and "" skip it. */
  function StringBound(x: Option<string>): (b: Option<string>)
    ensures b.Some? <==> TruthyString(x)
    ensures b.Some? ==> b == x
  {
    if TruthyString(x) then x else None
  }

  /**
   * `filterAnnotation(user_id, annon_type?, status?, minValue?, maxValue?,
   * startDate?, endDate?)`: the user's rows meeting every bound that is
   * present and truthy; a status list is applied whenever present, even empty.
   * The reply has status 201.
   */
  function FilterAnnotation(t: Tables, u: UserId, annonType: Option<AnnotationType>,
                            statuses: Option<seq<Status>>, minValue: Option<Money>, maxValue: Option<Money>,
                            startDate: Option<Date>, endDate: Option<Date>): (r: Result<Reply<seq<Annotation>>, Thrown>)
    ensures r.Success? <==> Annotations !in t.faults
    ensures r.Success? ==> r.value.status == 201
    ensures r.Success? ==> forall a | a in r.value.data ::
      a in t.annotations && AnnotationMeets(a, u, annonType, statuses, minValue, maxValue, startDate, endDate)
    ensures r.Success? ==> forall a | a in t.annotations &&
      AnnotationMeets(a, u, annonType, statuses, minValue, maxValue, startDate, endDate) :: a in r.value.data
  {
    var f := AnnotationFilter(u, annonType, statuses, NumberBound(minValue), NumberBound(maxValue),
                              StringBound(startDate), StringBound(endDate));
    match SelectAnnotations(t, f)
    case Failure(e) => Failure(e)
    case Success(rows) => Success(Reply(rows, 201))
  }

  /** What `filterAnnotation` asks of a row, written bound by bound. */
  predicate AnnotationMeets(a: Annotation, u: UserId, annonType: Option<AnnotationType>,
                            statuses: Option<seq<Status>>, minValue: Option<Money>, maxValue: Option<Money>,
                            startDate: Option<Date>, endDate: Option<Date>)
  {
    && a.userId == u
    && (annonType.Some? ==> a.annonType == annonType.value)
    && (statuses.Some? ==> a.status in statuses.value)
    && (TruthyNumber(minValue) ==> a.value >= minValue.value)
    && (TruthyNumber(maxValue) ==> a.value <= maxValue.value)
    && (TruthyString(startDate) ==> DateLe(startDate.value, a.date))
    && (TruthyString(endDate) ==> DateLe(a.date, endDate.value))
  }

  /** The reply of a `getAll*` wrapper: the filter's rows with status 200. */
  function Relabel(r: Result<Reply<seq<Annotation>>, Thrown>): Result<Reply<seq<Annotation>>, Thrown>
  {
    match r
    case Failure(e) => Failure(e)
    case Success(reply) => Success(Reply(reply.data, 200))
  }

  /** `getAll(user_id)`: every row of the user. */
  function GetAll(t: Tables, u: UserId): (r: Result<Reply<seq<Annotation>>, Thrown>)
    ensures r.Success? <==> Annotations !in t.faults
    ensures r.Success? ==> r.value.status == 200
    ensures r.Success? ==> forall a | a in t.annotations :: a in r.value.data <==> a.userId == u
  {
    Relabel(FilterAnnotation(t, u, None, None, None, None, None, None))
  }

  /** `getAllType(user_id, annotation_type)`: the user's rows of one type. */
  function GetAllType(t: Tables, u: UserId, ty: AnnotationType): (r: Result<Reply<seq<Annotation>>, Thrown>)
    ensures r.Success? <==> Annotations !in t.faults
    ensures r.Success? ==> r.value.status == 200
    ensures r.Success? ==> forall a | a in t.annotations :: a in r.value.data <==> a.userId == u && a.annonType == ty
  {
    Relabel(FilterAnnotation(t, u, Some(ty), None, None, None, None, None))
  }

  /** `getAllStatus(user_id, status)`: the user's rows with one status. */
  function GetAllStatus(t: Tables, u: UserId, s: Status): (r: Result<Reply<seq<Annotation>>, Thrown>)
    ensures r.Success? <==> Annotations !in t.faults
    ensures r.Success? ==> r.value.status == 200
    ensures r.Success? ==> forall a | a in t.annotations :: a in r.value.data <==> a.userId == u && a.status == s
  {
    Relabel(FilterAnnotation(t, u, None, Some([s]), None, None, None, None))
  }

  /** `getAllBetweenDates(user_id, startDate, endDate)`: the user's rows dated within the bounds that are non-empty. */
  function GetAllBetweenDates(t: Tables, u: UserId, startDate: Date, endDate: Date): (r: Result<Reply<seq<Annotation>>, Thrown>)
    ensures r.Success? <==> Annotations !in t.faults
    ensures r.Success? ==> r.value.status == 200
    ensures r.Success? ==> forall a | a in t.annotations :: a in r.value.data <==>
        a.userId == u && (startDate != "" ==> DateLe(startDate, a.date)) && (endDate != "" ==> DateLe(a.date, endDate))
  {
    Relabel(FilterAnnotation(t, u, None, None, None, None, Some(startDate), Some(endDate)))
  }

  /** `getAllPendentOrExpired(user_id, offsetDate)`: the user's unconfirmed rows dated up to `offsetDate`. */
  function GetAllPendentOrExpired(t: Tables, u: UserId, offsetDate: Date): (r: Result<Reply<seq<Annotation>>, Thrown>)
    ensures r.Success? <==> Annotations !in t.faults
    ensures r.Success? ==> r.value.status == 200
    ensures r.Success? ==> forall a | a in t.annotations :: a in r.value.data <==>
        a.userId == u && !IsConfirmed(a.status) && (offsetDate != "" ==> DateLe(a.date, offsetDate))
  {
    Relabel(FilterAnnotation(t, u, None, Some([Pendent, Expired]), None, None, None, Some(offsetDate)))
  }

  /** A bound of 0 or "" gives the same rows as no bound at all. */
  lemma FalsyBoundsAreSkipped(t: Tables, u: UserId, annonType: Option<AnnotationType>, statuses: Option<seq<Status>>)
    ensures FilterAnnotation(t, u, annonType, statuses, Some(0), Some(0), Some(""), Some(""))
         == FilterAnnotation(t, u, annonType, statuses, None, None, None, None)
  {
  }

  /** An empty status list is still applied, so it matches no row. */
  lemma EmptyStatusListMatchesNothing(t: Tables, u: UserId)
    requires Annotations !in t.faults
    ensures FilterAnnotation(t, u, None, Some([]), None, None, None, None).value.data == []
  {
    RejectNone(t.annotations, PassesAnnotationFilter(AnnotationFilter(u, None, Some([]), None, None, None, None)));
  }
}
