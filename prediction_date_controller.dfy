/**
 * The prediction date: one `current_date` per user, created lazily as the day
 * of the first read and overwritten by `update`.
 */
module PredictionDateController {
  import opened Wrappers
  import opened ErrorSystem
  import opened Domain
  import opened Store
  import opened Datastore

  /** What `get` replies: the created row, or only the stored date. */
  datatype Answer = CreatedRow(row: PredictionDate) | StoredDate(date: Date)

  /** `create(user_id)`: inserts `{user_id, current_date: today}` and returns it with status 201. */
  function CreateEffect(t: Tables, u: UserId, today: Date): (s: Step<Reply<Answer>>)
    ensures s.0.Success? <==> PredictionDates !in t.faults && u !in t.predictionDates
    ensures s.0.Success? ==>
      && s.0.value == Reply(CreatedRow(PredictionDate(u, today)), 201)
      && s.1 == t.(predictionDates := t.predictionDates[u := today])
    ensures s.0.Failure? ==> s.1 == t
  {
    var ins := InsertPredictionDate(t, u, today);
    if ins.0.Failure? then (Failure(ins.0.error), ins.1)
    else (Success(Reply(CreatedRow(PredictionDate(u, today)), 201)), ins.1)
  }

  method Create(db: Database, u: UserId, today: Date) returns (r: Result<Reply<Answer>, Thrown>)
    modifies db
    ensures (r, db.State()) == CreateEffect(old(db.State()), u, today)
  {
    var ins := db.InsertPredictionDate(u, today);
    if ins.Failure? {
      r := Failure(ins.error);
    } else {
      r := Success(Reply(CreatedRow(PredictionDate(u, today)), 201));
    }
  }

  /**
   * `get(user_id)`: the stored `current_date` with status 200, or, when the
   * user has no row, the row created for `today` with status 201.
   */
  function GetEffect(t: Tables, u: UserId, today: Date): (s: Step<Reply<Answer>>)
    ensures PredictionDates in t.faults ==> s == (Failure(Raise(t.faults, PredictionDates)), t)
    ensures PredictionDates !in t.faults ==> s.0.Success?
    ensures PredictionDates !in t.faults && u in t.predictionDates ==>
      s == (Success(Reply(StoredDate(t.predictionDates[u]), 200)), t)
    ensures PredictionDates !in t.faults && u !in t.predictionDates ==>
      s == (Success(Reply(CreatedRow(PredictionDate(u, today)), 201)), t.(predictionDates := t.predictionDates[u := today]))
  {
    match SelectPredictionDate(t, u)
    case Failure(e) => (Failure(e), t)
    case Success(None) => CreateEffect(t, u, today)
    case Success(Some(d)) => (Success(Reply(StoredDate(d), 200)), t)
  }

  method Get(db: Database, u: UserId, today: Date) returns (r: Result<Reply<Answer>, Thrown>)
    modifies db
    ensures (r, db.State()) == GetEffect(old(db.State()), u, today)
  {
    var sel := SelectPredictionDate(db.State(), u);
    match sel
    case Failure(e) =>
      r := Failure(e);
    case Success(None) =>
      r := Create(db, u, today);
    case Success(Some(d)) =>
      r := Success(Reply(StoredDate(d), 200));
  }

  /**
   * `update(user_id, current_date)`: overwrites the user's date and returns the
   * updated rows, none when the user has no row; nothing is created.
   */
  function UpdateEffect(t: Tables, u: UserId, d: Date): (s: Step<Reply<seq<PredictionDate>>>)
    ensures PredictionDates in t.faults ==> s == (Failure(Raise(t.faults, PredictionDates)), t)
    ensures s.0.Success? ==> s.0.value.status == 200
    ensures s.0.Success? ==> s.1.predictionDates.Keys == t.predictionDates.Keys
    ensures s.0.Success? && u in t.predictionDates ==>
      s.1.predictionDates[u] == d && s.0.value.data == [PredictionDate(u, d)]
    ensures s.0.Success? && u !in t.predictionDates ==> s.1 == t && s.0.value.data == []
    ensures forall w | w in t.predictionDates && w != u :: w in s.1.predictionDates && s.1.predictionDates[w] == t.predictionDates[w]
    ensures s.1.(predictionDates := t.predictionDates) == t
  {
    var upd := UpdatePredictionDate(t, u, d);
    if upd.0.Failure? then (Failure(upd.0.error), upd.1)
    else (Success(Reply(upd.0.value, 200)), upd.1)
  }

  method Update(db: Database, u: UserId, d: Date) returns (r: Result<Reply<seq<PredictionDate>>, Thrown>)
    modifies db
    ensures (r, db.State()) == UpdateEffect(old(db.State()), u, d)
  {
    var upd := db.UpdatePredictionDate(u, d);
    if upd.Failure? {
      r := Failure(upd.error);
    } else {
      r := Success(Reply(upd.value, 200));
    }
  }

  /** After a `get` that created the row, the next `get` finds it, returns its date and inserts nothing. */
  lemma GetCreatesOnce(t: Tables, u: UserId, today: Date, later: Date)
    requires PredictionDates !in t.faults
    ensures var first := GetEffect(t, u, today);
            var second := GetEffect(first.1, u, later);
            second.1 == first.1 && second.0.Success? && second.0.value.status == 200
            && (u !in t.predictionDates ==> second.0.value.data == StoredDate(today))
  {
  }

  /** An `update` followed by a `get` reads the updated date back. */
  lemma UpdateThenGet(t: Tables, u: UserId, d: Date, today: Date)
    requires PredictionDates !in t.faults && u in t.predictionDates
    ensures GetEffect(UpdateEffect(t, u, d).1, u, today).0 == Success(Reply(StoredDate(d), 200))
  {
  }
}
