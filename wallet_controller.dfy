/**
 * The wallet ledger: one balance per user, created lazily at zero, raised by
 * `add` without any check and lowered by `subtract` only when the balance
 * covers the amount.
 */
module WalletController {
  import opened Wrappers
  import opened ErrorSystem
  import opened Domain
  import opened Store
  import opened Datastore

  /** A row of `wallets`. */
  datatype Wallet = Wallet(userId: UserId, value: Money)

  /** The balance `get` yields for `u`: the stored one, or the zero of a new wallet. */
  function Balance(t: Tables, u: UserId): Money
  {
    if u in t.wallets then t.wallets[u] else 0
  }

  /** The tables once `u` has a wallet: a missing one is created at zero. */
  function Opened(t: Tables, u: UserId): (o: Tables)
    ensures o.wallets.Keys == t.wallets.Keys + {u}
    ensures o.wallets[u] == Balance(t, u)
    ensures forall w | w in t.wallets :: o.wallets[w] == t.wallets[w]
  {
    if u in t.wallets then t else t.(wallets := t.wallets[u := 0])
  }

  /** The tables with `u`'s balance set to `v` (a wallet that `get` has opened). */
  function WithBalance(t: Tables, u: UserId, v: Money): Tables
  {
    t.(wallets := t.wallets[u := v])
  }

  /** `create(user_id)`: inserts a zero wallet and returns it with status 201. */
  function CreateEffect(t: Tables, u: UserId): (s: Step<Reply<Wallet>>)
    ensures s.0.Success? <==> Wallets !in t.faults && u !in t.wallets
    ensures s.0.Success? ==> s.0.value == Reply(Wallet(u, 0), 201) && s.1 == Opened(t, u)
    ensures s.0.Failure? ==> s.1 == t
    ensures u in t.wallets && Wallets !in t.faults ==> s.0 == Failure(UniqueViolation)
  {
    var ins := Store.InsertWallet(t, u, 0);
    if ins.0.Failure? then (Failure(ins.0.error), ins.1)
    else (Success(Reply(Wallet(u, 0), 201)), ins.1)
  }

  method Create(db: Database, u: UserId) returns (r: Result<Reply<Wallet>, Thrown>)
    modifies db
    ensures (r, db.State()) == CreateEffect(old(db.State()), u)
  {
    var ins := db.InsertWallet(u, 0);
    if ins.Failure? {
      r := Failure(ins.error);
    } else {
      r := Success(Reply(Wallet(u, 0), 201));
    }
  }

  /**
   * `get(user_id)`: the stored wallet with status 200, or a freshly created zero
   * wallet with status 201. Only a failing table makes it fail.
   */
  function GetEffect(t: Tables, u: UserId): (s: Step<Reply<Wallet>>)
    ensures s.0.Success? <==> Wallets !in t.faults
    ensures s.0.Success? ==>
      && s.0.value.data == Wallet(u, Balance(t, u))
      && (s.0.value.status == 201 <==> u !in t.wallets)
      && s.0.value.status in {200, 201}
      && s.1 == Opened(t, u)
    ensures s.0.Failure? ==> s.0.error == Raise(t.faults, Wallets) && s.1 == t
  {
    match Store.SelectWallet(t, u)
    case Failure(e) => (Failure(e), t)
    case Success(None) => CreateEffect(t, u)
    case Success(Some(v)) => (Success(Reply(Wallet(u, v), 200)), t)
  }

  method Get(db: Database, u: UserId) returns (r: Result<Reply<Wallet>, Thrown>)
    modifies db
    ensures (r, db.State()) == GetEffect(old(db.State()), u)
  {
    var sel := Store.SelectWallet(db.State(), u);
    match sel
    case Failure(e) =>
      r := Failure(e);
    case Success(None) =>
      r := Create(db, u);
    case Success(Some(v)) =>
      r := Success(Reply(Wallet(u, v), 200));
  }

  /**
   * `update(user_id, value)`: overwrites the balance of `u`'s row, if there is
   * one; no row is created and no other row changes. Its data is null.
   */
  function UpdateEffect(t: Tables, u: UserId, v: Money): (s: Step<Reply<()>>)
    ensures s.0.Success? <==> Wallets !in t.faults
    ensures s.0.Success? ==> s.0.value.status == 200 && s.1 == t.(wallets := s.1.wallets)
    ensures s.0.Success? ==> s.1.wallets.Keys == t.wallets.Keys
    ensures s.0.Success? && u in t.wallets ==> s.1.wallets[u] == v
    ensures forall w | w in t.wallets && w != u :: w in s.1.wallets && s.1.wallets[w] == t.wallets[w]
    ensures s.0.Failure? ==> s.0.error == Raise(t.faults, Wallets) && s.1 == t
  {
    var upd := Store.UpdateWallet(t, u, v);
    if upd.0.Failure? then (Failure(upd.0.error), upd.1)
    else (Success(Reply((), 200)), upd.1)
  }

  method Update(db: Database, u: UserId, v: Money) returns (r: Result<Reply<()>, Thrown>)
    modifies db
    ensures (r, db.State()) == UpdateEffect(old(db.State()), u, v)
  {
    var upd := db.UpdateWallet(u, v);
    if upd.Failure? {
      r := Failure(upd.error);
    } else {
      r := Success(Reply((), 200));
    }
  }

  /**
   * `add(user_id, value)`: `get`, then `update` to the old balance plus `value`,
   * whatever the sign of `value`.
   */
  function AddEffect(t: Tables, u: UserId, v: Money): (s: Step<Reply<()>>)
    ensures s.0.Success? <==> Wallets !in t.faults
    ensures s.0.Success? ==> s.0.value.status == 200 && s.1 == WithBalance(t, u, Balance(t, u) + v)
    ensures s.0.Failure? ==> s.0.error == Raise(t.faults, Wallets) && s.1 == t
  {
    var g := GetEffect(t, u);
    if g.0.Failure? then (Failure(g.0.error), g.1)
    else UpdateEffect(g.1, u, g.0.value.data.value + v)
  }

  method Add(db: Database, u: UserId, v: Money) returns (r: Result<Reply<()>, Thrown>)
    modifies db
    ensures (r, db.State()) == AddEffect(old(db.State()), u, v)
  {
    var g := Get(db, u);
    if g.Failure? {
      r := Failure(g.error);
    } else {
      r := Update(db, u, g.value.data.value + v);
    }
  }

  /** The error `subtract` throws when the balance does not cover the amount. */
  const Insufficient: Thrown := GetNewResponseError("value must be below wallet value", 400)

  /**
   * `subtract(user_id, value)`: `get`, then a 400 error when the balance is below
   * `value` (the wallet `get` opened stays), else `update` to the balance minus
   * `value`.
   */
  function SubtractEffect(t: Tables, u: UserId, v: Money): (s: Step<Reply<()>>)
    ensures s.0.Success? <==> Wallets !in t.faults && v <= Balance(t, u)
    ensures s.0.Success? ==> s.0.value.status == 200 && s.1 == WithBalance(t, u, Balance(t, u) - v)
    ensures Wallets in t.faults ==> s.0 == Failure(Raise(t.faults, Wallets)) && s.1 == t
    ensures Wallets !in t.faults && Balance(t, u) < v ==> s.0 == Failure(Insufficient) && s.1 == Opened(t, u)
  {
    var g := GetEffect(t, u);
    if g.0.Failure? then (Failure(g.0.error), g.1)
    else if g.0.value.data.value < v then (Failure(Insufficient), g.1)
    else UpdateEffect(g.1, u, g.0.value.data.value - v)
  }

  method Subtract(db: Database, u: UserId, v: Money) returns (r: Result<Reply<()>, Thrown>)
    modifies db
    ensures (r, db.State()) == SubtractEffect(old(db.State()), u, v)
  {
    var g := Get(db, u);
    if g.Failure? {
      r := Failure(g.error);
    } else if g.value.data.value < v {
      r := Failure(Insufficient);
    } else {
      r := Update(db, u, g.value.data.value - v);
    }
  }

  /** After a successful `get`, a second `get` finds the row, returns it with status 200 and inserts nothing. */
  lemma GetIsIdempotent(t: Tables, u: UserId)
    requires GetEffect(t, u).0.Success?
    ensures var first := GetEffect(t, u);
            var second := GetEffect(first.1, u);
            second.0 == Success(Reply(first.0.value.data, 200)) && second.1 == first.1
  {
  }

  /** Neither `add` nor `subtract` can reach their "wallet not Found" branch: every failure is a datastore error or the 400. */
  lemma NoWalletNotFound(t: Tables, u: UserId, v: Money)
    ensures AddEffect(t, u, v).0.Failure? ==> IsPostgrestError(AddEffect(t, u, v).0.error)
    ensures SubtractEffect(t, u, v).0.Failure? ==>
      IsPostgrestError(SubtractEffect(t, u, v).0.error) || SubtractEffect(t, u, v).0.error.statusCode == Some(400)
  {
  }

  /** A successful `subtract` leaves a non-negative balance non-negative; subtracting the whole balance leaves zero. */
  lemma SubtractKeepsBalanceNonNegative(t: Tables, u: UserId, v: Money)
    requires Balance(t, u) >= 0
    requires SubtractEffect(t, u, v).0.Success?
    ensures Balance(SubtractEffect(t, u, v).1, u) >= 0
    ensures v == Balance(t, u) ==> Balance(SubtractEffect(t, u, v).1, u) == 0
  {
  }

  /** A negative `add` lowers the balance with no guard, even below zero. */
  lemma AddIsUnguarded(t: Tables, u: UserId, v: Money)
    requires Wallets !in t.faults
    ensures Balance(AddEffect(t, u, v).1, u) == Balance(t, u) + v
  {
  }

  /** `add` and `subtract` touch only `u`'s wallet: other users' balances, and the other tables, stay. */
  lemma LedgerTouchesOnlyTheUser(t: Tables, u: UserId, w: UserId, v: Money)
    requires w != u
    ensures Balance(AddEffect(t, u, v).1, w) == Balance(t, w)
    ensures Balance(SubtractEffect(t, u, v).1, w) == Balance(t, w)
    ensures AddEffect(t, u, v).1.(wallets := t.wallets) == t
    ensures SubtractEffect(t, u, v).1.(wallets := t.wallets) == t
  {
  }

  /**
   * Adding `v` and then subtracting `v` restores a non-negative balance (a
   * negative one fails the guard: `balance + v < v`).
   */
  lemma AddThenSubtractRestores(t: Tables, u: UserId, v: Money)
    requires Wallets !in t.faults
    requires Balance(t, u) >= 0
    ensures var a := AddEffect(t, u, v);
            var b := SubtractEffect(a.1, u, v);
            b.0.Success? && b.1 == Opened(t, u)
  {
    var a := AddEffect(t, u, v);
    assert Balance(a.1, u) == Balance(t, u) + v;
    assert a.1.wallets[u := Balance(t, u)] == Opened(t, u).wallets;
    assert WithBalance(a.1, u, Balance(t, u)) == Opened(t, u);
  }

  /** Subtracting `v` successfully and then adding `v` restores the balance. */
  lemma SubtractThenAddRestores(t: Tables, u: UserId, v: Money)
    requires SubtractEffect(t, u, v).0.Success?
    ensures var a := SubtractEffect(t, u, v);
            var b := AddEffect(a.1, u, v);
            b.0.Success? && b.1 == Opened(t, u)
  {
    var a := SubtractEffect(t, u, v);
    assert Balance(a.1, u) == Balance(t, u) - v;
    assert a.1.wallets[u := Balance(t, u)] == Opened(t, u).wallets;
    assert WithBalance(a.1, u, Balance(t, u)) == Opened(t, u);
  }
}
