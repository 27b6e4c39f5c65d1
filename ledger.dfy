/**
 * The arithmetic of the two ledgers kept in the bot's database: the
 * `usage` table (a daily allowance, a bank that absorbs overflow, and the
 * lifetime total) and the `karma` table keyed by (guild, user). Each
 * function here is the new table an SQL read-modify-write leaves behind;
 * the database class applies them in place.
 */
module Ledger {

  /** One row of the `usage` table. */
  datatype Account = Account(usageBalance: real, bankBalance: real, totalUsage: real)

  function Max(a: real, b: real): real {
    if a >= b then a else b
  }

  // ---------------------------------------------------------------------
  // Debits
  // ---------------------------------------------------------------------

  /**
   * The row `update_usage` writes over an existing account: the daily
   * balance pays first, the bank pays the rest and is clamped at zero.
   */
  function Debit(a: Account, delta: real): (r: Account)
    ensures r.totalUsage == a.totalUsage + delta
    ensures a.usageBalance - delta >= 0.0 ==>
      r.usageBalance == a.usageBalance - delta && r.bankBalance == a.bankBalance
    ensures a.usageBalance - delta < 0.0 ==>
      r.usageBalance == 0.0 && r.bankBalance == Max(a.bankBalance - (delta - a.usageBalance), 0.0)
    ensures a.bankBalance >= 0.0 ==> r.usageBalance >= 0.0 && r.bankBalance >= 0.0
    ensures a.bankBalance >= 0.0 ==>
      r.usageBalance + r.bankBalance == Max(0.0, a.usageBalance + a.bankBalance - delta)
  {
    var newBalance := a.usageBalance - delta;
    if newBalance < 0.0 then
      var remainder := -newBalance;
      Account(0.0, Max(a.bankBalance - remainder, 0.0), a.totalUsage + delta)
    else
      Account(a.usageBalance - delta, a.bankBalance, a.totalUsage + delta)
  }

  /**
   * `update_usage(user, delta, initial_balance)` on the whole table. A user
   * without a row gets one holding `initial_balance - delta`, unclamped, an
   * empty bank and the column default 0 as lifetime total.
   */
  function DebitUser(rows: map<nat, Account>, user: nat, delta: real, initialBalance: real)
    : (r: map<nat, Account>)
    ensures r.Keys == rows.Keys + {user}
    ensures forall v :: v in rows && v != user ==> r[v] == rows[v]
    ensures user !in rows ==> r[user] == Account(initialBalance - delta, 0.0, 0.0)
    ensures user in rows ==> r[user] == Debit(rows[user], delta)
  {
    rows[user := if user in rows then Debit(rows[user], delta) else Account(initialBalance - delta, 0.0, 0.0)]
  }

  function Sum(ds: seq<real>): real
    decreases |ds|
  {
    if |ds| == 0 then 0.0 else ds[0] + Sum(ds[1..])
  }

  /** Debits applied one after another to one existing account. */
  function DebitAll(a: Account, deltas: seq<real>): Account
    decreases |deltas|
  {
    if |deltas| == 0 then a else DebitAll(Debit(a, deltas[0]), deltas[1..])
  }

  /**
   * Over any run of non-negative debits on an account whose balances are not
   * negative, the two balances together fall to exactly
   * max(0, starting balances - total debited), never below zero each, and
   * the lifetime total grows by the sum debited.
   */
  lemma {:induction false} DebitAllBalances(a: Account, deltas: seq<real>)
    requires a.usageBalance >= 0.0 && a.bankBalance >= 0.0
    requires forall i :: 0 <= i < |deltas| ==> deltas[i] >= 0.0
    ensures var r := DebitAll(a, deltas);
      && r.usageBalance >= 0.0 && r.bankBalance >= 0.0
      && r.usageBalance + r.bankBalance == Max(0.0, a.usageBalance + a.bankBalance - Sum(deltas))
      && r.totalUsage == a.totalUsage + Sum(deltas)
    decreases |deltas|
  {
    if |deltas| > 0 {
      var b := Debit(a, deltas[0]);
      DebitAllBalances(b, deltas[1..]);
      var x := a.usageBalance + a.bankBalance - deltas[0];
      assert b.usageBalance + b.bankBalance == Max(0.0, x);
      assert Sum(deltas) == deltas[0] + Sum(deltas[1..]);
      assert Sum(deltas[1..]) >= 0.0 by { SumNonNegative(deltas[1..]); }
    }
  }

  lemma {:induction false} SumNonNegative(ds: seq<real>)
    requires forall i :: 0 <= i < |ds| ==> ds[i] >= 0.0
    ensures Sum(ds) >= 0.0
    decreases |ds|
  {
    if |ds| > 0 {
      SumNonNegative(ds[1..]);
    }
  }

  // ---------------------------------------------------------------------
  // Daily reset and top-ups
  // ---------------------------------------------------------------------

  /** `reset_usage(initial)`: every row's daily balance becomes `initial`. */
  function ResetAll(rows: map<nat, Account>, initial: real): (r: map<nat, Account>)
    ensures r.Keys == rows.Keys
    ensures forall u :: u in rows ==>
      r[u].usageBalance == initial && r[u].bankBalance == rows[u].bankBalance
      && r[u].totalUsage == rows[u].totalUsage
  {
    map u | u in rows :: rows[u].(usageBalance := initial)
  }

  /** Resetting twice is resetting once. */
  lemma ResetAllIdempotent(rows: map<nat, Account>, initial: real)
    ensures ResetAll(ResetAll(rows, initial), initial) == ResetAll(rows, initial)
  {
  }

  /**
   * Adding to the daily balance (`adddabloons`, `increase_tokens`): an
   * existing row gains `amount`; a missing one is created with
   * `initial + amount` and an empty bank.
   */
  function AddUsage(rows: map<nat, Account>, user: nat, amount: real, initial: real)
    : (r: map<nat, Account>)
    ensures r.Keys == rows.Keys + {user}
    ensures forall v :: v in rows && v != user ==> r[v] == rows[v]
    ensures user in rows ==>
      r[user].usageBalance == rows[user].usageBalance + amount
      && r[user].bankBalance == rows[user].bankBalance && r[user].totalUsage == rows[user].totalUsage
    ensures user !in rows ==> r[user] == Account(initial + amount, 0.0, 0.0)
  {
    rows[user := if user in rows then rows[user].(usageBalance := rows[user].usageBalance + amount)
                 else Account(initial + amount, 0.0, 0.0)]
  }

  /**
   * Adding to the bank (`addbankdabloons`): an existing row's bank gains
   * `amount`; a missing row is created with the initial daily balance and
   * `amount` in the bank.
   */
  function AddBank(rows: map<nat, Account>, user: nat, amount: real, initial: real)
    : (r: map<nat, Account>)
    ensures r.Keys == rows.Keys + {user}
    ensures forall v :: v in rows && v != user ==> r[v] == rows[v]
    ensures user in rows ==>
      r[user].bankBalance == rows[user].bankBalance + amount
      && r[user].usageBalance == rows[user].usageBalance && r[user].totalUsage == rows[user].totalUsage
    ensures user !in rows ==> r[user] == Account(initial, amount, 0.0)
  {
    rows[user := if user in rows then rows[user].(bankBalance := rows[user].bankBalance + amount)
                 else Account(initial, amount, 0.0)]
  }

  // ---------------------------------------------------------------------
  // Karma
  // ---------------------------------------------------------------------

  /** `get_karma(guild, user)`: the stored score, 0 when there is no row. */
  function KarmaOf(karma: map<(nat, nat), int>, guild: nat, user: nat): (k: int)
    ensures (guild, user) !in karma ==> k == 0
    ensures (guild, user) in karma ==> k == karma[(guild, user)]
  {
    if (guild, user) in karma then karma[(guild, user)] else 0
  }

  /**
   * `update_karma` as the code is written: it asks `get_karma`, which
   * answers 0 rather than `None` for a missing row, so the INSERT branch is
   * never taken and the UPDATE matches no row.
   */
  function AddKarmaAsWritten(karma: map<(nat, nat), int>, guild: nat, user: nat, delta: int)
    : (r: map<(nat, nat), int>)
    ensures (guild, user) in karma ==> r == karma[(guild, user) := karma[(guild, user)] + delta]
    ensures (guild, user) !in karma ==> r == karma
  {
    if (guild, user) in karma then karma[(guild, user) := karma[(guild, user)] + delta] else karma
  }

  /** The first upvote a user ever receives is lost by the code as written. */
  lemma FirstKarmaIsLost(guild: nat, user: nat)
    ensures KarmaOf(AddKarmaAsWritten(map[], guild, user, 1), guild, user) == 0
  {
  }

  /**
   * `update_karma` as intended: a missing row is created holding `delta`,
   * an existing row gains `delta`.
   */
  function AddKarma(karma: map<(nat, nat), int>, guild: nat, user: nat, delta: int)
    : (r: map<(nat, nat), int>)
    ensures r.Keys == karma.Keys + {(guild, user)}
    ensures KarmaOf(r, guild, user) == KarmaOf(karma, guild, user) + delta
    ensures forall g: nat, u: nat :: (g, u) != (guild, user) ==> KarmaOf(r, g, u) == KarmaOf(karma, g, u)
  {
    karma[(guild, user) := KarmaOf(karma, guild, user) + delta]
  }

  /** A delta followed by its opposite leaves every score as it was. */
  lemma AddKarmaUndo(karma: map<(nat, nat), int>, guild: nat, user: nat, delta: int)
    ensures forall g: nat, u: nat :: KarmaOf(AddKarma(AddKarma(karma, guild, user, delta), guild, user, -delta), g, u)
                           == KarmaOf(karma, g, u)
  {
  }
}
