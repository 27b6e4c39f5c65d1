/**
 * The `tokens` command and its alias `dabloons`: a user's two balances
 * shown in dabloons, 250 to the dollar, rounded the way Python's `round`
 * rounds (to the nearest integer, a tie to the even one).
 */
module Tokens {
  import opened Wrappers
  import opened Ledger
  import opened Db
  import Config

  /** Dabloons per dollar of balance. */
  const DabloonsPerDollar: real := 250.0

  const NoDataMessage: string := "No data found for this user."

  /** `round(x)`: the nearest integer, a tie going to the even neighbour. */
  function RoundHalfEven(x: real): (r: int)
    ensures x - 0.5 <= r as real <= x + 0.5
    ensures (r as real) - x == 0.5 || x - (r as real) == 0.5 ==> r % 2 == 0
  {
    var f := x.Floor;
    var d := x - f as real;
    if d < 0.5 then f
    else if d > 0.5 then f + 1
    else if f % 2 == 0 then f
    else f + 1
  }

  /** The integer strictly nearer than one half is the one chosen. */
  lemma RoundNearest(x: real, n: int)
    requires x - 0.5 < n as real < x + 0.5
    ensures RoundHalfEven(x) == n
  {
    var r := RoundHalfEven(x);
    assert (r - n) as real < 1.0 && (n - r) as real < 1.0;
  }

  /** Rounding a whole number gives it back. */
  lemma RoundWhole(n: int)
    ensures RoundHalfEven(n as real) == n
  {
    RoundNearest(n as real, n);
  }

  /** The dabloons a balance is shown as. */
  function Dabloons(balance: real): (d: int)
    ensures balance * DabloonsPerDollar - 0.5 <= d as real <= balance * DabloonsPerDollar + 0.5
  {
    RoundHalfEven(balance * DabloonsPerDollar)
  }

  /** A balance worth a whole number of dabloons is shown as exactly that number. */
  lemma DabloonsOfWhole(k: int)
    ensures Dabloons(k as real / DabloonsPerDollar) == k
  {
    assert (k as real / DabloonsPerDollar) * DabloonsPerDollar == k as real;
    RoundWhole(k);
  }

  /** A fresh account's daily allowance of 0.5 shows as 125 dabloons. */
  lemma InitialAllowanceShown()
    ensures Dabloons(Config.InitialDabloons) == 125
  {
    DabloonsOfWhole(125);
  }

  /** What the command answers: no data, or the finances embed of the caller. */
  datatype Answer = NoData | Finances(title: string, dabloons: int, bankDabloons: int)

  /** The user asked about: the one named, else the caller. */
  function TargetUser(author: nat, target: Option<int>): (u: int)
    ensures target.None? ==> u == author
    ensures target.Some? ==> u == target.value
  {
    target.GetOr(author)
  }

  /**
   * `tokens(ctx, user_id)` (and `dabloons`, which only forwards to it):
   * without a usage row the answer is the no-data message and no embed;
   * otherwise both balances in dabloons, under the caller's display name
   * whoever's balances they are.
   */
  function Tokens(db: Database, author: nat, authorName: string, target: Option<int>): (a: Answer)
    reads db
    ensures a.NoData? <==> TargetUser(author, target) < 0 || db.GetUsage(TargetUser(author, target)).None?
    ensures a.Finances? ==>
      var balances := db.GetUsage(TargetUser(author, target)).value;
      && a.title == authorName + "'s Finances"
      && a.dabloons == Dabloons(balances.0)
      && a.bankDabloons == Dabloons(balances.1)
  {
    var user := TargetUser(author, target);
    if user < 0 then NoData
    else match db.GetUsage(user)
      case None => NoData
      case Some((usage, bank)) => Finances(authorName + "'s Finances", Dabloons(usage), Dabloons(bank))
  }

  /** A user nobody has debited or topped up has no data, whoever asks. */
  lemma UnknownUserHasNoData(db: Database, author: nat, authorName: string, user: nat)
    requires user !in db.usage
    ensures Tokens(db, author, authorName, Some(user)) == NoData
  {
  }

  /** A fresh account, whatever the caller's name, shows 125 dabloons and an empty bank. */
  lemma FreshAccountShown(db: Database, author: nat, authorName: string)
    requires author in db.usage && db.usage[author] == Account(Config.InitialDabloons, 0.0, 0.0)
    ensures Tokens(db, author, authorName, None) == Finances(authorName + "'s Finances", 125, 0)
  {
    InitialAllowanceShown();
    RoundWhole(0);
  }
}
