/**
 * The fun commands that change state: `increase_tokens`, a top-up of the
 * daily balance, and the crowd-sourced insult list, which everyone but one
 * blocked user may add to and remove from. The list is the `insults` entry
 * of the static configuration file, modelled as a field.
 */
module Fun {
  import opened Text
  import opened Config
  import opened Ledger
  import opened Db

  /** The one user the insult commands refuse. */
  const BlockedUserId: nat := 267450712072519680

  const SubmissionResponses: seq<string> := [
    "Submitted, thank you!",
    "Submitted, thanks!",
    "Ooo, that was a good one!",
    "Ooo, he won't like that one!",
    "You're really good at this!"
  ]

  /** `increase_tokens(user_id, amount)`: the daily balance gains `amount`, a new row starts at 0.5 plus it. */
  method IncreaseTokens(db: Database, user: nat, amount: real)
    modifies db`usage
    ensures db.usage == AddUsage(old(db.usage), user, amount, InitialDabloons)
  {
    db.AddUsageBalance(user, amount, InitialDabloons);
  }

  /** `[s for s in insults if s != target]` */
  function Without(insults: seq<string>, target: string): (r: seq<string>)
    ensures |r| <= |insults|
    ensures forall s :: s in r <==> s in insults && s != target
    ensures |r| == |insults| <==> target !in insults
    decreases |insults|
  {
    if |insults| == 0 then []
    else
      var rest := Without(insults[1..], target);
      assert forall s :: s in insults <==> s == insults[0] || s in insults[1..];
      if insults[0] == target then rest else [insults[0]] + rest
  }

  /** The filter keeps the order: filtering a concatenation filters each part. */
  lemma {:induction false} WithoutAppend(a: seq<string>, b: seq<string>, target: string)
    ensures Without(a + b, target) == Without(a, target) + Without(b, target)
    decreases |a|
  {
    if |a| > 0 {
      assert (a + b)[1..] == a[1..] + b;
      WithoutAppend(a[1..], b, target);
    } else {
      assert a + b == b;
    }
  }

  /** Removing twice removes nothing more. */
  lemma {:induction false} WithoutIdempotent(insults: seq<string>, target: string)
    ensures Without(Without(insults, target), target) == Without(insults, target)
  {
    WithoutAbsent(Without(insults, target), target);
  }

  /** A list without the target is left as it is. */
  lemma {:induction false} WithoutAbsent(insults: seq<string>, target: string)
    requires target !in insults
    ensures Without(insults, target) == insults
    decreases |insults|
  {
    if |insults| > 0 {
      WithoutAbsent(insults[1..], target);
      assert insults == [insults[0]] + insults[1..];
    }
  }

  /** A submission is found again by a removal of the same text. */
  lemma SubmittedIsRemovable(insults: seq<string>, insult: string)
    ensures Without(insults + [Strip(insult)], Strip(insult)) == Without(insults, Strip(insult))
  {
    WithoutAppend(insults, [Strip(insult)], Strip(insult));
    assert Without([Strip(insult)], Strip(insult)) == [];
  }

  class InsultList {
    var insults: seq<string>

    constructor (initial: seq<string>)
      ensures insults == initial
    {
      insults := initial;
    }

    /**
     * `submitinsult`: the blocked user gets "Nice try!"; anyone else's
     * insult is appended, stripped, and they get one of the thanks.
     */
    method SubmitInsult(author: nat, insult: string, pick: nat) returns (reply: string)
      modifies this
      ensures author == BlockedUserId ==> reply == "Nice try!" && insults == old(insults)
      ensures author != BlockedUserId ==>
        insults == old(insults) + [Strip(insult)] && reply in SubmissionResponses
    {
      if author == BlockedUserId {
        return "Nice try!";
      }
      insults := insults + [Strip(insult)];
      reply := SubmissionResponses[pick % |SubmissionResponses|];
    }

    /**
     * `removeinsult`: the blocked user gets "Nice try!"; otherwise every
     * entry equal to the stripped text goes, in one rewrite, and the reply
     * says whether there was any.
     */
    method RemoveInsult(author: nat, insult: string) returns (reply: string)
      modifies this
      ensures author == BlockedUserId ==> reply == "Nice try!" && insults == old(insults)
      ensures author != BlockedUserId && Strip(insult) !in old(insults) ==>
        reply == "Not found!" && insults == old(insults)
      ensures author != BlockedUserId && Strip(insult) in old(insults) ==>
        reply == "Removed!" && insults == Without(old(insults), Strip(insult))
    {
      if author == BlockedUserId {
        return "Nice try!";
      }
      var target := Strip(insult);
      var kept := Without(insults, target);
      if |kept| == |insults| {
        reply := "Not found!";
      } else {
        insults := kept;
        reply := "Removed!";
      }
    }
  }
}
