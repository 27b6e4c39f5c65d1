/**
 * The crisis-word responder: the insult timer, whose chance of firing grows
 * from 0.001 to 0.1 over 48 hours since the last insult, and the choice of
 * reply to a message containing an alarming phrase. The clock and the
 * random numbers are parameters.
 */
module Safety {
  import opened Wrappers
  import opened Text

  /** The phrases that make a message alarming. */
  const AlarmingWords: seq<string> := [
    "kill myself", "kms", "am going to commit suicide", "am gonna commit suicide",
    "i will commit suicide", "i want to commit suicide", "i wanna commit suicide",
    "shoot myself", "hang myself", "drown myself", "i should die", "end my life",
    "i want to die", "i crave death", "sewer slide", "i hope i die", "decapitate myself",
    "stab myself", "im gonna jump", "blow myself up", "i wish for the sweet release of death"
  ]

  const PeePee: string := "\U{1F7E2}\U{1F434}: peepee"

  const CrisisMessage: string :=
    "\U{1F7E2}\U{1F434}: Please check out crisis resources. If you're in danger, call emergency services immediately or text HOME to 741741 for free crisis counseling."

  /**
   * The chance of an insult `elapsed` seconds after the last one: rising
   * linearly from 0.001 and capped at 0.1, which it reaches after 48 hours.
   */
  function InsultChance(elapsed: real): (c: real)
    ensures c <= 0.1
    ensures 0.0 <= elapsed ==> 0.001 <= c
    ensures elapsed == 0.0 ==> c == 0.001
    ensures elapsed >= 172800.0 ==> c == 0.1
    ensures elapsed < 172800.0 ==> c < 0.1
  {
    var raw := 0.001 + (0.1 - 0.001) * (elapsed / (48.0 * 3600.0));
    if raw < 0.1 then raw else 0.1
  }

  /** The longer since the last insult, the likelier the next. */
  lemma InsultChanceMonotone(a: real, b: real)
    requires a <= b
    ensures InsultChance(a) <= InsultChance(b)
  {
  }

  /** The module-level `last_insult_date`, which starts at the epoch. */
  class InsultTimer {
    var lastInsultDate: real

    constructor ()
      ensures lastInsultDate == 0.0
    {
      lastInsultDate := 0.0;
    }

    /**
     * `insult_proc()` at time `now` with the random draw `roll`: true
     * exactly when the draw falls below the chance, and only then is the
     * timer moved to `now`, which brings the chance back to 0.001.
     */
    method InsultProc(now: real, roll: real) returns (fired: bool)
      modifies this
      ensures fired <==> roll < InsultChance(now - old(lastInsultDate))
      ensures lastInsultDate == if fired then now else old(lastInsultDate)
      ensures fired ==> InsultChance(now - lastInsultDate) == 0.001
    {
      var chance := InsultChance(now - lastInsultDate);
      if roll < chance {
        lastInsultDate := now;
        return true;
      }
      return false;
    }
  }

  /** The "poopoo" special case: the phrase in the lowered text and a draw below 0.3. */
  predicate PooPoo(content: string, roll: real) {
    Contains(Lower(content), "poopoo") && roll < 0.3
  }

  /**
   * The reply `handle_alarming_words` gives, `None` for no reply at all:
   * "peepee" for the special case; otherwise, for a user with negative
   * karma when the timer `fired`, an insult picked from the list, or
   * silence when the list is empty; and in every other case the crisis
   * message.
   */
  function AlarmReply(content: string, karma: int, pooRoll: real, fired: bool, insults: seq<string>, pick: nat)
    : (r: Option<string>)
    ensures PooPoo(content, pooRoll) ==> r == Some(PeePee)
    ensures !PooPoo(content, pooRoll) && karma < 0 && fired ==>
      (r.None? <==> insults == []) && (r.Some? ==> r.value in insults)
    ensures !PooPoo(content, pooRoll) && !(karma < 0 && fired) ==> r == Some(CrisisMessage)
  {
    if PooPoo(content, pooRoll) then Some(PeePee)
    else if karma < 0 && fired then
      if |insults| > 0 then Some(insults[pick % |insults|]) else None
    else Some(CrisisMessage)
  }

  /**
   * `handle_alarming_words(message, current_karma)`: the timer is consulted,
   * and may move, only for a user with negative karma outside the special
   * case; the reply is the one `AlarmReply` gives for what the timer did.
   */
  method HandleAlarmingWords(timer: InsultTimer, content: string, karma: int, pooRoll: real,
                             now: real, insultRoll: real, insults: seq<string>, pick: nat)
    returns (reply: Option<string>)
    modifies timer
    ensures var consulted := !PooPoo(content, pooRoll) && karma < 0;
      var fired := consulted && insultRoll < InsultChance(now - old(timer.lastInsultDate));
      && reply == AlarmReply(content, karma, pooRoll, fired, insults, pick)
      && timer.lastInsultDate == if fired then now else old(timer.lastInsultDate)
  {
    if PooPoo(content, pooRoll) {
      return Some(PeePee);
    }
    var fired := false;
    if karma < 0 {
      fired := timer.InsultProc(now, insultRoll);
    }
    reply := AlarmReply(content, karma, pooRoll, fired, insults, pick);
  }
}
