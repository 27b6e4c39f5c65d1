/**
 * The bot's event handlers: the routing of every incoming message (with
 * the optional alarm check in front of it), the karma and reaction rows
 * kept by reactions added and removed, and the daily reset of the usage
 * allowances driven by an hourly tick.
 */
module Bot {
  import opened Wrappers
  import opened Text
  import opened Config
  import opened Ledger
  import opened ReactionTable
  import opened Db
  import opened Talk
  import Safety

  // ---------------------------------------------------------------------
  // Message routing
  // ---------------------------------------------------------------------

  /** `any(word in text for word in words)` */
  function ContainsAny(text: string, words: seq<string>): (r: bool)
    ensures r <==> exists i :: 0 <= i < |words| && Contains(text, words[i])
    decreases |words|
  {
    if |words| == 0 then false
    else
      var rest := ContainsAny(text, words[1..]);
      assert forall i :: 1 <= i < |words| ==> words[i] == words[1..][i - 1];
      Contains(text, words[0]) || rest
  }

  /**
   * The alarm check runs only when it is switched on, in a guild, and when
   * some alarming phrase occurs in the lower-cased message.
   */
  predicate Alarmed(enabled: bool, inGuild: bool, content: string) {
    enabled && inGuild && ContainsAny(Lower(content), Safety.AlarmingWords)
  }

  /** What `on_message` goes on to do with a message. */
  datatype Route =
    | Ignored                                   // the author is a bot
    | RunCommands                               // `bot.process_commands(message)`
    | PromptChain                               // `handle_prompt_chain(message)`
    | ReplyWith(target: ChatMessage, text: string) // `target.reply(text)`
    | ResendFailed                              // the original of `!rs` could not be fetched
    | Done                                      // `!rs` on a bot message that replies to nothing

  /** The text a message must start with to address the bot: its mention. */
  function Mention(botId: nat): string {
    "<@" + NatToString(botId) + ">"
  }

  /** `s[n:]` for a non-negative `n` */
  function Drop(s: string, n: nat): (r: string)
    ensures |s| <= n ==> r == ""
    ensures |s| > n ==> r == s[n..]
  {
    if |s| <= n then "" else s[n..]
  }

  /**
   * The special handling of a reply to one of the bot's own messages:
   * `!tts` is a command, `!rw` answers the bot's message with the rest of
   * the text, `!rs` answers the message the bot's message replied to with
   * that message's content followed by the text without its first `!rs`.
   * Anything else is not special.
   */
  function BotReplyRoute(m: ChatMessage, replied: ChatMessage, fetch: Fetch): Option<Route> {
    if StartsWith(m.content, "!tts") then Some(RunCommands)
    else if StartsWith(m.content, "!rw") then Some(ReplyWith(replied, Strip(Drop(m.content, 4))))
    else if StartsWith(m.content, "!rs") then
      match replied.replyTo
      case None => Some(Done)
      case Some(originalId) =>
        match fetch(originalId)
        case None => Some(ResendFailed)
        case Some(original) => Some(ReplyWith(original, original.content + ReplaceFirst(m.content, "!rs", "")))
    else None
  }

  /**
   * `on_message` after the alarm check: bots are ignored; a message that
   * starts with the bot's mention is a command when the framework
   * recognises one and a prompt otherwise; a reply to the bot may be
   * special; everything else is handed to the command framework.
   */
  function RouteMessage(m: ChatMessage, authorIsBot: bool, botId: nat, commandValid: bool, fetch: Fetch)
    : (r: Route)
    ensures authorIsBot <==> r == Ignored
    ensures !authorIsBot && StartsWith(m.content, Mention(botId)) ==>
      r == if commandValid then RunCommands else PromptChain
    ensures r == PromptChain ==> !authorIsBot && StartsWith(m.content, Mention(botId)) && !commandValid
    ensures (r.ReplyWith? || r == ResendFailed || r == Done) ==>
      && m.replyTo.Some? && fetch(m.replyTo.value).Some? && fetch(m.replyTo.value).value.authorId == botId
      && !StartsWith(m.content, Mention(botId))
    ensures !authorIsBot && !StartsWith(m.content, Mention(botId)) && m.replyTo.None? ==> r == RunCommands
  {
    if authorIsBot then Ignored
    else if StartsWith(m.content, Mention(botId)) then (if commandValid then RunCommands else PromptChain)
    else
      var replied := if m.replyTo.Some? then fetch(m.replyTo.value) else None;
      var special := if replied.Some? && replied.value.authorId == botId then BotReplyRoute(m, replied.value, fetch) else None;
      special.GetOr(RunCommands)
  }

  /** `!rw <text>` on a reply to the bot answers the bot's message with the text, stripped. */
  lemma RewriteReply(m: ChatMessage, botId: nat, commandValid: bool, fetch: Fetch, text: string)
    requires m.content == "!rw " + text && m.replyTo.Some?
    requires fetch(m.replyTo.value).Some? && fetch(m.replyTo.value).value.authorId == botId
    ensures RouteMessage(m, false, botId, commandValid, fetch) == ReplyWith(fetch(m.replyTo.value).value, Strip(text))
  {
    var c := m.content;
    NotAddressed(c, botId);
    assert c == "!rw" + (" " + text);
    PrefixOfConcat("!rw", " " + text);
    PrefixOfConcat("!rw ", text);
    NotTts(c);
    var replied := fetch(m.replyTo.value).value;
    assert BotReplyRoute(m, replied, fetch) == Some(ReplyWith(replied, Strip(text)));
  }

  /** A message whose second character is not `t` is not `!tts`. */
  lemma NotTts(content: string)
    requires |content| > 1 && content[1] != 't'
    ensures !StartsWith(content, "!tts")
  {
    if |content| >= 4 {
      assert content[..4][1] == content[1];
    }
  }

  /** A message starting with `!` does not start with the bot's mention. */
  lemma NotAddressed(content: string, botId: nat)
    requires |content| > 0 && content[0] == '!'
    ensures !StartsWith(content, Mention(botId))
  {
    assert Mention(botId)[0] == '<';
  }

  /**
   * `!rs<text>` on a reply to the bot, whose message replies to an
   * original, answers the original with its content followed by the text.
   */
  lemma ResendReply(m: ChatMessage, botId: nat, commandValid: bool, fetch: Fetch, text: string)
    requires m.content == "!rs" + text && m.replyTo.Some?
    requires fetch(m.replyTo.value).Some? && fetch(m.replyTo.value).value.authorId == botId
    requires var replied := fetch(m.replyTo.value).value;
      replied.replyTo.Some? && fetch(replied.replyTo.value).Some?
    ensures var original := fetch(fetch(m.replyTo.value).value.replyTo.value).value;
      RouteMessage(m, false, botId, commandValid, fetch) == ReplyWith(original, original.content + text)
  {
    var c := m.content;
    NotAddressed(c, botId);
    PrefixOfConcat("!rs", text);
    NotTts(c);
    assert !StartsWith(c, "!rw") by {
      assert |c| >= 3 && c[..3][2] == 's' && "!rw"[2] == 'w';
    }
    ReplaceFirstOfPrefix(c, "!rs", "");
    assert ReplaceFirst(c, "!rs", "") == text by {
      assert "" + c[3..] == c[3..];
    }
    var replied := fetch(m.replyTo.value).value;
    var original := fetch(replied.replyTo.value).value;
    assert BotReplyRoute(m, replied, fetch) == Some(ReplyWith(original, original.content + text));
  }

  /**
   * `on_message`: the alarm check first, when it applies, with the author's
   * karma in the message's guild (0 without a row); then the routing.
   */
  method OnMessage(db: Database, timer: Safety.InsultTimer, m: ChatMessage, authorIsBot: bool, inGuild: bool,
                   alarmEnabled: bool, botId: nat, commandValid: bool, fetch: Fetch,
                   pooRoll: real, now: real, insultRoll: real, insults: seq<string>, pick: nat)
    returns (alarm: Option<string>, route: Route)
    modifies timer
    ensures route == RouteMessage(m, authorIsBot, botId, commandValid, fetch)
    ensures (authorIsBot || !Alarmed(alarmEnabled, inGuild, m.content)) ==>
      alarm.None? && timer.lastInsultDate == old(timer.lastInsultDate)
    ensures !authorIsBot && Alarmed(alarmEnabled, inGuild, m.content) ==>
      var karma := db.GetKarma(m.guildId, m.authorId);
      var consulted := !Safety.PooPoo(m.content, pooRoll) && karma < 0;
      var fired := consulted && insultRoll < Safety.InsultChance(now - old(timer.lastInsultDate));
      && alarm == Safety.AlarmReply(m.content, karma, pooRoll, fired, insults, pick)
      && timer.lastInsultDate == if fired then now else old(timer.lastInsultDate)
  {
    alarm := None;
    route := RouteMessage(m, authorIsBot, botId, commandValid, fetch);
    if authorIsBot {
      return;
    }
    if alarmEnabled && inGuild && ContainsAny(Lower(m.content), Safety.AlarmingWords) {
      var karma := db.GetKarma(m.guildId, m.authorId);
      alarm := Safety.HandleAlarmingWords(timer, m.content, karma, pooRoll, now, insultRoll, insults, pick);
    }
  }

  // ---------------------------------------------------------------------
  // Reactions
  // ---------------------------------------------------------------------

  /** The karma an added reaction gives its message's author: +1, -1, or none. */
  function Vote(emoji: string): (v: int)
    ensures v != 0 <==> emoji == UpvoteEmoji || emoji == DownvoteEmoji
    ensures emoji == UpvoteEmoji ==> v == 1
    ensures emoji == DownvoteEmoji ==> v == -1
  {
    if emoji == UpvoteEmoji then 1 else if emoji == DownvoteEmoji then -1 else 0
  }

  /**
   * `on_raw_reaction_add`: when the message, guild and member could all be
   * fetched and the emoji is a vote, the author's karma in the guild moves
   * by the vote and the reaction is recorded; otherwise nothing changes.
   */
  method OnReactionAdd(db: Database, fetched: bool, guild: nat, messageId: nat, authorId: nat,
                       memberId: nat, emoji: string)
    requires db.Valid()
    modifies db`karma, db`reactions
    ensures db.Valid()
    ensures db.karma == if fetched && Vote(emoji) != 0 then AddKarma(old(db.karma), guild, authorId, Vote(emoji))
                        else old(db.karma)
    ensures db.reactions == if fetched && Vote(emoji) != 0
                            then Upsert(old(db.reactions), Row(messageId, memberId, authorId, emoji))
                            else old(db.reactions)
  {
    if !fetched {
      return;
    }
    if emoji == UpvoteEmoji {
      db.UpdateKarma(guild, authorId, 1);
      db.AddReaction(messageId, memberId, authorId, emoji);
    } else if emoji == DownvoteEmoji {
      db.UpdateKarma(guild, authorId, -1);
      db.AddReaction(messageId, memberId, authorId, emoji);
    }
  }

  /**
   * `on_raw_reaction_remove`: the mirror image; the vote is taken back and
   * the reaction's row forgotten.
   */
  method OnReactionRemove(db: Database, fetched: bool, guild: nat, messageId: nat, authorId: nat,
                          memberId: nat, emoji: string)
    requires db.Valid()
    modifies db`karma, db`reactions
    ensures db.Valid()
    ensures db.karma == if fetched && Vote(emoji) != 0 then AddKarma(old(db.karma), guild, authorId, -Vote(emoji))
                        else old(db.karma)
    ensures db.reactions == if fetched && Vote(emoji) != 0
                            then RemoveKey(old(db.reactions), Key(messageId, memberId, emoji))
                            else old(db.reactions)
  {
    if !fetched {
      return;
    }
    if emoji == UpvoteEmoji {
      db.UpdateKarma(guild, authorId, -1);
      db.RemoveReaction(messageId, memberId, emoji);
    } else if emoji == DownvoteEmoji {
      db.UpdateKarma(guild, authorId, 1);
      db.RemoveReaction(messageId, memberId, emoji);
    }
  }

  /** A vote added and then removed leaves every karma score as it was. */
  lemma AddThenRemoveRestoresKarma(karma: map<(nat, nat), int>, guild: nat, authorId: nat, emoji: string)
    ensures var added := AddKarma(karma, guild, authorId, Vote(emoji));
      forall g: nat, u: nat :: KarmaOf(AddKarma(added, guild, authorId, -Vote(emoji)), g, u) == KarmaOf(karma, g, u)
  {
    AddKarmaUndo(karma, guild, authorId, Vote(emoji));
  }

  /** A reaction that was new, added and then removed, leaves the reaction rows as they were. */
  lemma AddThenRemoveRestoresTable(rows: seq<Row>, messageId: nat, authorId: nat, memberId: nat, emoji: string)
    requires !HasKey(rows, Key(messageId, memberId, emoji))
    ensures RemoveKey(Upsert(rows, Row(messageId, memberId, authorId, emoji)), Key(messageId, memberId, emoji)) == rows
  {
    RemoveUndoesInsert(rows, Row(messageId, memberId, authorId, emoji));
  }

  // ---------------------------------------------------------------------
  // The daily reset
  // ---------------------------------------------------------------------

  /** Whether some reading of the date differs from the one before it, the first from `start`. */
  predicate DateChanged(start: nat, dates: seq<nat>) {
    exists i :: 0 <= i < |dates| && Differs(start, dates, i)
  }

  /** Reading `i` differs from the reading before it (from `start` for the first). */
  predicate Differs(start: nat, dates: seq<nat>, i: nat)
    requires i < |dates|
  {
    dates[i] != if i == 0 then start else dates[i - 1]
  }

  /** The date seen last. */
  function LastDate(start: nat, dates: seq<nat>): (d: nat)
    ensures |dates| > 0 ==> d == dates[|dates| - 1]
  {
    if |dates| == 0 then start else dates[|dates| - 1]
  }

  /** `background_task`'s marker: the date (in US/Eastern) of the last reset, or of start-up. */
  class ResetClock {
    var lastReset: nat

    /** Start-up: the marker is today, so no reset happens until the date changes. */
    constructor (today: nat)
      ensures lastReset == today
    {
      lastReset := today;
    }

    /** One hourly tick: a new date resets every daily allowance and moves the marker. */
    method Tick(db: Database, today: nat)
      modifies this, db`usage
      ensures lastReset == today
      ensures db.usage == if today != old(lastReset) then ResetAll(old(db.usage), InitialDabloons) else old(db.usage)
    {
      if today != lastReset {
        db.ResetUsage(InitialDabloons);
        lastReset := today;
      }
    }

    /**
     * The loop of `background_task` over the dates read at successive
     * ticks: the allowances are reset once the date has changed at all,
     * and resetting again changes nothing, so however many days pass the
     * result is one reset.
     */
    method Run(db: Database, dates: seq<nat>)
      modifies this, db`usage
      ensures lastReset == LastDate(old(lastReset), dates)
      ensures db.usage == if DateChanged(old(lastReset), dates) then ResetAll(old(db.usage), InitialDabloons)
                          else old(db.usage)
    {
      ghost var start := lastReset;
      ghost var before := db.usage;
      var k := 0;
      while k < |dates|
        invariant 0 <= k <= |dates|
        invariant lastReset == LastDate(start, dates[..k])
        invariant db.usage == if DateChanged(start, dates[..k]) then ResetAll(before, InitialDabloons) else before
      {
        ghost var changed := DateChanged(start, dates[..k]);
        Tick(db, dates[k]);
        ResetAllIdempotent(before, InitialDabloons);
        DateChangedStep(start, dates, k);
        k := k + 1;
      }
      assert dates[..k] == dates;
    }
  }

  /** The dates up to `k + 1` changed when those up to `k` did or the next one differs from the last. */
  lemma DateChangedStep(start: nat, dates: seq<nat>, k: nat)
    requires k < |dates|
    ensures DateChanged(start, dates[..k + 1]) <==>
      DateChanged(start, dates[..k]) || dates[k] != LastDate(start, dates[..k])
  {
    var a, b := dates[..k], dates[..k + 1];
    assert forall i :: 0 <= i < k ==> Differs(start, a, i) == Differs(start, b, i);
    assert Differs(start, b, k) <==> dates[k] != LastDate(start, a);
  }

  /** A further tick on the date already seen last changes nothing: it neither resets nor moves the marker. */
  lemma SameDateTickIsNoOp(start: nat, dates: seq<nat>)
    ensures var more := dates + [LastDate(start, dates)];
      && (DateChanged(start, more) <==> DateChanged(start, dates))
      && LastDate(start, more) == LastDate(start, dates)
  {
    var more := dates + [LastDate(start, dates)];
    assert more[..|dates|] == dates;
    DateChangedStep(start, more, |dates|);
    assert more[..|dates| + 1] == more;
  }
}
