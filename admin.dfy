/**
 * The administrator's commands: the permission gate, the two top-ups of a
 * user's balances, the manual reset of the daily allowances, and the scrape
 * of a guild's history, which records the first sighting of every message
 * and replays every reaction into the reaction rows. The scrape's output
 * file is modelled by the map it would hold.
 */
module Admin {
  import opened Wrappers
  import opened Text
  import opened Config
  import opened Ledger
  import opened ReactionTable
  import opened Db
  import Talk

  const NoPermission: string := "You do not have permission to use this command."
  const UsageResetDone: string := "Usage data has been reset."

  /** `is_admin(ctx)`: the author is the configured administrator (0 when none is configured). */
  predicate IsAdmin(author: nat, adminId: nat) {
    author == adminId
  }

  /** What an administrator command answers. */
  datatype Answer =
    | Refused                           // the permission message
    | AddedBank(amount: real, user: nat)  // "Added {amount} bank dabloons to user {user_id}."
    | AddedUsage(amount: real, user: nat) // "Added {amount} usage dabloons to user {user_id}."
    | UsageReset                        // "Usage data has been reset."
    | Scraped(count: nat)               // "Scraped {count} messages and updated reactions."

  /** The text of a scrape's answer, whose only number is a count. */
  function ScrapedText(count: nat): string {
    "Scraped " + NatToString(count) + " messages and updated reactions."
  }

  // ---------------------------------------------------------------------
  // Ledger commands
  // ---------------------------------------------------------------------

  /** `addbankdabloons(user_id, amount)`: only the administrator may add to a bank balance. */
  method AddBankDabloons(db: Database, author: nat, adminId: nat, user: nat, amount: real) returns (a: Answer)
    modifies db`usage
    ensures !IsAdmin(author, adminId) ==> a == Refused && db.usage == old(db.usage)
    ensures IsAdmin(author, adminId) ==>
      a == AddedBank(amount, user) && db.usage == AddBank(old(db.usage), user, amount, InitialDabloons)
  {
    if !IsAdmin(author, adminId) {
      return Refused;
    }
    db.AddBankBalance(user, amount, InitialDabloons);
    a := AddedBank(amount, user);
  }

  /** `adddabloons(user_id, amount)`: only the administrator may add to a daily balance. */
  method AddDabloons(db: Database, author: nat, adminId: nat, user: nat, amount: real) returns (a: Answer)
    modifies db`usage
    ensures !IsAdmin(author, adminId) ==> a == Refused && db.usage == old(db.usage)
    ensures IsAdmin(author, adminId) ==>
      a == AddedUsage(amount, user) && db.usage == AddUsage(old(db.usage), user, amount, InitialDabloons)
  {
    if !IsAdmin(author, adminId) {
      return Refused;
    }
    db.AddUsageBalance(user, amount, InitialDabloons);
    a := AddedUsage(amount, user);
  }

  /** `resetusagedata`: the daily reset, on demand. */
  method ResetUsageData(db: Database, author: nat, adminId: nat) returns (a: Answer)
    modifies db`usage
    ensures !IsAdmin(author, adminId) ==> a == Refused && db.usage == old(db.usage)
    ensures IsAdmin(author, adminId) ==> a == UsageReset && db.usage == ResetAll(old(db.usage), InitialDabloons)
  {
    if !IsAdmin(author, adminId) {
      return Refused;
    }
    db.ResetUsage(InitialDabloons);
    a := UsageReset;
  }

  // ---------------------------------------------------------------------
  // The history scrape
  // ---------------------------------------------------------------------

  /** One reaction on a message: the emoji's text and everyone who reacted with it. */
  datatype Reaction = Reaction(emoji: string, users: seq<nat>)

  /** A message as the channel history yields it. */
  datatype Posted = Posted(id: nat, authorId: nat, replyTo: Option<nat>, content: string, channelId: nat,
                           timestamp: real, attachments: seq<string>, reactions: seq<Reaction>)

  /** The record kept for a message: author, replied id and author (as text), content, channel, time, links. */
  datatype Record = Record(authorId: nat, repliedId: string, repliedAuthor: string, content: string,
                           channelId: nat, timestamp: real, attachments: seq<string>)

  /** The key of a message in the records: its id as decimal text. */
  function IdKey(id: nat): string {
    NatToString(id)
  }

  /**
   * The record of a message: the replied fields hold the referenced
   * message's id and author when there is a (non-zero) reference and it
   * could be fetched, and are empty otherwise.
   */
  function RecordOf(m: Posted, fetch: Talk.Fetch): (r: Record)
    ensures r.repliedId == "" <==> r.repliedAuthor == ""
    ensures r.repliedId == "" <==> m.replyTo.None? || m.replyTo.value == 0 || fetch(m.replyTo.value).None?
    ensures r.repliedId != "" ==>
      r.repliedId == NatToString(fetch(m.replyTo.value).value.id)
      && r.repliedAuthor == NatToString(fetch(m.replyTo.value).value.authorId)
    ensures r.authorId == m.authorId && r.content == m.content && r.channelId == m.channelId
    ensures r.timestamp == m.timestamp && r.attachments == m.attachments
  {
    var replied := if m.replyTo.Some? && m.replyTo.value != 0 then fetch(m.replyTo.value) else None;
    match replied
    case None => Record(m.authorId, "", "", m.content, m.channelId, m.timestamp, m.attachments)
    case Some(ref) =>
      Record(m.authorId, NatToString(ref.id), NatToString(ref.authorId), m.content, m.channelId, m.timestamp, m.attachments)
  }

  /**
   * The records after the messages in order: a message whose id is
   * already recorded changes nothing.
   */
  function Recorded(msgs: seq<Posted>, fetch: Talk.Fetch): map<string, Record>
    decreases |msgs|
  {
    if |msgs| == 0 then map[]
    else
      var before := Recorded(msgs[..|msgs| - 1], fetch);
      var last := msgs[|msgs| - 1];
      if IdKey(last.id) in before then before else before[IdKey(last.id) := RecordOf(last, fetch)]
  }

  /** Every message's id is recorded. */
  lemma {:induction false} RecordedHasAll(msgs: seq<Posted>, fetch: Talk.Fetch)
    ensures forall i :: 0 <= i < |msgs| ==> IdKey(msgs[i].id) in Recorded(msgs, fetch)
    decreases |msgs|
  {
    if |msgs| > 0 {
      var init := msgs[..|msgs| - 1];
      RecordedHasAll(init, fetch);
      assert forall i :: 0 <= i < |init| ==> init[i] == msgs[i];
    }
  }

  /** Each recorded id holds the record of the first message with it. */
  lemma {:induction false} RecordedFirst(msgs: seq<Posted>, fetch: Talk.Fetch, k: string)
    requires k in Recorded(msgs, fetch)
    ensures exists i :: 0 <= i < |msgs| && FirstOf(msgs, i, k) && Recorded(msgs, fetch)[k] == RecordOf(msgs[i], fetch)
    decreases |msgs|
  {
    var init := msgs[..|msgs| - 1];
    var last := msgs[|msgs| - 1];
    var before := Recorded(init, fetch);
    if k in before {
      RecordedFirst(init, fetch, k);
      var i :| 0 <= i < |init| && FirstOf(init, i, k) && before[k] == RecordOf(init[i], fetch);
      FirstOfPrefix(msgs, i, k);
    } else {
      RecordedHasAll(init, fetch);
      assert forall j :: 0 <= j < |init| ==> init[j] == msgs[j];
      assert FirstOf(msgs, |msgs| - 1, k);
    }
  }

  lemma FirstOfPrefix(msgs: seq<Posted>, i: nat, k: string)
    requires 0 < |msgs| && i < |msgs| - 1 && FirstOf(msgs[..|msgs| - 1], i, k)
    ensures FirstOf(msgs, i, k)
  {
    assert forall j :: 0 <= j <= i ==> msgs[..|msgs| - 1][j] == msgs[j];
  }

  /** Message `i` is the first with key `k`. */
  predicate FirstOf(msgs: seq<Posted>, i: nat, k: string)
    requires i < |msgs|
  {
    IdKey(msgs[i].id) == k && forall j :: 0 <= j < i ==> IdKey(msgs[j].id) != k
  }

  /** The rows one reaction contributes: one per user, reactee the message's author. */
  function ReactionRows(m: Posted, r: Reaction): (rows: seq<Row>)
    ensures |rows| == |r.users|
    ensures forall i :: 0 <= i < |rows| ==> rows[i] == Row(m.id, r.users[i], m.authorId, r.emoji)
  {
    seq(|r.users|, i requires 0 <= i < |r.users| => Row(m.id, r.users[i], m.authorId, r.emoji))
  }

  /** The rows of the first `reactions` of a message, reaction by reaction. */
  function ReactionsRows(m: Posted, reactions: seq<Reaction>): seq<Row>
    decreases |reactions|
  {
    if |reactions| == 0 then []
    else ReactionsRows(m, reactions[..|reactions| - 1]) + ReactionRows(m, reactions[|reactions| - 1])
  }

  /** The rows a message contributes. */
  function Votes(m: Posted): seq<Row> {
    ReactionsRows(m, m.reactions)
  }

  /** The rows of a whole history, message by message. */
  function AllVotes(msgs: seq<Posted>): seq<Row>
    decreases |msgs|
  {
    if |msgs| == 0 then [] else AllVotes(msgs[..|msgs| - 1]) + Votes(msgs[|msgs| - 1])
  }

  /** Every message of every channel, channel by channel. */
  function Flatten(channels: seq<seq<Posted>>): seq<Posted>
    decreases |channels|
  {
    if |channels| == 0 then [] else Flatten(channels[..|channels| - 1]) + channels[|channels| - 1]
  }

  /** Every vote of the history is a row keyed by its message, its user and its emoji, naming the message's author. */
  lemma {:induction false} VotesAreReactions(msgs: seq<Posted>, j: nat)
    requires j < |AllVotes(msgs)|
    ensures exists i, k, u :: (0 <= i < |msgs| && 0 <= k < |msgs[i].reactions| && 0 <= u < |msgs[i].reactions[k].users|
      && AllVotes(msgs)[j] == Row(msgs[i].id, msgs[i].reactions[k].users[u], msgs[i].authorId, msgs[i].reactions[k].emoji))
    decreases |msgs|
  {
    var init := msgs[..|msgs| - 1];
    var last := msgs[|msgs| - 1];
    assert forall i :: 0 <= i < |init| ==> init[i] == msgs[i];
    if j < |AllVotes(init)| {
      VotesAreReactions(init, j);
    } else {
      MessageVote(last, last.reactions, j - |AllVotes(init)|);
    }
  }

  lemma {:induction false} MessageVote(m: Posted, reactions: seq<Reaction>, j: nat)
    requires j < |ReactionsRows(m, reactions)|
    ensures exists k, u :: (0 <= k < |reactions| && 0 <= u < |reactions[k].users|
      && ReactionsRows(m, reactions)[j] == Row(m.id, reactions[k].users[u], m.authorId, reactions[k].emoji))
    decreases |reactions|
  {
    var init := reactions[..|reactions| - 1];
    var n := |reactions| - 1;
    assert forall k :: 0 <= k < |init| ==> init[k] == reactions[k];
    var before := ReactionsRows(m, init);
    if j < |before| {
      MessageVote(m, init, j);
    } else {
      var u := j - |before|;
      assert ReactionsRows(m, reactions)[j] == ReactionRows(m, reactions[n])[u];
    }
  }

  /**
   * `scrapedata`: for the administrator, every message of every channel is
   * counted; the first message with each id is recorded; every reaction of
   * every message, including repeated ones, is upserted into the reaction
   * rows; karma is never touched. Anyone else gets the permission message.
   */
  method ScrapeData(db: Database, author: nat, adminId: nat, channels: seq<seq<Posted>>, fetch: Talk.Fetch)
    returns (a: Answer, records: map<string, Record>)
    requires db.Valid()
    modifies db`reactions
    ensures db.Valid() && db.karma == old(db.karma)
    ensures !IsAdmin(author, adminId) ==> a == Refused && records == map[] && db.reactions == old(db.reactions)
    ensures IsAdmin(author, adminId) ==>
      && a == Scraped(|Flatten(channels)|)
      && records == Recorded(Flatten(channels), fetch)
      && db.reactions == UpsertAll(old(db.reactions), AllVotes(Flatten(channels)))
  {
    if !IsAdmin(author, adminId) {
      return Refused, map[];
    }
    ghost var start := db.reactions;
    records := map[];
    var count := 0;
    var c := 0;
    while c < |channels|
      invariant 0 <= c <= |channels|
      invariant db.Valid() && db.karma == old(db.karma)
      invariant count == |Flatten(channels[..c])| && records == Recorded(Flatten(channels[..c]), fetch)
      invariant db.reactions == UpsertAll(start, AllVotes(Flatten(channels[..c])))
    {
      records, count := ScrapeChannel(db, records, count, channels[c], fetch, start, Flatten(channels[..c]));
      FlattenStep(channels, c);
      c := c + 1;
    }
    assert channels[..c] == channels;
    a := Scraped(count);
  }

  /**
   * The loop over one channel's history, continuing the records, the count
   * and the reaction rows left by the channels before it (`seen`).
   */
  method ScrapeChannel(db: Database, records: map<string, Record>, count: nat, history: seq<Posted>,
                       fetch: Talk.Fetch, ghost start: seq<Row>, ghost seen: seq<Posted>)
    returns (records': map<string, Record>, count': nat)
    requires db.Valid() && count == |seen| && records == Recorded(seen, fetch)
    requires db.reactions == UpsertAll(start, AllVotes(seen))
    modifies db`reactions
    ensures db.Valid()
    ensures count' == |seen + history| && records' == Recorded(seen + history, fetch)
    ensures db.reactions == UpsertAll(start, AllVotes(seen + history))
  {
    records', count' := records, count;
    AppendNothing(seen, history);
    ghost var done := seen;
    var j := 0;
    while j < |history|
      invariant 0 <= j <= |history|
      invariant db.Valid() && done == seen + history[..j]
      invariant count' == |done| && records' == Recorded(done, fetch)
      invariant db.reactions == UpsertAll(start, AllVotes(done))
    {
      records' := ScrapeMessage(db, records', history[j], fetch, start, done);
      count' := count' + 1;
      SnocSlice(seen, history, j);
      done := done + [history[j]];
      j := j + 1;
    }
    TakeAll(seen, history);
  }

  lemma AppendNothing(seen: seq<Posted>, history: seq<Posted>)
    ensures seen + history[..0] == seen
  {
    assert history[..0] == [];
  }

  lemma TakeAll(seen: seq<Posted>, history: seq<Posted>)
    ensures seen + history[..|history|] == seen + history
  {
    assert history[..|history|] == history;
  }

  /** One message: counted, recorded when its id is new, and its reactions upserted. */
  method ScrapeMessage(db: Database, records: map<string, Record>, m: Posted, fetch: Talk.Fetch,
                       ghost start: seq<Row>, ghost seen: seq<Posted>)
    returns (records': map<string, Record>)
    requires db.Valid() && records == Recorded(seen, fetch)
    requires db.reactions == UpsertAll(start, AllVotes(seen))
    modifies db`reactions
    ensures db.Valid()
    ensures records' == Recorded(seen + [m], fetch)
    ensures db.reactions == UpsertAll(start, AllVotes(seen + [m]))
  {
    records' := records;
    if IdKey(m.id) !in records {
      records' := records[IdKey(m.id) := RecordOf(m, fetch)];
    }
    RecordVotes(db, m);
    RecordedSnoc(seen, m, fetch);
    VotesSnoc(start, seen, m);
  }

  lemma RecordedSnoc(seen: seq<Posted>, m: Posted, fetch: Talk.Fetch)
    ensures Recorded(seen + [m], fetch) ==
      if IdKey(m.id) in Recorded(seen, fetch) then Recorded(seen, fetch)
      else Recorded(seen, fetch)[IdKey(m.id) := RecordOf(m, fetch)]
  {
    assert (seen + [m])[..|seen|] == seen;
  }

  lemma VotesSnoc(start: seq<Row>, seen: seq<Posted>, m: Posted)
    ensures UpsertAll(start, AllVotes(seen + [m])) == UpsertAll(UpsertAll(start, AllVotes(seen)), Votes(m))
  {
    assert (seen + [m])[..|seen|] == seen;
    UpsertAllAppend(start, AllVotes(seen), Votes(m));
  }

  lemma SnocSlice(front: seq<Posted>, history: seq<Posted>, j: nat)
    requires j < |history|
    ensures front + history[..j] + [history[j]] == front + history[..j + 1]
  {
    assert history[..j] + [history[j]] == history[..j + 1];
  }

  lemma FlattenStep(channels: seq<seq<Posted>>, c: nat)
    requires c < |channels|
    ensures Flatten(channels[..c + 1]) == Flatten(channels[..c]) + channels[c]
  {
    assert channels[..c + 1][..c] == channels[..c];
  }

  /** The loop over a message's reactions. */
  method RecordVotes(db: Database, m: Posted)
    requires db.Valid()
    modifies db`reactions
    ensures db.Valid()
    ensures db.reactions == UpsertAll(old(db.reactions), Votes(m))
  {
    ghost var start := db.reactions;
    var k := 0;
    while k < |m.reactions|
      invariant 0 <= k <= |m.reactions|
      invariant db.Valid()
      invariant db.reactions == UpsertAll(start, ReactionsRows(m, m.reactions[..k]))
    {
      RecordReaction(db, m, m.reactions[k]);
      ReactionsStep(start, m, k);
      k := k + 1;
    }
    assert m.reactions[..k] == m.reactions;
  }

  lemma ReactionsStep(start: seq<Row>, m: Posted, k: nat)
    requires k < |m.reactions|
    ensures UpsertAll(start, ReactionsRows(m, m.reactions[..k + 1])) ==
      UpsertAll(UpsertAll(start, ReactionsRows(m, m.reactions[..k])), ReactionRows(m, m.reactions[k]))
  {
    assert m.reactions[..k + 1][..k] == m.reactions[..k];
    UpsertAllAppend(start, ReactionsRows(m, m.reactions[..k]), ReactionRows(m, m.reactions[k]));
  }

  /** The loop over the users of one reaction: select by key, then update or insert. */
  method RecordReaction(db: Database, m: Posted, r: Reaction)
    requires db.Valid()
    modifies db`reactions
    ensures db.Valid()
    ensures db.reactions == UpsertAll(old(db.reactions), ReactionRows(m, r))
  {
    ghost var start := db.reactions;
    ghost var rows := ReactionRows(m, r);
    var i := 0;
    while i < |r.users|
      invariant 0 <= i <= |r.users|
      invariant db.Valid()
      invariant db.reactions == UpsertAll(start, rows[..i])
    {
      db.AddReaction(m.id, r.users[i], m.authorId, r.emoji);
      UsersStep(start, rows, i);
      i := i + 1;
    }
    assert rows[..i] == rows;
  }

  lemma UsersStep(start: seq<Row>, rows: seq<Row>, i: nat)
    requires i < |rows|
    ensures UpsertAll(start, rows[..i + 1]) == Upsert(UpsertAll(start, rows[..i]), rows[i])
  {
    assert rows[..i + 1][..i] == rows[..i];
  }

  /**
   * Scraping the same history a second time leaves the reaction rows as the
   * first scrape left them.
   */
  lemma ScrapeTwiceIsOnce(rows: seq<Row>, channels: seq<seq<Posted>>)
    requires UniqueKeys(rows)
    ensures var once := UpsertAll(rows, AllVotes(Flatten(channels)));
      UpsertAll(once, AllVotes(Flatten(channels))) == once
  {
    UpsertAllIdempotent(rows, AllVotes(Flatten(channels)));
  }
}
