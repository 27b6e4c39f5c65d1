/**
 * The prompt compiler behind a conversation with the bot
 * (`handle_prompt_chain`): walk the reply chain, read the `use*`
 * directives, clean and expand each message into a prompt line, resolve
 * and substitute the names of everyone involved, assemble the system
 * message and tag each line with its role. The provider call and the reply
 * that follow are modelled in `Provider` and `Delivery`.
 */
module Talk {
  import opened Wrappers
  import opened Text
  import opened Config
  import opened Db
  import opened Identity
  import opened Patterns
  import opened Abbreviation

  /** A message as the compiler sees it; `replyTo` is the referenced message id, if any. */
  datatype ChatMessage = ChatMessage(id: nat, authorId: nat, guildId: nat, content: string, replyTo: Option<nat>)

  /** `channel.fetch_message(id)`: the message, or `None` where the fetch raises. */
  type Fetch = nat -> Option<ChatMessage>

  /** `current.reference and current.reference.message_id`: an id of 0 counts as none. */
  function ReplyTarget(m: ChatMessage): (r: Option<nat>)
    ensures r.Some? ==> r.value != 0 && m.replyTo == Some(r.value)
    ensures r.None? ==> m.replyTo.None? || m.replyTo == Some(0)
  {
    if m.replyTo.Some? && m.replyTo.value != 0 then m.replyTo else None
  }

  function Reverse<T>(s: seq<T>): (r: seq<T>)
    ensures |r| == |s| && forall i :: 0 <= i < |s| ==> r[i] == s[|s| - 1 - i]
    decreases |s|
  {
    if |s| == 0 then [] else Reverse(s[1..]) + [s[0]]
  }

  // ---------------------------------------------------------------------
  // The reply chain
  // ---------------------------------------------------------------------

  /**
   * The chain newest first: the message, then what it replies to, and so
   * on until a message replies to nothing, a fetch fails, or `fuel`
   * further fetches have been made.
   */
  function ChainFrom(m: ChatMessage, fetch: Fetch, fuel: nat): seq<ChatMessage>
    decreases fuel
  {
    var link := ReplyTarget(m);
    if link.Some? && fuel > 0 && fetch(link.value).Some? then [m] + ChainFrom(fetch(link.value).value, fetch, fuel - 1)
    else [m]
  }

  /** The chain oldest first, as the prompt uses it. */
  function Chain(leaf: ChatMessage, fetch: Fetch, fuel: nat): seq<ChatMessage> {
    Reverse(ChainFrom(leaf, fetch, fuel))
  }

  /** The chain-walking loop, reversed at the end. */
  method WalkChain(leaf: ChatMessage, fetch: Fetch, fuel: nat) returns (chain: seq<ChatMessage>)
    ensures chain == Chain(leaf, fetch, fuel)
  {
    var newestFirst: seq<ChatMessage> := [];
    var current := leaf;
    var f := fuel;
    while true
      invariant newestFirst + ChainFrom(current, fetch, f) == ChainFrom(leaf, fetch, fuel)
      decreases f
    {
      var link := ReplyTarget(current);
      if link.Some? && f > 0 {
        var parent := fetch(link.value);
        if parent.None? {
          newestFirst := newestFirst + [current];
          break;
        }
        assert ChainFrom(current, fetch, f) == [current] + ChainFrom(parent.value, fetch, f - 1);
        newestFirst := newestFirst + [current];
        current := parent.value;
        f := f - 1;
      } else {
        newestFirst := newestFirst + [current];
        break;
      }
    }
    chain := Reverse(newestFirst);
  }

  /**
   * The chain ends with the leaf, never exceeds `fuel + 1` messages, each
   * message is the fetched parent of the one after it, and the oldest one
   * replies to nothing, could not be followed, or the fuel ran out.
   */
  lemma {:induction false} ChainFromShape(m: ChatMessage, fetch: Fetch, fuel: nat)
    ensures var c := ChainFrom(m, fetch, fuel);
      && 1 <= |c| <= fuel + 1 && c[0] == m
      && (forall i :: 0 <= i < |c| - 1 ==>
            ReplyTarget(c[i]).Some? && fetch(ReplyTarget(c[i]).value) == Some(c[i + 1]))
      && (ReplyTarget(c[|c| - 1]).None? || fetch(ReplyTarget(c[|c| - 1]).value).None? || |c| == fuel + 1)
    decreases fuel
  {
    var link := ReplyTarget(m);
    if link.Some? && fuel > 0 && fetch(link.value).Some? {
      var parent := fetch(link.value).value;
      ChainFromShape(parent, fetch, fuel - 1);
      var rest := ChainFrom(parent, fetch, fuel - 1);
      assert forall i :: 1 <= i < |rest| + 1 ==> ([m] + rest)[i] == rest[i - 1];
    }
  }

  lemma ChainShape(leaf: ChatMessage, fetch: Fetch, fuel: nat)
    ensures var c := Chain(leaf, fetch, fuel);
      && 1 <= |c| <= fuel + 1 && c[|c| - 1] == leaf
      && (forall i :: 0 < i < |c| ==>
            ReplyTarget(c[i]).Some? && fetch(ReplyTarget(c[i]).value) == Some(c[i - 1]))
      && (ReplyTarget(c[0]).None? || fetch(ReplyTarget(c[0]).value).None? || |c| == fuel + 1)
  {
    ChainFromShape(leaf, fetch, fuel);
    var n := ChainFrom(leaf, fetch, fuel);
    var c := Chain(leaf, fetch, fuel);
    forall i | 0 < i < |c|
      ensures ReplyTarget(c[i]).Some? && fetch(ReplyTarget(c[i]).value) == Some(c[i - 1])
    {
      assert c[i] == n[|n| - 1 - i] && c[i - 1] == n[|n| - 1 - i + 1];
    }
  }

  // ---------------------------------------------------------------------
  // Parameters
  // ---------------------------------------------------------------------

  datatype Params = Params(modelEngine: string, temperature: real, freqPenalty: real, presPenalty: real, topP: real)

  const Defaults: Params :=
    Params(DefaultModelEngine, DefaultTemperature, DefaultFreqPenalty, DefaultPresPenalty, DefaultTopP)

  /** Python's `float(text)`: the value, or `None` where it raises `ValueError`. */
  type ParseFloat = string -> Option<real>

  /** One directive: `usemodel` always converts; the others keep the old value when `float` fails. */
  function ApplyDirective(p: Params, d: Directive, parse: ParseFloat): Params {
    if d.key == "usemodel" then p.(modelEngine := d.value)
    else match parse(d.value)
      case None => p
      case Some(x) =>
        if d.key == "usetemp" then p.(temperature := x)
        else if d.key == "usefreq" then p.(freqPenalty := x)
        else if d.key == "usepres" then p.(presPenalty := x)
        else if d.key == "usetopp" then p.(topP := x)
        else p
  }

  /** The directives applied one after another. */
  function ApplyAll(p: Params, ds: seq<Directive>, parse: ParseFloat): Params
    decreases |ds|
  {
    if |ds| == 0 then p else ApplyDirective(ApplyAll(p, ds[..|ds| - 1], parse), ds[|ds| - 1], parse)
  }

  lemma {:induction false} ApplyAllAppend(p: Params, a: seq<Directive>, b: seq<Directive>, parse: ParseFloat)
    ensures ApplyAll(p, a + b, parse) == ApplyAll(ApplyAll(p, a, parse), b, parse)
    decreases |b|
  {
    if |b| > 0 {
      assert (a + b)[..|a + b| - 1] == a + b[..|b| - 1];
      ApplyAllAppend(p, a, b[..|b| - 1], parse);
    } else {
      assert a + b == a;
    }
  }

  /** The numeric parameter a float directive key sets. */
  function NumericParam(p: Params, key: string): real {
    if key == "usetemp" then p.temperature
    else if key == "usefreq" then p.freqPenalty
    else if key == "usepres" then p.presPenalty
    else p.topP
  }

  /** Reference definition: the value of the last directive with this key that converts. */
  function LastConverted(ds: seq<Directive>, key: string, parse: ParseFloat): Option<real>
    decreases |ds|
  {
    if |ds| == 0 then None
    else
      var d := ds[|ds| - 1];
      if d.key == key && parse(d.value).Some? then parse(d.value)
      else LastConverted(ds[..|ds| - 1], key, parse)
  }

  /** Reference definition: the value of the last `usemodel` directive. */
  function LastModel(ds: seq<Directive>): Option<string>
    decreases |ds|
  {
    if |ds| == 0 then None
    else if ds[|ds| - 1].key == "usemodel" then Some(ds[|ds| - 1].value)
    else LastModel(ds[..|ds| - 1])
  }

  /**
   * Later directives win: each numeric parameter ends up as the last of its
   * directives that converts, or keeps its starting value.
   */
  lemma {:induction false} ApplyAllNumeric(p: Params, ds: seq<Directive>, parse: ParseFloat, key: string)
    requires key in ["usetemp", "usefreq", "usepres", "usetopp"]
    ensures NumericParam(ApplyAll(p, ds, parse), key) == LastConverted(ds, key, parse).GetOr(NumericParam(p, key))
    decreases |ds|
  {
    if |ds| > 0 {
      ApplyAllNumeric(p, ds[..|ds| - 1], parse, key);
    }
  }

  /** Later directives win: the model is the last `usemodel` value, or the starting one. */
  lemma {:induction false} ApplyAllModel(p: Params, ds: seq<Directive>, parse: ParseFloat)
    ensures ApplyAll(p, ds, parse).modelEngine == LastModel(ds).GetOr(p.modelEngine)
    decreases |ds|
  {
    if |ds| > 0 {
      ApplyAllModel(p, ds[..|ds| - 1], parse);
    }
  }

  /** The directives of the whole chain, oldest message first. */
  function AllDirectives(chain: seq<ChatMessage>): seq<Directive>
    decreases |chain|
  {
    if |chain| == 0 then []
    else AllDirectives(chain[..|chain| - 1]) + FindDirectives(chain[|chain| - 1].content, 0)
  }

  // ---------------------------------------------------------------------
  // Prompt lines and ids
  // ---------------------------------------------------------------------

  /** The directives cut out, whitespace stripped, and at most one leading `!` dropped. */
  function CleanContent(content: string): (r: string)
    ensures var c := Strip(RemoveDirectives(content, 0));
      && (StartsWith(c, "!") ==> r == c[1..])
      && (!StartsWith(c, "!") ==> r == c)
  {
    var c := Strip(RemoveDirectives(content, 0));
    if StartsWith(c, "!") then c[1..] else c
  }

  /** A message's prompt line: `"<author id>: "` and its cleaned, expanded content. */
  function Line(m: ChatMessage, abbreviations: map<(nat, nat), Abbreviations>): string {
    NatToString(m.authorId) + ": " + Expand(CleanContent(m.content), AbbreviationsOf(abbreviations, m.guildId, m.authorId))
  }

  /** The prompt lines of a chain, one per message in chain order. */
  function Lines(chain: seq<ChatMessage>, abbreviations: map<(nat, nat), Abbreviations>): seq<string> {
    MapSeq(LineOf(abbreviations), chain)
  }

  /** `Line` with the abbreviation table fixed. */
  function LineOf(abbreviations: map<(nat, nat), Abbreviations>): ChatMessage -> string {
    m => Line(m, abbreviations)
  }

  /** `f` applied to every element, in order. */
  function MapSeq<T, U>(f: T -> U, s: seq<T>): (r: seq<U>)
    ensures |r| == |s| && forall i :: 0 <= i < |s| ==> r[i] == f(s[i])
  {
    seq(|s|, i requires 0 <= i < |s| => f(s[i]))
  }

  lemma MapSnoc<T, U>(f: T -> U, s: seq<T>, i: nat)
    requires i < |s|
    ensures MapSeq(f, s[..i + 1]) == MapSeq(f, s[..i]) + [f(s[i])]
  {
    var a, b := MapSeq(f, s[..i + 1]), MapSeq(f, s[..i]) + [f(s[i])];
    assert forall k :: 0 <= k < i + 1 ==> a[k] == b[k];
  }

  /** There is one line per message, the `i`-th line being the `i`-th message's. */
  lemma LinesAt(chain: seq<ChatMessage>, abbreviations: map<(nat, nat), Abbreviations>, i: nat)
    requires i < |chain|
    ensures |Lines(chain, abbreviations)| == |chain|
    ensures Lines(chain, abbreviations)[i] == Line(chain[i], abbreviations)
  {
    assert Lines(chain, abbreviations)[i] == LineOf(abbreviations)(chain[i]);
  }

  /** A line starts with the author's id and a colon, and the rest is the content cleaned, then expanded. */
  lemma LineShape(m: ChatMessage, abbreviations: map<(nat, nat), Abbreviations>)
    ensures var head := NatToString(m.authorId) + ": ";
      && StartsWith(Line(m, abbreviations), head)
      && Line(m, abbreviations)[|head|..] == Expand(CleanContent(m.content), AbbreviationsOf(abbreviations, m.guildId, m.authorId))
  {
    var head := NatToString(m.authorId) + ": ";
    var r := Line(m, abbreviations);
    assert r[..|head|] == head;
  }

  function MentionKeys(ms: seq<string>): (ks: seq<UserKey>)
    ensures |ks| == |ms| && forall i :: 0 <= i < |ms| ==> ks[i] == Str(ms[i])
  {
    seq(|ms|, i requires 0 <= i < |ms| => Str(ms[i]))
  }

  /** The ids of everyone involved: the message author, and every id the raw content mentions. */
  function MessageIds(m: ChatMessage): seq<UserKey> {
    [Num(m.authorId)] + MentionKeys(FindMentions(m.content, 0))
  }

  /** `author_ids`: the bot first, then each message's ids, in chain order. */
  function AuthorIds(botId: nat, chain: seq<ChatMessage>): (ids: seq<UserKey>)
    ensures |ids| >= 1 + |chain| && ids[0] == Num(botId)
    decreases |chain|
  {
    if |chain| == 0 then [Num(botId)]
    else AuthorIds(botId, chain[..|chain| - 1]) + MessageIds(chain[|chain| - 1])
  }

  /** Every message author is among the ids. */
  lemma {:induction false} AuthorIdsHaveAuthors(botId: nat, chain: seq<ChatMessage>)
    ensures forall i :: 0 <= i < |chain| ==> Num(chain[i].authorId) in AuthorIds(botId, chain)
    decreases |chain|
  {
    if |chain| > 0 {
      var prefix := chain[..|chain| - 1];
      AuthorIdsHaveAuthors(botId, prefix);
      var ids := AuthorIds(botId, chain);
      assert ids == AuthorIds(botId, prefix) + MessageIds(chain[|chain| - 1]);
      forall i | 0 <= i < |chain| ensures Num(chain[i].authorId) in ids {
        if i < |prefix| {
          assert chain[i] == prefix[i];
        } else {
          assert ids[|AuthorIds(botId, prefix)|] == Num(chain[i].authorId);
        }
      }
    }
  }

  /** One message's prompt line, built as the loop body builds it. */
  method MessageLine(db: Database, msg: ChatMessage) returns (line: string)
    ensures line == Line(msg, db.abbreviations)
  {
    var clean := CleanContent(msg.content);
    var expanded := ExpandAbbreviations(db, clean, msg.guildId, msg.authorId);
    line := NatToString(msg.authorId) + ": " + expanded;
  }

  /** The inner loop over one message's directive matches. */
  method ApplyMessageDirectives(start: Params, content: string, parse: ParseFloat) returns (params: Params)
    ensures params == ApplyAll(start, FindDirectives(content, 0), parse)
  {
    var found := FindDirectives(content, 0);
    params := start;
    var j := 0;
    while j < |found|
      invariant 0 <= j <= |found|
      invariant params == ApplyAll(start, found[..j], parse)
    {
      params := ApplyDirective(params, found[j], parse);
      assert found[..j + 1][..j] == found[..j];
      j := j + 1;
    }
    assert found[..j] == found;
  }

  /**
   * The loop over the chain: parameters from every directive in order, one
   * line per message in order, and the ids.
   */
  method CollectPrompt(db: Database, chain: seq<ChatMessage>, botId: nat, parse: ParseFloat)
    returns (lines: seq<string>, ids: seq<UserKey>, params: Params)
    ensures params == ApplyAll(Defaults, AllDirectives(chain), parse)
    ensures lines == Lines(chain, db.abbreviations)
    ensures ids == AuthorIds(botId, chain)
  {
    lines := [];
    ids := [Num(botId)];
    params := Defaults;
    var i := 0;
    while i < |chain|
      invariant 0 <= i <= |chain|
      invariant params == ApplyAll(Defaults, AllDirectives(chain[..i]), parse)
      invariant lines == Lines(chain[..i], db.abbreviations)
      invariant ids == AuthorIds(botId, chain[..i])
    {
      params, lines, ids := PromptMessage(db, chain, i, botId, parse, params, lines, ids);
      i := i + 1;
    }
    ChainTakeAll(chain);
  }

  lemma ChainTakeAll(chain: seq<ChatMessage>)
    ensures chain[..|chain|] == chain
  {
  }

  lemma LinesSnoc(chain: seq<ChatMessage>, i: nat, abbreviations: map<(nat, nat), Abbreviations>)
    requires i < |chain|
    ensures Lines(chain[..i + 1], abbreviations) == Lines(chain[..i], abbreviations) + [Line(chain[i], abbreviations)]
  {
    MapSnoc(LineOf(abbreviations), chain, i);
    assert LineOf(abbreviations)(chain[i]) == Line(chain[i], abbreviations);
  }

  /** The loop body: the `i`-th message's directives, line and ids added to what the messages before it gave. */
  method PromptMessage(db: Database, chain: seq<ChatMessage>, i: nat, botId: nat, parse: ParseFloat,
                       params: Params, lines: seq<string>, ids: seq<UserKey>)
    returns (params': Params, lines': seq<string>, ids': seq<UserKey>)
    requires i < |chain|
    requires params == ApplyAll(Defaults, AllDirectives(chain[..i]), parse)
    requires lines == Lines(chain[..i], db.abbreviations)
    requires ids == AuthorIds(botId, chain[..i])
    ensures params' == ApplyAll(Defaults, AllDirectives(chain[..i + 1]), parse)
    ensures lines' == Lines(chain[..i + 1], db.abbreviations)
    ensures ids' == AuthorIds(botId, chain[..i + 1])
  {
    var msg := chain[i];
    PromptStep(botId, chain, i, parse);
    params' := ApplyMessageDirectives(params, msg.content, parse);
    var line := MessageLine(db, msg);
    LinesSnoc(chain, i, db.abbreviations);
    lines' := lines + [line];
    ids' := ids + MessageIds(msg);
  }

  /** One message more of the chain: its directives and its ids come after those before it. */
  lemma PromptStep(botId: nat, chain: seq<ChatMessage>, i: nat, parse: ParseFloat)
    requires i < |chain|
    ensures AllDirectives(chain[..i + 1]) == AllDirectives(chain[..i]) + FindDirectives(chain[i].content, 0)
    ensures ApplyAll(Defaults, AllDirectives(chain[..i + 1]), parse) ==
      ApplyAll(ApplyAll(Defaults, AllDirectives(chain[..i]), parse), FindDirectives(chain[i].content, 0), parse)
    ensures AuthorIds(botId, chain[..i + 1]) == AuthorIds(botId, chain[..i]) + MessageIds(chain[i])
  {
    assert chain[..i + 1][..i] == chain[..i];
    ApplyAllAppend(Defaults, AllDirectives(chain[..i]), FindDirectives(chain[i].content, 0), parse);
  }

  // ---------------------------------------------------------------------
  // Names
  // ---------------------------------------------------------------------

  /**
   * Substituting names into one line: for each id in order, when its text
   * occurs in the line as it was before any substitution, every occurrence
   * in the current line becomes the resolved name.
   */
  function Substitute(line: string, ids: seq<UserKey>, info: map<UserKey, (string, string)>): string
    decreases |ids|
  {
    if |ids| == 0 then line
    else
      var cur := Substitute(line, ids[..|ids| - 1], info);
      var k := ids[|ids| - 1];
      if Contains(line, Render(k)) then ReplaceAll(cur, Render(k), NameOf(info, k)) else cur
  }

  /**
   * The resolved name of an id. The resolver answers for every id it was
   * given, so the fallback to the id's own text is never used by the compiler.
   */
  function NameOf(info: map<UserKey, (string, string)>, k: UserKey): string {
    if k in info then info[k].0 else Render(k)
  }

  /** A line that holds none of the ids is left alone. */
  lemma {:induction false} SubstituteAbsent(line: string, ids: seq<UserKey>, info: map<UserKey, (string, string)>)
    requires forall k :: k in ids ==> !Contains(line, Render(k))
    ensures Substitute(line, ids, info) == line
    decreases |ids|
  {
    if |ids| > 0 {
      SubstituteAbsent(line, ids[..|ids| - 1], info);
    }
  }

  /** Ids that resolved to their own (non-empty) text leave the line as it was. */
  lemma {:induction false} SubstituteOwnText(line: string, ids: seq<UserKey>, info: map<UserKey, (string, string)>)
    requires forall k :: k in ids ==> k in info && info[k].0 == Render(k) && |Render(k)| > 0
    ensures Substitute(line, ids, info) == line
    decreases |ids|
  {
    if |ids| > 0 {
      SubstituteOwnText(line, ids[..|ids| - 1], info);
      var k := ids[|ids| - 1];
      ReplaceAllIdentity(line, Render(k));
    }
  }

  /** The substitution loop over all lines, rewriting each line in place. */
  method SubstituteNames(lines: seq<string>, ids: seq<UserKey>, info: map<UserKey, (string, string)>)
    returns (out: seq<string>)
    ensures |out| == |lines| && forall i :: 0 <= i < |lines| ==> out[i] == Substitute(lines[i], ids, info)
  {
    out := lines;
    var i := 0;
    while i < |lines|
      invariant 0 <= i <= |lines| && |out| == |lines|
      invariant forall k :: 0 <= k < i ==> out[k] == Substitute(lines[k], ids, info)
      invariant forall k :: i <= k < |lines| ==> out[k] == lines[k]
    {
      var line := lines[i];
      var j := 0;
      while j < |ids|
        invariant 0 <= j <= |ids| && |out| == |lines|
        invariant out[i] == Substitute(line, ids[..j], info)
        invariant forall k :: 0 <= k < i ==> out[k] == Substitute(lines[k], ids, info)
        invariant forall k :: i < k < |lines| ==> out[k] == lines[k]
      {
        var id := Render(ids[j]);
        assert ids[..j + 1][..j] == ids[..j];
        if Contains(line, id) {
          out := out[i := ReplaceAll(out[i], id, NameOf(info, ids[j]))];
        }
        j := j + 1;
      }
      assert ids[..j] == ids;
      i := i + 1;
    }
  }

  /**
   * The system message: the personality, then a line `name: description`
   * for each resolved id with a non-empty description, in dict order.
   */
  function SystemMessage(personality: string, order: seq<UserKey>, info: map<UserKey, (string, string)>): (r: string)
    ensures StartsWith(r, personality)
    decreases |order|
  {
    if |order| == 0 then personality
    else
      var prev := SystemMessage(personality, order[..|order| - 1], info);
      var (name, description) := EntryOf(info, order[|order| - 1]);
      var r := if description != "" then prev + "\n" + name + ": " + description else prev;
      assert r[..|personality|] == prev[..|personality|];
      r
  }

  /** An id's resolved entry; every id in the dict order has one. */
  function EntryOf(info: map<UserKey, (string, string)>, k: UserKey): (string, string) {
    if k in info then info[k] else (Render(k), "")
  }

  /** With no descriptions at all the system message is the personality alone. */
  lemma {:induction false} SystemMessageBare(personality: string, order: seq<UserKey>, info: map<UserKey, (string, string)>)
    requires forall k :: k in order ==> EntryOf(info, k).1 == ""
    ensures SystemMessage(personality, order, info) == personality
    decreases |order|
  {
    if |order| > 0 {
      SystemMessageBare(personality, order[..|order| - 1], info);
    }
  }

  /** Every described id contributes its line. */
  lemma {:induction false} SystemMessageMentions(personality: string, order: seq<UserKey>, info: map<UserKey, (string, string)>, i: nat)
    requires i < |order| && EntryOf(info, order[i]).1 != ""
    ensures Contains(SystemMessage(personality, order, info), "\n" + EntryOf(info, order[i]).0 + ": " + EntryOf(info, order[i]).1)
    decreases |order|
  {
    var prefix := order[..|order| - 1];
    var prev := SystemMessage(personality, prefix, info);
    var (name, description) := EntryOf(info, order[|order| - 1]);
    if i == |order| - 1 {
      var piece := "\n" + name + ": " + description;
      ContainsSelf(piece);
      ContainsSuffix(prev, piece, piece);
      assert prev + "\n" + name + ": " + description == prev + piece;
    } else {
      assert prefix[i] == order[i];
      SystemMessageMentions(personality, prefix, info, i);
      if description != "" {
        ContainsPrefix(prev, "\n" + EntryOf(info, order[i]).0 + ": " + EntryOf(info, order[i]).1, "\n" + name + ": " + description);
        assert prev + "\n" + name + ": " + description == prev + ("\n" + name + ": " + description);
      }
    }
  }

  /** The system-message loop over the resolved entries. */
  method BuildSystemMessage(personality: string, order: seq<UserKey>, info: map<UserKey, (string, string)>)
    returns (msg: string)
    ensures msg == SystemMessage(personality, order, info)
  {
    msg := personality;
    var i := 0;
    while i < |order|
      invariant 0 <= i <= |order|
      invariant msg == SystemMessage(personality, order[..i], info)
    {
      var (name, description) := EntryOf(info, order[i]);
      if description != "" {
        msg := msg + "\n" + name + ": " + description;
      }
      assert order[..i + 1][..i] == order[..i];
      i := i + 1;
    }
    assert order[..i] == order;
  }

  // ---------------------------------------------------------------------
  // Roles
  // ---------------------------------------------------------------------

  datatype Role = System | User | Assistant

  datatype Turn = Turn(role: Role, content: string)

  /**
   * A line that starts with `"<BOT_NAME>:"` is the bot's own turn, with
   * every occurrence of that prefix removed; any other line is a user turn
   * holding the whole line.
   */
  function TagLine(line: string): (t: Turn)
    ensures t.role == Assistant <==> StartsWith(line, BotName + ":")
    ensures t.role != System
    ensures t.role == User ==> t.content == line
    ensures t.role == Assistant ==> t.content == ReplaceAll(line, BotName + ":", "")
  {
    if StartsWith(line, BotName + ":") then Turn(Assistant, ReplaceAll(line, BotName + ":", ""))
    else Turn(User, line)
  }

  /** The role-tagging loop: the system turn, then exactly one turn per line, nothing merged. */
  method TagRoles(systemMsg: string, lines: seq<string>) returns (turns: seq<Turn>)
    ensures |turns| == |lines| + 1
    ensures turns[0] == Turn(System, systemMsg)
    ensures forall i :: 0 <= i < |lines| ==> turns[i + 1] == TagLine(lines[i])
  {
    turns := [Turn(System, systemMsg)];
    var i := 0;
    while i < |lines|
      invariant 0 <= i <= |lines| && |turns| == i + 1
      invariant turns[0] == Turn(System, systemMsg)
      invariant forall k :: 0 <= k < i ==> turns[k + 1] == TagLine(lines[k])
    {
      var line := lines[i];
      if StartsWith(line, BotName + ":") {
        turns := turns + [Turn(Assistant, ReplaceAll(line, BotName + ":", ""))];
      } else {
        turns := turns + [Turn(User, line)];
      }
      i := i + 1;
    }
  }

  // ---------------------------------------------------------------------
  // The whole compile step
  // ---------------------------------------------------------------------

  /** What is handed to the provider: the turns, the parameters and the user to bill. */
  datatype ChatRequest = ChatRequest(turns: seq<Turn>, params: Params, userId: nat)

  /**
   * `handle_prompt_chain(ctx, message, bot_id)` up to the provider call.
   * The only state it changes is the name store, through the resolver.
   */
  method HandlePromptChain(db: Database, leaf: ChatMessage, botId: nat, fetch: Fetch, dir: Directory,
                           parse: ParseFloat, personality: string, fuel: nat)
    returns (request: ChatRequest)
    modifies db`names
    ensures var chain := Chain(leaf, fetch, fuel);
      var ids := AuthorIds(botId, chain);
      var res := ResolveAll(old(db.names), db.descriptions, dir, ids);
      && db.names == res.names
      && request.userId == leaf.authorId
      && request.params == ApplyAll(Defaults, AllDirectives(chain), parse)
      && |request.turns| == |chain| + 1
      && request.turns[0] == Turn(System, SystemMessage(personality, res.order, res.info))
      && (forall i :: 0 <= i < |chain| ==>
            request.turns[i + 1] == TagLine(Substitute(Line(chain[i], db.abbreviations), ids, res.info)))
  {
    var chain := WalkChain(leaf, fetch, fuel);
    var lines, ids, params := CollectPrompt(db, chain, botId, parse);
    var res := GetAuthorInformation(db, ids, dir);
    var substituted := SubstituteNames(lines, ids, res.info);
    var systemMsg := BuildSystemMessage(personality, res.order, res.info);
    var turns := TagRoles(systemMsg, substituted);
    request := ChatRequest(turns, params, leaf.authorId);
  }
}
