/**
 * The chat-history tools that turn the scraped message export into a
 * training text for one user: nicknames, the filters on the master list,
 * the pass that puts each reply's context just before it, the line format,
 * and the expiry test that rewrites an expired CDN link to the mirror.
 */
module History {
  import opened Wrappers
  import opened Text
  import Talk

  /**
   * One exported message: `[id, author, reply_id, reply_author, content,
   * channel, timestamp, attachments]`, with an empty reply id as `None`.
   */
  datatype Record = Record(id: nat, author: string, replyId: Option<nat>, replyAuthor: string,
                           content: string, channel: string, timestamp: real, attachments: seq<string>)

  /** `get_nick(name)`: the nickname on file, else the first three characters of the name. */
  function Nick(nicks: map<string, string>, name: string): (r: string)
    ensures name in nicks ==> r == nicks[name]
    ensures name !in nicks ==> |r| <= 3 && StartsWith(name, r) && (|name| >= 3 ==> |r| == 3)
  {
    if name in nicks then nicks[name] else Take(name, 3)
  }

  // ---------------------------------------------------------------------
  // Filters
  // ---------------------------------------------------------------------

  /** `[t for t in s if keep(t)]` */
  function Filter(s: seq<Record>, keep: Record -> bool): (r: seq<Record>)
    ensures |r| <= |s|
    ensures forall x :: x in r <==> x in s && keep(x)
    decreases |s|
  {
    if |s| == 0 then []
    else
      var rest := Filter(s[..|s| - 1], keep);
      assert forall x :: x in s <==> x in s[..|s| - 1] || x == s[|s| - 1];
      if keep(s[|s| - 1]) then rest + [s[|s| - 1]] else rest
  }

  /** Filtering keeps the order: a filtered concatenation is the concatenation of the filtered parts. */
  lemma {:induction false} FilterAppend(a: seq<Record>, b: seq<Record>, keep: Record -> bool)
    ensures Filter(a + b, keep) == Filter(a, keep) + Filter(b, keep)
    decreases |b|
  {
    if |b| == 0 {
      assert a + b == a;
    } else {
      var b' := b[..|b| - 1];
      assert (a + b)[..|a + b| - 1] == a + b';
      assert (a + b)[|a + b| - 1] == b[|b| - 1];
      FilterAppend(a, b', keep);
    }
  }

  /** Two filters in a row are one filter on both conditions. */
  lemma {:induction false} FilterFilter(s: seq<Record>, f: Record -> bool, g: Record -> bool, both: Record -> bool)
    requires forall x :: both(x) == (f(x) && g(x))
    ensures Filter(Filter(s, f), g) == Filter(s, both)
    decreases |s|
  {
    if |s| > 0 {
      var init := s[..|s| - 1];
      var x := s[|s| - 1];
      FilterFilter(init, f, g, both);
      if f(x) {
        FilterAppend(Filter(init, f), [x], g);
        assert [x][..0] == [];
      }
    }
  }

  /** The first filter: the user's own messages (everyone's when sampling) under 1000 characters. */
  predicate Eligible(t: Record, user: string, randomly: bool) {
    (t.author == user || randomly) && |t.content| < 1000
  }

  /** The messages the text is made of, oldest first: eligible and newer than `cutoff`, 52 weeks before now. */
  function Selected(master: seq<Record>, user: string, randomly: bool, cutoff: real): seq<Record> {
    Filter(Filter(master, (t: Record) => Eligible(t, user, randomly)), (t: Record) => t.timestamp > cutoff)
  }

  /** The selection is exactly the master entries meeting every condition, in their order. */
  lemma SelectedSpec(master: seq<Record>, user: string, randomly: bool, cutoff: real)
    ensures Selected(master, user, randomly, cutoff)
         == Filter(master, (t: Record) => Eligible(t, user, randomly) && t.timestamp > cutoff)
  {
    FilterFilter(master, (t: Record) => Eligible(t, user, randomly), (t: Record) => t.timestamp > cutoff,
                 (t: Record) => Eligible(t, user, randomly) && t.timestamp > cutoff);
  }

  // ---------------------------------------------------------------------
  // Reply context
  // ---------------------------------------------------------------------

  /** `next((t for t in rs if t[0] == id), None)` */
  function FirstWithId(rs: seq<Record>, id: nat): (r: Option<Record>)
    ensures r.None? <==> forall i :: 0 <= i < |rs| ==> rs[i].id != id
    ensures r.Some? ==> r.value in rs && r.value.id == id
    decreases |rs|
  {
    if |rs| == 0 then None
    else if rs[0].id == id then Some(rs[0])
    else
      var r := FirstWithId(rs[1..], id);
      assert forall i :: 1 <= i < |rs| ==> rs[i] == rs[1..][i - 1];
      r
  }

  /** What goes in before `m`: the first master entry it replies to, when that has at most 300 characters. */
  function Context(master: seq<Record>, m: Record): (r: seq<Record>)
    ensures |r| <= 1
    ensures |r| == 1 <==> m.replyId.Some? && FirstWithId(master, m.replyId.value).Some?
                          && |FirstWithId(master, m.replyId.value).value.content| <= 300
    ensures |r| == 1 ==> r[0] == FirstWithId(master, m.replyId.value).value
  {
    if m.replyId.None? then []
    else
      var replied := FirstWithId(master, m.replyId.value);
      if replied.Some? && |replied.value.content| <= 300 then [replied.value] else []
  }

  /** The list after the pass: every message preceded by its context. */
  function WithContext(master: seq<Record>, list: seq<Record>): seq<Record>
    decreases |list|
  {
    if |list| == 0 then []
    else
      var last := list[|list| - 1];
      WithContext(master, list[..|list| - 1]) + Context(master, last) + [last]
  }

  /** Which places of `WithContext` hold an inserted entry. */
  function Inserted(master: seq<Record>, list: seq<Record>): (tags: seq<bool>)
    ensures |tags| == |WithContext(master, list)|
    decreases |list|
  {
    if |list| == 0 then []
    else
      var last := list[|list| - 1];
      Inserted(master, list[..|list| - 1]) + (if |Context(master, last)| == 1 then [true] else []) + [false]
  }

  /** The entries at the untagged places. */
  function Untagged(out: seq<Record>, tags: seq<bool>): seq<Record>
    requires |out| == |tags|
    decreases |out|
  {
    if |out| == 0 then []
    else Untagged(out[..|out| - 1], tags[..|tags| - 1]) + (if tags[|tags| - 1] then [] else [out[|out| - 1]])
  }

  /** Untagging one more place. */
  lemma UntaggedSnoc(a: seq<Record>, ta: seq<bool>, x: Record, t: bool)
    requires |a| == |ta|
    ensures Untagged(a + [x], ta + [t]) == Untagged(a, ta) + (if t then [] else [x])
  {
    assert (a + [x])[..|a|] == a && (ta + [t])[..|ta|] == ta;
  }

  /** A non-empty list is its front and its last element. */
  lemma SplitLast(s: seq<Record>)
    requires |s| > 0
    ensures s == s[..|s| - 1] + [s[|s| - 1]]
  {
  }

  /** Deleting the inserted entries gives back the list the pass started from. */
  lemma {:induction false} WithContextRestores(master: seq<Record>, list: seq<Record>)
    ensures Untagged(WithContext(master, list), Inserted(master, list)) == list
    decreases |list|
  {
    if |list| > 0 {
      var init, last := list[..|list| - 1], list[|list| - 1];
      WithContextRestores(master, init);
      var outP, tagsP := WithContext(master, init), Inserted(master, init);
      var ctx := Context(master, last);
      var tctx: seq<bool> := if |ctx| == 1 then [true] else [];
      var out, tags := WithContext(master, list), Inserted(master, list);
      assert out == (outP + ctx) + [last];
      assert tags == (tagsP + tctx) + [false];
      UntaggedSnoc(outP + ctx, tagsP + tctx, last, false);
      if |ctx| == 1 {
        assert ctx == [ctx[0]];
        UntaggedSnoc(outP, tagsP, ctx[0], true);
      } else {
        assert outP + ctx == outP;
        assert tagsP + tctx == tagsP;
      }
      SplitLast(list);
    }
  }

  /**
   * At an inserted place: the entry sits just before the message that
   * replies to it, which is an original, and it is the first master entry
   * with that id, of at most 300 characters.
   */
  predicate PrecedesReply(master: seq<Record>, out: seq<Record>, tags: seq<bool>, k: nat)
    requires |out| == |tags| && k < |tags|
  {
    tags[k] ==>
      && k + 1 < |out| && !tags[k + 1]
      && out[k + 1].replyId == Some(out[k].id)
      && FirstWithId(master, out[k].id) == Some(out[k]) && |out[k].content| <= 300
  }

  /** Every inserted entry comes just before the message it gives the context of. */
  lemma {:induction false} WithContextInserted(master: seq<Record>, list: seq<Record>)
    ensures forall k :: 0 <= k < |Inserted(master, list)| ==>
      PrecedesReply(master, WithContext(master, list), Inserted(master, list), k)
    decreases |list|
  {
    if |list| > 0 {
      var init, last := list[..|list| - 1], list[|list| - 1];
      WithContextInserted(master, init);
      var outP, tagsP := WithContext(master, init), Inserted(master, init);
      var ctx := Context(master, last);
      var out, tags := WithContext(master, list), Inserted(master, list);
      assert out == outP + ctx + [last];
      assert tags == tagsP + (if |ctx| == 1 then [true] else []) + [false];
      forall k | 0 <= k < |tags|
        ensures PrecedesReply(master, out, tags, k)
      {
        if k < |tagsP| {
          assert PrecedesReply(master, outP, tagsP, k);
          if tagsP[k] {
            assert out[k] == outP[k] && out[k + 1] == outP[k + 1] && tags[k + 1] == tagsP[k + 1];
          }
        } else if k == |tagsP| && |ctx| == 1 {
          assert out[k] == ctx[0] && out[k + 1] == last && !tags[k + 1];
        }
      }
    }
  }

  /** One more message through the pass: its context, then the message. */
  lemma ContextStep(master: seq<Record>, list: seq<Record>, done: nat)
    requires done < |list|
    ensures WithContext(master, list[..done + 1]) + list[done + 1..]
         == WithContext(master, list[..done]) + Context(master, list[done]) + list[done..]
    ensures |WithContext(master, list[..done + 1])| == |WithContext(master, list[..done])| + |Context(master, list[done])| + 1
  {
    assert list[..done + 1][..done] == list[..done];
    assert list[done..] == [list[done]] + list[done + 1..];
  }

  /**
   * The reply-context pass: a while loop over the list that inserts each
   * message's context at its place and steps over it; it is skipped when
   * sampling at random.
   */
  method InsertReplyContext(master: seq<Record>, list: seq<Record>, randomly: bool) returns (out: seq<Record>)
    ensures out == if randomly then list else WithContext(master, list)
  {
    out := list;
    if randomly {
      return;
    }
    var i := 0;
    ghost var done := 0;
    while i < |out|
      invariant 0 <= done <= |list|
      invariant out == WithContext(master, list[..done]) + list[done..]
      invariant i == |WithContext(master, list[..done])|
      decreases |list| - done
    {
      ghost var front := WithContext(master, list[..done]);
      ContextStep(master, list, done);
      SplitAt(front, list[done..]);
      out, i := InsertContextAt(master, out, i);
      done := done + 1;
    }
    TakeAll(list);
  }

  /** One turn of the loop: the context of the message at `i` goes in before it, and `i` moves past both. */
  method InsertContextAt(master: seq<Record>, list: seq<Record>, i: nat) returns (out: seq<Record>, next: nat)
    requires i < |list|
    ensures out == list[..i] + Context(master, list[i]) + list[i..]
    ensures next == i + |Context(master, list[i])| + 1
  {
    var m := list[i];
    out, next := list, i + 1;
    assert list == list[..i] + list[i..];
    if m.replyId.Some? {
      var replied := FirstWithId(master, m.replyId.value);
      if replied.Some? && |replied.value.content| <= 300 {
        out := list[..i] + [replied.value] + list[i..];
        next := i + 2;
      }
    }
  }

  /** Cutting a concatenation where its first part ends. */
  lemma SplitAt(a: seq<Record>, b: seq<Record>)
    ensures (a + b)[..|a|] == a && (a + b)[|a|..] == b
  {
  }

  lemma TakeAll(s: seq<Record>)
    ensures s[..|s|] == s
  {
  }

  // ---------------------------------------------------------------------
  // The text
  // ---------------------------------------------------------------------

  /** The line written for `m`; the replied message is looked up in the final list. */
  function Entry(nicks: map<string, string>, list: seq<Record>, m: Record): (r: string)
    ensures m.replyId.None? ==> r == Nick(nicks, m.author) + ": " + m.content + "\n"
    ensures m.replyId.Some? && FirstWithId(list, m.replyId.value).Some? ==>
      r == Nick(nicks, m.author) + " replying to " + Nick(nicks, FirstWithId(list, m.replyId.value).value.author)
           + ": " + m.content + "\n"
    ensures m.replyId.Some? && FirstWithId(list, m.replyId.value).None? ==>
      r == Nick(nicks, m.author) + " replying to Unknown: " + m.content + "\n"
  {
    var head := Nick(nicks, m.author);
    if m.replyId.None? then head + ": " + m.content + "\n"
    else match FirstWithId(list, m.replyId.value)
      case Some(replied) => head + " replying to " + Nick(nicks, replied.author) + ": " + m.content + "\n"
      case None => head + " replying to Unknown: " + m.content + "\n"
  }

  /** One line per message, in order. */
  function Entries(nicks: map<string, string>, list: seq<Record>): (lines: seq<string>)
    ensures |lines| == |list|
  {
    seq(|list|, i requires 0 <= i < |list| => Entry(nicks, list, list[i]))
  }

  /** Each line starts with the author's nickname and ends with the content and a newline. */
  lemma EntryShape(nicks: map<string, string>, list: seq<Record>, m: Record)
    ensures var r, tail := Entry(nicks, list, m), m.content + "\n";
      StartsWith(r, Nick(nicks, m.author)) && |tail| <= |r| && r[|r| - |tail|..] == tail
  {
    var r, tail := Entry(nicks, list, m), m.content + "\n";
    var head := Nick(nicks, m.author);
    var mid := r[|head|..|r| - |tail|];
    assert r == head + mid + tail;
    assert r[..|head|] == head;
  }

  /** The output loop. */
  method WriteEntries(nicks: map<string, string>, list: seq<Record>) returns (lines: seq<string>)
    ensures lines == Entries(nicks, list)
  {
    lines := [];
    var i := 0;
    while i < |list|
      invariant 0 <= i <= |list|
      invariant lines == Entries(nicks, list)[..i]
    {
      lines := lines + [Entry(nicks, list, list[i])];
      i := i + 1;
    }
  }

  /**
   * `generate_messages(user, model, randomly_sample)` up to the text file:
   * the export, newest first, reversed; filtered; given reply context; and
   * written line by line to `data/<user>.txt`.
   */
  method GenerateMessages(exported: seq<Record>, user: string, randomly: bool, cutoff: real, nicks: map<string, string>)
    returns (path: string, lines: seq<string>)
    ensures var master := Talk.Reverse(exported);
      var list := Selected(master, user, randomly, cutoff);
      lines == Entries(nicks, if randomly then list else WithContext(master, list))
    ensures path == "data/" + user + ".txt"
  {
    var master := Talk.Reverse(exported);
    var list := Selected(master, user, randomly, cutoff);
    var withContext := InsertReplyContext(master, list, randomly);
    lines := WriteEntries(nicks, withContext);
    path := "data/" + user + ".txt";
  }

  // ---------------------------------------------------------------------
  // Expired CDN links
  // ---------------------------------------------------------------------

  /** A URL in the parts `urlparse` gives. */
  datatype Url = Url(scheme: string, netloc: string, path: string, query: string, fragment: string)

  const MirrorHost: string := "fixcdn.hyonsu.com"

  /** `urlunparse(('https', 'fixcdn.hyonsu.com', path, '', '', ''))` */
  function MirrorUrl(path: string): (r: string)
    ensures StartsWith(r, "https://" + MirrorHost)
    ensures StartsWith(path, "/") || path == "" ==> r == "https://" + MirrorHost + path
  {
    var base := "https://" + MirrorHost;
    var p := if path != "" && path[0] != '/' then "/" + path else path;
    assert (base + p)[..|base|] == base;
    base + p
  }

  /** `s.split('=', 1)`, when there is an `=`. */
  function SplitPair(s: string): (r: Option<(string, string)>)
    ensures r.Some? ==> s == r.value.0 + "=" + r.value.1 && '=' !in r.value.0
    ensures r.None? <==> '=' !in s
    decreases |s|
  {
    if |s| == 0 then None
    else if s[0] == '=' then Some(("", s[1..]))
    else match SplitPair(s[1..])
      case Some((a, b)) => Some(([s[0]] + a, b))
      case None => None
  }

  /** The first non-blank value of `key` among `name=value` pairs; pairs without `=` are skipped. */
  function FirstValue(pairs: seq<string>, key: string): (r: Option<string>)
    ensures r.Some? ==> r.value != "" && exists i :: 0 <= i < |pairs| && pairs[i] == key + "=" + r.value
    decreases |pairs|
  {
    if |pairs| == 0 then None
    else
      var here := SplitPair(pairs[0]);
      if here.Some? && here.value.0 == key && here.value.1 != "" then Some(here.value.1)
      else
        var r := FirstValue(pairs[1..], key);
        assert forall i :: 1 <= i < |pairs| ==> pairs[i] == pairs[1..][i - 1];
        r
  }

  /** `parse_qs(query).get(key, [None])[0]` */
  function QueryValue(query: string, key: string): Option<string> {
    FirstValue(SplitOn(query, '&'), key)
  }

  /** What the expiry test decides before any request is made. */
  datatype CdnCheck =
    | Rewrite(url: string)   // expired: the mirror URL
    | Probe                  // no expiry yet: the HEAD and GET checks decide
    | BadExpiry              // `int(ex, 16)` raises

  /**
   * The `ex` query value read as hexadecimal seconds: at or before `nowMs`
   * once multiplied by 1000, the link goes to the mirror with its path kept
   * and its query and fragment dropped.
   */
  function CheckExpiry(u: Url, nowMs: int): (r: CdnCheck)
    ensures r.Rewrite? <==> QueryValue(u.query, "ex").Some? && ParseHex(QueryValue(u.query, "ex").value).Some?
                            && ParseHex(QueryValue(u.query, "ex").value).value * 1000 <= nowMs
    ensures r.Rewrite? ==> r.url == MirrorUrl(u.path)
    ensures r == BadExpiry <==> QueryValue(u.query, "ex").Some? && ParseHex(QueryValue(u.query, "ex").value).None?
  {
    match QueryValue(u.query, "ex")
    case None => Probe
    case Some(ex) =>
      match ParseHex(ex)
      case None => BadExpiry
      case Some(seconds) => if seconds * 1000 <= nowMs then Rewrite(MirrorUrl(u.path)) else Probe
  }

  /** A query with just `ex=<value>` gives that value. */
  lemma QueryValueSingle(v: string)
    requires v != "" && '&' !in v
    ensures QueryValue("ex=" + v, "ex") == Some(v)
  {
    var q := "ex=" + v;
    assert forall x :: x in q ==> x in "ex=" || x in v;
    SplitOnAbsent(q, '&');
    assert q[1..][1..] == q[2..] && q[2..][1..] == v;
    assert SplitPair(q[2..]) == Some(("", v));
    assert q[1..][0] == 'x' && ['x'] + "" == "x" && ['e'] + "x" == "ex";
    assert SplitPair(q[1..]) == Some(("x", v));
    assert SplitPair(q) == Some(("ex", v));
  }

  /** A text without the separator splits into itself alone. */
  lemma {:induction false} SplitOnAbsent(s: string, c: char)
    requires c !in s
    ensures SplitOn(s, c) == [s]
    decreases |s|
  {
    if |s| > 0 {
      assert forall x :: x in s[1..] ==> x in s;
      SplitOnAbsent(s[1..], c);
      assert [s[0]] + s[1..] == s;
    }
  }
}
