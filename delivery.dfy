/**
 * Getting answers out to the chat and messages back in: `reply_split`
 * cuts a long answer into chunks of at most 1950 characters sent as a
 * chain of replies, and `get_message_from_cache` finds a message in the
 * client's cache, then in a cache of its own, then by fetching it.
 * Sending is modelled by the list of replies produced, in order; each
 * reply names what it answers, the triggering message or an earlier reply
 * of the same list.
 */
module Delivery {
  import opened Wrappers
  import opened Text
  import Talk

  /** The most characters one chat message may carry here. */
  const ChunkSize: nat := 1950

  /** What a reply answers: the triggering message, or the reply at that place in the list. */
  datatype Target = ToOriginal | ToSent(index: nat)

  datatype Body = Words(text: string) | Picture(data: string)

  datatype Reply = Reply(target: Target, body: Body)

  /** `not s.strip()` */
  predicate Blank(s: string) {
    Strip(s) == ""
  }

  /** An image argument counts only when it is a non-empty string. */
  predicate HasImage(image: Option<string>) {
    image.Some? && image.value != ""
  }

  function Min(a: int, b: int): int {
    if a <= b then a else b
  }

  /** The pieces the text goes out in: the whole text when it fits, otherwise cut every 1950 characters. */
  function Chunks(t: string): (cs: seq<string>)
    ensures |cs| >= 1
    decreases |t|
  {
    if |t| <= ChunkSize then [t] else [t[..ChunkSize]] + Chunks(t[ChunkSize..])
  }

  function Concat(parts: seq<string>): string
    decreases |parts|
  {
    if |parts| == 0 then "" else parts[0] + Concat(parts[1..])
  }

  /**
   * The chunks put back together are the text; none is longer than 1950
   * characters; a longer text gives ceil(|t| / 1950) chunks, none empty.
   */
  lemma {:induction false} ChunksCover(t: string)
    ensures Concat(Chunks(t)) == t
    ensures forall i :: 0 <= i < |Chunks(t)| ==> |Chunks(t)[i]| <= ChunkSize
    ensures |t| > ChunkSize ==> |Chunks(t)| == (|t| + ChunkSize - 1) / ChunkSize
    ensures |t| > 0 ==> forall i :: 0 <= i < |Chunks(t)| ==> |Chunks(t)[i]| > 0
    decreases |t|
  {
    if |t| > ChunkSize {
      var rest := t[ChunkSize..];
      ChunksCover(rest);
      var cs := Chunks(t);
      assert cs[1..] == Chunks(rest);
      assert t == t[..ChunkSize] + rest;
      forall i | 0 < i < |cs| ensures |cs[i]| <= ChunkSize && |cs[i]| > 0 {
        assert cs[i] == Chunks(rest)[i - 1];
      }
      if |rest| <= ChunkSize {
        assert |cs| == 2;
      }
    }
  }

  /** Chunk `i` is the slice `t[i*1950:(i+1)*1950]`, as the loop cuts it. */
  lemma {:induction false} ChunkSlice(t: string, i: nat)
    requires |t| > ChunkSize && i < |Chunks(t)|
    ensures i * ChunkSize < |t|
    ensures Chunks(t)[i] == t[i * ChunkSize..Min((i + 1) * ChunkSize, |t|)]
    decreases i
  {
    var rest := t[ChunkSize..];
    if i > 0 {
      assert Chunks(t)[i] == Chunks(rest)[i - 1];
      if |rest| <= ChunkSize {
        assert i == 1;
      } else {
        ChunkSlice(rest, i - 1);
        var a, b := (i - 1) * ChunkSize, Min(i * ChunkSize, |rest|);
        assert a + ChunkSize == i * ChunkSize;
        assert b + ChunkSize == Min((i + 1) * ChunkSize, |t|);
        SliceShift(t, a, b);
      }
    }
  }

  lemma SliceShift(t: string, a: nat, b: nat)
    requires ChunkSize <= |t| && a <= b <= |t| - ChunkSize
    ensures t[ChunkSize..][a..b] == t[a + ChunkSize..b + ChunkSize]
  {
  }

  /**
   * The replies carrying the text, the first of them placed at `base` in
   * the list: the first answers the triggering message, each later one
   * the chunk before it.
   */
  function TextReplies(t: string, base: nat): (rs: seq<Reply>)
    ensures |rs| == |Chunks(t)|
  {
    var cs := Chunks(t);
    seq(|cs|, i requires 0 <= i < |cs| => Reply(if i == 0 then ToOriginal else ToSent(base + i - 1), Words(cs[i])))
  }

  /** All replies `reply_split(message, text, image)` sends, in order. */
  function Replies(t: string, image: Option<string>): seq<Reply> {
    if Blank(t) && !HasImage(image) then [Reply(ToOriginal, Words("Error: Empty response"))]
    else if HasImage(image) then [Reply(ToOriginal, Picture(image.value))] + TextReplies(t, 1)
    else TextReplies(t, 0)
  }

  /** `reply_split(message, text, image)`. */
  method ReplySplit(t: string, image: Option<string>) returns (sent: seq<Reply>)
    ensures sent == Replies(t, image)
  {
    if Blank(t) && !HasImage(image) {
      return [Reply(ToOriginal, Words("Error: Empty response"))];
    }
    var head: seq<Reply> := [];
    if HasImage(image) {
      head := [Reply(ToOriginal, Picture(image.value))];
    }
    var tail;
    if |t| <= ChunkSize {
      tail := [Reply(ToOriginal, Words(t))];
      assert tail == TextReplies(t, |head|);
    } else {
      tail := SendChunks(t, |head|);
    }
    sent := head + tail;
  }

  /**
   * The loop over `ceil(len / 1950)` chunks; `base` is where the first
   * chunk's reply lands in the list of replies.
   */
  method SendChunks(t: string, base: nat) returns (sent: seq<Reply>)
    requires |t| > ChunkSize
    ensures sent == TextReplies(t, base)
  {
    var numChunks := (|t| + ChunkSize - 1) / ChunkSize;
    ChunksCover(t);
    ghost var all := TextReplies(t, base);
    var last := ToOriginal;
    sent := [];
    var i := 0;
    while i < numChunks
      invariant 0 <= i <= numChunks
      invariant sent == all[..i]
      invariant last == if i == 0 then ToOriginal else ToSent(base + i - 1)
    {
      ChunkSlice(t, i);
      var chunk := t[i * ChunkSize..Min((i + 1) * ChunkSize, |t|)];
      sent := sent + [Reply(last, Words(chunk))];
      assert all[..i] + [all[i]] == all[..i + 1];
      last := ToSent(base + i);
      i := i + 1;
    }
  }

  // ---------------------------------------------------------------------
  // What the replies promise
  // ---------------------------------------------------------------------

  /** Blank text and no image: one error reply and nothing else. */
  lemma RepliesEmpty(t: string, image: Option<string>)
    requires Blank(t) && !HasImage(image)
    ensures Replies(t, image) == [Reply(ToOriginal, Words("Error: Empty response"))]
  {
  }

  /**
   * Otherwise the image, if any, goes first to the triggering message, and
   * the words of the text replies put together are the text, however
   * blank; each carries at most 1950 characters.
   */
  lemma {:induction false} RepliesCarryText(t: string, image: Option<string>)
    requires !(Blank(t) && !HasImage(image))
    ensures var rs := Replies(t, image);
      var k := if HasImage(image) then 1 else 0;
      && (HasImage(image) ==> rs[0] == Reply(ToOriginal, Picture(image.value)))
      && |rs| == k + |Chunks(t)|
      && (forall i :: k <= i < |rs| ==> rs[i].body.Words? && |rs[i].body.text| <= ChunkSize)
      && Concat(TextsFrom(rs, k)) == t
  {
    if HasImage(image) {
      var head := [Reply(ToOriginal, Picture(image.value))];
      assert Replies(t, image) == head + TextReplies(t, 1);
      TextRepliesCarryText(head, t, 1);
    } else {
      assert Replies(t, image) == [] + TextReplies(t, 0);
      TextRepliesCarryText([], t, 0);
    }
  }

  /** The text replies after any head: short, and their words put together are the text. */
  lemma TextRepliesCarryText(head: seq<Reply>, t: string, base: nat)
    ensures var rs := head + TextReplies(t, base);
      && |rs| == |head| + |Chunks(t)|
      && (forall i :: |head| <= i < |rs| ==> rs[i].body.Words? && |rs[i].body.text| <= ChunkSize)
      && Concat(TextsFrom(rs, |head|)) == t
  {
    ChunksCover(t);
    var rs := head + TextReplies(t, base);
    var words := TextsFrom(rs, |head|);
    forall i | |head| <= i < |rs| ensures rs[i].body == Words(Chunks(t)[i - |head|]) {
      assert rs[i] == TextReplies(t, base)[i - |head|];
    }
    assert forall i :: 0 <= i < |words| ==> words[i] == Chunks(t)[i];
    assert words == Chunks(t);
  }

  /** The text of every reply from place `k` on, the empty text for a picture. */
  function TextsFrom(rs: seq<Reply>, k: nat): (ws: seq<string>)
    ensures |ws| == if k <= |rs| then |rs| - k else 0
    ensures forall i :: 0 <= i < |ws| ==> ws[i] == (if rs[k + i].body.Words? then rs[k + i].body.text else "")
  {
    if k > |rs| then []
    else seq(|rs| - k, i requires 0 <= i < |rs| - k => if rs[k + i].body.Words? then rs[k + i].body.text else "")
  }

  /** A text of at most 1950 characters goes out as one reply to the triggering message. */
  lemma RepliesShort(t: string, image: Option<string>)
    requires !(Blank(t) && !HasImage(image)) && |t| <= ChunkSize
    ensures Replies(t, image) ==
      (if HasImage(image) then [Reply(ToOriginal, Picture(image.value))] else []) + [Reply(ToOriginal, Words(t))]
  {
    assert TextReplies(t, if HasImage(image) then 1 else 0) == [Reply(ToOriginal, Words(t))];
  }

  /**
   * Every text reply answers the one sent just before it, except the first,
   * which answers the triggering message even when an image went first.
   */
  lemma RepliesChained(t: string, image: Option<string>)
    requires !(Blank(t) && !HasImage(image))
    ensures var rs := Replies(t, image);
      var k := if HasImage(image) then 1 else 0;
      && rs[k].target == ToOriginal
      && forall i :: k < i < |rs| ==> rs[i].target == ToSent(i - 1)
  {
  }

  // ---------------------------------------------------------------------
  // The message cache
  // ---------------------------------------------------------------------

  /** The first message with that id, as `discord.utils.get` and the loop find it. */
  function FindMessage(ms: seq<Talk.ChatMessage>, id: nat): (r: Option<Talk.ChatMessage>)
    ensures r.None? <==> forall i :: 0 <= i < |ms| ==> ms[i].id != id
    ensures r.Some? ==> exists i :: 0 <= i < |ms| && ms[i] == r.value && r.value.id == id
                                 && forall j :: 0 <= j < i ==> ms[j].id != id
    decreases |ms|
  {
    if |ms| == 0 then None
    else if ms[0].id == id then Some(ms[0])
    else
      var r := FindMessage(ms[1..], id);
      assert forall i :: 1 <= i < |ms| ==> ms[i] == ms[1..][i - 1];
      if r.Some? then
        var i :| 0 <= i < |ms[1..]| && ms[1..][i] == r.value && r.value.id == id
                 && forall j :: 0 <= j < i ==> ms[1..][j].id != id;
        assert ms[i + 1] == r.value;
        r
      else r
  }

  /** The extra cache: messages fetched once and kept for later lookups. */
  class MessageCache {
    var extra: seq<Talk.ChatMessage>

    constructor ()
      ensures extra == []
    {
      extra := [];
    }

    /**
     * `get_message_from_cache(bot, channel, id, extra_cache)`: the client's
     * cache first, then the extra cache, then a fetch, which alone adds to
     * the extra cache and only when it succeeds.
     */
    method Get(clientCache: seq<Talk.ChatMessage>, id: nat, fetch: Talk.Fetch) returns (r: Option<Talk.ChatMessage>)
      modifies this
      ensures FindMessage(clientCache, id).Some? ==> r == FindMessage(clientCache, id) && extra == old(extra)
      ensures FindMessage(clientCache, id).None? && FindMessage(old(extra), id).Some? ==>
        r == FindMessage(old(extra), id) && extra == old(extra)
      ensures FindMessage(clientCache, id).None? && FindMessage(old(extra), id).None? ==>
        r == fetch(id) && extra == old(extra) + (if r.Some? then [r.value] else [])
    {
      var cached := FindMessage(clientCache, id);
      if cached.Some? {
        return cached;
      }
      var i := 0;
      while i < |extra|
        invariant 0 <= i <= |extra|
        invariant forall j :: 0 <= j < i ==> extra[j].id != id
      {
        if extra[i].id == id {
          assert FindMessage(extra, id) == Some(extra[i]) by {
            FirstMatch(extra, id, i);
          }
          return Some(extra[i]);
        }
        i := i + 1;
      }
      r := fetch(id);
      if r.Some? {
        extra := extra + [r.value];
      }
    }
  }

  /** The first position holding the id is where `FindMessage` stops. */
  lemma {:induction false} FirstMatch(ms: seq<Talk.ChatMessage>, id: nat, i: nat)
    requires i < |ms| && ms[i].id == id && forall j :: 0 <= j < i ==> ms[j].id != id
    ensures FindMessage(ms, id) == Some(ms[i])
    decreases i
  {
    if i > 0 {
      FirstMatch(ms[1..], id, i - 1);
    }
  }

  /** A message fetched once is found in the extra cache from then on. */
  lemma FetchedIsKept(extra: seq<Talk.ChatMessage>, m: Talk.ChatMessage)
    requires FindMessage(extra, m.id).None?
    ensures FindMessage(extra + [m], m.id) == Some(m)
  {
    FirstMatch(extra + [m], m.id, |extra|);
  }
}
