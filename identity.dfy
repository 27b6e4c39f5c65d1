/**
 * Resolving the user ids of a conversation to display names and
 * descriptions (`get_author_information`). Ids arrive as integers (message
 * authors) or as decimal strings (mentions matched out of message text);
 * the identity store is keyed by the decimal text, while the guild's member
 * directory answers only for integer ids.
 */
module Identity {
  import opened Wrappers
  import opened Text
  import opened Db

  /** A user id as the caller holds it: an integer, or text taken from a mention. */
  datatype UserKey = Num(n: nat) | Str(s: string)

  /** `str(id)`: the text under which the store files the id. */
  function Render(k: UserKey): (r: string)
    ensures k.Num? ==> ParseNat(r) == Some(k.n)
  {
    match k
    case Num(n) => ParseNatOfNatToString(n); NatToString(n)
    case Str(s) => s
  }

  /** What `guild.get_member` reports of a member. */
  datatype Member = Member(nick: string, displayName: string)

  /** The guild's member directory, a lookup by integer id. */
  type Directory = nat -> Option<Member>

  /** `guild.get_member(id)`: a string id is never found. */
  function MemberOf(dir: Directory, k: UserKey): (r: Option<Member>)
    ensures k.Str? ==> r.None?
  {
    match k
    case Num(n) => dir(n)
    case Str(_) => None
  }

  /** `member.nick or member.display_name`. */
  function MemberName(m: Member): (r: string)
    ensures m.nick != "" ==> r == m.nick
    ensures m.nick == "" ==> r == m.displayName
  {
    if m.nick != "" then m.nick else m.displayName
  }

  /**
   * The resolved entries, the ids in the order the dict first received
   * them, and the name store afterwards.
   */
  datatype Resolution = Resolution(
    info: map<UserKey, (string, string)>,
    order: seq<UserKey>,
    names: map<string, string>)

  /** The name one id resolves to against a given store. */
  function NameFor(names: map<string, string>, dir: Directory, k: UserKey): string {
    match StoredName(names, Render(k))
    case Some(n) => n
    case None =>
      match MemberOf(dir, k)
      case Some(m) => MemberName(m)
      case None => Render(k)
  }

  /**
   * One iteration: a stored name wins; otherwise a directory hit is used and
   * persisted; otherwise the id's own text stands in. The description comes
   * from the store in every case.
   */
  function Step(res: Resolution, descriptions: map<string, string>, dir: Directory, k: UserKey): Resolution {
    var id := Render(k);
    var entry := (NameFor(res.names, dir, k), StoredDescription(descriptions, id));
    var order := if k in res.info then res.order else res.order + [k];
    var names :=
      if StoredName(res.names, id).None? && MemberOf(dir, k).Some?
      then res.names[id := MemberName(MemberOf(dir, k).value)]
      else res.names;
    Resolution(res.info[k := entry], order, names)
  }

  /** The loop of `get_author_information` over the first `|ids|` ids. */
  function ResolveAll(names: map<string, string>, descriptions: map<string, string>, dir: Directory, ids: seq<UserKey>)
    : Resolution
    decreases |ids|
  {
    if |ids| == 0 then Resolution(map[], [], names)
    else Step(ResolveAll(names, descriptions, dir, ids[..|ids| - 1]), descriptions, dir, ids[|ids| - 1])
  }

  /**
   * `get_author_information(author_ids, guild)` against the store `db`
   * and the directory `dir`.
   */
  method GetAuthorInformation(db: Database, ids: seq<UserKey>, dir: Directory) returns (res: Resolution)
    modifies db`names
    ensures res == ResolveAll(old(db.names), db.descriptions, dir, ids)
    ensures db.names == res.names
  {
    var info: map<UserKey, (string, string)> := map[];
    var order: seq<UserKey> := [];
    var i := 0;
    while i < |ids|
      invariant 0 <= i <= |ids|
      invariant Resolution(info, order, db.names) == ResolveAll(old(db.names), db.descriptions, dir, ids[..i])
    {
      var k := ids[i];
      var id := Render(k);
      var name := db.GetName(id);
      var description := db.GetDescription(id);
      if k !in info {
        order := order + [k];
      }
      if name.Some? {
        info := info[k := (name.value, description)];
      } else {
        var member := MemberOf(dir, k);
        if member.Some? {
          var n := MemberName(member.value);
          db.SetName(id, n);
          info := info[k := (n, description)];
        } else {
          info := info[k := (id, description)];
        }
      }
      assert ids[..i + 1][..i] == ids[..i];
      i := i + 1;
    }
    assert ids[..i] == ids;
    res := Resolution(info, order, db.names);
  }

  // ---------------------------------------------------------------------
  // Properties
  // ---------------------------------------------------------------------

  predicate Distinct<T(==)>(s: seq<T>) {
    forall i, j :: 0 <= i < j < |s| ==> s[i] != s[j]
  }

  /**
   * Exactly one entry per distinct input id, listed once each in
   * first-occurrence order, and every description is the stored one.
   */
  lemma {:induction false} ResolveAllEntries(names: map<string, string>, descriptions: map<string, string>, dir: Directory, ids: seq<UserKey>)
    ensures var res := ResolveAll(names, descriptions, dir, ids);
      && (forall k :: k in res.info <==> k in ids)
      && (forall k :: k in res.order <==> k in res.info)
      && Distinct(res.order)
      && forall k :: k in res.info ==> res.info[k].1 == StoredDescription(descriptions, Render(k))
    decreases |ids|
  {
    if |ids| > 0 {
      var prefix := ids[..|ids| - 1];
      ResolveAllEntries(names, descriptions, dir, prefix);
      var k := ids[|ids| - 1];
      var before := ResolveAll(names, descriptions, dir, prefix);
      StepEntries(before, descriptions, dir, k);
      Snoc(ids);
    }
  }

  /** One step adds the id's entry, listing it once, and keeps the others as they were. */
  lemma StepEntries(res: Resolution, descriptions: map<string, string>, dir: Directory, k: UserKey)
    requires forall x :: x in res.order <==> x in res.info
    requires Distinct(res.order)
    requires forall x :: x in res.info ==> res.info[x].1 == StoredDescription(descriptions, Render(x))
    ensures var r := Step(res, descriptions, dir, k);
      && (forall x :: x in r.info <==> x in res.info || x == k)
      && (forall x :: x in r.order <==> x in r.info)
      && Distinct(r.order)
      && forall x :: x in r.info ==> r.info[x].1 == StoredDescription(descriptions, Render(x))
  {
    var r := Step(res, descriptions, dir, k);
    if k !in res.info {
      assert r.order == res.order + [k];
      assert k !in res.order;
      forall x ensures x in r.order <==> x in res.order || x == k {
        assert x in res.order + [k] <==> x in res.order || x in [k];
      }
    }
  }

  /** Names that were stored stay, and the store gains an entry only where the directory answered. */
  lemma {:induction false} ResolveAllStore(names: map<string, string>, descriptions: map<string, string>, dir: Directory, ids: seq<UserKey>)
    ensures var res := ResolveAll(names, descriptions, dir, ids);
      && (forall id :: StoredName(names, id).Some? ==> StoredName(res.names, id) == StoredName(names, id))
      && (forall id :: id in res.names && (id !in names || res.names[id] != names[id]) ==>
            exists i :: 0 <= i < |ids| && Render(ids[i]) == id && MemberOf(dir, ids[i]).Some?)
    decreases |ids|
  {
    if |ids| > 0 {
      var prefix := ids[..|ids| - 1];
      ResolveAllStore(names, descriptions, dir, prefix);
      var before := ResolveAll(names, descriptions, dir, prefix);
      var res := ResolveAll(names, descriptions, dir, ids);
      var k := ids[|ids| - 1];
      forall id | id in res.names && (id !in names || res.names[id] != names[id])
        ensures exists i :: 0 <= i < |ids| && Render(ids[i]) == id && MemberOf(dir, ids[i]).Some?
      {
        if id in before.names && before.names[id] == res.names[id] {
          var i :| 0 <= i < |prefix| && Render(prefix[i]) == id && MemberOf(dir, prefix[i]).Some?;
          assert ids[i] == prefix[i];
        } else {
          assert Render(ids[|ids| - 1]) == id;
        }
      }
    }
  }

  /** When the directory knows none of the ids, the store is not written. */
  lemma {:induction false} ResolveAllNoMembers(names: map<string, string>, descriptions: map<string, string>, dir: Directory, ids: seq<UserKey>)
    requires forall i :: 0 <= i < |ids| ==> MemberOf(dir, ids[i]).None?
    ensures ResolveAll(names, descriptions, dir, ids).names == names
    decreases |ids|
  {
    if |ids| > 0 {
      ResolveAllNoMembers(names, descriptions, dir, ids[..|ids| - 1]);
    }
  }

  /**
   * The name a numeric id's own step writes under the text `s`: the text
   * must be the canonical decimal form of an id of the list that the
   * directory knows under a non-empty name.
   */
  function Written(dir: Directory, ids: seq<UserKey>, s: string): Option<string> {
    match ParseNat(s)
    case None => None
    case Some(n) =>
      if NatToString(n) == s && Num(n) in ids && dir(n).Some? && MemberName(dir(n).value) != ""
      then Some(MemberName(dir(n).value))
      else None
  }

  /** The stored name under `s` once the ids have been resolved: the old one, else the written one. */
  function StoredAfter(names: map<string, string>, dir: Directory, ids: seq<UserKey>, s: string): Option<string> {
    if StoredName(names, s).Some? then StoredName(names, s) else Written(dir, ids, s)
  }

  /** The `i`-th id does not occur again later in the list. */
  predicate LastAt(ids: seq<UserKey>, i: int)
    requires 0 <= i < |ids|
  {
    forall j :: i < j < |ids| ==> ids[j] != ids[i]
  }

  /**
   * The store after the loop: every text keeps its stored name, and a text
   * without one gains the member's name exactly when an integer id of the
   * list renders to it and the directory knows that member by a non-empty
   * name. Mention texts never write.
   */
  lemma {:induction false} ResolveAllStoreExact(names: map<string, string>, descriptions: map<string, string>,
                                                dir: Directory, ids: seq<UserKey>)
    ensures forall s :: StoredName(ResolveAll(names, descriptions, dir, ids).names, s) == StoredAfter(names, dir, ids, s)
    decreases |ids|
  {
    if |ids| > 0 {
      var prefix := ids[..|ids| - 1];
      ResolveAllStoreExact(names, descriptions, dir, prefix);
      var before := ResolveAll(names, descriptions, dir, prefix);
      var res := ResolveAll(names, descriptions, dir, ids);
      var last := ids[|ids| - 1];
      Snoc(ids);
      assert forall x :: x in ids <==> x in prefix || x == last;
      var t := Render(last);
      assert res == Step(before, descriptions, dir, last);
      var writes := StoredName(before.names, t).None? && MemberOf(dir, last).Some?;
      assert res.names == if writes then before.names[t := MemberName(MemberOf(dir, last).value)] else before.names;
      forall s ensures StoredName(res.names, s) == StoredAfter(names, dir, ids, s) {
        assert StoredName(before.names, s) == StoredAfter(names, dir, prefix, s);
        var grew := ParseNat(s).Some? && NatToString(ParseNat(s).value) == s && Num(ParseNat(s).value) == last
                     && Num(ParseNat(s).value) !in prefix;
        if !grew {
          assert Written(dir, ids, s) == Written(dir, prefix, s);
        }
        if writes && s == t {
          var m := last.n;
          ParseNatOfNatToString(m);
          assert Num(m) in ids;
          assert StoredName(names, s).None?;
          assert Written(dir, ids, s) == StoredName(res.names, s);
        } else if writes {
          assert StoredName(res.names, s) == StoredName(before.names, s);
        } else if grew {
          assert t == s;
        }
      }
    }
  }

  /** The name an entry shows, given the stored name under the id's text as the loop reaches it. */
  function NameAsReached(stored: Option<string>, dir: Directory, k: UserKey): string {
    match stored
    case Some(n) => n
    case None =>
      match MemberOf(dir, k)
      case Some(m) => MemberName(m)
      case None => Render(k)
  }

  /**
   * The entry of an id is the name its last occurrence resolves to against
   * the store as the loop reaches it.
   */
  lemma {:induction false} ResolveAllLastStep(names: map<string, string>, descriptions: map<string, string>,
                                              dir: Directory, ids: seq<UserKey>, i: nat)
    requires i < |ids| && LastAt(ids, i)
    ensures var res := ResolveAll(names, descriptions, dir, ids);
      ids[i] in res.info
      && res.info[ids[i]].0 == NameAsReached(StoredAfter(names, dir, ids[..i], Render(ids[i])), dir, ids[i])
    decreases |ids|
  {
    var prefix := ids[..|ids| - 1];
    ResolveAllStoreExact(names, descriptions, dir, ids[..i]);
    if i < |ids| - 1 {
      assert ids[|ids| - 1] != ids[i];
      assert prefix[..i] == ids[..i];
      ResolveAllLastStep(names, descriptions, dir, prefix, i);
    } else {
      assert prefix == ids[..i];
    }
  }

  /**
   * Every integer id resolves as against the store before the call: the
   * stored name, else the member's nickname or display name, else the id's
   * text. A mention `Str(s)` resolves to the name stored under `s` before
   * the call, else to the name an integer id rendering to `s` wrote earlier
   * in the list than the mention's last occurrence, else to `s` itself; so
   * a mention of a listed author shows the author's fresh member name.
   */
  lemma {:induction false} ResolveAllNames(names: map<string, string>, descriptions: map<string, string>,
                                           dir: Directory, ids: seq<UserKey>)
    ensures var res := ResolveAll(names, descriptions, dir, ids);
      && (forall i :: 0 <= i < |ids| && ids[i].Num? ==>
            ids[i] in res.info && res.info[ids[i]].0 == NameFor(names, dir, ids[i]))
      && (forall i :: 0 <= i < |ids| && ids[i].Str? && LastAt(ids, i) ==>
            ids[i] in res.info && res.info[ids[i]].0 == StoredAfter(names, dir, ids[..i], ids[i].s).GetOr(ids[i].s))
  {
    var res := ResolveAll(names, descriptions, dir, ids);
    forall i | 0 <= i < |ids| && ids[i].Num?
      ensures ids[i] in res.info && res.info[ids[i]].0 == NameFor(names, dir, ids[i])
    {
      var l := LastIndex(ids, i);
      ResolveAllLastStep(names, descriptions, dir, ids, l);
      ParseNatOfNatToString(ids[i].n);
    }
    forall i | 0 <= i < |ids| && ids[i].Str? && LastAt(ids, i)
      ensures ids[i] in res.info && res.info[ids[i]].0 == StoredAfter(names, dir, ids[..i], ids[i].s).GetOr(ids[i].s)
    {
      ResolveAllLastStep(names, descriptions, dir, ids, i);
    }
  }

  /** The last index holding the same id as index `i`. */
  lemma {:induction false} LastIndex(ids: seq<UserKey>, i: nat) returns (l: nat)
    requires i < |ids|
    ensures i <= l < |ids| && ids[l] == ids[i] && LastAt(ids, l)
    decreases |ids| - i
  {
    if exists j :: i < j < |ids| && ids[j] == ids[i] {
      var j :| i < j < |ids| && ids[j] == ids[i];
      l := LastIndex(ids, j);
    } else {
      l := i;
    }
  }

  /**
   * A prompt by author `n` that mentions `n`: the mention shows the member
   * name the author's own lookup has just stored, not the bare id.
   */
  lemma MentionOfAuthor(names: map<string, string>, descriptions: map<string, string>, dir: Directory, n: nat, m: Member)
    requires StoredName(names, NatToString(n)).None? && dir(n) == Some(m) && MemberName(m) != ""
    ensures var res := ResolveAll(names, descriptions, dir, [Num(n), Str(NatToString(n))]);
      && Str(NatToString(n)) in res.info && res.info[Str(NatToString(n))].0 == MemberName(m)
      && Num(n) in res.info && res.info[Num(n)].0 == MemberName(m)
  {
    var ids := [Num(n), Str(NatToString(n))];
    ResolveAllNames(names, descriptions, dir, ids);
    ParseNatOfNatToString(n);
    assert ids[..1] == [Num(n)];
    assert LastAt(ids, 1);
  }
}
