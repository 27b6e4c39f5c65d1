/**
 * The bot's SQLite store as one object whose tables are fields: the usage
 * and karma ledgers, the reaction rows, the identity store (names and
 * descriptions keyed by the decimal text of a user id, which is how SQLite's
 * type affinity makes an integer id and its string form find the same row)
 * and the per-(guild, user) abbreviation lists in insertion order.
 * Every SQL read-modify-write is a method that reassigns the one field it
 * touches to the value a function of `Ledger` or `ReactionTable` computes.
 */
module Db {
  import opened Wrappers
  import opened Ledger
  import opened ReactionTable

  /** One user's abbreviations, oldest first, as the store lists them. */
  type Abbreviations = seq<(string, string)>

  predicate DistinctKeys(entries: Abbreviations) {
    forall i, j :: 0 <= i < j < |entries| ==> entries[i].0 != entries[j].0
  }

  /** The value stored under `key`, if any. */
  function FindEntry(entries: Abbreviations, key: string): (r: Option<string>)
    ensures r.Some? <==> exists i :: 0 <= i < |entries| && entries[i].0 == key
    ensures r.Some? ==> exists i :: 0 <= i < |entries| && entries[i] == (key, r.value)
    decreases |entries|
  {
    if |entries| == 0 then None
    else if entries[0].0 == key then Some(entries[0].1)
    else
      var r := FindEntry(entries[1..], key);
      assert forall i :: 1 <= i < |entries| ==> entries[i] == entries[1..][i - 1];
      r
  }

  /**
   * Setting an abbreviation: an existing key keeps its place and takes the
   * new value, a new key goes to the end.
   */
  function PutEntry(entries: Abbreviations, key: string, value: string): (r: Abbreviations)
    ensures FindEntry(r, key) == Some(value)
    ensures forall k :: k != key ==> FindEntry(r, k) == FindEntry(entries, k)
    ensures DistinctKeys(entries) ==> DistinctKeys(r)
    decreases |entries|
  {
    if |entries| == 0 then [(key, value)]
    else if entries[0].0 == key then [(key, value)] + entries[1..]
    else
      var tail := PutEntry(entries[1..], key, value);
      assert ([entries[0]] + tail)[1..] == tail;
      assert DistinctKeys(entries) ==> FindEntry(entries[1..], entries[0].0).None? by {
        if DistinctKeys(entries) {
          forall i | 0 <= i < |entries[1..]| ensures entries[1..][i].0 != entries[0].0 {
            assert entries[1..][i] == entries[i + 1];
          }
        }
      }
      assert DistinctKeys(entries) ==> DistinctKeys(entries[1..]) by {
        if DistinctKeys(entries) {
          forall i, j | 0 <= i < j < |entries[1..]| ensures entries[1..][i].0 != entries[1..][j].0 {
            assert entries[1..][i] == entries[i + 1] && entries[1..][j] == entries[j + 1];
          }
        }
      }
      var r := [entries[0]] + tail;
      assert DistinctKeys(entries) ==> DistinctKeys(r) by {
        if DistinctKeys(entries) {
          assert FindEntry(tail, entries[0].0).None?;
          forall i, j | 0 <= i < j < |r| ensures r[i].0 != r[j].0 {
            if i == 0 {
              assert r[j] == tail[j - 1];
            } else {
              assert r[i] == tail[i - 1] && r[j] == tail[j - 1];
            }
          }
        }
      }
      r
  }

  /** Deleting an abbreviation drops every entry with that key. */
  function DeleteEntry(entries: Abbreviations, key: string): (r: Abbreviations)
    ensures FindEntry(r, key).None?
    ensures forall k :: k != key ==> FindEntry(r, k) == FindEntry(entries, k)
    ensures |r| <= |entries|
    ensures DistinctKeys(entries) ==> DistinctKeys(r)
    decreases |entries|
  {
    if |entries| == 0 then []
    else if entries[0].0 == key then
      assert DistinctKeys(entries) ==> DistinctKeys(entries[1..]) by {
        if DistinctKeys(entries) {
          DistinctKeysTail(entries);
        }
      }
      DeleteEntry(entries[1..], key)
    else
      var tail := DeleteEntry(entries[1..], key);
      var r := [entries[0]] + tail;
      assert r[1..] == tail;
      assert DistinctKeys(entries) ==> DistinctKeys(r) by {
        if DistinctKeys(entries) {
          DistinctKeysTail(entries);
          assert FindEntry(tail, entries[0].0).None?;
          forall i, j | 0 <= i < j < |r| ensures r[i].0 != r[j].0 {
            assert r[j] == tail[j - 1];
            if i > 0 {
              assert r[i] == tail[i - 1];
            }
          }
        }
      }
      r
  }

  /** Below a list with distinct keys, the rest has distinct keys and lacks the first key. */
  lemma DistinctKeysTail(entries: Abbreviations)
    requires |entries| > 0 && DistinctKeys(entries)
    ensures DistinctKeys(entries[1..]) && FindEntry(entries[1..], entries[0].0).None?
  {
    forall i | 0 <= i < |entries[1..]| ensures entries[1..][i].0 != entries[0].0 {
      assert entries[1..][i] == entries[i + 1];
    }
    forall i, j | 0 <= i < j < |entries[1..]| ensures entries[1..][i].0 != entries[1..][j].0 {
      assert entries[1..][i] == entries[i + 1] && entries[1..][j] == entries[j + 1];
    }
  }

  /** A stored name, where an empty one counts as none. */
  function StoredName(names: map<string, string>, id: string): (r: Option<string>)
    ensures r.Some? <==> id in names && names[id] != ""
    ensures r.Some? ==> r.value == names[id]
  {
    if id in names && names[id] != "" then Some(names[id]) else None
  }

  /** A stored description, empty when there is none. */
  function StoredDescription(descriptions: map<string, string>, id: string): (r: string)
    ensures id in descriptions ==> r == descriptions[id]
    ensures id !in descriptions ==> r == ""
  {
    if id in descriptions then descriptions[id] else ""
  }

  /** The abbreviation list of one (guild, user), empty when there is none. */
  function AbbreviationsOf(abbreviations: map<(nat, nat), Abbreviations>, guild: nat, user: nat): (r: Abbreviations)
    ensures (guild, user) in abbreviations ==> r == abbreviations[(guild, user)]
    ensures (guild, user) !in abbreviations ==> r == []
  {
    if (guild, user) in abbreviations then abbreviations[(guild, user)] else []
  }

  class Database {
    var usage: map<nat, Account>
    var karma: map<(nat, nat), int>
    var reactions: seq<Row>
    var names: map<string, string>
    var descriptions: map<string, string>
    var abbreviations: map<(nat, nat), Abbreviations>

    /** The keys the tables declare unique are unique. */
    ghost predicate Valid()
      reads this
    {
      && UniqueKeys(reactions)
      && forall gu :: gu in abbreviations ==> DistinctKeys(abbreviations[gu])
    }

    /** `init_db` on a fresh file: every table exists and is empty. */
    constructor ()
      ensures Valid()
      ensures usage == map[] && karma == map[] && reactions == []
      ensures names == map[] && descriptions == map[] && abbreviations == map[]
    {
      usage := map[];
      karma := map[];
      reactions := [];
      names := map[];
      descriptions := map[];
      abbreviations := map[];
    }

    // -------------------------------------------------------------------
    // usage
    // -------------------------------------------------------------------

    /** `get_usage(user)`: the two balances of the user's row, or nothing. */
    function GetUsage(user: nat): (r: Option<(real, real)>)
      reads this
      ensures r.None? <==> user !in usage
      ensures user in usage ==> r == Some((usage[user].usageBalance, usage[user].bankBalance))
    {
      if user in usage then Some((usage[user].usageBalance, usage[user].bankBalance)) else None
    }

    /** `update_usage(user, delta, initial_balance)`. */
    method UpdateUsage(user: nat, delta: real, initialBalance: real)
      modifies this`usage
      ensures usage == DebitUser(old(usage), user, delta, initialBalance)
    {
      usage := DebitUser(usage, user, delta, initialBalance);
    }

    /** `reset_usage(initial_balance)`. */
    method ResetUsage(initialBalance: real)
      modifies this`usage
      ensures usage == ResetAll(old(usage), initialBalance)
    {
      usage := ResetAll(usage, initialBalance);
    }

    /** The read-modify-write of `adddabloons` and `increase_tokens`. */
    method AddUsageBalance(user: nat, amount: real, initial: real)
      modifies this`usage
      ensures usage == AddUsage(old(usage), user, amount, initial)
    {
      usage := AddUsage(usage, user, amount, initial);
    }

    /** The read-modify-write of `addbankdabloons`. */
    method AddBankBalance(user: nat, amount: real, initial: real)
      modifies this`usage
      ensures usage == AddBank(old(usage), user, amount, initial)
    {
      usage := AddBank(usage, user, amount, initial);
    }

    // -------------------------------------------------------------------
    // karma
    // -------------------------------------------------------------------

    /** `get_karma(guild, user)`: the stored score, 0 when there is no row. */
    function GetKarma(guild: nat, user: nat): (k: int)
      reads this
      ensures (guild, user) !in karma ==> k == 0
      ensures (guild, user) in karma ==> k == karma[(guild, user)]
    {
      KarmaOf(karma, guild, user)
    }

    /** `update_karma(guild, user, delta)` with the missing row inserted. */
    method UpdateKarma(guild: nat, user: nat, delta: int)
      modifies this`karma
      ensures karma == AddKarma(old(karma), guild, user, delta)
    {
      karma := AddKarma(karma, guild, user, delta);
    }

    // -------------------------------------------------------------------
    // reactions
    // -------------------------------------------------------------------

    /**
     * Recording a reaction, keyed by (message, reactor, emoji text) as the
     * scrape's upsert keys it; a recorded key has its reactee overwritten.
     */
    method AddReaction(messageId: nat, reactorId: nat, reacteeId: nat, value: string)
      requires Valid()
      modifies this`reactions
      ensures Valid()
      ensures reactions == Upsert(old(reactions), Row(messageId, reactorId, reacteeId, value))
    {
      reactions := Upsert(reactions, Row(messageId, reactorId, reacteeId, value));
    }

    /** Forgetting the reaction with that key. */
    method RemoveReaction(messageId: nat, reactorId: nat, value: string)
      requires Valid()
      modifies this`reactions
      ensures Valid()
      ensures reactions == RemoveKey(old(reactions), Key(messageId, reactorId, value))
    {
      RemoveKeyUnique(reactions, Key(messageId, reactorId, value));
      reactions := RemoveKey(reactions, Key(messageId, reactorId, value));
    }

    // -------------------------------------------------------------------
    // identities
    // -------------------------------------------------------------------

    /** `get_name(id)`: the stored name; an empty name counts as none. */
    function GetName(id: string): (r: Option<string>)
      reads this
      ensures r == StoredName(names, id)
    {
      StoredName(names, id)
    }

    /** `get_description(id)`: the stored description, empty when there is none. */
    function GetDescription(id: string): (r: string)
      reads this
      ensures r == StoredDescription(descriptions, id)
    {
      StoredDescription(descriptions, id)
    }

    /** `set_name(id, name)`. */
    method SetName(id: string, name: string)
      modifies this`names
      ensures names == old(names)[id := name]
    {
      names := names[id := name];
    }

    /** `set_description(id, description)`. */
    method SetDescription(id: string, description: string)
      modifies this`descriptions
      ensures descriptions == old(descriptions)[id := description]
    {
      descriptions := descriptions[id := description];
    }

    // -------------------------------------------------------------------
    // abbreviations
    // -------------------------------------------------------------------

    /** `get_all_abbreviations(guild, user)`, in insertion order. */
    function GetAllAbbreviations(guild: nat, user: nat): (r: Abbreviations)
      reads this
      ensures r == AbbreviationsOf(abbreviations, guild, user)
    {
      AbbreviationsOf(abbreviations, guild, user)
    }

    /** `get_abbreviation(guild, user, key)`. */
    function GetAbbreviation(guild: nat, user: nat, key: string): (r: Option<string>)
      reads this
      ensures r.Some? <==> exists i :: 0 <= i < |GetAllAbbreviations(guild, user)| && GetAllAbbreviations(guild, user)[i].0 == key
    {
      FindEntry(GetAllAbbreviations(guild, user), key)
    }

    /** `set_abbreviation(guild, user, key, value)`. */
    method SetAbbreviation(guild: nat, user: nat, key: string, value: string)
      requires Valid()
      modifies this`abbreviations
      ensures Valid()
      ensures abbreviations == old(abbreviations)[(guild, user) := PutEntry(old(GetAllAbbreviations(guild, user)), key, value)]
      ensures GetAbbreviation(guild, user, key) == Some(value)
    {
      abbreviations := abbreviations[(guild, user) := PutEntry(GetAllAbbreviations(guild, user), key, value)];
    }

    /** `delete_abbreviation(guild, user, key)`. */
    method DeleteAbbreviation(guild: nat, user: nat, key: string)
      requires Valid()
      modifies this`abbreviations
      ensures Valid()
      ensures abbreviations == old(abbreviations)[(guild, user) := DeleteEntry(old(GetAllAbbreviations(guild, user)), key)]
      ensures GetAbbreviation(guild, user, key).None?
    {
      abbreviations := abbreviations[(guild, user) := DeleteEntry(GetAllAbbreviations(guild, user), key)];
    }
  }
}
