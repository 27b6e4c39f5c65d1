/**
 * User abbreviations: expansion of a prompt line and the replies of the
 * `getabbr` and `listabbr` commands.
 */
module Abbreviation {
  import opened Wrappers
  import opened Text
  import opened Db

  /**
   * The text after the abbreviations have been expanded one after another
   * in store order: each key is replaced literally, everywhere, in the text
   * the earlier keys left behind.
   */
  function Expand(text: string, entries: Abbreviations): string
    decreases |entries|
  {
    if |entries| == 0 then text
    else
      var last := entries[|entries| - 1];
      ReplaceAll(Expand(text, entries[..|entries| - 1]), last.0, last.1)
  }

  /** `expand_abbreviations(text, guild, user)`: only that guild and user's list is consulted. */
  method ExpandAbbreviations(db: Database, text: string, guild: nat, user: nat) returns (r: string)
    ensures r == Expand(text, db.GetAllAbbreviations(guild, user))
  {
    var abbrs := db.GetAllAbbreviations(guild, user);
    r := text;
    var i := 0;
    while i < |abbrs|
      invariant 0 <= i <= |abbrs|
      invariant r == Expand(text, abbrs[..i])
    {
      r := ReplaceAll(r, abbrs[i].0, abbrs[i].1);
      assert abbrs[..i + 1][..i] == abbrs[..i];
      i := i + 1;
    }
    assert abbrs[..i] == abbrs;
  }

  /** A later key is applied to the text the earlier keys produced. */
  lemma ExpandAppend(text: string, entries: Abbreviations, key: string, value: string)
    ensures Expand(text, entries + [(key, value)]) == ReplaceAll(Expand(text, entries), key, value)
  {
    assert (entries + [(key, value)])[..|entries|] == entries;
  }

  /** With no abbreviation, or none whose (non-empty) key occurs, the text is unchanged. */
  lemma {:induction false} ExpandUnchanged(text: string, entries: Abbreviations)
    requires forall i :: 0 <= i < |entries| ==> |entries[i].0| > 0 && !Contains(text, entries[i].0)
    ensures Expand(text, entries) == text
    decreases |entries|
  {
    if |entries| > 0 {
      var last := entries[|entries| - 1];
      ExpandUnchanged(text, entries[..|entries| - 1]);
      ReplaceAllAbsent(text, last.0, last.1);
    }
  }

  /** The reply of `getabbr`: at most the first 1900 characters of a non-empty value. */
  function GetAbbrReply(key: string, value: Option<string>): (r: string)
    ensures (value.None? || value.value == "") ==> r == "No abbreviation found for `" + key + "`."
    ensures value.Some? && value.value != "" ==>
      var head := "`" + key + "`: ";
      && |head| <= |r| <= |head| + 1900
      && r[..|head|] == head
      && |r| - |head| <= |value.value|
      && r[|head|..] == value.value[..|r| - |head|]
      && (|value.value| <= 1900 ==> r == head + value.value)
  {
    match value
    case Some(v) =>
      if v != "" then "`" + key + "`: " + Take(v, 1900) else "No abbreviation found for `" + key + "`."
    case None => "No abbreviation found for `" + key + "`."
  }

  /** `getabbr key` against the store. */
  function GetAbbr(db: Database, guild: nat, user: nat, key: string): (r: string)
    reads db
    ensures db.GetAbbreviation(guild, user, key).None? ==> r == "No abbreviation found for `" + key + "`."
  {
    GetAbbrReply(key, db.GetAbbreviation(guild, user, key))
  }

  function Keys(entries: Abbreviations): (ks: seq<string>)
    ensures |ks| == |entries| && forall i :: 0 <= i < |entries| ==> ks[i] == entries[i].0
  {
    seq(|entries|, i requires 0 <= i < |entries| => entries[i].0)
  }

  /** The reply of `listabbr`: the keys in store order, comma separated, or a notice that there are none. */
  function ListAbbrReply(entries: Abbreviations): (r: string)
    ensures |entries| == 0 ==> r == "You have no abbreviations."
    ensures |entries| > 0 ==> r == "Your abbreviations: " + Join(Keys(entries), ", ")
    ensures |entries| > 0 ==> forall i :: 0 <= i < |entries| ==> Contains(r, entries[i].0)
  {
    if |entries| == 0 then "You have no abbreviations."
    else
      var joined := Join(Keys(entries), ", ");
      forall i | 0 <= i < |entries| ensures Contains("Your abbreviations: " + joined, entries[i].0) {
        JoinContains(Keys(entries), ", ", i);
        ContainsSuffix("Your abbreviations: ", joined, entries[i].0);
      }
      "Your abbreviations: " + joined
  }
}
