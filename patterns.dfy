/**
 * Scanners for the two regular expressions of the prompt compiler, written
 * out for exactly those patterns:
 *   - the directive pattern `\b(usemodel|usetemp|usefreq|usepres|usetopp)\s+(\S+)`
 *     matched case-insensitively, with `finditer` and `sub("")`;
 *   - the mention pattern `<@!?(\d{17,19})>` with `findall`.
 * Matches are leftmost and non-overlapping: after a match the scan resumes
 * where it ended, after a failure one character further on.
 */
module Patterns {
  import opened Wrappers
  import opened Text

  // ---------------------------------------------------------------------
  // Character runs
  // ---------------------------------------------------------------------

  /** `\w` on ASCII: letters, digits and underscore. */
  predicate IsWordChar(c: char) {
    ('a' <= c <= 'z') || ('A' <= c <= 'Z') || ('0' <= c <= '9') || c == '_'
  }

  /** `\b` at position `p`: a word character on exactly one side. */
  predicate AtBoundary(s: string, p: nat)
    requires p <= |s|
  {
    (p > 0 && IsWordChar(s[p - 1])) != (p < |s| && IsWordChar(s[p]))
  }

  /** Every character of `s[i..j]` is whitespace. */
  predicate AllSpace(s: string, i: nat, j: nat)
    requires i <= j <= |s|
  {
    forall k :: i <= k < j ==> IsSpace(s[k])
  }

  /** No character of `s[i..j]` is whitespace. */
  predicate NoSpace(s: string, i: nat, j: nat)
    requires i <= j <= |s|
  {
    forall k :: i <= k < j ==> !IsSpace(s[k])
  }

  /** The length of the run of whitespace starting at `i`. */
  function SpaceRun(s: string, i: nat): (n: nat)
    requires i <= |s|
    ensures i + n <= |s|
    ensures AllSpace(s, i, i + n)
    ensures i + n < |s| ==> !IsSpace(s[i + n])
    decreases |s| - i
  {
    if i < |s| && IsSpace(s[i]) then 1 + SpaceRun(s, i + 1) else 0
  }

  /** The length of the run of non-whitespace starting at `i`. */
  function NonSpaceRun(s: string, i: nat): (n: nat)
    requires i <= |s|
    ensures i + n <= |s|
    ensures NoSpace(s, i, i + n)
    ensures i + n < |s| ==> IsSpace(s[i + n])
    decreases |s| - i
  {
    if i < |s| && !IsSpace(s[i]) then 1 + NonSpaceRun(s, i + 1) else 0
  }

  /** The length of the run of ASCII digits starting at `i`. */
  function DigitRun(s: string, i: nat): (n: nat)
    requires i <= |s|
    ensures i + n <= |s|
    ensures forall k :: i <= k < i + n ==> IsDigit(s[k])
    ensures i + n < |s| ==> !IsDigit(s[i + n])
    decreases |s| - i
  {
    if i < |s| && IsDigit(s[i]) then 1 + DigitRun(s, i + 1) else 0
  }

  // ---------------------------------------------------------------------
  // Directives
  // ---------------------------------------------------------------------

  const Keywords: seq<string> := ["usemodel", "usetemp", "usefreq", "usepres", "usetopp"]

  /**
   * One match: `s[start..end]` is the whole match, `key` is group 1 lowered
   * and `value`, which is `s[valueStart..end]`, is group 2.
   */
  datatype Directive = Directive(start: nat, valueStart: nat, end: nat, key: string, value: string)

  /** `d` is a match of the directive pattern in `s`. */
  predicate IsDirective(s: string, d: Directive) {
    && d.start + |d.key| < d.valueStart < d.end <= |s|
    && d.key in Keywords && MatchesWordAt(s, d.start, d.key)
    && AtBoundary(s, d.start)
    && AllSpace(s, d.start + |d.key|, d.valueStart)
    && d.value == s[d.valueStart..d.end]
    && NoSpace(s, d.valueStart, d.end)
    && (d.end < |s| ==> IsSpace(s[d.end]))
  }

  /** Case-insensitive comparison of `s[p..]` with a lower-case word: `s[p..p + |w|]` lowered is `w`. */
  predicate MatchesWordAt(s: string, p: nat, w: string)
    requires p <= |s|
  {
    p + |w| <= |s| && forall i :: 0 <= i < |w| ==> LowerChar(s[p + i]) == w[i]
  }

  /** The keyword (lower-cased) that occurs at `p`, trying the alternatives in order. */
  function KeywordAt(s: string, p: nat): (r: Option<string>)
    requires p <= |s|
    ensures r.Some? ==> r.value in Keywords && MatchesWordAt(s, p, r.value)
    ensures r.None? ==> forall w :: w in Keywords ==> !MatchesWordAt(s, p, w)
  {
    if MatchesWordAt(s, p, "usemodel") then Some("usemodel")
    else if MatchesWordAt(s, p, "usetemp") then Some("usetemp")
    else if MatchesWordAt(s, p, "usefreq") then Some("usefreq")
    else if MatchesWordAt(s, p, "usepres") then Some("usepres")
    else if MatchesWordAt(s, p, "usetopp") then Some("usetopp")
    else None
  }

  /** What matching the directive pattern exactly at `p` gives. */
  function DirectiveAt(s: string, p: nat): (r: Option<Directive>)
    requires p <= |s|
    ensures r.Some? ==> r.value.start == p && IsDirective(s, r.value)
  {
    if !AtBoundary(s, p) then None
    else match KeywordAt(s, p)
      case None => None
      case Some(w) =>
        var q := p + |w|;
        var ws := SpaceRun(s, q);
        if ws == 0 then None
        else
          var v := NonSpaceRun(s, q + ws);
          if v == 0 then None
          else Some(Directive(p, q + ws, q + ws + v, w, s[q + ws..q + ws + v]))
  }

  /** Every match lies in `[lo, n]` and each ends before the next begins. */
  predicate Ordered(ds: seq<Directive>, lo: nat, n: nat) {
    && (forall i :: 0 <= i < |ds| ==> lo <= ds[i].start < ds[i].end <= n)
    && (forall i :: 0 < i < |ds| ==> ds[i - 1].end <= ds[i].start)
  }

  /** `param_pattern.finditer(s[p..])` */
  function FindDirectives(s: string, p: nat): (ds: seq<Directive>)
    requires p <= |s|
    ensures Ordered(ds, p, |s|)
    decreases |s| - p
  {
    if p == |s| then []
    else match DirectiveAt(s, p)
      case Some(d) =>
        var rest := FindDirectives(s, d.end);
        assert ([d] + rest)[1..] == rest;
        [d] + rest
      case None => FindDirectives(s, p + 1)
  }

  /** Everything `finditer` yields is a match of the pattern. */
  lemma {:induction false} FindDirectivesMatch(s: string, p: nat)
    requires p <= |s|
    ensures forall i :: 0 <= i < |FindDirectives(s, p)| ==> IsDirective(s, FindDirectives(s, p)[i])
    decreases |s| - p
  {
    if p < |s| {
      var m := DirectiveAt(s, p);
      if m.Some? {
        var d := m.value;
        DirectiveStep(s, p);
        FindDirectivesMatch(s, d.end);
        var rest := FindDirectives(s, d.end);
        forall i | 1 <= i < |rest| + 1 ensures IsDirective(s, ([d] + rest)[i]) {
          assert ([d] + rest)[i] == rest[i - 1];
        }
      } else {
        NoDirectiveStep(s, p);
        FindDirectivesMatch(s, p + 1);
      }
    }
  }

  /** `param_pattern.sub("", s[p..])`: the text between the matches. */
  function RemoveDirectives(s: string, p: nat): (r: string)
    requires p <= |s|
    ensures |r| <= |s| - p
    decreases |s| - p
  {
    if p == |s| then ""
    else match DirectiveAt(s, p)
      case Some(d) => RemoveDirectives(s, d.end)
      case None => [s[p]] + RemoveDirectives(s, p + 1)
  }

  /** The number of characters the matches cover. */
  function MatchedLength(ds: seq<Directive>): int
    decreases |ds|
  {
    if |ds| == 0 then 0 else ds[0].end - ds[0].start + MatchedLength(ds[1..])
  }

  /** Removal drops exactly the matched characters and keeps all the others. */
  lemma {:induction false} RemoveDirectivesLength(s: string, p: nat)
    requires p <= |s|
    ensures |RemoveDirectives(s, p)| + MatchedLength(FindDirectives(s, p)) == |s| - p
    decreases |s| - p, 1
  {
    if p < |s| {
      if DirectiveAt(s, p).Some? {
        RemoveMatchLength(s, p);
      } else {
        RemoveSkipLength(s, p);
      }
    }
  }

  /** The same, when no match starts at `p`. */
  lemma {:induction false} RemoveSkipLength(s: string, p: nat)
    requires p < |s| && DirectiveAt(s, p).None?
    ensures |RemoveDirectives(s, p)| + MatchedLength(FindDirectives(s, p)) == |s| - p
    decreases |s| - p, 0
  {
    NoDirectiveStep(s, p);
    RemoveDirectivesLength(s, p + 1);
  }

  /** The same, when a match starts at `p`. */
  lemma {:induction false} RemoveMatchLength(s: string, p: nat)
    requires p < |s| && DirectiveAt(s, p).Some?
    ensures |RemoveDirectives(s, p)| + MatchedLength(FindDirectives(s, p)) == |s| - p
    decreases |s| - p, 0
  {
    var d := DirectiveAt(s, p).value;
    DirectiveStep(s, p);
    RemoveDirectivesLength(s, d.end);
    MatchedLengthCons(d, FindDirectives(s, d.end));
  }

  /** A match at `p` is the first one yielded, and removal resumes after it. */
  lemma DirectiveStep(s: string, p: nat)
    requires p < |s| && DirectiveAt(s, p).Some?
    ensures var d := DirectiveAt(s, p).value;
      && FindDirectives(s, p) == [d] + FindDirectives(s, d.end)
      && RemoveDirectives(s, p) == RemoveDirectives(s, d.end)
  {
  }

  /** Without a match at `p`, the scan moves one character on and removal keeps that character. */
  lemma NoDirectiveStep(s: string, p: nat)
    requires p < |s| && DirectiveAt(s, p).None?
    ensures FindDirectives(s, p) == FindDirectives(s, p + 1)
    ensures RemoveDirectives(s, p) == [s[p]] + RemoveDirectives(s, p + 1)
  {
  }

  lemma MatchedLengthCons(d: Directive, rest: seq<Directive>)
    ensures MatchedLength([d] + rest) == d.end - d.start + MatchedLength(rest)
  {
    assert ([d] + rest)[1..] == rest;
  }

  /** Text without a single directive match is left as it is. */
  lemma {:induction false} RemoveNoDirectives(s: string, p: nat)
    requires p <= |s|
    requires FindDirectives(s, p) == []
    ensures RemoveDirectives(s, p) == s[p..]
    decreases |s| - p
  {
    if p < |s| {
      NoDirectiveHere(s, p);
      RemoveNoDirectives(s, p + 1);
      ConsSlice(s, p);
    }
  }

  lemma ConsSlice(s: string, p: nat)
    requires p < |s|
    ensures s[p..] == [s[p]] + s[p + 1..]
  {
  }

  /** With no match from `p` on, none starts at `p`, and the character there is kept. */
  lemma NoDirectiveHere(s: string, p: nat)
    requires p < |s| && FindDirectives(s, p) == []
    ensures FindDirectives(s, p + 1) == []
    ensures RemoveDirectives(s, p) == [s[p]] + RemoveDirectives(s, p + 1)
  {
    if DirectiveAt(s, p).Some? {
      DirectiveStep(s, p);
      assert false;
    }
    NoDirectiveStep(s, p);
  }

  // ---------------------------------------------------------------------
  // Mentions
  // ---------------------------------------------------------------------

  /** Where the digits of a mention begin when one starts at `p`, skipping an optional `!`. */
  function MentionDigitsStart(s: string, p: nat): nat
    requires p + 2 <= |s|
  {
    if p + 2 < |s| && s[p + 2] == '!' then p + 3 else p + 2
  }

  /** The id of a mention `<@id>` or `<@!id>` starting exactly at `p`, with its end. */
  function MentionAt(s: string, p: nat): (r: Option<(string, nat)>)
    requires p <= |s|
    ensures r.Some? ==>
      && p + 2 + |r.value.0| < r.value.1 <= |s| && s[r.value.1 - 1] == '>'
      && 17 <= |r.value.0| <= 19 && AllDigits(r.value.0)
      && r.value.0 == s[r.value.1 - 1 - |r.value.0|..r.value.1 - 1]
  {
    if p + 2 <= |s| && s[p] == '<' && s[p + 1] == '@' then
      var q := MentionDigitsStart(s, p);
      var n := DigitRun(s, q);
      if 17 <= n <= 19 && q + n < |s| && s[q + n] == '>' then Some((s[q..q + n], q + n + 1))
      else None
    else None
  }

  /** `user_id_pattern.findall(s[p..])`: the digit strings, in order. */
  function FindMentions(s: string, p: nat): (ids: seq<string>)
    requires p <= |s|
    ensures forall i :: 0 <= i < |ids| ==> 17 <= |ids[i]| <= 19 && AllDigits(ids[i])
    ensures |ids| <= |s| - p
    decreases |s| - p
  {
    if p == |s| then []
    else match MentionAt(s, p)
      case Some((id, e)) =>
        var rest := FindMentions(s, e);
        assert ([id] + rest)[1..] == rest;
        [id] + rest
      case None => FindMentions(s, p + 1)
  }

  /** Every mention found occurs in the text. */
  lemma {:induction false} FindMentionsOccur(s: string, p: nat)
    requires p <= |s|
    ensures forall i :: 0 <= i < |FindMentions(s, p)| ==> Contains(s, FindMentions(s, p)[i])
    decreases |s| - p, 1
  {
    if p < |s| {
      if MentionAt(s, p).Some? {
        MentionOccurs(s, p);
      } else {
        MentionStep(s, p);
        FindMentionsOccur(s, p + 1);
      }
    }
  }

  /** The same, when a mention starts at `p`. */
  lemma {:induction false} MentionOccurs(s: string, p: nat)
    requires p < |s| && MentionAt(s, p).Some?
    ensures forall i :: 0 <= i < |FindMentions(s, p)| ==> Contains(s, FindMentions(s, p)[i])
    decreases |s| - p, 0
  {
    var (id, e) := MentionAt(s, p).value;
    MentionStep(s, p);
    FindMentionsOccur(s, e);
    var rest := FindMentions(s, e);
    SliceContained(s, e - 1 - |id|, e - 1);
    forall i | 1 <= i < |rest| + 1 ensures Contains(s, ([id] + rest)[i]) {
      assert ([id] + rest)[i] == rest[i - 1];
    }
  }

  /** A mention at `p` is the first one found, and the search resumes after it; otherwise one character on. */
  lemma MentionStep(s: string, p: nat)
    requires p < |s|
    ensures MentionAt(s, p).Some? ==>
      FindMentions(s, p) == [MentionAt(s, p).value.0] + FindMentions(s, MentionAt(s, p).value.1)
    ensures MentionAt(s, p).None? ==> FindMentions(s, p) == FindMentions(s, p + 1)
  {
  }

  /** Any slice of a text occurs in it. */
  lemma {:induction false} SliceContained(s: string, a: nat, b: nat)
    requires a <= b <= |s|
    ensures Contains(s, s[a..b])
    decreases a
  {
    if a == 0 {
      assert s[..|s[a..b]|] == s[a..b];
    } else {
      SliceContained(s[1..], a - 1, b - 1);
      TailSlice(s, a, b);
    }
  }

  lemma TailSlice(s: string, a: nat, b: nat)
    requires 1 <= a <= b <= |s|
    ensures s[1..][a - 1..b - 1] == s[a..b]
  {
    assert |s[1..][a - 1..b - 1]| == b - a;
    forall k | 0 <= k < b - a ensures s[1..][a - 1..b - 1][k] == s[a..b][k] {
      assert s[1..][a - 1..b - 1][k] == s[1..][a - 1 + k] == s[a + k];
    }
  }
}
