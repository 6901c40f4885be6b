/**
 The naming rule for catalog aliases and bundles.

 Both kinds of name must fully match the regular expression
 `[a-z]([a-zA-Z0-9_.\-])+`. The rule is stated twice here: once as a
 character-level predicate (IsValidName), which is what the builder runs,
 and once as the regular expression itself, read by a small matcher for the
 constructs the expression uses (a bracketed class, concatenation, one or
 more repetitions). AliasRegexMatches proves that the two agree on every
 string.
 */
module AliasNames {

  /** An inclusive range of characters inside a bracketed class, such as `a-z`; a single character `c` is the range `c-c`. */
  datatype CharRange = CharRange(lo: char, hi: char)

  /** The regular-expression constructs the naming pattern is built from. */
  datatype Regex =
    | Class(ranges: seq<CharRange>)
    | Concat(left: Regex, right: Regex)
    | Plus(body: Regex)

  predicate InClass(ranges: seq<CharRange>, c: char)
  {
    exists i :: 0 <= i < |ranges| && ranges[i].lo <= c <= ranges[i].hi
  }

  /** Whole-string match: `r` matches all of `s`, as a matcher's `matches()` demands. */
  ghost predicate Matches(r: Regex, s: string)
    decreases r, |s|
  {
    match r
    case Class(ranges) =>
      |s| == 1 && InClass(ranges, s[0])
    case Concat(a, b) =>
      exists k :: 0 <= k <= |s| && Matches(a, s[..k]) && Matches(b, s[k..])
    case Plus(a) =>
      || Matches(a, s)
      || exists k :: 0 < k < |s| && Matches(a, s[..k]) && Matches(Plus(a), s[k..])
  }

  /** The class `[a-z]` that a name starts with. */
  const LeadingClass: seq<CharRange> := [CharRange('a', 'z')]

  /** The class `[a-zA-Z0-9_.\-]` of every later character. */
  const TrailingClass: seq<CharRange> :=
    [CharRange('a', 'z'), CharRange('A', 'Z'), CharRange('0', '9'),
     CharRange('_', '_'), CharRange('.', '.'), CharRange('-', '-')]

  /** `[a-z]([a-zA-Z0-9_.\-])+` */
  const AliasRegex: Regex := Concat(Class(LeadingClass), Plus(Class(TrailingClass)))

  predicate IsLowerAscii(c: char)
  {
    'a' <= c <= 'z'
  }

  predicate IsNameChar(c: char)
  {
    || 'a' <= c <= 'z'
    || 'A' <= c <= 'Z'
    || '0' <= c <= '9'
    || c == '_' || c == '.' || c == '-'
  }

  /** At least two characters, a lower-case ASCII letter first, then only letters, digits, `_`, `.` or `-`. */
  predicate IsValidName(s: string)
  {
    && |s| >= 2
    && IsLowerAscii(s[0])
    && forall i :: 1 <= i < |s| ==> IsNameChar(s[i])
  }

  lemma LeadingClassIsLower(c: char)
    ensures InClass(LeadingClass, c) <==> IsLowerAscii(c)
  {
    if IsLowerAscii(c) {
      assert LeadingClass[0].lo <= c <= LeadingClass[0].hi;
    }
  }

  lemma TrailingClassIsNameChar(c: char)
    ensures InClass(TrailingClass, c) <==> IsNameChar(c)
  {
    if IsNameChar(c) {
      var i :=
        if 'a' <= c <= 'z' then 0
        else if 'A' <= c <= 'Z' then 1
        else if '0' <= c <= '9' then 2
        else if c == '_' then 3
        else if c == '.' then 4
        else 5;
      assert TrailingClass[i].lo <= c <= TrailingClass[i].hi;
    }
  }

  /** One or more repetitions of a class match exactly the non-empty strings made of its characters. */
  lemma {:induction false} PlusOfClass(ranges: seq<CharRange>, s: string)
    ensures Matches(Plus(Class(ranges)), s) <==> |s| >= 1 && forall i :: 0 <= i < |s| ==> InClass(ranges, s[i])
    decreases |s|
  {
    var c := Class(ranges);
    if |s| >= 2 {
      PlusOfClass(ranges, s[1..]);
      if Matches(Plus(c), s) {
        assert !Matches(c, s);
        var k :| 0 < k < |s| && Matches(c, s[..k]) && Matches(Plus(c), s[k..]);
        assert k == 1;
        assert s[..1][0] == s[0];
        forall i | 0 <= i < |s| ensures InClass(ranges, s[i]) {
          if i > 0 { assert s[1..][i - 1] == s[i]; }
        }
      }
      if forall i :: 0 <= i < |s| ==> InClass(ranges, s[i]) {
        forall i | 0 <= i < |s[1..]| ensures InClass(ranges, s[1..][i]) {
          assert s[1..][i] == s[i + 1];
        }
        assert s[..1][0] == s[0];
        assert Matches(c, s[..1]) && Matches(Plus(c), s[1..]);
      }
    }
  }

  /** The character-level predicate and the regular expression accept the same strings. */
  lemma AliasRegexMatches(s: string)
    ensures Matches(AliasRegex, s) <==> IsValidName(s)
  {
    var lead, trail := Class(LeadingClass), Plus(Class(TrailingClass));
    if |s| >= 1 {
      PlusOfClass(TrailingClass, s[1..]);
      LeadingClassIsLower(s[0]);
      assert s[..1][0] == s[0];
    }
    if Matches(AliasRegex, s) {
      var k :| 0 <= k <= |s| && Matches(lead, s[..k]) && Matches(trail, s[k..]);
      assert k == 1;
      forall i | 1 <= i < |s| ensures IsNameChar(s[i]) {
        assert s[1..][i - 1] == s[i];
        TrailingClassIsNameChar(s[i]);
      }
    }
    if IsValidName(s) {
      forall i | 0 <= i < |s[1..]| ensures InClass(TrailingClass, s[1..][i]) {
        assert s[1..][i] == s[i + 1];
        TrailingClassIsNameChar(s[i + 1]);
      }
      assert Matches(lead, s[..1]) && Matches(trail, s[1..]);
    }
  }

  /** Single-character names and names with an upper-case first letter are refused. */
  lemma NameExamples()
    ensures !Matches(AliasRegex, "a")
    ensures !Matches(AliasRegex, "Ab")
    ensures !Matches(AliasRegex, "my lib")
    ensures Matches(AliasRegex, "ab")
    ensures Matches(AliasRegex, "groovy-json.core_2")
  {
    AliasRegexMatches("a");
    AliasRegexMatches("Ab");
    AliasRegexMatches("my lib");
    assert !IsNameChar("my lib"[2]);
    AliasRegexMatches("ab");
    AliasRegexMatches("groovy-json.core_2");
  }
}
