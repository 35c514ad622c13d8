/**
  The e-mail rule shared by the registration, login and contact pages: the
  regular expression `/(@duoc.cl|@profesor.duoc.cl|@gmail.com)$/` tested with
  `RegExp.prototype.test`. The expression is anchored only at the end, so any
  text may precede the suffix, and its unescaped `.` stands for any single
  UTF-16 code unit other than a line terminator, not only for a period.
 */
module EmailRule {
  import opened Common

  const DuocSuffix := "@duoc.cl"
  const ProfesorSuffix := "@profesor.duoc.cl"
  const GmailSuffix := "@gmail.com"

  /** What the regex `.` (no `s` and no `u` flag) matches: one UTF-16 code
      unit that is not a line terminator. A character outside the Basic
      Multilingual Plane is two code units and cannot stand where one `.` is. */
  predicate DotMatches(c: char) {
    c != '\n' && c != '\r' && c != '\U{2028}' && c != '\U{2029}' && !IsAstral(c)
  }

  /** One pattern character against one input character. */
  predicate CharMatches(c: char, p: char) {
    if p == '.' then DotMatches(c) else c == p
  }

  /** `text` matches the alternative `pattern` exactly, end to end. */
  predicate FullMatch(text: string, pattern: string) {
    |text| == |pattern| && forall i :: 0 <= i < |pattern| ==> CharMatches(text[i], pattern[i])
  }

  predicate AnyAlternative(text: string) {
    FullMatch(text, DuocSuffix) || FullMatch(text, ProfesorSuffix) || FullMatch(text, GmailSuffix)
  }

  /** The regex semantics: some match of the group ends at the end of the
      input (`$` without the `m` flag). */
  ghost predicate RegexTest(s: string) {
    exists k :: 0 <= k <= |s| && AnyAlternative(s[k..])
  }

  /** The last `|pattern|` characters of `s` match `pattern`. */
  predicate SuffixMatches(s: string, pattern: string) {
    |pattern| <= |s| && FullMatch(s[|s| - |pattern|..], pattern)
  }

  /** `emailRegex.test(correo)`, computed by looking at the last characters. */
  predicate ValidEmail(s: string) {
    SuffixMatches(s, DuocSuffix) || SuffixMatches(s, ProfesorSuffix) || SuffixMatches(s, GmailSuffix)
  }

  /** Reading the last characters decides exactly what the end-anchored
      regular expression decides. */
  lemma ValidEmailIsRegexTest(s: string)
    ensures ValidEmail(s) <==> RegexTest(s)
  {
    if ValidEmail(s) {
      var p := if SuffixMatches(s, DuocSuffix) then DuocSuffix
               else if SuffixMatches(s, ProfesorSuffix) then ProfesorSuffix
               else GmailSuffix;
      var k := |s| - |p|;
      assert AnyAlternative(s[k..]);
    }
    if RegexTest(s) {
      var k :| 0 <= k <= |s| && AnyAlternative(s[k..]);
      assert s[k..] == s[|s| - |s[k..]|..];
    }
  }

  /** Every address that really ends in one of the three domains passes. */
  lemma LiteralSuffixAccepted(s: string)
    requires EndsWith(s, DuocSuffix) || EndsWith(s, ProfesorSuffix) || EndsWith(s, GmailSuffix)
    ensures ValidEmail(s)
  {
    var p := if EndsWith(s, DuocSuffix) then DuocSuffix
             else if EndsWith(s, ProfesorSuffix) then ProfesorSuffix
             else GmailSuffix;
    assert s[|s| - |p|..] == p;
    assert forall i :: 0 <= i < |p| ==> DotMatches(p[i]);
  }

  /** Because `.` is unescaped, an address whose "dot" is another character
      passes too. */
  lemma DotIsAnyCharacter(local: string, c: char)
    requires DotMatches(c)
    ensures ValidEmail(local + "@gmail" + [c] + "com")
    ensures ValidEmail(local + "@duoc" + [c] + "cl")
  {
    var s1 := local + "@gmail" + [c] + "com";
    assert s1[|s1| - |GmailSuffix|..] == "@gmail" + [c] + "com";
    var s2 := local + "@duoc" + [c] + "cl";
    assert s2[|s2| - |DuocSuffix|..] == "@duoc" + [c] + "cl";
  }

  /** Only the end is checked: nothing is required before the `@`, and any
      text at all may come before it. */
  lemma OnlyTheEndIsChecked(prefix: string, s: string)
    requires ValidEmail(s)
    ensures ValidEmail(prefix + s)
    ensures ValidEmail(GmailSuffix)
  {
    var t := prefix + s;
    var p := if SuffixMatches(s, DuocSuffix) then DuocSuffix
             else if SuffixMatches(s, ProfesorSuffix) then ProfesorSuffix
             else GmailSuffix;
    assert t[|t| - |p|..] == s[|s| - |p|..];
    assert SuffixMatches(t, p);
    LiteralSuffixAccepted(GmailSuffix);
  }

  /** A trailing space (or any other trailing character that is not part of a
      suffix) makes the test fail. */
  lemma TrailingSpaceRejected(s: string)
    ensures !ValidEmail(s + " ")
  {
    var t := s + " ";
    assert t[|t| - 1] == ' ';
    if |t| >= |DuocSuffix| { assert t[|t| - |DuocSuffix|..][|DuocSuffix| - 1] == ' '; }
    if |t| >= |ProfesorSuffix| { assert t[|t| - |ProfesorSuffix|..][|ProfesorSuffix| - 1] == ' '; }
    if |t| >= |GmailSuffix| { assert t[|t| - |GmailSuffix|..][|GmailSuffix| - 1] == ' '; }
  }
}
