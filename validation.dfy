/** Field validation of the contact endpoint: the two regular expressions that
    HandlePostRequest compiles (main.go:114-115) and ValidateParameter
    (main.go:54-56), which rejects the empty string before matching.

    Strings are sequences of characters (Go's regexp matches rune by rune). */
module Validation {

  /** The fragment of Go's RE2 syntax that the two field patterns use. */
  datatype Regex =
    | AnyChar                    // `.` without the `s` flag: any character except a newline
    | Char(c: char)              // a literal character, such as `@` or `\.`
    | Concat(left: Regex, right: Regex)
    | AtLeast(r: Regex, n: nat)  // `r{n,}`; `r+` is `r{1,}`

  function Size(re: Regex): nat {
    match re
    case AnyChar => 1
    case Char(_) => 1
    case Concat(a, b) => 1 + Size(a) + Size(b)
    case AtLeast(r, _) => 1 + Size(r)
  }

  /** `^re$` matches s: the whole of s is in the language of re (without the
      `m` flag, `^` and `$` anchor at the ends of the text). An iteration of
      `r{n,}` that consumes nothing is only needed for the empty string. */
  ghost predicate Matches(re: Regex, s: string)
    decreases Size(re), |s|
  {
    match re
    case AnyChar => |s| == 1 && s[0] != '\n'
    case Char(c) => s == [c]
    case Concat(a, b) =>
      exists k :: 0 <= k <= |s| && Matches(a, s[..k]) && Matches(b, s[k..])
    case AtLeast(r, n) =>
      if s == [] then n == 0 || Matches(r, [])
      else exists k :: 0 < k <= |s| && Matches(r, s[..k]) && Matches(AtLeast(r, if n == 0 then 0 else n - 1), s[k..])
  }

  /** `.{2,}`, the name pattern of main.go:114 (between its anchors). */
  const NameRegex: Regex := AtLeast(AnyChar, 2)

  /** `.+@.+\..{2,}`, the email pattern of main.go:115 (between its anchors). */
  const EmailRegex: Regex :=
    Concat(AtLeast(AnyChar, 1),
      Concat(Char('@'),
        Concat(AtLeast(AnyChar, 1),
          Concat(Char('.'), AtLeast(AnyChar, 2)))))

  /** Closed form of the name pattern: at least two characters, none a newline. */
  predicate NameMatches(s: string) {
    |s| >= 2 && '\n' !in s
  }

  /** An `@` at i and a `.` at j that split s as a@b.c with |a| >= 1, |b| >= 1
      and |c| >= 2; a and b may themselves hold `@` or `.`. */
  predicate EmailSplitAt(s: string, i: int, j: int) {
    1 <= i && i + 2 <= j && j + 3 <= |s| && s[i] == '@' && s[j] == '.'
  }

  /** Closed form of the email pattern. */
  predicate EmailMatches(s: string) {
    '\n' !in s && exists i, j | 0 <= i < |s| && 0 <= j < |s| :: EmailSplitAt(s, i, j)
  }

  /** The two patterns compiled by HandlePostRequest. */
  datatype Pattern = NamePattern | EmailPattern {
    function Expr(): Regex {
      match this
      case NamePattern => NameRegex
      case EmailPattern => EmailRegex
    }
  }

  /** `r.MatchString(v)` for the two patterns, in closed form. */
  predicate MatchString(p: Pattern, s: string) {
    match p
    case NamePattern => NameMatches(s)
    case EmailPattern => EmailMatches(s)
  }

  lemma NoNewlineSlice(s: string, lo: int, hi: int)
    requires 0 <= lo <= hi <= |s| && '\n' !in s
    ensures '\n' !in s[lo..hi]
  {
  }

  /** `.{n,}` matches exactly the newline-free strings of length at least n. */
  lemma {:induction false} AtLeastAnyCharMeaning(n: nat, s: string)
    ensures Matches(AtLeast(AnyChar, n), s) <==> |s| >= n && '\n' !in s
    decreases |s|
  {
    if s != [] {
      var n' := if n == 0 then 0 else n - 1;
      AtLeastAnyCharMeaning(n', s[1..]);
      assert s == [s[0]] + s[1..];
      if |s| >= n && '\n' !in s {
        assert s[..1] == [s[0]];
        assert Matches(AnyChar, s[..1]);
        NoNewlineSlice(s, 1, |s|);
        assert s[1..] == s[1..|s|];
      }
      if Matches(AtLeast(AnyChar, n), s) {
        var k :| 0 < k <= |s| && Matches(AnyChar, s[..k]) && Matches(AtLeast(AnyChar, n'), s[k..]);
        assert k == 1;
      }
    }
  }

  /** The name pattern of main.go:114 means: at least two characters, no newline. */
  lemma NameRegexMeaning(s: string)
    ensures Matches(NameRegex, s) <==> NameMatches(s)
  {
    AtLeastAnyCharMeaning(2, s);
  }

  /** A string of the form a@b.c with |a|, |b| >= 1, |c| >= 2 and no newline
      matches the email pattern of main.go:115. */
  lemma EmailRegexComplete(s: string, i: int, j: int)
    requires '\n' !in s && EmailSplitAt(s, i, j)
    ensures Matches(EmailRegex, s)
  {
    var p1, p2 := AtLeast(AnyChar, 1), AtLeast(AnyChar, 2);
    var t3 := Concat(Char('.'), p2);
    var t2 := Concat(p1, t3);
    var t1 := Concat(Char('@'), t2);
    // the last part: `\..{2,}` against s[j..]
    var r3 := s[j..];
    NoNewlineSlice(s, j + 1, |s|);
    assert r3[1..] == s[j + 1..|s|];
    AtLeastAnyCharMeaning(2, r3[1..]);
    assert r3[..1] == ['.'];
    assert Matches(t3, r3);
    // `.+` then the last part, against s[i + 1..]
    var r2 := s[i + 1..];
    var k := j - i - 1;
    assert r2[..k] == s[i + 1..j];
    NoNewlineSlice(s, i + 1, j);
    AtLeastAnyCharMeaning(1, r2[..k]);
    assert r2[k..] == r3;
    assert Matches(t2, r2);
    // `@` then the rest, against s[i..]
    var r1 := s[i..];
    assert r1[..1] == ['@'];
    assert r1[1..] == r2;
    assert Matches(t1, r1);
    // `.+` then the rest, against s
    assert s[..i] == s[0..i];
    NoNewlineSlice(s, 0, i);
    AtLeastAnyCharMeaning(1, s[..i]);
    assert Matches(EmailRegex, s);
  }

  /** `\..{2,}` matches a `.` followed by at least two characters, no newline. */
  lemma DotTailSound(t: string)
    requires Matches(Concat(Char('.'), AtLeast(AnyChar, 2)), t)
    ensures |t| >= 3 && t[0] == '.' && '\n' !in t
  {
    var k :| 0 <= k <= |t| && Matches(Char('.'), t[..k]) && Matches(AtLeast(AnyChar, 2), t[k..]);
    assert |t[..k]| == 1;
    AtLeastAnyCharMeaning(2, t[k..]);
    assert t == t[..k] + t[k..];
  }

  /** `.+\..{2,}` matches only strings with a `.` at some j >= 1 that has at
      least two characters after it, and no newline. */
  lemma DomainSound(t: string) returns (j: int)
    requires Matches(Concat(AtLeast(AnyChar, 1), Concat(Char('.'), AtLeast(AnyChar, 2))), t)
    ensures 1 <= j && j + 3 <= |t| && t[j] == '.' && '\n' !in t
  {
    var k :| 0 <= k <= |t| && Matches(AtLeast(AnyChar, 1), t[..k]) && Matches(Concat(Char('.'), AtLeast(AnyChar, 2)), t[k..]);
    AtLeastAnyCharMeaning(1, t[..k]);
    DotTailSound(t[k..]);
    assert t == t[..k] + t[k..];
    j := k;
  }

  /** `@.+\..{2,}` matches only an `@` followed by such a domain. */
  lemma AtDomainSound(t: string) returns (j: int)
    requires Matches(Concat(Char('@'), Concat(AtLeast(AnyChar, 1), Concat(Char('.'), AtLeast(AnyChar, 2)))), t)
    ensures |t| >= 1 && t[0] == '@' && 2 <= j && j + 3 <= |t| && t[j] == '.' && '\n' !in t
  {
    var k :| 0 <= k <= |t| && Matches(Char('@'), t[..k]) && Matches(Concat(AtLeast(AnyChar, 1), Concat(Char('.'), AtLeast(AnyChar, 2))), t[k..]);
    assert |t[..k]| == 1;
    var j' := DomainSound(t[k..]);
    assert t == t[..k] + t[k..];
    j := j' + 1;
  }

  /** Every string the email pattern of main.go:115 matches is newline-free and
      splits as a@b.c with |a|, |b| >= 1 and |c| >= 2. */
  lemma EmailRegexSound(s: string) returns (i: int, j: int)
    requires Matches(EmailRegex, s)
    ensures '\n' !in s && EmailSplitAt(s, i, j)
  {
    var k :| 0 <= k <= |s| && Matches(AtLeast(AnyChar, 1), s[..k]) && Matches(EmailRegex.right, s[k..]);
    AtLeastAnyCharMeaning(1, s[..k]);
    var j' := AtDomainSound(s[k..]);
    assert s == s[..k] + s[k..];
    i, j := k, k + j';
  }

  /** The closed form agrees with the email pattern of main.go:115, both ways. */
  lemma EmailRegexMeaning(s: string)
    ensures Matches(EmailRegex, s) <==> EmailMatches(s)
  {
    if EmailMatches(s) {
      var i, j :| 0 <= i < |s| && 0 <= j < |s| && EmailSplitAt(s, i, j);
      EmailRegexComplete(s, i, j);
    }
    if Matches(EmailRegex, s) {
      var i, j := EmailRegexSound(s);
    }
  }

  /** MatchString is the anchored match of the compiled expression. */
  lemma MatchStringMeaning(p: Pattern, s: string)
    ensures MatchString(p, s) <==> Matches(p.Expr(), s)
  {
    match p
    case NamePattern => NameRegexMeaning(s);
    case EmailPattern => EmailRegexMeaning(s);
  }

  /** ValidateParameter (main.go:54-56): the empty string is rejected before
      matching; for the two patterns here that guard never changes the answer. */
  function Accepts(p: Pattern, v: string): (ok: bool)
    ensures v == "" ==> !ok
    ensures ok <==> MatchString(p, v)
  {
    v != "" && MatchString(p, v)
  }

  /** One pass over s, as the compiled `^.{2,}$` runs it. */
  method MatchName(s: string) returns (ok: bool)
    ensures ok == NameMatches(s)
  {
    var k := 0;
    while k < |s|
      invariant 0 <= k <= |s|
      invariant '\n' !in s[..k]
    {
      if s[k] == '\n' {
        return false;
      }
      assert s[..k + 1] == s[..k] + [s[k]];
      k := k + 1;
    }
    assert s[..k] == s;
    ok := k >= 2;
  }

  /** One pass over s, as the compiled `^.+@.+\..{2,}$` runs it: `at` is the
      first `@` past position 0 seen so far, and `found` records whether a `.`
      with at least one character after that `@` and two before the end has
      been seen. */
  method MatchEmail(s: string) returns (ok: bool)
    ensures ok == EmailMatches(s)
  {
    var at := -1;
    var found := false;
    var k := 0;
    while k < |s|
      invariant 0 <= k <= |s|
      invariant '\n' !in s[..k]
      invariant at == -1 ==> forall m :: 1 <= m < k ==> s[m] != '@'
      invariant at != -1 ==> 1 <= at < k && s[at] == '@' && forall m :: 1 <= m < at ==> s[m] != '@'
      invariant found <==> exists i, j | 0 <= i < k && 0 <= j < k :: EmailSplitAt(s, i, j)
    {
      if s[k] == '\n' {
        return false;
      }
      if s[k] == '.' && at != -1 && at + 2 <= k && k + 3 <= |s| {
        assert EmailSplitAt(s, at, k);
        found := true;
      }
      if s[k] == '@' && k >= 1 && at == -1 {
        at := k;
      }
      assert s[..k + 1] == s[..k] + [s[k]];
      k := k + 1;
    }
    assert s[..k] == s;
    ok := found;
  }

  /** ValidateParameter as executed: the empty-string guard, then the scan. */
  method ValidateParameter(p: Pattern, v: string) returns (ok: bool)
    ensures ok == Accepts(p, v)
  {
    if v == "" {
      return false;
    }
    match p
    case NamePattern => ok := MatchName(v);
    case EmailPattern => ok := MatchEmail(v);
  }

  /** Sample inputs: "Al" is a name, "A" and "" are not. */
  lemma NameExamples()
    ensures Accepts(NamePattern, "Al")
    ensures !Accepts(NamePattern, "A")
    ensures !Accepts(NamePattern, "")
  {
  }

  /** Sample inputs: "a@b.co" is an email address, "a@b" and ""
      are not; the first two parts may hold `@` and `.` themselves. */
  lemma EmailExamples()
    ensures Accepts(EmailPattern, "a@b.co")
    ensures Accepts(EmailPattern, "jane@example.com")
    ensures Accepts(EmailPattern, "a@b@c.d.ef")
    ensures !Accepts(EmailPattern, "a@b")
    ensures !Accepts(EmailPattern, "a@b.c")
    ensures !Accepts(EmailPattern, "")
  {
    assert EmailSplitAt("a@b.co", 1, 3);
    assert EmailSplitAt("jane@example.com", 4, 12);
    assert EmailSplitAt("a@b@c.d.ef", 1, 7);
  }
}
