/** The e-mail pattern the register, login and passenger forms share:
    `^[A-Z0-9._%+-]+@[A-Z0-9.-]+\.[A-Z]{2,}$` with the `i` flag. */
module Email {
  import opened Wrappers
  import opened Text

  predicate IsLocalChar(c: char) {
    IsLetter(c) || IsDigit(c) || c == '.' || c == '_' || c == '%' || c == '+' || c == '-'
  }

  predicate IsDomainChar(c: char) {
    IsLetter(c) || IsDigit(c) || c == '.' || c == '-'
  }

  /** The pattern read literally: some split of `s` into a non-empty local part,
      `@`, a non-empty domain, `.`, and at least two letters. */
  ghost predicate MatchesPattern(s: string) {
    exists at, dot ::
      && 0 < at && at + 1 < dot && dot + 2 < |s|
      && s[at] == '@' && s[dot] == '.'
      && All(s[..at], IsLocalChar) && All(s[at + 1..dot], IsDomainChar) && All(s[dot + 1..], IsLetter)
  }

  /** The index of the first `c` in `s`, or -1. */
  function IndexOf(s: string, c: char): (i: int)
    ensures -1 <= i < |s|
    ensures i >= 0 ==> s[i] == c
    ensures forall k :: 0 <= k < |s| && (i == -1 || k < i) ==> s[k] != c
  {
    if s == [] then -1
    else if s[0] == c then 0
    else
      var j := IndexOf(s[1..], c);
      if j == -1 then -1 else j + 1
  }

  /** The index of the last `c` in `s`, or -1. */
  function LastIndexOf(s: string, c: char): (i: int)
    ensures -1 <= i < |s|
    ensures i >= 0 ==> s[i] == c
    ensures forall k :: 0 <= k < |s| && k > i ==> s[k] != c
  {
    if s == [] then -1
    else if s[|s| - 1] == c then |s| - 1
    else LastIndexOf(s[..|s| - 1], c)
  }

  /** The domain after `@`: the part before its last dot is non-empty and made of
      domain characters, the part after is two or more letters. */
  predicate IsEmailDomain(d: string) {
    var dot := LastIndexOf(d, '.');
    0 < dot && dot + 2 < |d| && All(d[..dot], IsDomainChar) && All(d[dot + 1..], IsLetter)
  }

  /** The pattern test: the local part ends at the first `@`. */
  predicate IsEmail(s: string) {
    var at := IndexOf(s, '@');
    0 < at && All(s[..at], IsLocalChar) && IsEmailDomain(s[at + 1..])
  }

  /** The test accepts exactly the strings the pattern matches. */
  lemma IsEmailIffMatches(s: string)
    ensures IsEmail(s) <==> MatchesPattern(s)
  {
    if IsEmail(s) {
      EmailIsMatch(s);
    }
    if MatchesPattern(s) {
      var at, dot :|
        && 0 < at && at + 1 < dot && dot + 2 < |s|
        && s[at] == '@' && s[dot] == '.'
        && All(s[..at], IsLocalChar) && All(s[at + 1..dot], IsDomainChar) && All(s[dot + 1..], IsLetter);
      MatchIsEmail(s, at, dot);
    }
  }

  lemma EmailIsMatch(s: string)
    requires IsEmail(s)
    ensures MatchesPattern(s)
  {
    var at := IndexOf(s, '@');
    var d := s[at + 1..];
    var dot := LastIndexOf(d, '.');
    assert d[..dot] == s[at + 1..at + 1 + dot];
    assert d[dot + 1..] == s[at + 1 + dot + 1..];
    assert s[at + 1 + dot] == '.';
  }

  lemma MatchIsEmail(s: string, at: int, dot: int)
    requires 0 < at && at + 1 < dot && dot + 2 < |s|
    requires s[at] == '@' && s[dot] == '.'
    requires All(s[..at], IsLocalChar) && All(s[at + 1..dot], IsDomainChar) && All(s[dot + 1..], IsLetter)
    ensures IsEmail(s)
  {
    forall k | 0 <= k < at ensures s[k] != '@' {
      assert s[..at][k] == s[k];
    }
    IndexOfIs(s, '@', at);
    var d := s[at + 1..];
    var ddot := dot - at - 1;
    assert d[ddot] == '.';
    forall k | ddot < k < |d| ensures d[k] != '.' {
      assert d[k] == s[dot + 1..][k - ddot - 1];
    }
    LastIndexOfIs(d, '.', ddot);
    assert d[..ddot] == s[at + 1..dot];
    assert d[ddot + 1..] == s[dot + 1..];
  }

  lemma IndexOfIs(s: string, c: char, i: int)
    requires 0 <= i < |s| && s[i] == c
    requires forall k :: 0 <= k < i ==> s[k] != c
    ensures IndexOf(s, c) == i
  {
  }

  lemma LastIndexOfIs(s: string, c: char, i: int)
    requires 0 <= i < |s| && s[i] == c
    requires forall k :: i < k < |s| ==> s[k] != c
    ensures LastIndexOf(s, c) == i
  {
  }

  /** The test user's address passes. */
  lemma TestAddressIsEmail()
    ensures IsEmail("test@example.com")
  {
    var s := "test@example.com";
    assert s[..4] == "test" && s[5..12] == "example" && s[13..] == "com";
    MatchIsEmail(s, 4, 12);
  }

  const EmailRequired := "Email is required"
  const InvalidEmail := "Invalid email address"

  /** The email rule of every form: required, then the pattern. */
  function EmailFieldError(email: string): (e: Option<string>)
    ensures e == None <==> IsEmail(email)
  {
    if email == "" then Some(EmailRequired)
    else if !IsEmail(email) then Some(InvalidEmail)
    else None
  }
}
