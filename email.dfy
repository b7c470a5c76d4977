/** `isValidEmail` (js/app.js): the regular expression `^[^\s@]+@[^\s@]+\.[^\s@]+$`. */
module Email {

  /** The characters JavaScript's `\s` class matches. */
  predicate IsWhitespace(c: char)
  {
    c == ' ' || c == '\t' || c == '\n' || c == '\r' || c == '\U{B}' || c == '\U{C}'
    || c == '\U{A0}' || c == '\U{1680}' || '\U{2000}' <= c <= '\U{200A}'
    || c == '\U{2028}' || c == '\U{2029}' || c == '\U{202F}' || c == '\U{205F}'
    || c == '\U{3000}' || c == '\U{FEFF}'
  }

  /** `[^\s@]+`: one or more characters, none of them `@` or white space. */
  predicate Segment(s: string)
  {
    |s| > 0 && forall k :: 0 <= k < |s| ==> s[k] != '@' && !IsWhitespace(s[k])
  }

  /**
   * The whole string is a segment, `@`, a segment, `.`, a segment: the
   * anchored pattern, with `i` the position of the `@` and `j` that of the dot.
   */
  predicate IsValidEmail(email: string)
  {
    exists i, j :: 0 < i && i + 1 < j && j + 1 < |email|
      && email[i] == '@' && email[j] == '.'
      && Segment(email[..i]) && Segment(email[i + 1..j]) && Segment(email[j + 1..])
  }

  /** The text after the `@` has a dot with at least one character on each side. */
  predicate HasInnerDot(rest: string)
  {
    exists d :: 0 < d < |rest| - 1 && rest[d] == '.'
  }

  /**
   * The shape of an accepted address stated directly: no white space, exactly
   * one `@`, a non-empty part before it, and an inner dot after it.
   */
  predicate WellFormedAddress(email: string)
  {
    && (forall k :: 0 <= k < |email| ==> !IsWhitespace(email[k]))
    && (exists a :: 0 < a < |email| && email[a] == '@'
         && (forall k :: 0 <= k < |email| && k != a ==> email[k] != '@')
         && HasInnerDot(email[a + 1..]))
  }

  lemma ValidIsWellFormed(email: string)
    requires IsValidEmail(email)
    ensures WellFormedAddress(email)
  {
    var i, j :| 0 < i && i + 1 < j && j + 1 < |email|
      && email[i] == '@' && email[j] == '.'
      && Segment(email[..i]) && Segment(email[i + 1..j]) && Segment(email[j + 1..]);
    forall k | 0 <= k < |email| ensures !IsWhitespace(email[k]) && (k != i ==> email[k] != '@') {
      if k < i { assert email[k] == email[..i][k]; }
      else if i < k < j { assert email[k] == email[i + 1..j][k - i - 1]; }
      else if j < k { assert email[k] == email[j + 1..][k - j - 1]; }
    }
    var rest := email[i + 1..];
    assert rest[j - i - 1] == '.';
    assert HasInnerDot(rest);
  }

  lemma WellFormedIsValid(email: string)
    requires WellFormedAddress(email)
    ensures IsValidEmail(email)
  {
    var a :| 0 < a < |email| && email[a] == '@'
      && (forall k :: 0 <= k < |email| && k != a ==> email[k] != '@')
      && HasInnerDot(email[a + 1..]);
    var rest := email[a + 1..];
    var d :| 0 < d < |rest| - 1 && rest[d] == '.';
    var j := a + 1 + d;
    assert email[j] == '.';
    var local, domain, tld := email[..a], email[a + 1..j], email[j + 1..];
    forall k | 0 <= k < |local| ensures local[k] != '@' && !IsWhitespace(local[k]) {
      assert local[k] == email[k];
    }
    forall k | 0 <= k < |domain| ensures domain[k] != '@' && !IsWhitespace(domain[k]) {
      assert domain[k] == email[a + 1 + k];
    }
    forall k | 0 <= k < |tld| ensures tld[k] != '@' && !IsWhitespace(tld[k]) {
      assert tld[k] == email[j + 1 + k];
    }
    assert Segment(local) && Segment(domain) && Segment(tld);
  }

  /** The pattern accepts exactly the well-formed addresses. */
  lemma IsValidEmailIff(email: string)
    ensures IsValidEmail(email) <==> WellFormedAddress(email)
  {
    if IsValidEmail(email) { ValidIsWellFormed(email); }
    if WellFormedAddress(email) { WellFormedIsValid(email); }
  }

  /** Accepted addresses are at least five characters long ("a@b.c"); in particular `""` is refused. */
  lemma ValidEmailLength(email: string)
    requires IsValidEmail(email)
    ensures |email| >= 5
  {
  }
}
