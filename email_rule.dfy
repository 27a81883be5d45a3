/** The e-mail check shared by the checkout, registration and login forms: the
    regular expression /^[^\s@]+@[^\s@]+\.[^\s@]+$/, written out by hand. */
module EmailRule {

  /** ECMAScript's `\s` class: the WhiteSpace and LineTerminator code points. */
  predicate IsJsWhitespace(c: char) {
    || c == '\t' || c == '\n' || c == '\U{000B}' || c == '\U{000C}' || c == '\r'
    || c == ' ' || c == '\U{00A0}' || c == '\U{1680}'
    || ('\U{2000}' <= c <= '\U{200A}')
    || c == '\U{2028}' || c == '\U{2029}' || c == '\U{202F}' || c == '\U{205F}'
    || c == '\U{3000}' || c == '\U{FEFF}'
  }

  /** A character the class `[^\s@]` accepts. */
  predicate IsPlain(c: char) {
    !IsJsWhitespace(c) && c != '@'
  }

  predicate NoWhitespace(s: string) {
    forall i | 0 <= i < |s| :: !IsJsWhitespace(s[i])
  }

  /** `s.indexOf(c)`: the first position holding `c`, or -1. */
  function IndexOf(s: string, c: char): (r: int)
    ensures -1 <= r < |s|
    ensures r == -1 ==> forall i | 0 <= i < |s| :: s[i] != c
    ensures 0 <= r ==> s[r] == c && forall i | 0 <= i < r :: s[i] != c
    decreases |s|
  {
    if |s| == 0 then -1
    else if s[0] == c then 0
    else
      var k := IndexOf(s[1..], c);
      if k == -1 then -1 else k + 1
  }

  /** The domain has a '.' with at least one character on each side of it. */
  predicate HasInnerDot(domain: string) {
    |domain| >= 3 && IndexOf(domain[1..|domain| - 1], '.') != -1
  }

  /** The hand-written check: one '@' that is not the first character, no
      whitespace anywhere, and a dotted domain after the '@'. */
  predicate IsValidEmail(s: string) {
    var at := IndexOf(s, '@');
    && at > 0
    && NoWhitespace(s)
    && IndexOf(s[at + 1..], '@') == -1
    && HasInnerDot(s[at + 1..])
  }

  /** What the regular expression accepts, read off its three `[^\s@]+` groups:
      s == A + "@" + B + "." + C with A, B, C non-empty runs of plain characters. */
  ghost predicate MatchesEmailRegex(s: string) {
    exists at, dot | 0 < at && at + 1 < dot && dot + 1 < |s| ::
      && s[at] == '@' && s[dot] == '.'
      && forall k | 0 <= k < |s| && k != at :: IsPlain(s[k])
  }

  /** The hand-written check accepts exactly the strings the regular expression does. */
  lemma EmailCheckMatchesRegex(s: string)
    ensures IsValidEmail(s) <==> MatchesEmailRegex(s)
  {
    if IsValidEmail(s) {
      var at := IndexOf(s, '@');
      var d := s[at + 1..];
      var j := IndexOf(d[1..|d| - 1], '.');
      var dot := at + 2 + j;
      assert s[dot] == d[1 + j] == d[1..|d| - 1][j] == '.';
      forall k | 0 <= k < |s| && k != at
        ensures IsPlain(s[k])
      {
        if k > at {
          assert s[k] == d[k - at - 1];
        }
      }
      assert MatchesEmailRegex(s);
    }
    if MatchesEmailRegex(s) {
      var at, dot :| 0 < at && at + 1 < dot && dot + 1 < |s|
        && s[at] == '@' && s[dot] == '.'
        && forall k | 0 <= k < |s| && k != at :: IsPlain(s[k]);
      var r := IndexOf(s, '@');
      assert r == at;
      var d := s[at + 1..];
      forall i | 0 <= i < |d|
        ensures d[i] != '@'
      {
        assert d[i] == s[at + 1 + i] && IsPlain(s[at + 1 + i]);
      }
      var inner := d[1..|d| - 1];
      assert inner[dot - at - 2] == '.';
    }
  }
}
