/** The e-mail check shared by the login, registration and password-reset
    forms: the input, lower-cased, must match `^[^\s@]+@[^\s@]+\.[^\s@]+$`. */
module EmailPattern {
  import opened Text

  /** A character of the class `[^\s@]`. */
  predicate PlainChar(c: char) {
    !IsSpace(c) && c != '@'
  }

  predicate AllPlain(s: string) {
    forall k :: 0 <= k < |s| ==> PlainChar(s[k])
  }

  /** The regular expression matches `s` with its '@' at index `at` and the
      '.' it requires at index `dot`: three non-empty runs of `[^\s@]`
      separated by those two characters, covering all of `s`. */
  ghost predicate MatchesAt(s: string, at: int, dot: int) {
    && 0 < at && at + 1 < dot && dot + 1 < |s|
    && s[at] == '@' && s[dot] == '.'
    && AllPlain(s[..at]) && AllPlain(s[at + 1..dot]) && AllPlain(s[dot + 1..])
  }

  /** The regular expression matches `s`. */
  ghost predicate MatchesPattern(s: string) {
    exists at, dot :: MatchesAt(s, at, dot)
  }

  /** Index of the first `c` in `s`, or `|s|` when there is none. */
  function IndexOf(s: string, c: char): (i: nat)
    ensures i <= |s|
    ensures forall k :: 0 <= k < i ==> s[k] != c
    ensures i < |s| ==> s[i] == c
  {
    if |s| == 0 || s[0] == c then 0 else 1 + IndexOf(s[1..], c)
  }

  /** The direct test: no white space, exactly one '@' and it is not first,
      and a '.' strictly inside the part after the '@'. */
  predicate Shape(s: string) {
    var at := IndexOf(s, '@');
    && 0 < at && at + 3 < |s|
    && (forall k :: 0 <= k < |s| ==> !IsSpace(s[k]))
    && '@' !in s[at + 1..]
    && '.' in s[at + 2..|s| - 1]
  }

  /** The direct test accepts exactly what the regular expression matches. */
  lemma ShapeIffPattern(s: string)
    ensures Shape(s) <==> MatchesPattern(s)
  {
    if Shape(s) {
      var at := IndexOf(s, '@');
      var dot := at + 2 + IndexOf(s[at + 2..|s| - 1], '.');
      assert s[dot] == '.';
      forall k | at < k < |s|
        ensures s[k] != '@'
      {
        assert s[k] == s[at + 1..][k - at - 1];
      }
      assert MatchesAt(s, at, dot);
    }
    if MatchesPattern(s) {
      var at, dot :| MatchesAt(s, at, dot);
      forall k | 0 <= k < at
        ensures s[k] != '@' && !IsSpace(s[k])
      {
        assert s[k] == s[..at][k];
      }
      forall k | at < k < |s|
        ensures s[k] != '@' && !IsSpace(s[k])
      {
        if k < dot {
          assert s[k] == s[at + 1..dot][k - at - 1];
        } else if k > dot {
          assert s[k] == s[dot + 1..][k - dot - 1];
        }
      }
      assert IndexOf(s, '@') == at;
      assert s[at + 2..|s| - 1][dot - at - 2] == '.';
    }
  }

  /** Lower-casing changes neither white space, '@' nor '.', so it does not
      change whether the pattern matches. */
  lemma LowerKeepsPattern(s: string)
    ensures MatchesPattern(Lower(s)) <==> MatchesPattern(s)
  {
    var t := Lower(s);
    forall at, dot | 0 < at && at + 1 < dot && dot + 1 < |s|
      ensures MatchesAt(t, at, dot) <==> MatchesAt(s, at, dot)
    {
      assert t[..at] == Lower(s[..at]);
      assert t[at + 1..dot] == Lower(s[at + 1..dot]);
      assert t[dot + 1..] == Lower(s[dot + 1..]);
    }
    if MatchesPattern(t) {
      var at, dot :| MatchesAt(t, at, dot);
      assert MatchesAt(s, at, dot);
    }
    if MatchesPattern(s) {
      var at, dot :| MatchesAt(s, at, dot);
      assert MatchesAt(t, at, dot);
    }
  }

  /** `validateEmail(email)`: lower-case the input and test it. */
  function ValidateEmail(email: string): (ok: bool)
    ensures ok <==> MatchesPattern(Lower(email))
    ensures ok <==> MatchesPattern(email)
  {
    ShapeIffPattern(Lower(email));
    LowerKeepsPattern(email);
    Shape(Lower(email))
  }

  /** An address the forms accept contains an '@', the only e-mail test the
      account store makes itself. */
  lemma ValidEmailHasAt(email: string)
    requires ValidateEmail(email)
    ensures Includes(email, "@")
  {
    var at, dot :| MatchesAt(email, at, dot);
    assert OccursAt(email, "@", at);
    IncludesIffOccurs(email, "@");
  }
}
