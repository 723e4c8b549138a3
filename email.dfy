/**
 * The e-mail shape check both forms run, `/^[^\s@]+@[^\s@]+\.[^\s@]+$/`,
 * written as a predicate over the string instead of a regular expression.
 */
module Email {
  import opened Text

  /** A character of the class `[^\s@]`. */
  predicate Plain(c: char)
  {
    !IsSpace(c) && c != '@'
  }

  predicate AllPlain(s: string)
  {
    forall k :: 0 <= k < |s| ==> Plain(s[k])
  }

  predicate NoSpace(s: string)
  {
    forall k :: 0 <= k < |s| ==> !IsSpace(s[k])
  }

  /** Position of the first occurrence of `c`. */
  function IndexOf(s: string, c: char): (i: nat)
    requires c in s
    ensures i < |s| && s[i] == c && c !in s[..i]
  {
    if s[0] == c then 0 else 1 + IndexOf(s[1..], c)
  }

  /** The domain holds a '.' with at least one character on each side. */
  predicate HasInnerDot(domain: string)
  {
    |domain| >= 3 && '.' in domain[1..|domain| - 1]
  }

  /**
   * `validateEmail`: no white space, exactly one '@' with a non-empty local
   * part before it, and a dotted domain after it.
   */
  predicate ValidateEmail(email: string)
  {
    && NoSpace(email)
    && '@' in email
    && var i := IndexOf(email, '@');
       && 0 < i
       && '@' !in email[i + 1..]
       && HasInnerDot(email[i + 1..])
  }

  /**
   * The language of the regular expression: `a@b.c` with `a`, `b`, `c`
   * non-empty runs of `[^\s@]`.
   */
  ghost predicate MatchesEmailRegex(s: string)
  {
    exists i, j :: MatchesAt(s, i, j)
  }

  ghost predicate MatchesAt(s: string, i: int, j: int)
  {
    && 0 < i && i + 1 < j && j + 1 < |s|
    && s[i] == '@' && s[j] == '.'
    && AllPlain(s[..i]) && AllPlain(s[i + 1..j]) && AllPlain(s[j + 1..])
  }

  lemma ValidateEmailIsRegex(email: string)
    ensures ValidateEmail(email) <==> MatchesEmailRegex(email)
  {
    if ValidateEmail(email) {
      var i := IndexOf(email, '@');
      var d := email[i + 1..];
      var m :| 1 <= m < |d| - 1 && d[m] == '.';
      var j := i + 1 + m;
      assert email[j] == '.';
      forall k | 0 <= k < |email| && k != i ensures Plain(email[k]) {
        if k < i {
          assert email[k] == email[..i][k];
        } else {
          assert email[k] == d[k - i - 1];
        }
      }
      assert MatchesAt(email, i, j);
    }
    if MatchesEmailRegex(email) {
      var i, j :| MatchesAt(email, i, j);
      forall k | 0 <= k < |email| && k != i ensures Plain(email[k]) {
        if k < i {
          assert email[k] == email[..i][k];
        } else if i < k < j {
          assert email[k] == email[i + 1..j][k - i - 1];
        } else if j < k {
          assert email[k] == email[j + 1..][k - j - 1];
        }
      }
      assert NoSpace(email);
      var i' := IndexOf(email, '@');
      assert i' == i;
      var d := email[i + 1..];
      assert '@' !in d by {
        forall k | 0 <= k < |d| ensures d[k] != '@' {
          assert d[k] == email[i + 1 + k];
        }
      }
      assert d[1..|d| - 1][j - i - 2] == '.';
    }
  }

  /** A well-formed address contains a non-space character, so it is never blank. */
  lemma ValidEmailIsNotBlank(email: string)
    requires ValidateEmail(email)
    ensures !IsBlank(email)
  {
    assert !IsSpace(email[0]);
  }

  /** Surrounding white space always fails the shape check. */
  lemma PaddedEmailIsInvalid(email: string)
    requires email != [] && (IsSpace(email[0]) || IsSpace(email[|email| - 1]))
    ensures !ValidateEmail(email)
  {
  }
}
