/** The two e-mail patterns of the front end, written as string predicates:
    the contact form's anchored `^[^\s@]+@[^\s@]+\.[^\s@]+$` and the
    authentication forms' unanchored `\S+@\S+\.\S+`. */
module EmailPatterns {
  import opened Text

  /** `[^\s@]`: neither whitespace nor `@`. */
  predicate Plain(c: char) {
    !IsSpace(c) && c != '@'
  }

  predicate AllPlain(t: string) {
    forall k :: 0 <= k < |t| ==> Plain(t[k])
  }

  /** `[^\s@]+\.[^\s@]+` on the whole string. */
  predicate DottedDomain(d: string) {
    AllPlain(d) && exists j :: 0 < j < |d| - 1 && d[j] == '.'
  }

  /** `^[^\s@]+@[^\s@]+\.[^\s@]+$`: one `@` with a non-empty local part
      before it and a dotted domain after it, and no whitespace anywhere. */
  predicate ContactEmail(s: string): (b: bool)
    ensures b ==> |s| >= 5 && '@' in s
    ensures b ==> forall k :: 0 <= k < |s| ==> !IsSpace(s[k])
  {
    exists a :: 0 < a < |s| && s[a] == '@' && AllPlain(s[..a]) && DottedDomain(s[a + 1..])
  }

  /** `/\S+@\S+\.\S+/.test(s)`: somewhere in `s`, a non-space character,
      `@`, a run of non-space characters, `.` and a non-space character. */
  predicate LooseEmail(s: string): (b: bool)
    ensures b ==> |s| >= 5 && '@' in s && '.' in s
  {
    exists a, d :: 0 <= a < d < |s| && LooseMatch(s, a, d)
  }

  /** A match with its `@` at `a` and its `.` at `d`. */
  predicate LooseMatch(s: string, a: int, d: int) {
    && 1 <= a && a + 2 <= d < |s| - 1 && s[a] == '@' && s[d] == '.'
    && !IsSpace(s[a - 1]) && !IsSpace(s[d + 1]) && NoSpaceBetween(s, a, d)
  }

  predicate NoSpaceBetween(s: string, a: int, d: int)
    requires 0 <= a <= d <= |s|
  {
    forall k :: a < k < d ==> !IsSpace(s[k])
  }

  /** Every address the contact form accepts passes the sign-in pattern. */
  lemma ContactImpliesLoose(s: string)
    requires ContactEmail(s)
    ensures LooseEmail(s)
  {
    var a :| 0 < a < |s| && s[a] == '@' && AllPlain(s[..a]) && DottedDomain(s[a + 1..]);
    var dom := s[a + 1..];
    var j :| 0 < j < |dom| - 1 && dom[j] == '.';
    var d := a + 1 + j;
    assert s[a - 1] == s[..a][a - 1];
    assert s[d] == dom[j] && s[d + 1] == dom[j + 1];
    forall k | a < k < d
      ensures !IsSpace(s[k])
    {
      assert s[k] == dom[k - a - 1];
    }
    assert LooseMatch(s, a, d);
  }

  /** The contact pattern rejects padding, so the trimmed address the form
      sends is the address it checked. */
  lemma ContactEmailUnpadded(s: string)
    requires ContactEmail(s)
    ensures Trim(s) == s
  {
    var a :| 0 < a < |s| && s[a] == '@' && AllPlain(s[..a]) && DottedDomain(s[a + 1..]);
    var dom := s[a + 1..];
    assert s[0] == s[..a][0];
    assert s[|s| - 1] == dom[|dom| - 1];
    TrimUnpadded(s);
  }

  /** The unanchored pattern accepts text around an address, which the
      contact pattern refuses. */
  lemma LooseAcceptsSurroundingText()
    ensures LooseEmail("my a@b.c") && !ContactEmail("my a@b.c")
  {
    var s := "my a@b.c";
    assert s[4] == '@' && s[6] == '.' && s[3] == 'a' && s[7] == 'c' && s[5] == 'b';
    assert LooseMatch(s, 4, 6);
    assert !AllPlain(s[..4]) by { assert s[..4][2] == ' '; }
    assert forall a :: 0 < a < |s| && a != 4 ==> s[a] != '@';
  }
}
