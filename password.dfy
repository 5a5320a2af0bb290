/** The password rule of user sign-up (src/index.ts:99-101): the regular
    expression `^(?=.*[a-z])(?=.*[A-Z])(?=.*\d)(?=.*[^\da-zA-Z]).{8,12}$`,
    modelled piece by piece as a JavaScript regex engine reads it. */
module Password {

  /** The characters that `.` refuses to match when the `s` flag is off. */
  predicate IsLineTerminator(c: char)
  {
    c == '\n' || c == '\r' || c == '\U{2028}' || c == '\U{2029}'
  }

  /** The four character classes the lookaheads ask for:
      `[a-z]`, `[A-Z]`, `\d` and `[^\da-zA-Z]`. */
  datatype CharClass = Lower | Upper | Digit | Special

  predicate InClass(c: char, k: CharClass)
  {
    match k
    case Lower => 'a' <= c <= 'z'
    case Upper => 'A' <= c <= 'Z'
    case Digit => '0' <= c <= '9'
    case Special => !('a' <= c <= 'z' || 'A' <= c <= 'Z' || '0' <= c <= '9')
  }

  /** The lookahead `(?=.*[k])` tried at the start of `s`: a character of
      class `k` is reached by skipping only characters that `.` matches. */
  predicate Lookahead(s: string, k: CharClass)
  {
    |s| > 0 && (InClass(s[0], k) || (!IsLineTerminator(s[0]) && Lookahead(s[1..], k)))
  }

  /** `.*$`: every remaining character is one that `.` matches. */
  predicate DotsToEnd(s: string)
  {
    s == [] || (!IsLineTerminator(s[0]) && DotsToEnd(s[1..]))
  }

  /** Whether `password.match(...)` finds the (anchored) pattern. */
  predicate Matches(p: string)
    ensures Matches(p) ==> 8 <= |p| <= 12 && NoLineBreaks(p)
  {
    DotsToEndIff(p);
    && Lookahead(p, Lower) && Lookahead(p, Upper) && Lookahead(p, Digit) && Lookahead(p, Special)
    && 8 <= |p| <= 12 && DotsToEnd(p)
  }

  // The rule as a reader states it, independently of the regex.

  predicate NoLineBreaks(p: string)
  {
    forall i :: 0 <= i < |p| ==> !IsLineTerminator(p[i])
  }

  predicate Contains(p: string, k: CharClass)
  {
    exists i :: 0 <= i < |p| && InClass(p[i], k)
  }

  predicate Acceptable(p: string)
  {
    && 8 <= |p| <= 12 && NoLineBreaks(p)
    && Contains(p, Lower) && Contains(p, Upper) && Contains(p, Digit) && Contains(p, Special)
  }

  lemma {:induction false} DotsToEndIff(s: string)
    ensures DotsToEnd(s) <==> NoLineBreaks(s)
  {
    if s != [] {
      DotsToEndIff(s[1..]);
      assert forall i :: 1 <= i < |s| ==> s[i] == s[1..][i - 1];
    }
  }

  lemma {:induction false} LookaheadIff(s: string, k: CharClass)
    requires NoLineBreaks(s)
    ensures Lookahead(s, k) <==> Contains(s, k)
  {
    if s != [] {
      LookaheadIff(s[1..], k);
      if Contains(s, k) && !InClass(s[0], k) {
        var i :| 0 <= i < |s| && InClass(s[i], k);
        assert s[1..][i - 1] == s[i];
      }
      if Lookahead(s[1..], k) {
        var i :| 0 <= i < |s[1..]| && InClass(s[1..][i], k);
        assert s[i + 1] == s[1..][i];
      }
    }
  }

  /** A password is accepted exactly when it has 8 to 12 characters, no line
      break, and at least one lower-case letter, one upper-case letter, one
      digit and one character that is neither a letter nor a digit. */
  lemma PasswordRule(p: string)
    ensures Matches(p) <==> Acceptable(p)
  {
    DotsToEndIff(p);
    if NoLineBreaks(p) {
      LookaheadIff(p, Lower);
      LookaheadIff(p, Upper);
      LookaheadIff(p, Digit);
      LookaheadIff(p, Special);
    }
  }

  /** A line break anywhere rejects the password, even when the lookaheads
      would find their classes before it. */
  lemma LineBreakRejected(p: string, i: nat)
    requires i < |p| && IsLineTerminator(p[i])
    ensures !Matches(p)
  {
    PasswordRule(p);
  }

  /** A password of the right shape: "Labe2023!" is accepted. */
  lemma ExampleAccepted()
    ensures Matches("Labe2023!")
  {
  }
}
