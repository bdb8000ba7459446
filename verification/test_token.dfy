/**
 The test-hook bypass: a reply token made of one character repeated is a
 webhook-verification probe. The handler recognises it with the regular
 expression `^(.)\1*$`; in it `.` matches any character but a line terminator.
 Characters here stand for the UTF-16 code units a JavaScript string is made of.
 */
module TestToken {

  /** The characters a JavaScript `.` does not match without the `s` flag. */
  predicate IsLineTerminator(c: char) {
    c == '\n' || c == '\r' || c == '\U{2028}' || c == '\U{2029}'
  }

  /** Every character equals its successor. */
  predicate AllSame(t: string)
    decreases |t|
  {
    |t| <= 1 || (t[0] == t[1] && AllSame(t[1..]))
  }

  /** The handler's test for a verification token. */
  predicate IsTestToken(t: string) {
    |t| > 0 && !IsLineTerminator(t[0]) && AllSame(t)
  }

  /** `n` copies of `c`. */
  function Repeat(c: char, n: nat): (r: string)
    ensures |r| == n
    ensures forall i :: 0 <= i < n ==> r[i] == c
  {
    if n == 0 then [] else [c] + Repeat(c, n - 1)
  }

  lemma {:induction false} AllSameMeaning(t: string)
    ensures AllSame(t) <==> forall i :: 0 <= i < |t| ==> t[i] == t[0]
    decreases |t|
  {
    if |t| > 1 {
      AllSameMeaning(t[1..]);
      if forall i :: 0 <= i < |t| ==> t[i] == t[0] {
        assert forall i :: 0 <= i < |t[1..]| ==> t[1..][i] == t[i + 1];
      }
    }
  }

  /** The test accepts exactly the language of `(.)\1*`: one or more copies of a single
      character that is not a line terminator. In particular the empty token is never a test token. */
  lemma TestTokenMatchesPattern(t: string)
    ensures IsTestToken(t) <==> exists c, n :: 1 <= n && !IsLineTerminator(c) && t == Repeat(c, n)
  {
    AllSameMeaning(t);
    if IsTestToken(t) {
      assert t == Repeat(t[0], |t|);
    }
    if exists c, n :: 1 <= n && !IsLineTerminator(c) && t == Repeat(c, n) {
      var c, n :| 1 <= n && !IsLineTerminator(c) && t == Repeat(c, n);
      assert t[0] == c;
    }
  }
}
