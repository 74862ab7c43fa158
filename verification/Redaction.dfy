/** Replacing card-like numbers: every whole word of 12 to 19 digits becomes a marker. */
module Redaction {

  // Which characters the pattern takes for word characters and for digits.
  datatype RawAlphabet = RawAlphabet(word: char -> bool, digit: char -> bool)

  const MARK := "[REDACTED]"

  predicate IsAsciiWord(c: char) {
    '0' <= c <= '9' || 'a' <= c <= 'z' || 'A' <= c <= 'Z' || c == '_'
  }

  ghost predicate Sensible(a: RawAlphabet) {
    && (forall c | a.digit(c) :: a.word(c))
    && (forall c | c < (128 as char) :: a.word(c) == IsAsciiWord(c) && a.digit(c) == ('0' <= c <= '9'))
  }

  // On ASCII everyone agrees; beyond it any classification with digits among the word characters.
  type Alphabet = a: RawAlphabet | Sensible(a)
    ghost witness RawAlphabet(c => IsAsciiWord(c), c => '0' <= c <= '9')

  const SHORTEST := 12
  const LONGEST := 19

  // ----- The substitution -----

  // The pattern matches the first `n` characters of `s`, where `inWord` tells whether a word character
  // stands in front of them: a word boundary, digits, and a word boundary.
  predicate Match(a: Alphabet, inWord: bool, s: string, n: nat) {
    && SHORTEST <= n <= LONGEST && n <= |s|
    && inWord != a.word(s[0])
    && (forall i | 0 <= i < n :: a.digit(s[i]))
    && a.word(s[n - 1]) != (n < |s| && a.word(s[n]))
  }

  // The longest match of at most `n` characters, 0 if there is none.
  function Longest(a: Alphabet, inWord: bool, s: string, n: nat): (m: nat)
    ensures m > 0 ==> Match(a, inWord, s, m)
    ensures m == 0 ==> forall k | 0 <= k <= n :: !Match(a, inWord, s, k)
  {
    if n == 0 then 0 else if Match(a, inWord, s, n) then n else Longest(a, inWord, s, n - 1)
  }

  // Leftmost matches first, each as long as possible, none overlapping.
  function Substitute(a: Alphabet, inWord: bool, s: string): string
    decreases |s|
  {
    if |s| == 0 then []
    else
      var n := Longest(a, inWord, s, LONGEST);
      if n > 0 then MARK + Substitute(a, a.word(s[n - 1]), s[n..])
      else [s[0]] + Substitute(a, a.word(s[0]), s[1..])
  }

  function Redact(a: Alphabet, s: string): string {
    Substitute(a, false, s)
  }

  // ----- No match is left, and a text without a match is left alone -----

  ghost predicate NoMatch(a: Alphabet, inWord: bool, s: string)
    decreases |s|
  {
    |s| > 0 ==> (forall n :: !Match(a, inWord, s, n)) && NoMatch(a, a.word(s[0]), s[1..])
  }

  ghost predicate Clean(a: Alphabet, s: string) {
    NoMatch(a, false, s)
  }

  lemma {:induction false} UnchangedExactlyWhen(a: Alphabet, inWord: bool, s: string)
    ensures Substitute(a, inWord, s) == s <==> NoMatch(a, inWord, s)
    decreases |s|
  {
    if |s| > 0 {
      var n := Longest(a, inWord, s, LONGEST);
      if n > 0 {
        assert Match(a, inWord, s, n);
        assert Substitute(a, inWord, s)[0] == '[';
      } else {
        UnchangedExactlyWhen(a, a.word(s[0]), s[1..]);
        var rest := Substitute(a, a.word(s[0]), s[1..]);
        assert s == [s[0]] + s[1..];
        assert ([s[0]] + rest)[1..] == rest;
      }
    }
  }

  // Inside a word nothing matches, so the word goes on in the result as it does in the text.
  lemma {:induction false} WordGoesOn(a: Alphabet, s: string, m: nat)
    requires m <= |Substitute(a, true, s)| && forall i | 0 <= i < m :: a.word(Substitute(a, true, s)[i])
    ensures m <= |s| && forall i | 0 <= i < m :: s[i] == Substitute(a, true, s)[i]
    ensures m < |s| <==> m < |Substitute(a, true, s)|
    ensures m < |s| ==> (a.word(s[m]) <==> a.word(Substitute(a, true, s)[m]))
  {
    if |s| > 0 {
      var n := Longest(a, true, s, LONGEST);
      var t := Substitute(a, a.word(s[0]), s[1..]);
      assert Substitute(a, true, s) == [s[0]] + t;
      if m > 0 {
        assert Substitute(a, true, s)[0] == s[0];
        forall i | 0 <= i < m - 1 ensures a.word(t[i]) {
          assert Substitute(a, true, s)[i + 1] == t[i];
        }
        WordGoesOn(a, s[1..], m - 1);
      }
    }
  }

  // Text without digits in front of a clean text leaves it clean.
  lemma {:induction false} PrefixWithoutDigits(a: Alphabet, inWord: bool, p: string, r: string)
    requires |p| > 0 && (forall i | 0 <= i < |p| :: !a.digit(p[i])) && NoMatch(a, a.word(p[|p| - 1]), r)
    ensures NoMatch(a, inWord, p + r)
    decreases |p|
  {
    assert (p + r)[0] == p[0];
    if |p| == 1 {
      assert (p + r)[1..] == r;
    } else {
      assert (p + r)[1..] == p[1..] + r;
      PrefixWithoutDigits(a, a.word(p[0]), p[1..], r);
    }
  }

  // Outside of a word a text that does not start with a word character matches no more than inside.
  lemma OutsideOfWord(a: Alphabet, r: string)
    requires NoMatch(a, true, r) && (|r| > 0 ==> !a.word(r[0]))
    ensures NoMatch(a, false, r)
  {
  }

  lemma CopiedHead(a: Alphabet, inWord: bool, s: string, n: nat)
    requires |s| > 0 && Longest(a, inWord, s, LONGEST) == 0
    ensures !Match(a, inWord, [s[0]] + Substitute(a, a.word(s[0]), s[1..]), n)
  {
    var t := Substitute(a, a.word(s[0]), s[1..]);
    var out := [s[0]] + t;
    if Match(a, inWord, out, n) {
      forall i | 0 <= i < n - 1 ensures a.digit(t[i]) {
        assert out[i + 1] == t[i];
      }
      WordGoesOn(a, s[1..], n - 1);
      forall i | 0 <= i < n ensures s[i] == out[i] {
        if i > 0 {
          assert s[1..][i - 1] == s[i];
        }
      }
      assert n < |out| ==> out[n] == t[n - 1];
      assert n < |s| ==> s[1..][n - 1] == s[n];
      assert Match(a, inWord, s, n);
    }
  }

  lemma {:induction false} NothingIsLeft(a: Alphabet, inWord: bool, s: string)
    ensures NoMatch(a, inWord, Substitute(a, inWord, s))
    decreases |s|
  {
    if |s| > 0 {
      var n := Longest(a, inWord, s, LONGEST);
      if n > 0 {
        var r := Substitute(a, true, s[n..]);
        NothingIsLeft(a, true, s[n..]);
        WordGoesOn(a, s[n..], 0);
        assert n < |s| ==> s[n..][0] == s[n];
        OutsideOfWord(a, r);
        PrefixWithoutDigits(a, inWord, MARK, r);
      } else {
        var t := Substitute(a, a.word(s[0]), s[1..]);
        NothingIsLeft(a, a.word(s[0]), s[1..]);
        forall k: nat ensures !Match(a, inWord, [s[0]] + t, k) {
          CopiedHead(a, inWord, s, k);
        }
        assert ([s[0]] + t)[1..] == t;
      }
    }
  }

  // A redacted text holds no card-like number.
  lemma RedactedIsClean(a: Alphabet, s: string)
    ensures Clean(a, Redact(a, s))
  {
    NothingIsLeft(a, false, s);
  }

  lemma RedactTwice(a: Alphabet, s: string)
    ensures Redact(a, Redact(a, s)) == Redact(a, s)
  {
    RedactedIsClean(a, s);
    UnchangedExactlyWhen(a, false, Redact(a, s));
  }

  // ----- Word by word -----

  ghost predicate AllWord(a: Alphabet, w: string) {
    forall i | 0 <= i < |w| :: a.word(w[i])
  }

  ghost predicate CardLike(a: Alphabet, w: string) {
    SHORTEST <= |w| <= LONGEST && forall i | 0 <= i < |w| :: a.digit(w[i])
  }

  lemma {:induction false} InsideWord(a: Alphabet, w: string, r: string)
    requires AllWord(a, w) && (|r| > 0 ==> !a.word(r[0]))
    ensures Substitute(a, true, w + r) == w + Substitute(a, true, r)
  {
    if |w| == 0 {
      assert w + r == r;
    } else {
      var s := w + r;
      assert s[0] == w[0] && s[1..] == w[1..] + r;
      InsideWord(a, w[1..], r);
      assert w == [w[0]] + w[1..];
    }
  }

  lemma NonWordIsCopied(a: Alphabet, inWord: bool, r: string)
    requires |r| > 0 && !a.word(r[0])
    ensures Substitute(a, inWord, r) == [r[0]] + Substitute(a, false, r[1..])
  {
  }

  lemma WordMatches(a: Alphabet, w: string, r: string, n: nat)
    requires |w| > 0 && AllWord(a, w) && (|r| > 0 ==> !a.word(r[0]))
    ensures Match(a, false, w + r, n) <==> CardLike(a, w) && n == |w|
  {
    var s := w + r;
    assert forall i | 0 <= i < |w| :: s[i] == w[i];
    assert |r| > 0 ==> s[|w|] == r[0];
    if Match(a, false, s, n) {
      assert a.word(s[n - 1]);
    }
  }

  lemma LongestOfWord(a: Alphabet, w: string, r: string)
    requires |w| > 0 && AllWord(a, w) && (|r| > 0 ==> !a.word(r[0]))
    ensures Longest(a, false, w + r, LONGEST) == if CardLike(a, w) then |w| else 0
  {
    WordMatches(a, w, r, Longest(a, false, w + r, LONGEST));
    WordMatches(a, w, r, |w|);
  }

  lemma WordIsReplaced(a: Alphabet, w: string, r: string, s: string)
    requires |w| > 0 && AllWord(a, w) && s == w + r && Longest(a, false, s, LONGEST) == |w|
    ensures Substitute(a, false, s) == MARK + Substitute(a, true, r)
  {
    assert s[|w|..] == r && s[|w| - 1] == w[|w| - 1];
  }

  lemma WordIsCopied(a: Alphabet, w: string, r: string, s: string)
    requires |w| > 0 && AllWord(a, w) && (|r| > 0 ==> !a.word(r[0]))
    requires s == w + r && Longest(a, false, s, LONGEST) == 0
    ensures Substitute(a, false, s) == w + Substitute(a, true, r)
  {
    assert s[0] == w[0] && s[1..] == w[1..] + r;
    InsideWord(a, w[1..], r);
    var t := Substitute(a, true, r);
    assert [w[0]] + (w[1..] + t) == w + t;
  }

  // A word is replaced exactly when it is card-like; otherwise it is copied, and the text goes on behind it.
  lemma WordByWord(a: Alphabet, w: string, r: string)
    requires |w| > 0 && AllWord(a, w) && (|r| > 0 ==> !a.word(r[0]))
    ensures Redact(a, w + r) == (if CardLike(a, w) then MARK else w) + Substitute(a, true, r)
    ensures Redact(a, w + r)
         == (if 12 <= |w| <= 19 && forall i | 0 <= i < |w| :: a.digit(w[i]) then "[REDACTED]" else w)
            + Substitute(a, true, r)
  {
    LongestOfWord(a, w, r);
    if CardLike(a, w) {
      WordIsReplaced(a, w, r, w + r);
    } else {
      WordIsCopied(a, w, r, w + r);
    }
  }

  // ----- The whole text, word by word -----

  // The word characters a text begins with.
  function Word(a: Alphabet, s: string): (w: string)
    ensures |w| <= |s| && w == s[..|w|]
    ensures |w| < |s| ==> !a.word(s[|w|])
    ensures forall i | 0 <= i < |w| :: a.word(w[i])
    ensures |s| > 0 && a.word(s[0]) ==> |w| > 0
  {
    if |s| > 0 && a.word(s[0]) then [s[0]] + Word(a, s[1..]) else []
  }

  // Every card-like word is replaced, and every other word and every character between words is copied.
  ghost function ByWords(a: Alphabet, s: string): string
    decreases |s|
  {
    var w := Word(a, s);
    if |s| == 0 then []
    else if |w| == 0 then [s[0]] + ByWords(a, s[1..])
    else (if CardLike(a, w) then MARK else w) + ByWords(a, s[|w|..])
  }

  // Between words it makes no difference what stands in front.
  lemma InFrontOfWord(a: Alphabet, r: string)
    requires |r| > 0 ==> !a.word(r[0])
    ensures Substitute(a, true, r) == Redact(a, r)
  {
    if |r| > 0 {
      NonWordIsCopied(a, true, r);
      NonWordIsCopied(a, false, r);
    }
  }

  // The substitution does exactly that.
  lemma {:induction false} RedactsByWords(a: Alphabet, s: string)
    ensures Redact(a, s) == ByWords(a, s)
    decreases |s|
  {
    if |s| > 0 {
      var w := Word(a, s);
      if |w| == 0 {
        NonWordIsCopied(a, false, s);
        RedactsByWords(a, s[1..]);
      } else {
        var r := s[|w|..];
        assert s == w + r;
        WordByWord(a, w, r);
        InFrontOfWord(a, r);
        RedactsByWords(a, r);
      }
    }
  }
}
