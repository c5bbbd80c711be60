/** Normalisation of the expression text typed by the user.

    Before the text reaches the expression parser, every caret `^` is
    rewritten to the power operator `**`, because the parser's grammar reads
    `^` as something other than exponentiation. All other characters pass
    through untouched and in order.
 */
module Expression {

  /** Number of occurrences of `c` in `s`. */
  function Count(s: string, c: char): nat
  {
    if s == [] then 0 else (if s[0] == c then 1 else 0) + Count(s[1..], c)
  }

  /** What a single input character becomes after normalisation. */
  function Expand(c: char): string
  {
    if c == '^' then "**" else [c]
  }

  /** The text with every `^` replaced by `**` (a string `replace` of one
      character, so occurrences cannot overlap). */
  function Normalise(s: string): (r: string)
    ensures '^' !in r
    ensures |r| == |s| + Count(s, '^')
  {
    if s == [] then [] else Expand(s[0]) + Normalise(s[1..])
  }

  lemma {:induction false} CountAppend(a: string, b: string, c: char)
    ensures Count(a + b, c) == Count(a, c) + Count(b, c)
  {
    if a != [] {
      assert (a + b)[1..] == a[1..] + b;
      CountAppend(a[1..], b, c);
    } else {
      assert a + b == b;
    }
  }

  /** Normalisation works character by character, so it distributes over
      concatenation. */
  lemma {:induction false} NormaliseAppend(a: string, b: string)
    ensures Normalise(a + b) == Normalise(a) + Normalise(b)
  {
    if a == [] {
      assert a + b == b;
    } else {
      assert (a + b)[1..] == a[1..] + b;
      NormaliseAppend(a[1..], b);
    }
  }

  /** Where input position `i` lands in the output: after the output of the
      `i` characters before it, each caret of which grew by one character. */
  function Offset(s: string, i: nat): nat
    requires i <= |s|
  {
    i + Count(s[..i], '^')
  }

  /** Position by position: a caret at `i` yields the two characters `**` at
      its offset, any other character is copied to its offset. Together with
      the length clause of `Normalise`, these blocks tile the whole output. */
  lemma NormaliseAt(s: string, i: nat)
    requires i < |s|
    ensures Offset(s, i) + |Expand(s[i])| == Offset(s, i + 1) <= |Normalise(s)|
    ensures s[i] == '^' ==> Normalise(s)[Offset(s, i)] == '*' && Normalise(s)[Offset(s, i) + 1] == '*'
    ensures s[i] != '^' ==> Normalise(s)[Offset(s, i)] == s[i]
  {
    var pre, rest := s[..i], s[i + 1..];
    var a, e, r := Normalise(pre), Expand(s[i]), Normalise(rest);
    assert s == pre + ([s[i]] + rest);
    assert s[..i + 1] == pre + [s[i]];
    assert Normalise([s[i]] + rest) == e + r by {
      assert ([s[i]] + rest)[1..] == rest;
    }
    NormaliseAppend(pre, [s[i]] + rest);
    assert Normalise(s) == a + (e + r);
    CountAppend(pre, [s[i]], '^');
    assert |a| == Offset(s, i);
    assert Count([s[i]], '^') == |e| - 1 by {
      assert [s[i]][1..] == [];
    }
  }

  /** Text without carets is left exactly as it is. */
  lemma {:induction false} NormaliseCaretFree(s: string)
    requires '^' !in s
    ensures Normalise(s) == s
  {
    if s != [] {
      assert s[0] in s;
      assert forall k :: 0 <= k < |s[1..]| ==> s[1..][k] == s[k + 1];
      NormaliseCaretFree(s[1..]);
    }
  }

  /** Normalising twice is the same as normalising once. */
  lemma NormaliseIdempotent(s: string)
    ensures Normalise(Normalise(s)) == Normalise(s)
  {
    NormaliseCaretFree(Normalise(s));
  }
}
