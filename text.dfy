/** Character-level helpers shared by the parsers and the response serialiser:
    whitespace splitting (Rust's `str::split_whitespace`), decimal rendering of
    numbers (`Display` for integers) and the ASCII-to-byte encoding of header text. */
module Text {

  /** The Unicode White_Space property, which `split_whitespace` splits on. */
  predicate IsWhitespace(c: char)
  {
    var n := c as int;
    (9 <= n <= 13) || n == 32 || n == 0x85 || n == 0xA0 || n == 0x1680
    || (0x2000 <= n <= 0x200A) || n == 0x2028 || n == 0x2029 || n == 0x202F
    || n == 0x205F || n == 0x3000
  }

  predicate NoWhitespace(s: string)
  {
    forall c :: c in s ==> !IsWhitespace(c)
  }

  predicate AllWhitespace(s: string)
  {
    forall c :: c in s ==> IsWhitespace(c)
  }

  /** A token as `split_whitespace` yields it: non-empty, free of whitespace. */
  predicate IsWord(w: string)
  {
    w != [] && NoWhitespace(w)
  }

  /** Length of the longest whitespace-free prefix of `s`. */
  function WordLength(s: string): (n: nat)
    ensures n <= |s|
    ensures forall i :: 0 <= i < n ==> !IsWhitespace(s[i])
    ensures n < |s| ==> IsWhitespace(s[n])
  {
    if s == [] || IsWhitespace(s[0]) then 0 else 1 + WordLength(s[1..])
  }

  /** The tokens of `s`, in order: the maximal whitespace-free runs. */
  function Words(s: string): (ws: seq<string>)
    ensures forall i :: 0 <= i < |ws| ==> IsWord(ws[i])
    decreases |s|
  {
    if s == [] then []
    else if IsWhitespace(s[0]) then Words(s[1..])
    else
      var n := WordLength(s);
      [s[..n]] + Words(s[n..])
  }

  /** A string has no tokens exactly when it is made only of whitespace. */
  lemma {:induction false} WordsOfBlank(s: string)
    ensures Words(s) == [] <==> AllWhitespace(s)
    decreases |s|
  {
    if s != [] {
      assert s[0] in s;
      WordsOfBlank(s[1..]);
      if IsWhitespace(s[0]) {
        assert AllWhitespace(s) <==> AllWhitespace(s[1..]) by {
          forall c | c in s ensures c == s[0] || c in s[1..] {
            assert s == [s[0]] + s[1..];
          }
          forall c | c in s[1..] ensures c in s {
          }
        }
      }
    }
  }

  lemma {:induction false} WordLengthOfWord(w: string, rest: string)
    requires NoWhitespace(w)
    requires rest == [] || IsWhitespace(rest[0])
    ensures WordLength(w + rest) == |w|
    decreases |w|
  {
    if w == [] {
      assert w + rest == rest;
    } else {
      assert w[0] in w;
      assert NoWhitespace(w[1..]) by {
        forall c | c in w[1..] ensures !IsWhitespace(c) {
          assert c in w;
        }
      }
      assert (w + rest)[1..] == w[1..] + rest;
      WordLengthOfWord(w[1..], rest);
    }
  }

  /** A token followed by whitespace (or by nothing) is split off first. */
  lemma WordsOfConcat(w: string, rest: string)
    requires IsWord(w)
    requires rest == [] || IsWhitespace(rest[0])
    ensures Words(w + rest) == [w] + Words(rest)
  {
    assert w[0] in w;
    WordLengthOfWord(w, rest);
    assert (w + rest)[..|w|] == w;
    assert (w + rest)[|w|..] == rest;
  }

  /** Leading whitespace is skipped. */
  lemma WordsSkipSpace(c: char, rest: string)
    requires IsWhitespace(c)
    ensures Words([c] + rest) == Words(rest)
  {
    assert ([c] + rest)[1..] == rest;
  }

  /** The tokens of "a b c" followed by any whitespace are exactly a, b and c. */
  lemma WordsOfLine(a: string, b: string, c: string, tail: string)
    requires IsWord(a) && IsWord(b) && IsWord(c)
    requires AllWhitespace(tail)
    ensures Words(a + " " + b + " " + c + tail) == [a, b, c]
  {
    assert a + " " + b + " " + c + tail == a + (" " + (b + (" " + (c + tail))));
    WordsOfThree(a, b, c, tail);
  }

  lemma WordsOfThree(a: string, b: string, c: string, tail: string)
    requires IsWord(a) && IsWord(b) && IsWord(c)
    requires AllWhitespace(tail)
    ensures Words(a + (" " + (b + (" " + (c + tail))))) == [a, b, c]
  {
    WordsOfBlank(tail);
    if tail != [] {
      assert tail[0] in tail;
    }
    WordsOfConcat(c, tail);
    WordsSkipSpace(' ', c + tail);
    WordsOfConcat(b, " " + (c + tail));
    WordsSkipSpace(' ', b + (" " + (c + tail)));
    WordsOfConcat(a, " " + (b + (" " + (c + tail))));
  }

  predicate IsDigit(c: char)
  {
    '0' <= c <= '9'
  }

  predicate AllDigits(s: string)
  {
    forall c :: c in s ==> IsDigit(c)
  }

  function DigitChar(d: nat): (c: char)
    requires d < 10
    ensures IsDigit(c) && c as int - '0' as int == d
  {
    ('0' as int + d) as char
  }

  /** Decimal rendering of a natural number, most significant digit first, no
      leading zeros. */
  function Decimal(n: nat): (s: string)
    ensures 1 <= |s| && AllDigits(s)
    ensures n < 10 <==> |s| == 1
    decreases n
  {
    if n < 10 then [DigitChar(n)] else Decimal(n / 10) + [DigitChar(n % 10)]
  }

  /** The number a string of decimal digits denotes. */
  function DecimalValue(s: string): nat
    requires AllDigits(s)
  {
    if s == [] then 0
    else
      assert s[|s| - 1] in s;
      DecimalValue(s[..|s| - 1]) * 10 + (s[|s| - 1] as int - '0' as int)
  }

  /** Reading back a rendered number gives the number. */
  lemma {:induction false} DecimalRoundTrip(n: nat)
    ensures DecimalValue(Decimal(n)) == n
    decreases n
  {
    if n >= 10 {
      DecimalRoundTrip(n / 10);
      var s := Decimal(n);
      assert s[..|s| - 1] == Decimal(n / 10);
    }
  }

  /** Every number from 100 to 999 renders as exactly three digits. */
  lemma ThreeDigits(n: nat)
    requires 100 <= n < 1000
    ensures |Decimal(n)| == 3
  {
    assert |Decimal(n / 10)| == 2 by {
      assert |Decimal(n / 100)| == 1;
    }
  }

  predicate IsAscii(s: string)
  {
    forall c :: c in s ==> c as int < 128
  }

  /** True when `s` holds neither a carriage return nor a line feed. */
  predicate NoCrLf(s: string)
  {
    forall c :: c in s ==> c != '\r' && c != '\n'
  }

  newtype byte = b: int | 0 <= b < 256

  /** The bytes of an ASCII string (its UTF-8 encoding, which for ASCII text is
      one byte per character). */
  function Ascii(s: string): (bs: seq<byte>)
    requires IsAscii(s)
    ensures |bs| == |s|
    ensures forall i :: 0 <= i < |s| ==> bs[i] as int == s[i] as int
  {
    seq(|s|, i requires 0 <= i < |s| => assert s[i] in s; s[i] as int as byte)
  }

  lemma AsciiSlice(s: string, i: int, j: int)
    requires IsAscii(s) && 0 <= i <= j <= |s|
    ensures IsAscii(s[i..j]) && Ascii(s)[i..j] == Ascii(s[i..j])
  {
    forall c | c in s[i..j] ensures c as int < 128 {
      assert c in s;
    }
  }

  lemma AsciiConcat(a: string, b: string)
    requires IsAscii(a) && IsAscii(b)
    ensures IsAscii(a + b) && Ascii(a + b) == Ascii(a) + Ascii(b)
  {
  }
}
