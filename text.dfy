/**
 * Python's `str.split(sep)` and `sep.join(parts)` for a one-character
 * separator, prefix tests and `str(n)` for natural numbers, with the facts
 * the rest of the model relies on.
 */
module Text {

  /** `s.split(c)`: the pieces between separators; `''.split(c) == ['']`. */
  function Split(s: string, c: char): (parts: seq<string>)
    ensures |parts| >= 1
    decreases |s|
  {
    if s == [] then [""]
    else
      var rest := Split(s[1..], c);
      if s[0] == c then [""] + rest else [[s[0]] + rest[0]] + rest[1..]
  }

  /** `c.join(parts)`; joining nothing gives the empty string. */
  function Join(parts: seq<string>, c: char): string
    decreases |parts|
  {
    if |parts| == 0 then ""
    else if |parts| == 1 then parts[0]
    else parts[0] + [c] + Join(parts[1..], c)
  }

  /** The number of occurrences of c in s. */
  function Count(s: string, c: char): nat
    decreases |s|
  {
    if s == [] then 0 else (if s[0] == c then 1 else 0) + Count(s[1..], c)
  }

  /**
   * `c.isspace()`: the characters Python's `str.strip()` removes and `int()`
   * ignores around a number (Unicode whitespace and the ASCII separators).
   */
  predicate IsPySpace(c: char)
  {
    var n := c as int;
    (0x09 <= n <= 0x0D) || (0x1C <= n <= 0x20) || n == 0x85 || n == 0xA0 || n == 0x1680
    || (0x2000 <= n <= 0x200A) || n == 0x2028 || n == 0x2029 || n == 0x202F || n == 0x205F || n == 0x3000
  }

  /** The number of whitespace characters `s` starts with. */
  function LeadingSpace(s: string): (n: nat)
    ensures n <= |s|
    ensures forall k :: 0 <= k < n ==> IsPySpace(s[k])
    ensures n == |s| || !IsPySpace(s[n])
  {
    if s != [] && IsPySpace(s[0]) then 1 + LeadingSpace(s[1..]) else 0
  }

  /** The number of whitespace characters `s` ends with. */
  function TrailingSpace(s: string): (n: nat)
    ensures n <= |s|
    ensures forall k :: |s| - n <= k < |s| ==> IsPySpace(s[k])
    ensures n == |s| || !IsPySpace(s[|s| - 1 - n])
  {
    if s != [] && IsPySpace(s[|s| - 1]) then 1 + TrailingSpace(s[..|s| - 1]) else 0
  }

  /**
   * `s.strip()`: the slice of `s` left when every leading and trailing
   * whitespace character is cut, and no other character.
   */
  function Strip(s: string): (r: string)
    ensures |r| <= |s|
    ensures exists i, j ::
              && 0 <= i <= j <= |s| && r == s[i..j]
              && (forall k :: 0 <= k < i ==> IsPySpace(s[k]))
              && (forall k :: j <= k < |s| ==> IsPySpace(s[k]))
    ensures r == "" || (!IsPySpace(r[0]) && !IsPySpace(r[|r| - 1]))
    ensures |s| > 0 && !IsPySpace(s[0]) && !IsPySpace(s[|s| - 1]) ==> r == s
    ensures (forall k :: 0 <= k < |s| ==> IsPySpace(s[k])) ==> r == ""
  {
    var i := LeadingSpace(s);
    var j := if i == |s| then i else |s| - TrailingSpace(s);
    s[i..j]
  }

  /** One leading blank before a string without surrounding whitespace is all `strip()` removes. */
  lemma StripOneBlank(d: string)
    requires d != [] && !IsPySpace(d[0]) && !IsPySpace(d[|d| - 1])
    ensures Strip(" " + d) == d
  {
    var s := " " + d;
    assert s[1..] == d;
    assert LeadingSpace(s) == 1;
    assert TrailingSpace(s) == 0;
  }

  predicate StartsWith(s: string, prefix: string)
  {
    |prefix| <= |s| && s[..|prefix|] == prefix
  }

  /** No piece of a split contains the separator, and there is one more piece than separators. */
  lemma {:induction false} SplitPieces(s: string, c: char)
    ensures forall i :: 0 <= i < |Split(s, c)| ==> c !in Split(s, c)[i]
    ensures |Split(s, c)| == Count(s, c) + 1
  {
    if s != [] {
      SplitPieces(s[1..], c);
      var rest := Split(s[1..], c);
      if s[0] != c {
        forall i | 0 <= i < |Split(s, c)| ensures c !in Split(s, c)[i] {
          if i > 0 {
            assert Split(s, c)[i] == rest[i];
          } else {
            assert Split(s, c)[0] == [s[0]] + rest[0];
          }
        }
      }
    }
  }

  /** Joining the pieces of a split gives back the string. */
  lemma {:induction false} JoinSplit(s: string, c: char)
    ensures Join(Split(s, c), c) == s
  {
    if s != [] {
      JoinSplit(s[1..], c);
      var rest := Split(s[1..], c);
      if s[0] == c {
        assert Split(s, c) == [""] + rest;
        assert Split(s, c)[1..] == rest;
      } else {
        var parts := Split(s, c);
        assert parts == [[s[0]] + rest[0]] + rest[1..];
        if |rest| == 1 {
          assert Join(parts, c) == [s[0]] + rest[0];
        } else {
          assert parts[1..] == rest[1..];
          assert Join(rest, c) == rest[0] + [c] + Join(rest[1..], c);
        }
      }
    }
  }

  /** Splitting a join of separator-free pieces gives back the pieces. */
  lemma {:induction false} SplitJoin(parts: seq<string>, c: char)
    requires |parts| >= 1
    requires forall i :: 0 <= i < |parts| ==> c !in parts[i]
    ensures Split(Join(parts, c), c) == parts
  {
    if |parts| == 1 {
      SplitNoSeparator(parts[0], c);
    } else {
      SplitJoin(parts[1..], c);
      SplitAfterPiece(parts[0], Join(parts[1..], c), c);
    }
  }

  /** A string without the separator splits into itself. */
  lemma {:induction false} SplitNoSeparator(s: string, c: char)
    requires c !in s
    ensures Split(s, c) == [s]
  {
    if s != [] {
      assert s[0] != c && c !in s[1..];
      SplitNoSeparator(s[1..], c);
      assert [s[0]] + s[1..] == s;
    }
  }

  /** Splitting `piece + [c] + t`, where the piece has no separator, starts with the piece. */
  lemma {:induction false} SplitAfterPiece(piece: string, t: string, c: char)
    requires c !in piece
    ensures Split(piece + [c] + t, c) == [piece] + Split(t, c)
  {
    if piece == [] {
      assert piece + [c] + t == [c] + t;
      assert ([c] + t)[1..] == t;
    } else {
      var s := piece + [c] + t;
      assert s[1..] == piece[1..] + [c] + t;
      SplitAfterPiece(piece[1..], t, c);
      assert [piece[0]] + piece[1..] == piece;
    }
  }

  /** A join of pieces starts with its first piece followed by the separator, when there is more than one. */
  lemma JoinStartsWithFirst(parts: seq<string>, c: char)
    requires |parts| >= 2
    ensures StartsWith(Join(parts, c), parts[0] + [c])
  {
    assert Join(parts, c) == parts[0] + [c] + Join(parts[1..], c);
  }

  function DigitChar(d: nat): (c: char)
    requires d < 10
    ensures '0' <= c <= '9'
  {
    ('0' as int + d) as char
  }

  /** `str(n)` for a natural number. */
  function NatText(n: nat): (s: string)
    ensures |s| > 0 && forall i :: 0 <= i < |s| ==> '0' <= s[i] <= '9'
    ensures n < 10 <==> |s| == 1
    decreases n
  {
    if n < 10 then [DigitChar(n)] else NatText(n / 10) + [DigitChar(n % 10)]
  }

  /** The value a decimal text reads as. */
  function DecimalValue(s: string): nat
    requires forall i :: 0 <= i < |s| ==> '0' <= s[i] <= '9'
  {
    if s == [] then 0 else 10 * DecimalValue(s[..|s| - 1]) + (s[|s| - 1] as int - '0' as int)
  }

  /** The text of a number reads back as that number. */
  lemma {:induction false} NatTextValue(n: nat)
    ensures DecimalValue(NatText(n)) == n
    decreases n
  {
    if n >= 10 {
      NatTextValue(n / 10);
      var s := NatText(n);
      assert s[..|s| - 1] == NatText(n / 10);
    }
  }
}
