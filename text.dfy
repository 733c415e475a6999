/**
 * The JavaScript string operations the pages rely on, as pure functions over `seq<char>`:
 * `toLowerCase` (restricted to ASCII letters), `includes`, `trim`, `split` on one character
 * followed by `pop`, and `Number.prototype.toString` on non-negative integers.
 */
module Text {

  type String = seq<char>

  // ---------------------------------------------------------------------------
  // toLowerCase (ASCII letters only)
  // ---------------------------------------------------------------------------

  predicate IsAsciiUpper(c: char) { 'A' <= c <= 'Z' }

  predicate IsAsciiLetter(c: char) { 'A' <= c <= 'Z' || 'a' <= c <= 'z' }

  function LowerChar(c: char): char {
    if IsAsciiUpper(c) then (c as int + 32) as char else c
  }

  function Lower(s: String): String {
    seq(|s|, i requires 0 <= i < |s| => LowerChar(s[i]))
  }

  /** Lower-casing distributes over concatenation. */
  lemma LowerAppend(a: String, b: String)
    ensures Lower(a + b) == Lower(a) + Lower(b)
  {
  }

  /** A character that is not a letter is its own lower case, and only it folds to itself. */
  lemma LowerCharOfNonLetter(c: char, sep: char)
    requires !IsAsciiLetter(sep)
    ensures LowerChar(c) == sep <==> c == sep
  {
  }

  // ---------------------------------------------------------------------------
  // includes
  // ---------------------------------------------------------------------------

  /** `needle` occurs in `hay` starting at index `i`. */
  predicate OccursAt(hay: String, needle: String, i: int) {
    0 <= i && i + |needle| <= |hay| && hay[i..i + |needle|] == needle
  }

  /** `hay.includes(needle)`: the needle is a prefix of some suffix of the haystack. */
  predicate Contains(hay: String, needle: String)
    decreases |hay|
  {
    needle <= hay || (hay != [] && Contains(hay[1..], needle))
  }

  /** An occurrence at some index makes the haystack include the needle. */
  lemma {:induction false} OccursAtContains(hay: String, needle: String, i: int)
    requires OccursAt(hay, needle, i)
    ensures Contains(hay, needle)
    decreases i
  {
    if i > 0 {
      assert hay[1..][i - 1..i - 1 + |needle|] == hay[i..i + |needle|];
      OccursAtContains(hay[1..], needle, i - 1);
    }
  }

  /** An included needle occurs at some index. */
  lemma {:induction false} ContainsOccursAt(hay: String, needle: String)
    requires Contains(hay, needle)
    ensures exists i :: OccursAt(hay, needle, i)
    decreases |hay|
  {
    if needle <= hay {
      assert OccursAt(hay, needle, 0);
    } else {
      ContainsOccursAt(hay[1..], needle);
      var j :| OccursAt(hay[1..], needle, j);
      assert hay[1..][j..j + |needle|] == hay[j + 1..j + 1 + |needle|];
      assert OccursAt(hay, needle, j + 1);
    }
  }

  /** `Contains` agrees with the positional definition of a substring. */
  lemma ContainsIffOccurs(hay: String, needle: String)
    ensures Contains(hay, needle) <==> exists i :: OccursAt(hay, needle, i)
  {
    if Contains(hay, needle) {
      ContainsOccursAt(hay, needle);
    }
    if exists i :: OccursAt(hay, needle, i) {
      var i :| OccursAt(hay, needle, i);
      OccursAtContains(hay, needle, i);
    }
  }

  /** Every string includes the empty string. */
  lemma ContainsEmpty(hay: String)
    ensures Contains(hay, [])
  {
  }

  /** A string occurring after some prefix is included in the concatenation. */
  lemma {:induction false} ContainsInfix(a: String, b: String, c: String)
    ensures Contains(a + b + c, b)
  {
    assert OccursAt(a + b + c, b, |a|) by {
      assert (a + b + c)[|a|..|a| + |b|] == b;
    }
    ContainsIffOccurs(a + b + c, b);
  }

  // ---------------------------------------------------------------------------
  // trim
  // ---------------------------------------------------------------------------

  /**
   * The characters `String.prototype.trim` removes: the WhiteSpace and LineTerminator code points
   * of ECMA-262 (TAB, VT, FF, SP, NBSP, ZWNBSP, the other Unicode "Zs" spaces, LF, CR, LS, PS).
   */
  predicate IsWhitespace(c: char) {
    var n := c as int;
    n == 0x09 || n == 0x0A || n == 0x0B || n == 0x0C || n == 0x0D || n == 0x20 ||
    n == 0xA0 || n == 0x1680 || (0x2000 <= n <= 0x200A) || n == 0x2028 || n == 0x2029 ||
    n == 0x202F || n == 0x205F || n == 0x3000 || n == 0xFEFF
  }

  /** Every character of `s` is whitespace. */
  predicate IsBlank(s: String) {
    forall i :: 0 <= i < |s| ==> IsWhitespace(s[i])
  }

  function TrimStart(s: String): String
    decreases |s|
  {
    if s != [] && IsWhitespace(s[0]) then TrimStart(s[1..]) else s
  }

  function TrimEnd(s: String): String
    decreases |s|
  {
    if s != [] && IsWhitespace(s[|s| - 1]) then TrimEnd(s[..|s| - 1]) else s
  }

  /** `s.trim()`. */
  function Trim(s: String): String {
    TrimEnd(TrimStart(s))
  }

  lemma {:induction false} TrimStartBlank(s: String)
    ensures IsBlank(TrimStart(s)) <==> IsBlank(s)
    decreases |s|
  {
    if s != [] && IsWhitespace(s[0]) {
      TrimStartBlank(s[1..]);
      assert IsBlank(s) <==> IsBlank(s[1..]) by {
        if IsBlank(s[1..]) {
          forall i | 0 <= i < |s| ensures IsWhitespace(s[i]) {
            if i > 0 { assert s[i] == s[1..][i - 1]; }
          }
        }
      }
    }
  }

  lemma {:induction false} TrimEndEmpty(s: String)
    ensures TrimEnd(s) == [] <==> IsBlank(s)
    decreases |s|
  {
    if s != [] && IsWhitespace(s[|s| - 1]) {
      var init := s[..|s| - 1];
      TrimEndEmpty(init);
      assert IsBlank(s) <==> IsBlank(init) by {
        if IsBlank(init) {
          forall i | 0 <= i < |s| ensures IsWhitespace(s[i]) {
            if i < |s| - 1 { assert s[i] == init[i]; }
          }
        }
      }
    } else if s != [] {
      assert !IsWhitespace(s[|s| - 1]);
    }
  }

  /** `!s.trim()` holds exactly when the string is empty or made only of whitespace. */
  lemma TrimEmptyIffBlank(s: String)
    ensures Trim(s) == [] <==> IsBlank(s)
  {
    TrimEndEmpty(TrimStart(s));
    TrimStartBlank(s);
  }

  // ---------------------------------------------------------------------------
  // split on one character, and the last segment
  // ---------------------------------------------------------------------------

  /** `s.split(sep)` for a one-character separator: never empty, and no part holds `sep`. */
  function Split(s: String, sep: char): (parts: seq<String>)
    ensures |parts| >= 1
    ensures forall k :: 0 <= k < |parts| ==> sep !in parts[k]
    decreases |s|
  {
    if s == [] then [[]]
    else
      var rest := Split(s[1..], sep);
      if s[0] == sep then [[]] + rest
      else [[s[0]] + rest[0]] + rest[1..]
  }

  /** `parts.join(sep)`. */
  function Join(parts: seq<String>, sep: char): String
    decreases |parts|
  {
    if parts == [] then []
    else if |parts| == 1 then parts[0]
    else parts[0] + [sep] + Join(parts[1..], sep)
  }

  /** Splitting and joining again with the same separator gives back the original string. */
  lemma {:induction false} JoinSplit(s: String, sep: char)
    ensures Join(Split(s, sep), sep) == s
    decreases |s|
  {
    if s != [] {
      var rest := Split(s[1..], sep);
      JoinSplit(s[1..], sep);
      if s[0] == sep {
        assert Split(s, sep)[1..] == rest;
        calc {
          Join(Split(s, sep), sep);
          [] + [sep] + Join(rest, sep);
          [s[0]] + s[1..];
        }
      } else {
        var parts := Split(s, sep);
        if |rest| == 1 {
          assert parts == [[s[0]] + rest[0]];
        } else {
          assert parts[1..] == rest[1..];
          calc {
            Join(parts, sep);
            ([s[0]] + rest[0]) + [sep] + Join(rest[1..], sep);
            [s[0]] + (rest[0] + [sep] + Join(rest[1..], sep));
            [s[0]] + Join(rest, sep);
          }
        }
      }
    }
  }

  function Last<T>(xs: seq<T>): T
    requires xs != []
  {
    xs[|xs| - 1]
  }

  /**
   * The text after the last occurrence of `sep` (the whole string when there is none),
   * defined by scanning from the end.
   */
  function AfterLast(s: String, sep: char): String
    decreases |s|
  {
    if s == [] then []
    else if s[|s| - 1] == sep then []
    else AfterLast(s[..|s| - 1], sep) + [s[|s| - 1]]
  }

  /** Without a separator the text after the last one is the whole string. */
  lemma {:induction false} AfterLastNoSep(s: String, sep: char)
    requires sep !in s
    ensures AfterLast(s, sep) == s
    decreases |s|
  {
    if s != [] {
      AfterLastNoSep(s[..|s| - 1], sep);
      assert s[..|s| - 1] + [s[|s| - 1]] == s;
    }
  }

  /** Prepending one character changes the last segment only when `s` holds no separator. */
  lemma {:induction false} AfterLastCons(c: char, t: String, sep: char)
    ensures AfterLast([c] + t, sep) ==
            if sep in t then AfterLast(t, sep) else if c == sep then t else [c] + t
    decreases |t|
  {
    if t != [] {
      var u := [c] + t;
      var last := t[|t| - 1];
      var t' := t[..|t| - 1];
      assert u[..|u| - 1] == [c] + t';
      assert t' + [last] == t;
      if last != sep {
        AfterLastCons(c, t', sep);
        assert sep in t <==> sep in t';
      }
    }
  }

  /** Whatever precedes the last separator does not affect the last segment. */
  lemma {:induction false} AfterLastAppend(a: String, b: String, sep: char)
    ensures AfterLast(a + [sep] + b, sep) == AfterLast(b, sep)
    decreases |b|
  {
    if b != [] {
      var s := a + [sep] + b;
      assert s[|s| - 1] == b[|b| - 1];
      assert s[..|s| - 1] == a + [sep] + b[..|b| - 1];
      AfterLastAppend(a, b[..|b| - 1], sep);
    }
  }

  /** The last part of `s.split(sep)` (what `pop()` returns) is the text after the last separator. */
  lemma {:induction false} LastOfSplit(s: String, sep: char)
    ensures Last(Split(s, sep)) == AfterLast(s, sep)
    decreases |s|
  {
    if s != [] {
      var c, t := s[0], s[1..];
      assert s == [c] + t;
      var rest := Split(t, sep);
      LastOfSplit(t, sep);
      JoinSplit(t, sep);
      AfterLastCons(c, t, sep);
      if c == sep {
        if sep !in t {
          AfterLastNoSep(t, sep);
        }
      } else if |rest| == 1 {
        assert t == rest[0];
        AfterLastNoSep(t, sep);
      } else {
        assert t == rest[0] + [sep] + Join(rest[1..], sep);
        assert sep in t;
      }
    }
  }

  /** Lower-casing commutes with taking the last segment when the separator is not a letter. */
  lemma {:induction false} LowerAfterLast(s: String, sep: char)
    requires !IsAsciiLetter(sep)
    ensures Lower(AfterLast(s, sep)) == AfterLast(Lower(s), sep)
    decreases |s|
  {
    if s != [] {
      var init := s[..|s| - 1];
      LowerCharOfNonLetter(s[|s| - 1], sep);
      assert Lower(s)[..|s| - 1] == Lower(init);
      LowerAfterLast(init, sep);
      if s[|s| - 1] != sep {
        LowerAppend(AfterLast(init, sep), [s[|s| - 1]]);
      }
    }
  }

  /** The index of the first `c` in `s` (`|s|` when there is none). */
  function IndexOf(s: String, c: char): (k: nat)
    ensures k <= |s|
    ensures k < |s| ==> s[k] == c
    ensures forall j :: 0 <= j < k ==> s[j] != c
    decreases |s|
  {
    if s == [] || s[0] == c then 0 else 1 + IndexOf(s[1..], c)
  }

  /** In `x + [c] + rest` with no `c` in `x`, the first `c` is the one right after `x`. */
  lemma {:induction false} IndexOfAfter(x: String, c: char, rest: String)
    requires c !in x
    ensures IndexOf(x + [c] + rest, c) == |x|
    decreases |x|
  {
    if x != [] {
      assert (x + [c] + rest)[1..] == x[1..] + [c] + rest;
      IndexOfAfter(x[1..], c, rest);
    }
  }

  /** Text joined around a separator that the left part lacks splits back uniquely. */
  lemma JoinedAtSeparator(x: String, y: String, c: char, s: String, t: String)
    requires c !in x && c !in y
    requires x + [c] + s == y + [c] + t
    ensures x == y && s == t
  {
    IndexOfAfter(x, c, s);
    IndexOfAfter(y, c, t);
    assert x == (x + [c] + s)[..|x|];
    assert y == (y + [c] + t)[..|y|];
    assert s == (x + [c] + s)[|x| + 1..];
    assert t == (y + [c] + t)[|y| + 1..];
  }

  // ---------------------------------------------------------------------------
  // Number.prototype.toString for non-negative integers
  // ---------------------------------------------------------------------------

  predicate IsDigit(c: char) { '0' <= c <= '9' }

  function DigitChar(d: nat): char
    requires d < 10
  {
    ('0' as int + d) as char
  }

  /** The decimal notation of `n`, without leading zeros: at least one digit and digits only. */
  function Decimal(n: nat): (s: String)
    ensures s != []
    ensures forall i :: 0 <= i < |s| ==> IsDigit(s[i])
    decreases n
  {
    if n < 10 then [DigitChar(n)] else Decimal(n / 10) + [DigitChar(n % 10)]
  }

  function DigitValue(c: char): nat
    requires IsDigit(c)
  {
    c as int - '0' as int
  }

  /** Reads a string of decimal digits back as a number. */
  function ParseDecimal(s: String): nat
    requires forall i :: 0 <= i < |s| ==> IsDigit(s[i])
    decreases |s|
  {
    if s == [] then 0 else ParseDecimal(s[..|s| - 1]) * 10 + DigitValue(s[|s| - 1])
  }

  /** Reading the decimal notation of `n` gives back `n`. */
  lemma {:induction false} DecimalRoundTrip(n: nat)
    ensures ParseDecimal(Decimal(n)) == n
    decreases n
  {
    if n >= 10 {
      var d := Decimal(n / 10);
      assert (d + [DigitChar(n % 10)])[..|d|] == d;
      DecimalRoundTrip(n / 10);
    }
  }

  /** Distinct numbers have distinct decimal notations. */
  lemma DecimalInjective(m: nat, n: nat)
    ensures Decimal(m) == Decimal(n) ==> m == n
  {
    DecimalRoundTrip(m);
    DecimalRoundTrip(n);
  }
}
