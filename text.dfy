/**
 * The JavaScript string operations the components rely on: case mapping
 * (ASCII letters only), `includes`, the `\s` character class, `replace` with a
 * string pattern, and the decimal rendering of integers in template literals.
 */
module Text {

  predicate IsAsciiUpper(c: char) { 'A' <= c <= 'Z' }

  function LowerChar(c: char): char
  {
    if IsAsciiUpper(c) then (c as int + 32) as char else c
  }

  function UpperChar(c: char): char
  {
    if 'a' <= c <= 'z' then (c as int - 32) as char else c
  }

  /** `s.toLowerCase()`, on ASCII letters; every other character is kept. */
  function Lower(s: string): (r: string)
    ensures |r| == |s|
    ensures forall i :: 0 <= i < |s| ==> r[i] == LowerChar(s[i])
  {
    if s == [] then [] else [LowerChar(s[0])] + Lower(s[1..])
  }

  /** `s.toUpperCase()`, on ASCII letters; every other character is kept. */
  function Upper(s: string): (r: string)
    ensures |r| == |s|
    ensures forall i :: 0 <= i < |s| ==> r[i] == UpperChar(s[i])
  {
    if s == [] then [] else [UpperChar(s[0])] + Upper(s[1..])
  }

  /** Lower-casing twice is lower-casing once, and upper-casing first changes nothing. */
  lemma LowerIdempotent(s: string)
    ensures Lower(Lower(s)) == Lower(s)
    ensures Lower(Upper(s)) == Lower(s)
  {
  }

  /** No ASCII capital survives `Lower`. */
  lemma LowerHasNoCapitals(s: string)
    ensures forall c :: c in Lower(s) ==> !IsAsciiUpper(c)
  {
    forall c | c in Lower(s) ensures !IsAsciiUpper(c) {
      var i :| 0 <= i < |Lower(s)| && Lower(s)[i] == c;
    }
  }

  /** Lower-casing works on each part of a concatenation on its own. */
  lemma LowerAppend(a: string, b: string)
    ensures Lower(a + b) == Lower(a) + Lower(b)
  {
  }

  /** A string without ASCII capitals is its own lower-case form. */
  lemma {:induction false} LowerWithoutCapitals(s: string)
    requires forall c :: c in s ==> !IsAsciiUpper(c)
    ensures Lower(s) == s
  {
    if s != [] {
      LowerWithoutCapitals(s[1..]);
      assert s == [s[0]] + s[1..];
    }
  }

  /** Lower-casing keeps every character that is not an ASCII capital, in place. */
  lemma LowerKeepsOthers(s: string, c: char)
    requires !IsAsciiUpper(c) && ('a' > c || c > 'z')
    ensures c in Lower(s) <==> c in s
  {
    if c in Lower(s) {
      var i :| 0 <= i < |s| && Lower(s)[i] == c;
    }
    if c in s {
      var i :| 0 <= i < |s| && s[i] == c;
      assert Lower(s)[i] == c;
    }
  }

  /** `t` occurs in `s` at position `i`. */
  ghost predicate OccursAt(s: string, t: string, i: int)
  {
    0 <= i && i + |t| <= |s| && s[i..i + |t|] == t
  }

  /** `s.includes(t)`. */
  function Includes(s: string, t: string): (b: bool)
    decreases |s|
  {
    if t <= s then true
    else if s == [] then false
    else Includes(s[1..], t)
  }

  /** `Includes` holds exactly when `t` occurs somewhere in `s`. */
  lemma {:induction false} IncludesIff(s: string, t: string)
    ensures Includes(s, t) <==> exists i :: OccursAt(s, t, i)
    decreases |s|
  {
    if t <= s {
      assert OccursAt(s, t, 0);
    } else if s == [] {
      assert forall i :: !OccursAt(s, t, i);
    } else {
      IncludesIff(s[1..], t);
      if Includes(s[1..], t) {
        var i :| OccursAt(s[1..], t, i);
        assert s[1..][i..i + |t|] == s[i + 1..i + 1 + |t|];
        assert OccursAt(s, t, i + 1);
      } else {
        forall i | OccursAt(s, t, i) ensures false {
          assert i != 0;
          assert s[1..][i - 1..i - 1 + |t|] == s[i..i + |t|];
          assert OccursAt(s[1..], t, i - 1);
        }
      }
    }
  }

  /** The empty string is included in every string. */
  lemma IncludesEmpty(s: string)
    ensures Includes(s, "")
  {
  }

  /**
   * The characters JavaScript's `\s` matches: tab, line feed, vertical tab,
   * form feed, carriage return, space, no-break space, the Unicode space
   * separators, line and paragraph separator, and the byte-order mark.
   */
  predicate IsJsWhitespace(c: char)
  {
    var n := c as int;
    (9 <= n <= 13) || n == 0x20 || n == 0xA0 || n == 0x1680 || (0x2000 <= n <= 0x200A)
    || n == 0x2028 || n == 0x2029 || n == 0x202F || n == 0x205F || n == 0x3000 || n == 0xFEFF
  }

  /** `s.replace(/\s+/g, "")`: every run of whitespace removed. */
  function RemoveWhitespace(s: string): (r: string)
    ensures |r| <= |s|
  {
    if s == [] then []
    else if IsJsWhitespace(s[0]) then RemoveWhitespace(s[1..])
    else [s[0]] + RemoveWhitespace(s[1..])
  }

  /** The result is no longer than the input and holds only its non-whitespace characters. */
  lemma {:induction false} RemoveWhitespaceChars(s: string)
    ensures |RemoveWhitespace(s)| <= |s|
    ensures forall c :: c in RemoveWhitespace(s) ==> c in s && !IsJsWhitespace(c)
  {
    if s != [] {
      RemoveWhitespaceChars(s[1..]);
    }
  }

  /** A string without whitespace is left as it is. */
  lemma {:induction false} RemoveWhitespaceNoop(s: string)
    requires forall c :: c in s ==> !IsJsWhitespace(c)
    ensures RemoveWhitespace(s) == s
  {
    if s != [] {
      RemoveWhitespaceNoop(s[1..]);
      assert [s[0]] + s[1..] == s;
    }
  }

  /** Whitespace is removed from each part of a concatenation on its own. */
  lemma {:induction false} RemoveWhitespaceAppend(a: string, b: string)
    ensures RemoveWhitespace(a + b) == RemoveWhitespace(a) + RemoveWhitespace(b)
  {
    if a == [] {
      assert a + b == b;
    } else {
      var ab := a + b;
      assert ab[0] == a[0] && ab[1..] == a[1..] + b;
      RemoveWhitespaceAppend(a[1..], b);
    }
  }

  /** Removing whitespace keeps every other character, in order. */
  lemma {:induction false} RemoveWhitespaceKeeps(s: string, i: nat)
    requires i < |s| && !IsJsWhitespace(s[i])
    ensures s[i] in RemoveWhitespace(s)
  {
    if i > 0 {
      RemoveWhitespaceKeeps(s[1..], i - 1);
    }
  }

  /** `s.replace(from, to)` with a one-character string pattern: only the first occurrence is replaced. */
  function ReplaceFirst(s: string, from: char, to: char): (r: string)
    ensures |r| == |s|
  {
    if s == [] then []
    else if s[0] == from then [to] + s[1..]
    else [s[0]] + ReplaceFirst(s[1..], from, to)
  }

  /** Without an occurrence of `from`, `ReplaceFirst` changes nothing. */
  lemma {:induction false} ReplaceFirstAbsent(s: string, from: char, to: char)
    requires from !in s
    ensures ReplaceFirst(s, from, to) == s
  {
    if s != [] {
      ReplaceFirstAbsent(s[1..], from, to);
      assert [s[0]] + s[1..] == s;
    }
  }

  /** `ReplaceFirst` changes the first occurrence of `from` into `to` and leaves the rest. */
  lemma {:induction false} ReplaceFirstAt(s: string, from: char, to: char, i: nat)
    requires i < |s| && s[i] == from && from !in s[..i]
    ensures ReplaceFirst(s, from, to) == s[..i] + [to] + s[i + 1..]
  {
    if i > 0 {
      assert s[0] == s[..i][0];
      assert s[1..][..i - 1] == s[1..i];
      assert from !in s[1..][..i - 1] by {
        assert forall c :: c in s[1..i] ==> c in s[..i];
      }
      ReplaceFirstAt(s[1..], from, to, i - 1);
      assert s[..i] == [s[0]] + s[1..][..i - 1];
      assert s[1..][i..] == s[i + 1..];
    }
  }

  predicate IsDigit(c: char) { '0' <= c <= '9' }

  function DigitChar(d: nat): (c: char)
    requires d < 10
    ensures IsDigit(c)
  {
    ('0' as int + d) as char
  }

  function DigitValue(c: char): (d: nat)
    requires IsDigit(c)
    ensures d < 10
  {
    c as int - '0' as int
  }

  /** The decimal rendering of a natural number, as `${n}` produces it. */
  function NatToString(n: nat): (r: string)
    ensures |r| >= 1 && forall c :: c in r ==> IsDigit(c)
  {
    if n < 10 then [DigitChar(n)] else NatToString(n / 10) + [DigitChar(n % 10)]
  }

  /** The value of a string of decimal digits. */
  function DigitsValue(s: string): nat
    requires forall c :: c in s ==> IsDigit(c)
  {
    if s == [] then 0
    else
      assert s[|s| - 1] in s;
      DigitsValue(s[..|s| - 1]) * 10 + DigitValue(s[|s| - 1])
  }

  /** Reading back the decimal rendering gives the number. */
  lemma {:induction false} DigitsValueOfNatToString(n: nat)
    ensures DigitsValue(NatToString(n)) == n
  {
    var r := NatToString(n);
    if n >= 10 {
      DigitsValueOfNatToString(n / 10);
      assert r[..|r| - 1] == NatToString(n / 10);
    }
  }

  /** Distinct numbers have distinct decimal renderings. */
  lemma NatToStringInjective(a: nat, b: nat)
    requires NatToString(a) == NatToString(b)
    ensures a == b
  {
    DigitsValueOfNatToString(a);
    DigitsValueOfNatToString(b);
  }

  /** The rendering of an integer: a minus sign before the digits of a negative value. */
  function IntToString(n: int): (r: string)
  {
    if n < 0 then "-" + NatToString(-n) else NatToString(n)
  }
}
