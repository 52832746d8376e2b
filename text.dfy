/**
 * String operations the storefront relies on: the database's case-insensitive
 * `contains`, JavaScript's `String.prototype.split`, `Number(string)` and
 * `Number.prototype.toString` on prices.
 */
module Text {

  /** ASCII lower-casing of one character. */
  function Lower(c: char): char {
    if 'A' <= c <= 'Z' then (c as int + 32) as char else c
  }

  function LowerString(s: string): (r: string)
    ensures |r| == |s|
    ensures forall i :: 0 <= i < |s| ==> r[i] == Lower(s[i])
  {
    if s == [] then [] else [Lower(s[0])] + LowerString(s[1..])
  }

  /** `needle` occurs in `hay` at some offset. */
  predicate IsSubstring(needle: string, hay: string) {
    exists i :: 0 <= i <= |hay| && OccursAt(needle, hay, i)
  }

  predicate OccursAt(needle: string, hay: string, i: nat) {
    i + |needle| <= |hay| && hay[i..i + |needle|] == needle
  }

  /** The database's `contains` with `mode: "insensitive"`. */
  predicate ContainsInsensitive(hay: string, needle: string) {
    IsSubstring(LowerString(needle), LowerString(hay))
  }

  lemma EmptyIsSubstring(hay: string)
    ensures IsSubstring("", hay)
  {
    assert OccursAt("", hay, 0);
  }

  /** `s.split(sep)`: the pieces between separators; always at least one piece. */
  function Split(s: string, sep: char): (r: seq<string>)
    ensures |r| >= 1
    ensures forall k :: 0 <= k < |r| ==> sep !in r[k]
  {
    if s == [] then [""]
    else
      var rest := Split(s[1..], sep);
      if s[0] == sep then [""] + rest
      else
        assert forall k :: 1 <= k < |rest| ==> rest[1..][k - 1] == rest[k];
        [[s[0]] + rest[0]] + rest[1..]
  }

  /** `pieces.join(sep)`. */
  function Join(pieces: seq<string>, sep: char): string {
    if pieces == [] then ""
    else if |pieces| == 1 then pieces[0]
    else pieces[0] + [sep] + Join(pieces[1..], sep)
  }

  /** Joining the pieces of a split gives back the original string. */
  lemma {:induction false} JoinSplit(s: string, sep: char)
    ensures Join(Split(s, sep), sep) == s
  {
    if s != [] {
      JoinSplit(s[1..], sep);
      var rest := Split(s[1..], sep);
      if s[0] == sep {
        assert Split(s, sep) == [""] + rest;
        assert ([""] + rest)[1..] == rest;
        assert Join(Split(s, sep), sep) == "" + [sep] + Join(rest, sep);
        assert s == [s[0]] + s[1..];
      } else {
        var pieces := [[s[0]] + rest[0]] + rest[1..];
        assert Split(s, sep) == pieces;
        if |rest| == 1 {
          assert Join(rest, sep) == rest[0];
          assert s == [s[0]] + s[1..];
        } else {
          assert pieces[1..] == rest[1..];
          assert Join(rest, sep) == rest[0] + [sep] + Join(rest[1..], sep);
          assert Join(pieces, sep) == [s[0]] + rest[0] + [sep] + Join(rest[1..], sep);
          assert s == [s[0]] + s[1..];
        }
      }
    }
  }

  /** A string without the separator splits into itself. */
  lemma {:induction false} SplitWithoutSeparator(s: string, sep: char)
    requires sep !in s
    ensures Split(s, sep) == [s]
  {
    if s != [] {
      assert sep !in s[1..];
      SplitWithoutSeparator(s[1..], sep);
      assert s == [s[0]] + s[1..];
    }
  }

  /** The separator after a separator-free prefix cuts exactly there. */
  lemma {:induction false} SplitAtFirstSeparator(a: string, sep: char, b: string)
    requires sep !in a
    ensures Split(a + [sep] + b, sep) == [a] + Split(b, sep)
  {
    var s := a + [sep] + b;
    if a == [] {
      assert s == [sep] + b;
      assert s[1..] == b;
    } else {
      assert s[0] == a[0];
      assert s[1..] == a[1..] + [sep] + b;
      assert sep !in a[1..];
      SplitAtFirstSeparator(a[1..], sep, b);
      assert a == [a[0]] + a[1..];
    }
  }

  predicate IsDigit(c: char) { '0' <= c <= '9' }

  predicate AllDigits(s: string) { forall i :: 0 <= i < |s| ==> IsDigit(s[i]) }

  /** The value of a string of decimal digits, most significant first. */
  function DigitsValue(s: string): (n: nat)
    requires AllDigits(s)
  {
    if s == [] then 0
    else DigitsValue(s[..|s| - 1]) * 10 + (s[|s| - 1] as int - '0' as int)
  }

  /** A JavaScript number as far as this model needs one. */
  datatype Number = Finite(n: int) | NaN {
    /** JavaScript truthiness: 0 and NaN are falsy. */
    predicate Truthy() { Finite? && n != 0 }
  }

  /**
   * `Number(s)` for the strings the storefront produces: the empty string is 0,
   * a run of decimal digits is its value, anything else is NaN.
   */
  function JsNumber(s: string): (r: Number)
    ensures r.Finite? ==> r.n >= 0
    ensures s == "" ==> r == Finite(0)
    ensures r.Finite? <==> AllDigits(s)
  {
    if s == [] then Finite(0)
    else if AllDigits(s) then Finite(DigitsValue(s))
    else NaN
  }

  function DigitChar(d: nat): (c: char)
    requires d < 10
    ensures IsDigit(c)
  {
    ('0' as int + d) as char
  }

  /** `n.toString()` for a natural number: shortest decimal digits. */
  function NatToString(n: nat): (s: string)
    ensures |s| >= 1
    ensures AllDigits(s)
  {
    if n < 10 then [DigitChar(n)]
    else
      var front := NatToString(n / 10);
      assert AllDigits(front + [DigitChar(n % 10)]) by {
        forall i | 0 <= i < |front| + 1 ensures IsDigit((front + [DigitChar(n % 10)])[i]) {
          if i < |front| { assert (front + [DigitChar(n % 10)])[i] == front[i]; }
        }
      }
      front + [DigitChar(n % 10)]
  }

  /** `Number(n.toString()) == n`: printing and parsing a natural number round-trip. */
  lemma {:induction false} NatToStringRoundTrip(n: nat)
    ensures DigitsValue(NatToString(n)) == n
    ensures JsNumber(NatToString(n)) == Finite(n)
  {
    var s := NatToString(n);
    if n < 10 {
      assert s[..0] == "";
    } else {
      NatToStringRoundTrip(n / 10);
      var front := NatToString(n / 10);
      assert s[..|s| - 1] == front;
      assert s[|s| - 1] == DigitChar(n % 10);
    }
  }

  /** A decimal string has no minus sign in it. */
  lemma DigitsHaveNoDash(s: string)
    requires AllDigits(s)
    ensures '-' !in s
  {
  }

  /**
   * `(cents / 100).toString()`: JavaScript prints a price without trailing
   * zeros in the fraction ("12", "12.5", "12.05").
   */
  function PriceString(cents: int): (s: string)
    ensures |s| >= 1
  {
    if cents < 0 then "-" + UnsignedPriceString(-cents) else UnsignedPriceString(cents)
  }

  function UnsignedPriceString(cents: nat): (s: string)
    ensures |s| >= 1
  {
      var whole := NatToString(cents / 100);
      var frac := cents % 100;
      if frac == 0 then whole
      else if frac % 10 == 0 then whole + "." + [DigitChar(frac / 10)]
      else whole + "." + [DigitChar(frac / 10), DigitChar(frac % 10)]
  }

  /** A whole-dollar price prints with no fraction and reads back as that many dollars. */
  lemma WholePriceString(dollars: nat)
    ensures PriceString(100 * dollars) == NatToString(dollars)
    ensures JsNumber(PriceString(100 * dollars)) == Finite(dollars)
  {
    var c := 100 * dollars;
    assert c / 100 == dollars && c % 100 == 0 by {
      assert c == dollars * 100 + 0;
    }
    assert UnsignedPriceString(c) == NatToString(dollars);
    NatToStringRoundTrip(dollars);
  }
}
