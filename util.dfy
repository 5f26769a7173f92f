// `num_sep` of lib/chui_core/src/util.rs: thousands separators for a
// decimal number written as `-?digits(.digits)?`. The source walks the
// bytes of the string; every character it accepts is ASCII, and a
// non-ASCII character makes it return `None` at its first byte, so the
// model walks characters instead.

module Util {
  import opened Errors
  import opened Text

  /** The index of the first '.', or the length when there is none (the
      byte position `dot` of the source). */
  function Dot(s: string): (d: nat)
    ensures d <= |s|
    ensures forall i :: 0 <= i < d ==> s[i] != '.'
    ensures d < |s| ==> s[d] == '.'
  {
    if s == [] || s[0] == '.' then 0 else 1 + Dot(s[1..])
  }

  /** 1 when the string starts with '-', else 0. */
  function Neg(s: string): (n: nat)
    ensures n <= 1
  {
    if |s| > 0 && s[0] == '-' then 1 else 0
  }

  /** The character at `i` is allowed where it stands: a digit anywhere, a
      '-' only in front, a '.' only as the first '.'. */
  predicate CharOk(s: string, i: nat)
    requires i < |s|
  {
    (s[i] == '-' && i == 0) || (s[i] == '.' && i == Dot(s)) || IsDigit(s[i])
  }

  /** The format `num_sep` accepts. */
  predicate WellFormed(s: string)
  {
    forall i :: 0 <= i < |s| ==> CharOk(s, i)
  }

  /** The count `integer_digits_remaining` holds when the loop reaches
      index `i` of a well-formed string: the digits of the integer part from
      `i` on. */
  function Remaining(s: string, i: nat): nat
  {
    if i < Neg(s) then (if Neg(s) <= Dot(s) then Dot(s) - Neg(s) else 0)
    else if i <= Dot(s) then Dot(s) - i
    else 0
  }

  /** A separator goes in front of the digit at `i` when it is an
      integer-part digit other than the first and the digits left from it
      on are a multiple of three. */
  predicate SepBefore(s: string, i: nat)
    requires i < |s|
  {
    IsDigit(s[i]) && Remaining(s, i) > 0 && i != Neg(s) && Remaining(s, i) % 3 == 0
  }

  /** The output after the first `n` characters. */
  function Grouped(s: string, sep: char, n: nat): string
    requires n <= |s|
  {
    if n == 0 then []
    else Grouped(s, sep, n - 1) + (if SepBefore(s, n - 1) then [sep] else []) + [s[n - 1]]
  }

  /** What `num_sep` returns. */
  function NumSepSpec(s: string, sep: char): Option<string>
  {
    if WellFormed(s) then Some(Grouped(s, sep, |s|)) else None
  }

  /** `num_sep`: the byte loop with its digit counter. */
  method NumSep(s: string, separator: Option<char>) returns (r: Option<string>)
    ensures r == NumSepSpec(s, separator.UnwrapOr(','))
  {
    var sep := separator.UnwrapOr(',');
    var dot := Dot(s);
    var negative := |s| > 0 && s[0] == '-';
    if negative && dot == 0 {
      // The source returns `None` here; a string that starts with '-' does
      // not start with '.', so this never happens.
      assert false;
    }
    var integerDigitsRemaining: nat := dot - (if negative then 1 else 0);
    var out := "";
    for i := 0 to |s|
      invariant forall j :: 0 <= j < i ==> CharOk(s, j)
      invariant integerDigitsRemaining == Remaining(s, i)
      invariant out == Grouped(s, sep, i)
    {
      var c := s[i];
      if c == '-' {
        if i != 0 {
          assert !CharOk(s, i);
          return None;
        }
      } else if c == '.' {
        if i != dot {
          assert !CharOk(s, i);
          return None;
        }
      } else if IsDigit(c) {
        if integerDigitsRemaining > 0 {
          if i != Neg(s) && integerDigitsRemaining % 3 == 0 {
            out := out + [sep];
          }
          integerDigitsRemaining := integerDigitsRemaining - 1;
        }
      } else {
        assert !CharOk(s, i);
        return None;
      }
      out := out + [c];
    }
    return Some(out);
  }

  // ----- what the output is -----

  /** The string with every `c` deleted. */
  function Strip(s: string, c: char): (r: string)
    ensures |r| <= |s|
  {
    if s == [] then [] else Strip(s[..|s| - 1], c) + (if s[|s| - 1] == c then [] else [s[|s| - 1]])
  }

  lemma {:induction false} StripConcat(a: string, b: string, c: char)
    ensures Strip(a + b, c) == Strip(a, c) + Strip(b, c)
    decreases |b|
  {
    if b == [] {
      assert a + b == a;
    } else {
      var n := |b| - 1;
      assert (a + b)[..|a + b| - 1] == a + b[..n];
      StripConcat(a, b[..n], c);
    }
  }

  /** Deleting the separators gives the input back, when the separator is
      not itself a character of the input. */
  lemma {:induction false} StripGrouped(s: string, sep: char, n: nat)
    requires n <= |s| && sep !in s
    ensures Strip(Grouped(s, sep, n), sep) == s[..n]
  {
    if n > 0 {
      StripGrouped(s, sep, n - 1);
      var prev := Grouped(s, sep, n - 1);
      var mid := if SepBefore(s, n - 1) then [sep] else [];
      var c := s[n - 1];
      assert c != sep by {
        assert c in s;
      }
      assert Grouped(s, sep, n) == prev + mid + [c];
      StripStep(prev, mid, c, sep);
      PrefixSnoc(s, n);
    }
  }

  /** One step of the output, with or without a separator, strips to the
      stripped output so far plus the character. */
  lemma StripStep(prev: string, mid: string, c: char, sep: char)
    requires (mid == [] || mid == [sep]) && c != sep
    ensures Strip(prev + mid + [c], sep) == Strip(prev, sep) + [c]
  {
    StripSnoc(prev + mid, c, sep);
    if mid == [sep] {
      StripSnoc(prev, sep, sep);
    } else {
      assert prev + mid == prev;
    }
  }

  /** A prefix is the shorter prefix and its last character. */
  lemma PrefixSnoc(s: string, n: nat)
    requires 0 < n <= |s|
    ensures s[..n] == s[..n - 1] + [s[n - 1]]
  {
  }

  /** Deleting from a string with one more character at its end. */
  lemma StripSnoc(a: string, c: char, sep: char)
    ensures Strip(a + [c], sep) == Strip(a, sep) + (if c == sep then [] else [c])
  {
    assert (a + [c])[..|a|] == a;
  }

  /** No separator goes in at or after the '.': the fractional part is
      copied unchanged to the end of the output. */
  lemma {:induction false} FractionCopied(s: string, sep: char, n: nat)
    requires Dot(s) <= n <= |s|
    ensures Grouped(s, sep, n) == Grouped(s, sep, Dot(s)) + s[Dot(s)..n]
  {
    if n > Dot(s) {
      FractionCopied(s, sep, n - 1);
      assert s[Dot(s)..n] == s[Dot(s)..n - 1] + [s[n - 1]];
    }
  }

  /** The number of separators among the first `n` characters. */
  function SepCount(s: string, n: nat): nat
    requires n <= |s|
  {
    if n == 0 then 0 else SepCount(s, n - 1) + (if SepBefore(s, n - 1) then 1 else 0)
  }

  lemma {:induction false} GroupedLength(s: string, sep: char, n: nat)
    requires n <= |s|
    ensures |Grouped(s, sep, n)| == n + SepCount(s, n)
  {
    if n > 0 {
      GroupedLength(s, sep, n - 1);
    }
  }

  /** Over a well-formed integer part, the separators before index `n`
      are one per multiple of three among the remaining-digit counts the
      integer part has passed (all but its first digit). */
  lemma {:induction false} SepCountIntegerPart(s: string, n: nat)
    requires WellFormed(s) && Neg(s) < n <= Dot(s)
    ensures SepCount(s, n) == (Dot(s) - Neg(s) - 1) / 3 - (Dot(s) - n) / 3
  {
    if n == Neg(s) + 1 {
      SepCountFront(s, Neg(s));
    } else {
      SepCountIntegerPart(s, n - 1);
      assert IsDigit(s[n - 1]) by {
        assert CharOk(s, n - 1);
      }
      var k := Dot(s) - (n - 1);
      assert Remaining(s, n - 1) == k;
      DivStep(k);
    }
  }

  /** No separator goes in before the first digit of the integer part. */
  lemma SepCountFront(s: string, n: nat)
    requires n == Neg(s) && n < |s|
    ensures SepCount(s, n + 1) == 0
  {
    assert !SepBefore(s, n);
    if n == 1 {
      assert !SepBefore(s, 0);
      assert SepCount(s, 1) == 0;
    }
  }

  lemma DivStep(k: nat)
    requires k >= 1
    ensures (k - 1) / 3 == k / 3 - (if k % 3 == 0 then 1 else 0)
  {
  }

  /** A well-formed number whose integer part has `d >= 1` digits gets
      (d - 1) / 3 separators: one per full group of three after the
      leading group. */
  lemma SeparatorCount(s: string, sep: char)
    requires WellFormed(s) && Dot(s) > Neg(s)
    ensures |Grouped(s, sep, |s|)| == |s| + (Dot(s) - Neg(s) - 1) / 3
  {
    SepCountIntegerPart(s, Dot(s));
    SepCountFraction(s, |s|);
    GroupedLength(s, sep, |s|);
  }

  lemma {:induction false} SepCountFraction(s: string, n: nat)
    requires Dot(s) <= n <= |s|
    ensures SepCount(s, n) == SepCount(s, Dot(s))
  {
    if n > Dot(s) {
      SepCountFraction(s, n - 1);
    }
  }

  // ----- the source's examples -----

  lemma Example5678()
    ensures NumSepSpec("5678", ',') == Some("5,678")
  {
    var s := "5678";
    assert Dot(s[3..]) == 1 && Dot(s[2..]) == 2 && Dot(s[1..]) == 3;
    assert Dot(s) == 4 && Neg(s) == 0;
    assert forall i :: 0 <= i < 4 ==> IsDigit(s[i]);
    assert WellFormed(s);
    assert SepBefore(s, 1) && !SepBefore(s, 2) && !SepBefore(s, 3);
    assert Grouped(s, ',', 1) == ['5'];
    assert Grouped(s, ',', 2) == ['5', ',', '6'];
    assert Grouped(s, ',', 4) == ['5', ',', '6', '7', '8'];
    assert NumSepSpec(s, ',') == Some(Grouped(s, ',', 4));
  }

  lemma ExampleNegative()
    ensures NumSepSpec("-1234.56", ',') == Some("-1,234.56")
  {
    var s := "-1234.56";
    NegativeShape();
    NegativeGrouped(s);
    assert NumSepSpec(s, ',') == Some(Grouped(s, ',', 8));
  }

  lemma NegativeGrouped(s: string)
    requires s == "-1234.56"
    requires forall i :: 0 <= i < 8 ==> (SepBefore(s, i) <==> i == 2)
    ensures Grouped(s, ',', 8) == "-1,234.56"
  {
    assert Grouped(s, ',', 1) == ['-'];
    assert Grouped(s, ',', 2) == ['-', '1'];
    assert Grouped(s, ',', 3) == ['-', '1', ',', '2'];
    assert Grouped(s, ',', 5) == ['-', '1', ',', '2', '3', '4'];
    assert Grouped(s, ',', 7) == ['-', '1', ',', '2', '3', '4', '.', '5'];
    assert Grouped(s, ',', 8) == ['-', '1', ',', '2', '3', '4', '.', '5', '6'];
  }

  lemma NegativeShape()
    ensures WellFormed("-1234.56")
    ensures forall i :: 0 <= i < 8 ==> (SepBefore("-1234.56", i) <==> i == 2)
  {
    var s := "-1234.56";
    NegativeDot(s);
    assert CharOk(s, 0) && CharOk(s, 5);
    assert forall i :: 0 < i < 8 && i != 5 ==> IsDigit(s[i]);
  }

  lemma NegativeDot(s: string)
    requires s == "-1234.56"
    ensures Dot(s) == 5 && Neg(s) == 1
  {
    assert Dot(s[5..]) == 0 && Dot(s[4..]) == 1 && Dot(s[3..]) == 2;
    assert Dot(s[2..]) == 3 && Dot(s[1..]) == 4;
  }

  /** The empty string and a lone '-' are accepted unchanged. */
  lemma ExampleEmptyAndMinus()
    ensures NumSepSpec("", ',') == Some("")
    ensures NumSepSpec("-", ',') == Some("-")
  {
    var s := "-";
    assert Dot(s[1..]) == 0 && Dot(s) == 1;
    assert CharOk(s, 0) && !SepBefore(s, 0);
    assert WellFormed(s);
    assert Grouped(s, ',', 1) == [] + [] + ['-'];
    assert NumSepSpec(s, ',') == Some(Grouped(s, ',', 1));
    assert [] + [] + ['-'] == "-";
  }

  /** A '-' after the front, a second '.', a letter: no number. */
  lemma ExampleRejected()
    ensures NumSepSpec("0-", ',') == None
    ensures NumSepSpec("0..1", ',') == None
    ensures NumSepSpec("01a", ',') == None
  {
    assert !CharOk("0-", 1);
    assert Dot("0..1") == 1 && !CharOk("0..1", 2);
    assert !CharOk("01a", 2);
  }
}
