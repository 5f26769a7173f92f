// The few pieces of Rust's string library the model relies on: Unicode
// whitespace (`char::is_whitespace`, `str::trim`), UTF-8 byte length
// (`str::len`) and decimal rendering of unsigned integers (`Display`).

module Text {

  /** Unicode `White_Space`, the set `char::is_whitespace` tests. */
  predicate IsWhitespace(c: char)
  {
    var n := c as int;
    (0x09 <= n <= 0x0D) || n == 0x20 || n == 0x85 || n == 0xA0 || n == 0x1680
    || (0x2000 <= n <= 0x200A) || n == 0x2028 || n == 0x2029 || n == 0x202F
    || n == 0x205F || n == 0x3000
  }

  predicate HasWhitespace(s: string)
  {
    exists i :: 0 <= i < |s| && IsWhitespace(s[i])
  }

  /** `str::trim_start`. */
  function TrimStart(s: string): (r: string)
    ensures |r| <= |s| && r == s[|s| - |r|..]
    ensures r == [] || !IsWhitespace(r[0])
    ensures forall i :: 0 <= i < |s| - |r| ==> IsWhitespace(s[i])
  {
    if s == [] || !IsWhitespace(s[0]) then s else TrimStart(s[1..])
  }

  /** `str::trim_end`. */
  function TrimEnd(s: string): (r: string)
    ensures |r| <= |s| && r == s[..|r|]
    ensures r == [] || !IsWhitespace(r[|r| - 1])
    ensures forall i :: |r| <= i < |s| ==> IsWhitespace(s[i])
  {
    if s == [] || !IsWhitespace(s[|s| - 1]) then s else TrimEnd(s[..|s| - 1])
  }

  /** The number of leading whitespace characters of `s`. */
  function LeadingWhitespace(s: string): nat
  {
    |s| - |TrimStart(s)|
  }

  /** `str::trim`: both ends stripped of whitespace. */
  function Trim(s: string): (r: string)
    ensures r == [] || (!IsWhitespace(r[0]) && !IsWhitespace(r[|r| - 1]))
    ensures LeadingWhitespace(s) + |r| <= |s|
    ensures r == s[LeadingWhitespace(s)..LeadingWhitespace(s) + |r|]
  {
    var u := TrimStart(s);
    var r := TrimEnd(u);
    TrimEnds(s, u, r);
    r
  }

  /** The end-trimmed suffix `r` of a start-trimmed suffix `u` of `s` is a
      slice of `s` that starts and ends with non-whitespace. */
  lemma TrimEnds(s: string, u: string, r: string)
    requires |u| <= |s| && u == s[|s| - |u|..] && (u == [] || !IsWhitespace(u[0]))
    requires |r| <= |u| && r == u[..|r|] && (r == [] || !IsWhitespace(r[|r| - 1]))
    ensures r == [] || !IsWhitespace(r[0])
    ensures r == s[|s| - |u|..|s| - |u| + |r|]
  {
    if r != [] {
      assert r[0] == u[0];
    }
  }

  /** A string with no whitespace at either end is its own trim. */
  lemma TrimKeeps(s: string)
    requires s != [] && !IsWhitespace(s[0]) && !IsWhitespace(s[|s| - 1])
    ensures Trim(s) == s
  {
  }

  /** The number of bytes of the UTF-8 encoding of `c`. */
  function Utf8Width(c: char): (n: nat)
    ensures 1 <= n <= 4
    ensures n == 1 <==> (c as int) < 0x80
  {
    if (c as int) < 0x80 then 1
    else if (c as int) < 0x800 then 2
    else if (c as int) < 0x10000 then 3
    else 4
  }

  /** `str::len`: the UTF-8 byte length of a string. */
  function Utf8Len(s: string): (n: nat)
    ensures |s| <= n <= 4 * |s|
    ensures n == |s| <==> forall i :: 0 <= i < |s| ==> (s[i] as int) < 0x80
  {
    if s == [] then 0 else Utf8Width(s[0]) + Utf8Len(s[1..])
  }

  predicate IsDigit(c: char) { '0' <= c <= '9' }

  function DigitChar(d: nat): (c: char)
    requires d < 10
    ensures IsDigit(c) && c as int - '0' as int == d
  {
    ('0' as int + d) as char
  }

  function DigitValue(c: char): (d: nat)
    requires IsDigit(c)
    ensures d < 10 && DigitChar(d) == c
  {
    c as int - '0' as int
  }

  /** The value of a string of decimal digits. */
  function DigitsValue(s: string): (n: nat)
    requires forall i :: 0 <= i < |s| ==> IsDigit(s[i])
  {
    if s == [] then 0 else DigitsValue(s[..|s| - 1]) * 10 + DigitValue(s[|s| - 1])
  }

  /** A canonical decimal numeral: digits only, at least one, no leading zero. */
  predicate IsDecimal(s: string)
  {
    |s| >= 1 && (forall i :: 0 <= i < |s| ==> IsDigit(s[i])) && (|s| > 1 ==> s[0] != '0')
  }

  /** Decimal rendering of a natural number, as `Display` prints a `u8`..`u64`/`usize`. */
  function NatToString(n: nat): (s: string)
    ensures |s| >= 1
    ensures forall i :: 0 <= i < |s| ==> IsDigit(s[i])
    ensures |s| > 1 ==> s[0] != '0'
    ensures IsDecimal(s)
    ensures DigitsValue(s) == n
  {
    if n < 10 then [DigitChar(n)]
    else
      var p := NatToString(n / 10);
      var s := p + [DigitChar(n % 10)];
      assert s[..|s| - 1] == p;
      s
  }

  /** `str::to_ascii_lowercase`: ASCII capitals lowered, everything else kept. */
  function AsciiLowercase(s: string): string
  {
    seq(|s|, i requires 0 <= i < |s| => if 'A' <= s[i] <= 'Z' then (s[i] as int + 32) as char else s[i])
  }

  /** `str::split` on one character: the pieces between the delimiters,
      empty pieces included. */
  function Split(s: string, d: char): (r: seq<string>)
    ensures |r| >= 1
    ensures forall k :: 0 <= k < |r| ==> d !in r[k]
    decreases |s|
  {
    if d !in s then [s]
    else
      var i := LastIndex(s, d);
      Split(s[..i], d) + [s[i + 1..]]
  }

  /** The position of the last `d` in `s`. */
  function LastIndex(s: string, d: char): (i: nat)
    requires d in s
    ensures i < |s| && s[i] == d && d !in s[i + 1..]
  {
    if s[|s| - 1] == d then |s| - 1
    else
      assert d in s[..|s| - 1] by {
        var k :| 0 <= k < |s| && s[k] == d;
        assert s[..|s| - 1][k] == d;
      }
      var j := LastIndex(s[..|s| - 1], d);
      assert s[j + 1..] == s[..|s| - 1][j + 1..] + [s[|s| - 1]];
      j
  }

  /** The pieces put back together with `d` between consecutive ones, built
      left to right as `format!("{}{}{}", acc, d, piece)` does. */
  function Join(parts: seq<string>, d: char): (r: string)
    requires |parts| >= 1
  {
    if |parts| == 1 then parts[0]
    else Join(parts[..|parts| - 1], d) + [d] + parts[|parts| - 1]
  }

  lemma JoinSnoc(init: seq<string>, p: string, d: char)
    requires |init| >= 1
    ensures Join(init + [p], d) == Join(init, d) + [d] + p
  {
    assert (init + [p])[..|init|] == init;
  }

  lemma NotInConcat(x: string, y: string, c: char)
    requires c !in x && c !in y
    ensures c !in x + y
  {
  }

  /** The last `d` is the one with no `d` after it. */
  lemma LastIndexAt(s: string, d: char, i: nat)
    requires i < |s| && s[i] == d && d !in s[i + 1..]
    ensures LastIndex(s, d) == i
  {
    var j := LastIndex(s, d);
    assert forall k :: i < k < |s| ==> s[k] == s[i + 1..][k - i - 1];
    assert forall k :: j < k < |s| ==> s[k] == s[j + 1..][k - j - 1];
  }

  /** The pieces, each followed by `d`, as a loop that writes a piece and
      then the delimiter builds them. */
  function Terminated(parts: seq<string>, d: char): (r: string)
  {
    if parts == [] then [] else Terminated(parts[..|parts| - 1], d) + parts[|parts| - 1] + [d]
  }

  /** One more part, terminated. */
  lemma TerminatedSnoc(parts: seq<string>, k: nat, d: char)
    requires k < |parts|
    ensures Terminated(parts[..k + 1], d) == Terminated(parts[..k], d) + parts[k] + [d]
  {
    assert parts[..k + 1][..k] == parts[..k];
  }

  lemma {:induction false} TerminatedIsJoin(parts: seq<string>, d: char)
    requires |parts| >= 1
    ensures Terminated(parts, d) == Join(parts, d) + [d]
  {
    if |parts| > 1 {
      var n := |parts| - 1;
      TerminatedIsJoin(parts[..n], d);
    } else {
      assert parts[..0] == [];
    }
  }

  /** Joining two runs of pieces is joining each and putting `d` between. */
  lemma {:induction false} JoinAppend(a: seq<string>, b: seq<string>, d: char)
    requires |a| >= 1 && |b| >= 1
    ensures Join(a + b, d) == Join(a, d) + [d] + Join(b, d)
    decreases |b|
  {
    var n := |b| - 1;
    if n == 0 {
      JoinSnoc(a, b[0], d);
    } else {
      JoinAppend(a, b[..n], d);
      assert (a + b)[..|a + b| - 1] == a + b[..n];
      assert Join(a + b, d) == Join(a + b[..n], d) + [d] + b[n];
      assert Join(b, d) == Join(b[..n], d) + [d] + b[n];
    }
  }

  /** No piece contains `c`. */
  predicate NoneContain(parts: seq<string>, c: char)
  {
    forall k :: 0 <= k < |parts| ==> c !in parts[k]
  }

  /** Splitting undoes joining when no piece contains the delimiter. */
  lemma {:induction false} SplitJoin(parts: seq<string>, d: char)
    requires |parts| >= 1
    requires forall k :: 0 <= k < |parts| ==> d !in parts[k]
    ensures Split(Join(parts, d), d) == parts
  {
    if |parts| > 1 {
      var n := |parts| - 1;
      assert Join(parts, d) == Join(parts[..n], d) + [d] + parts[n];
      SplitJoin(parts[..n], d);
      SplitSnoc(Join(parts[..n], d), parts[n], d);
      assert parts[..n] + [parts[n]] == parts;
    }
  }

  /** Splitting a text with one more delimited piece at its end. */
  lemma SplitSnoc(init: string, p: string, d: char)
    requires d !in p
    ensures Split(init + [d] + p, d) == Split(init, d) + [p]
  {
    var s := init + [d] + p;
    assert s[|init|] == d;
    assert s[..|init|] == init && s[|init| + 1..] == p;
    LastIndexAt(s, d, |init|);
  }

  /** How many times `c` occurs in `s`. */
  function Occurrences(s: string, c: char): (n: nat)
    ensures n <= |s|
    ensures n == 0 <==> c !in s
  {
    if s == [] then 0
    else
      assert s == [s[0]] + s[1..];
      (if s[0] == c then 1 else 0) + Occurrences(s[1..], c)
  }

  lemma {:induction false} OccurrencesConcat(a: string, b: string, c: char)
    ensures Occurrences(a + b, c) == Occurrences(a, c) + Occurrences(b, c)
  {
    if a != [] {
      assert (a + b)[1..] == a[1..] + b;
      OccurrencesConcat(a[1..], b, c);
    } else {
      assert a + b == b;
    }
  }
}
