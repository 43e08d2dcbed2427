/**
 * The JavaScript string and number built-ins that the client code relies on.
 * A JavaScript string is modelled as `string` (a sequence of `char`).
 */
module Text {
  import opened Optional

  /** JavaScript's `\s`: the ECMAScript WhiteSpace and LineTerminator code points. */
  predicate IsSpace(c: char)
  {
    var n := c as int;
    n == 0x09 || n == 0x0A || n == 0x0B || n == 0x0C || n == 0x0D || n == 0x20 ||
    n == 0xA0 || n == 0x1680 || (0x2000 <= n <= 0x200A) || n == 0x2028 || n == 0x2029 ||
    n == 0x202F || n == 0x205F || n == 0x3000 || n == 0xFEFF
  }

  predicate IsDigit(c: char)
  {
    '0' <= c <= '9'
  }

  predicate AllDigits(s: string)
  {
    forall i :: 0 <= i < |s| ==> IsDigit(s[i])
  }

  /** The character class that matches exactly `c0`, for `split(c0)`. */
  function Is(c0: char): char -> bool
  {
    c => c == c0
  }

  // ---------------------------------------------------------------------------
  // String.prototype.startsWith, includes, toLowerCase

  /** `s.startsWith(p)`. */
  predicate StartsWith(s: string, p: string)
  {
    |p| <= |s| && s[..|p|] == p
  }

  predicate OccursAt(s: string, w: string, i: int)
  {
    0 <= i && i + |w| <= |s| && s[i..i + |w|] == w
  }

  /** `s.includes(w)`. */
  predicate Contains(s: string, w: string)
  {
    exists i :: 0 <= i <= |s| - |w| && OccursAt(s, w, i)
  }

  function LowerChar(c: char): char
  {
    if 'A' <= c <= 'Z' then (c as int + 32) as char else c
  }

  /** `s.toLowerCase()`, on the ASCII letters. */
  function Lower(s: string): (r: string)
    ensures |r| == |s|
    ensures forall i :: 0 <= i < |s| ==> r[i] == LowerChar(s[i])
  {
    seq(|s|, i requires 0 <= i < |s| => LowerChar(s[i]))
  }

  /** Lower-casing a string keeps every occurrence of a word, lower-cased, in place. */
  lemma LowerKeepsOccurrence(s: string, w: string, i: int)
    requires OccursAt(s, w, i)
    ensures OccursAt(Lower(s), Lower(w), i)
  {
    var ls, lw := Lower(s), Lower(w);
    forall j | 0 <= j < |w|
      ensures ls[i..i + |w|][j] == lw[j]
    {
      assert s[i..i + |w|][j] == w[j];
    }
  }

  // ---------------------------------------------------------------------------
  // String.prototype.split with a one-character separator

  /**
   * `s.split(sep)` where `isSep` matches exactly the separator characters:
   * the maximal pieces between separators, empty pieces included.
   */
  function Split(s: string, isSep: char -> bool): (r: seq<string>)
    ensures |r| >= 1
    ensures forall k, j :: 0 <= k < |r| && 0 <= j < |r[k]| ==> !isSep(r[k][j])
    decreases |s|
  {
    if s == [] then [""]
    else
      var rest := Split(s[1..], isSep);
      if isSep(s[0]) then [""] + rest
      else [[s[0]] + rest[0]] + rest[1..]
  }

  /** A string without separators splits into itself. */
  lemma {:induction false} SplitWithoutSeparator(s: string, isSep: char -> bool)
    requires forall i :: 0 <= i < |s| ==> !isSep(s[i])
    ensures Split(s, isSep) == [s]
    decreases |s|
  {
    if s != [] {
      SplitWithoutSeparator(s[1..], isSep);
      assert [s[0]] + s[1..] == s;
    }
  }

  /** Splitting at one separator character splits the two sides independently. */
  lemma {:induction false} SplitAtSeparator(a: string, c: char, b: string, isSep: char -> bool)
    requires isSep(c)
    ensures Split(a + [c] + b, isSep) == Split(a, isSep) + Split(b, isSep)
    decreases |a|
  {
    var s := a + [c] + b;
    SplitStep(s, isSep);
    if a == [] {
      assert s[0] == c && s[1..] == b;
    } else {
      assert s[0] == a[0] && s[1..] == a[1..] + [c] + b;
      SplitAtSeparator(a[1..], c, b, isSep);
      SplitStep(a, isSep);
      var left, right := Split(a[1..], isSep), Split(b, isSep);
      if !isSep(a[0]) {
        JoinFirstPiece(a[0], left, right);
      }
    }
  }

  /** One step of `Split`: the first character either ends the first piece or joins it. */
  lemma SplitStep(s: string, isSep: char -> bool)
    requires s != []
    ensures var rest := Split(s[1..], isSep);
            Split(s, isSep) == if isSep(s[0]) then [""] + rest else [[s[0]] + rest[0]] + rest[1..]
  {
  }

  lemma JoinFirstPiece(x: char, left: seq<string>, right: seq<string>)
    requires left != []
    ensures var rest := left + right;
            [[x] + rest[0]] + rest[1..] == ([[x] + left[0]] + left[1..]) + right
  {
    var rest := left + right;
    assert rest[0] == left[0] && rest[1..] == left[1..] + right;
  }

  /** The first piece is the prefix of `s` up to (not including) its first separator. */
  lemma {:induction false} SplitHead(s: string, isSep: char -> bool)
    ensures var h := Split(s, isSep)[0];
            StartsWith(s, h) && (|h| < |s| ==> isSep(s[|h|]))
    decreases |s|
  {
    if s != [] && !isSep(s[0]) {
      SplitHead(s[1..], isSep);
      SplitFirstPiece(s, isSep);
      PrefixCons(s, Split(s[1..], isSep)[0]);
    }
  }

  lemma SplitFirstPiece(s: string, isSep: char -> bool)
    requires s != [] && !isSep(s[0])
    ensures Split(s, isSep)[0] == [s[0]] + Split(s[1..], isSep)[0]
  {
  }

  lemma PrefixCons(s: string, h: string)
    requires s != [] && StartsWith(s[1..], h)
    ensures StartsWith(s, [s[0]] + h)
    ensures |h| + 1 < |s| ==> s[|h| + 1] == s[1..][|h|]
  {
    assert s[..|h| + 1] == [s[0]] + s[1..][..|h|];
  }

  /** The non-empty pieces, in order (`.filter(word => word.length > 0)`). */
  function NonEmpty(pieces: seq<string>): (r: seq<string>)
    ensures |r| <= |pieces|
    ensures forall k :: 0 <= k < |r| ==> r[k] != [] && r[k] in pieces
  {
    if pieces == [] then []
    else if pieces[0] == [] then NonEmpty(pieces[1..])
    else [pieces[0]] + NonEmpty(pieces[1..])
  }

  lemma {:induction false} NonEmptyAppend(x: seq<string>, y: seq<string>)
    ensures NonEmpty(x + y) == NonEmpty(x) + NonEmpty(y)
  {
    if x != [] {
      NonEmptyAppend(x[1..], y);
      assert (x + y)[1..] == x[1..] + y;
    } else {
      assert x + y == y;
    }
  }

  // ---------------------------------------------------------------------------
  // Number.prototype.toString, String.prototype.padStart, parseInt

  function DigitChar(d: nat): (c: char)
    requires d < 10
    ensures IsDigit(c)
  {
    (48 + d) as char
  }

  function DigitValue(c: char): (d: nat)
    requires IsDigit(c)
    ensures d < 10 && DigitChar(d) == c
  {
    c as int - 48
  }

  /** `n.toString()` for a non-negative integer: decimal digits, no leading zero. */
  function NatToDecimal(n: nat): (s: string)
    ensures 1 <= |s| && AllDigits(s)
    ensures s[0] == '0' <==> n == 0
  {
    if n < 10 then [DigitChar(n)] else NatToDecimal(n / 10) + [DigitChar(n % 10)]
  }

  /** The number a string of decimal digits denotes. */
  function DecimalValue(s: string): nat
    requires AllDigits(s)
  {
    if s == [] then 0 else DecimalValue(s[..|s| - 1]) * 10 + DigitValue(s[|s| - 1])
  }

  lemma {:induction false} DecimalRoundTrip(n: nat)
    ensures DecimalValue(NatToDecimal(n)) == n
  {
    if n >= 10 {
      var s := NatToDecimal(n);
      assert s[..|s| - 1] == NatToDecimal(n / 10);
      DecimalRoundTrip(n / 10);
    }
  }

  /** A leading zero does not change the value of a digit string. */
  lemma {:induction false} LeadingZero(s: string)
    requires AllDigits(s)
    ensures AllDigits("0" + s) && DecimalValue("0" + s) == DecimalValue(s)
    decreases |s|
  {
    if s != [] {
      var z := "0" + s;
      assert z[..|z| - 1] == "0" + s[..|s| - 1];
      LeadingZero(s[..|s| - 1]);
    }
  }

  function Repeat(c: char, k: nat): (r: string)
    ensures |r| == k && forall i :: 0 <= i < k ==> r[i] == c
  {
    if k == 0 then "" else [c] + Repeat(c, k - 1)
  }

  /** `s.padStart(width, c)`. */
  function PadStart(s: string, width: nat, c: char): (r: string)
    ensures |r| == if |s| >= width then |s| else width
    ensures r[|r| - |s|..] == s
    ensures forall i :: 0 <= i < |r| - |s| ==> r[i] == c
  {
    if |s| >= width then s else Repeat(c, width - |s|) + s
  }

  /** Zero padding does not change the value of a digit string. */
  lemma {:induction false} ZeroPaddingKeepsValue(s: string, width: nat)
    requires AllDigits(s)
    ensures AllDigits(PadStart(s, width, '0'))
    ensures DecimalValue(PadStart(s, width, '0')) == DecimalValue(s)
    decreases width - |s|
  {
    if |s| < width {
      LeadingZero(s);
      assert PadStart(s, width, '0') == PadStart("0" + s, width, '0');
      ZeroPaddingKeepsValue("0" + s, width);
    }
  }

  /** `i.toString()` for an integer. */
  function IntToString(i: int): string
  {
    if i < 0 then "-" + NatToDecimal(-i) else NatToDecimal(i)
  }

  /** Leading white space removed (parseInt skips it). */
  function TrimStart(s: string): (r: string)
    ensures |r| <= |s|
    ensures r == [] || !IsSpace(r[0])
  {
    if s != [] && IsSpace(s[0]) then TrimStart(s[1..]) else s
  }

  /** The longest prefix made of decimal digits. */
  function DigitPrefix(s: string): (p: string)
    ensures |p| <= |s| && p == s[..|p|] && AllDigits(p)
    ensures |p| < |s| ==> !IsDigit(s[|p|])
  {
    if s == [] || !IsDigit(s[0]) then "" else [s[0]] + DigitPrefix(s[1..])
  }

  lemma {:induction false} DigitPrefixOf(d: string, rest: string)
    requires AllDigits(d)
    requires rest == [] || !IsDigit(rest[0])
    ensures DigitPrefix(d + rest) == d
    decreases |d|
  {
    if d == [] {
      assert d + rest == rest;
    } else {
      DigitPrefixOf(d[1..], rest);
      assert (d + rest)[1..] == d[1..] + rest;
    }
  }

  /**
   * `parseInt(s, 10)`: optional leading white space, an optional sign and the
   * longest run of digits that follows; `None` stands for NaN (no digit).
   */
  function ParseInt(s: string): Option<int>
  {
    ParseSigned(TrimStart(s))
  }

  function ParseSigned(t: string): Option<int>
  {
    if t != [] && (t[0] == '-' || t[0] == '+') then
      var v := ParseDigits(t[1..]);
      if t[0] == '-' && v.Some? then Some(-v.value) else v
    else
      ParseDigits(t)
  }

  function ParseDigits(t: string): Option<int>
  {
    var ds := DigitPrefix(t);
    if ds == [] then None else Some(DecimalValue(ds))
  }

  lemma TrimStartKeeps(s: string)
    requires s != [] && !IsSpace(s[0])
    ensures TrimStart(s) == s
  {
  }

  lemma ParseDigitsReads(d: string, rest: string)
    requires d != [] && AllDigits(d)
    requires rest == [] || !IsDigit(rest[0])
    ensures ParseDigits(d + rest) == Some(DecimalValue(d))
  {
    DigitPrefixOf(d, rest);
  }

  /** parseInt reads back what toString wrote, whatever non-digit text follows it. */
  lemma ParseIntReadsToString(i: int, rest: string)
    requires rest == [] || !IsDigit(rest[0])
    ensures ParseInt(IntToString(i) + rest) == Some(i)
  {
    if i < 0 {
      ParseIntReadsNegatedNat(-i, rest);
    } else {
      ParseIntReadsNat(i, rest);
    }
  }

  lemma ParseIntReadsNat(n: nat, rest: string)
    requires rest == [] || !IsDigit(rest[0])
    ensures ParseInt(NatToDecimal(n) + rest) == Some(n)
  {
    DecimalRoundTrip(n);
    ParseIntReadsDigits(NatToDecimal(n), rest);
  }

  lemma ParseIntReadsNegatedNat(n: nat, rest: string)
    requires rest == [] || !IsDigit(rest[0])
    ensures ParseInt("-" + NatToDecimal(n) + rest) == Some(-(n as int))
  {
    DecimalRoundTrip(n);
    ParseIntReadsNegative(NatToDecimal(n), rest);
  }

  lemma ParseIntReadsDigits(d: string, rest: string)
    requires d != [] && AllDigits(d)
    requires rest == [] || !IsDigit(rest[0])
    ensures ParseInt(d + rest) == Some(DecimalValue(d))
  {
    var s := d + rest;
    assert s[0] == d[0];
    TrimStartKeeps(s);
    ParseDigitsReads(d, rest);
  }

  lemma ParseIntReadsNegative(d: string, rest: string)
    requires d != [] && AllDigits(d)
    requires rest == [] || !IsDigit(rest[0])
    ensures ParseInt("-" + d + rest) == Some(-(DecimalValue(d) as int))
  {
    DropMinus(d, rest);
    ParseDigitsReads(d, rest);
    NegativeSign("-" + d + rest, d + rest);
  }

  /** A leading minus sign negates the digits that follow it. */
  lemma NegativeSign(t: string, x: string)
    requires t != [] && t[0] == '-' && t[1..] == x && ParseDigits(x).Some?
    ensures ParseInt(t) == Some(-ParseDigits(x).value)
  {
    TrimStartKeeps(t);
  }

  /** Past the leading minus sign come the digits and the rest. */
  lemma DropMinus(d: string, rest: string)
    ensures var s := "-" + d + rest;
            s != [] && s[0] == '-' && s[1..] == d + rest
  {
  }

  lemma ParseIntRoundTrip(i: int)
    ensures ParseInt(IntToString(i)) == Some(i)
  {
    ParseIntReadsToString(i, "");
    assert IntToString(i) + "" == IntToString(i);
  }
}
