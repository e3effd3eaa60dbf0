/** The few JavaScript built-ins the bot's logic leans on, given their language
    semantics: numbers that may be `undefined` or `NaN`, `parseInt` with no radix,
    integer-to-string conversion, `String.prototype.split(' ')`,
    `String.prototype.startsWith` and `String.prototype.replace` with a string pattern. */
module Js {

  datatype Option<T> = None | Some(value: T)

  /** A number-valued property as the bot can observe it: an integer, `NaN`, or the
      `undefined` read from a property the record does not have. */
  datatype Num = Undefined | Int(i: int) | NaN

  /** `a + k` for an integer `k`: `undefined + k` and `NaN + k` are both `NaN`. */
  function Plus(a: Num, k: int): Num
  {
    if a.Int? then Int(a.i + k) else NaN
  }

  /** `a * k` for an integer `k`, with the same `NaN` rules as `Plus`. */
  function Times(a: Num, k: int): Num
  {
    if a.Int? then Int(a.i * k) else NaN
  }

  /** `a++`: converts `undefined` to `NaN` like any arithmetic. */
  function Increment(a: Num): Num
  {
    Plus(a, 1)
  }

  /** `a >= b`: false whenever either side is `NaN` or `undefined`. */
  predicate AtLeast(a: Num, b: Num)
  {
    a.Int? && b.Int? && a.i >= b.i
  }

  // ---------------------------------------------------------------- strings

  predicate StartsWith(s: string, prefix: string)
  {
    |prefix| <= |s| && s[..|prefix|] == prefix
  }

  /** True when `pat` occurs in `s` at index `i`. */
  predicate OccursAt(s: string, pat: string, i: nat)
  {
    i + |pat| <= |s| && s[i..i + |pat|] == pat
  }

  /** The first index at or after `from` where `pat` occurs in `s`, if any. */
  function IndexFrom(s: string, pat: string, from: nat): (r: Option<nat>)
    requires from <= |s|
    ensures r.Some? ==> from <= r.value && OccursAt(s, pat, r.value)
    ensures forall j :: from <= j && (r.None? || j < r.value) ==> !OccursAt(s, pat, j)
    decreases |s| - from
  {
    if OccursAt(s, pat, from) then Some(from)
    else if from == |s| then None
    else IndexFrom(s, pat, from + 1)
  }

  /** `s.replace(pat, rep)` with a string pattern: only the first occurrence is
      replaced, and `s` comes back unchanged when `pat` does not occur. The
      replacement strings used here hold no `$` patterns. */
  function ReplaceFirst(s: string, pat: string, rep: string): (r: string)
    ensures (forall j :: 0 <= j <= |s| ==> !OccursAt(s, pat, j)) ==> r == s
    ensures forall i :: 0 <= i <= |s| && OccursAt(s, pat, i) && (forall j :: 0 <= j < i ==> !OccursAt(s, pat, j)) ==>
      r == s[..i] + rep + s[i + |pat|..]
  {
    match IndexFrom(s, pat, 0)
    case None => s
    case Some(i) => s[..i] + rep + s[i + |pat|..]
  }

  /** Removing a prefix the string is known to start with leaves exactly the rest. */
  lemma ReplacePrefix(s: string, prefix: string)
    requires StartsWith(s, prefix)
    ensures ReplaceFirst(s, prefix, "") == s[|prefix|..]
  {
    assert OccursAt(s, prefix, 0);
  }

  /** `s.split(sep)` for a one-character separator: the pieces between separators,
      empty pieces included; the empty string gives one empty piece. */
  function Split(s: string, sep: char): (parts: seq<string>)
    ensures |parts| >= 1
    ensures forall k :: 0 <= k < |parts| ==> sep !in parts[k]
    ensures sep !in s ==> parts == [s]
  {
    if s == [] then [[]]
    else
      var rest := Split(s[1..], sep);
      assert sep !in s ==> sep !in s[1..] && s == [s[0]] + s[1..];
      if s[0] == sep then [[]] + rest
      else [[s[0]] + rest[0]] + rest[1..]
  }

  /** `parts.join(sep)`. */
  function Join(parts: seq<string>, sep: char): string
    requires |parts| >= 1
  {
    if |parts| == 1 then parts[0] else parts[0] + [sep] + Join(parts[1..], sep)
  }

  /** Splitting loses nothing: joining the pieces back gives the original string. */
  lemma {:induction false} JoinSplit(s: string, sep: char)
    ensures Join(Split(s, sep), sep) == s
  {
    if s != [] {
      var rest := Split(s[1..], sep);
      JoinSplit(s[1..], sep);
      if s[0] == sep {
        assert Split(s, sep)[1..] == rest;
      } else {
        var parts := Split(s, sep);
        assert parts[0] == [s[0]] + rest[0];
        if |rest| > 1 {
          assert parts[1..] == rest[1..];
          assert Join(rest, sep) == rest[0] + [sep] + Join(rest[1..], sep);
        }
      }
    }
  }

  /** Splitting a join of separator-free pieces gives back exactly those pieces. */
  lemma {:induction false} SplitJoin(parts: seq<string>, sep: char)
    requires |parts| >= 1
    requires forall k :: 0 <= k < |parts| ==> sep !in parts[k]
    ensures Split(Join(parts, sep), sep) == parts
  {
    if |parts| == 1 {
      SplitPiece(parts[0], [], sep);
      assert parts[0] + [] == parts[0];
    } else {
      SplitJoin(parts[1..], sep);
      var tail := [sep] + Join(parts[1..], sep);
      SplitPiece(parts[0], tail, sep);
      assert parts[0] + [sep] + Join(parts[1..], sep) == parts[0] + tail;
      assert tail[1..] == Join(parts[1..], sep);
      assert Split(tail, sep) == [[]] + parts[1..];
      assert parts[0] + [] == parts[0];
      assert parts == [parts[0]] + parts[1..];
    }
  }

  /** A separator-free piece in front of `tail` is glued to the first piece of
      `tail`'s split, when `tail` is empty or starts with the separator. */
  lemma {:induction false} SplitPiece(piece: string, tail: string, sep: char)
    requires sep !in piece
    requires tail == [] || tail[0] == sep
    ensures var r := Split(piece + tail, sep);
      var t := Split(tail, sep);
      r == [piece + t[0]] + t[1..]
  {
    if piece == [] {
      assert piece + tail == tail;
    } else {
      SplitPiece(piece[1..], tail, sep);
      assert (piece + tail)[1..] == piece[1..] + tail;
      assert [piece[0]] + (piece[1..] + Split(tail, sep)[0]) == piece + Split(tail, sep)[0];
    }
  }

  // ---------------------------------------------------------------- numbers

  /** The characters `parseInt` skips before the number: ECMAScript's
      WhiteSpace and LineTerminator code points. */
  predicate IsWhiteSpace(c: char)
  {
    c == '\t' || c == '\n' || c == '\U{0B}' || c == '\U{0C}' || c == '\r' || c == ' '
    || c == '\U{A0}' || c == '\U{1680}' || ('\U{2000}' <= c <= '\U{200A}')
    || c == '\U{2028}' || c == '\U{2029}' || c == '\U{202F}' || c == '\U{205F}'
    || c == '\U{3000}' || c == '\U{FEFF}'
  }

  function TrimStart(s: string): (r: string)
    ensures |r| <= |s| && r == s[|s| - |r|..]
    ensures r == [] || !IsWhiteSpace(r[0])
    ensures forall k :: 0 <= k < |s| - |r| ==> IsWhiteSpace(s[k])
  {
    if s != [] && IsWhiteSpace(s[0]) then TrimStart(s[1..]) else s
  }

  /** The value of `c` as a digit in base `radix` (10 or 16), or -1 when it is none. */
  function DigitValue(c: char, radix: nat): (d: int)
    ensures -1 <= d < 16
    ensures radix == 10 ==> d < 10
  {
    if '0' <= c <= '9' then c as int - '0' as int
    else if radix == 16 && 'a' <= c <= 'f' then c as int - 'a' as int + 10
    else if radix == 16 && 'A' <= c <= 'F' then c as int - 'A' as int + 10
    else -1
  }

  predicate IsDigit(c: char, radix: nat)
  {
    DigitValue(c, radix) >= 0
  }

  /** The longest prefix of `s` made of base-`radix` digits. */
  function DigitPrefix(s: string, radix: nat): (z: string)
    ensures StartsWith(s, z)
    ensures forall k :: 0 <= k < |z| ==> IsDigit(z[k], radix)
    ensures |z| == |s| || !IsDigit(s[|z|], radix)
  {
    if s == [] || !IsDigit(s[0], radix) then [] else [s[0]] + DigitPrefix(s[1..], radix)
  }

  /** The value of a string of base-`radix` digits, most significant first. */
  function DigitsValue(z: string, radix: nat): (v: int)
    requires forall k :: 0 <= k < |z| ==> IsDigit(z[k], radix)
    ensures 0 <= v
  {
    if z == [] then 0
    else
      assert IsDigit(z[|z| - 1], radix);
      DigitsValue(z[..|z| - 1], radix) * radix + DigitValue(z[|z| - 1], radix)
  }

  /** `parseInt(s)` with no radix; `None` stands for `NaN`. Leading white space
      is skipped, then the signed number is read by `ParseSigned`. */
  function ParseInt(s: string): (r: Option<int>)
    ensures r.Some? ==> exists k :: 0 <= k < |s| && IsDigit(s[k], 10)
  {
    var t := TrimStart(s);
    assert forall k :: 0 <= k < |t| ==> t[k] == s[|s| - |t| + k];
    ParseSigned(t)
  }

  /** One optional sign, then the magnitude. */
  function ParseSigned(t: string): (r: Option<int>)
    ensures r.Some? ==> exists k :: 0 <= k < |t| && IsDigit(t[k], 10)
    ensures r.Some? && t != [] && t[0] == '-' ==> r.value <= 0
    ensures r.Some? && (t == [] || t[0] != '-') ==> r.value >= 0
  {
    assert t != [] ==> forall k :: 0 <= k < |t[1..]| ==> t[1..][k] == t[k + 1];
    if t != [] && t[0] == '-' then
      match ParseMagnitude(t[1..])
      case None => None
      case Some(m) => Some(-m)
    else if t != [] && t[0] == '+' then ParseMagnitude(t[1..])
    else ParseMagnitude(t)
  }

  /** The unsigned part of `parseInt`: a `0x`/`0X` prefix switches to base 16,
      the longest run of digits that follows is read and anything after it is
      ignored; no digits at all gives `NaN`. */
  function ParseMagnitude(u: string): (r: Option<int>)
    ensures r.Some? ==> u != [] && IsDigit(u[0], 10) && r.value >= 0
    ensures u != [] && IsDigit(u[0], 10) && (|u| < 2 || (u[1] != 'x' && u[1] != 'X')) ==> r.Some?
  {
    var hex := |u| >= 2 && u[0] == '0' && (u[1] == 'x' || u[1] == 'X');
    var radix := if hex then 16 else 10;
    var z := DigitPrefix(if hex then u[2..] else u, radix);
    if z == [] then None else Some(DigitsValue(z, radix))
  }

  /** The decimal digits of `n`, without leading zeros. */
  function NatToString(n: nat): (s: string)
    ensures |s| >= 1
    ensures forall k :: 0 <= k < |s| ==> IsDigit(s[k], 10)
    ensures s[0] == '0' ==> n == 0
  {
    if n < 10 then ['0' + n as char]
    else NatToString(n / 10) + ['0' + (n % 10) as char]
  }

  /** `String(n)` for an integer (below 10^21, where JavaScript would switch to
      exponent notation). */
  function IntToString(n: int): string
  {
    if n < 0 then "-" + NatToString(-n) else NatToString(n)
  }

  /** How a template literal renders a number-valued property. */
  function NumToString(a: Num): string
  {
    match a
    case Undefined => "undefined"
    case NaN => "NaN"
    case Int(n) => IntToString(n)
  }

  /** Reading the digits of `n` gives `n` back. */
  lemma {:induction false} DigitsOfNat(n: nat)
    ensures DigitsValue(NatToString(n), 10) == n
  {
    var s := NatToString(n);
    if n >= 10 {
      DigitsOfNat(n / 10);
      assert s[..|s| - 1] == NatToString(n / 10);
    }
  }

  /** A run of digits followed by a non-digit (or nothing) is exactly the digit prefix. */
  lemma {:induction false} DigitPrefixOfDigits(w: string, rest: string, radix: nat)
    requires forall k :: 0 <= k < |w| ==> IsDigit(w[k], radix)
    requires rest == [] || !IsDigit(rest[0], radix)
    ensures DigitPrefix(w + rest, radix) == w
  {
    if w != [] {
      DigitPrefixOfDigits(w[1..], rest, radix);
      assert (w + rest)[1..] == w[1..] + rest;
    } else {
      assert w + rest == rest;
    }
  }

  /** The digits of a natural number, followed by anything that does not continue
      them, read back as that number. */
  lemma MagnitudeOfDigits(m: nat, rest: string)
    requires rest == [] || !IsDigit(rest[0], 10)
    requires m == 0 && rest != [] ==> rest[0] != 'x' && rest[0] != 'X'
    ensures ParseMagnitude(NatToString(m) + rest) == Some(m)
  {
    var w := NatToString(m);
    DigitsOfNat(m);
    DigitPrefixOfDigits(w, rest, 10);
    if |w| >= 2 {
      assert (w + rest)[1] == w[1];
    } else if rest != [] {
      assert (w + rest)[1] == rest[0];
    }
  }

  /** `parseInt` reads back what `String(n)` wrote, even with trailing text that
      does not continue the number (the one trap: `0` followed by `x` reads as hex). */
  lemma ParseIntToString(n: int, rest: string)
    requires rest == [] || !IsDigit(rest[0], 10)
    requires n == 0 && rest != [] ==> rest[0] != 'x' && rest[0] != 'X'
    ensures ParseInt(IntToString(n) + rest) == Some(n)
  {
    if n < 0 {
      var m: nat := -n;
      assert IntToString(n) + rest == ['-'] + (NatToString(m) + rest);
      MagnitudeOfDigits(m, rest);
      NegativeText(NatToString(m) + rest, m);
    } else {
      MagnitudeOfDigits(n, rest);
      DigitText(NatToString(n) + rest);
    }
  }

  /** A leading minus sign negates the magnitude. */
  lemma NegativeText(u: string, m: nat)
    requires ParseMagnitude(u) == Some(m)
    ensures ParseInt(['-'] + u) == Some(-(m as int))
  {
    var s := ['-'] + u;
    assert s[1..] == u;
    assert !IsWhiteSpace(s[0]);
  }

  /** Text starting with a digit is read with no sign and no skipped space. */
  lemma DigitText(s: string)
    requires s != [] && IsDigit(s[0], 10)
    ensures ParseInt(s) == ParseMagnitude(s)
  {
    assert !IsWhiteSpace(s[0]);
  }

  /** Text with no decimal digit has no magnitude: it cannot start with `0x`,
      and its decimal digit prefix is empty. */
  lemma MagnitudeNoDigits(u: string)
    requires forall k :: 0 <= k < |u| ==> !IsDigit(u[k], 10)
    ensures ParseMagnitude(u) == None
  {
    if u != [] {
      assert !IsDigit(u[0], 10);
      assert u[0] != '0';
    }
    assert DigitPrefix(u, 10) == [];
  }

  /** A string with no decimal digit at all parses to `NaN`. */
  lemma NoDigitsIsNaN(s: string)
    requires forall k :: 0 <= k < |s| ==> !IsDigit(s[k], 10)
    ensures ParseInt(s) == None
  {
    var t := TrimStart(s);
    assert forall k :: 0 <= k < |t| ==> !IsDigit(t[k], 10) by {
      forall k | 0 <= k < |t| ensures !IsDigit(t[k], 10) {
        assert t[k] == s[|s| - |t| + k];
      }
    }
    if t != [] && (t[0] == '-' || t[0] == '+') {
      var u := t[1..];
      assert forall k :: 0 <= k < |u| ==> !IsDigit(u[k], 10) by {
        forall k | 0 <= k < |u| ensures !IsDigit(u[k], 10) {
          assert u[k] == t[k + 1];
        }
      }
      MagnitudeNoDigits(u);
    } else {
      MagnitudeNoDigits(t);
    }
  }
}
