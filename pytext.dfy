/** Python `str` operations the session and the discovery parser rely on:
    `find`, `split` and `join`, `strip`, `int()` applied to text, and
    `str()` of integers and floats. */
module PyText {
  import opened PyBase

  /** `sep` occurs in `s` starting at index `i`. */
  predicate OccursAt(s: string, sep: string, i: nat) {
    i + |sep| <= |s| && s[i..i + |sep|] == sep
  }

  /** Python's `sep in s` on strings. */
  predicate Occurs(s: string, sep: string) {
    exists i: nat :: i <= |s| && OccursAt(s, sep, i)
  }

  /** `s.find(sep, start)`, with None standing for -1. */
  function FindFrom(s: string, sep: string, start: nat): (r: Option<nat>)
    requires |sep| > 0
    ensures r.Some? ==> start <= r.value && OccursAt(s, sep, r.value)
    ensures forall j: nat :: start <= j && (r.None? || j < r.value) ==> !OccursAt(s, sep, j)
    decreases |s| - start
  {
    if start + |sep| > |s| then None
    else if OccursAt(s, sep, start) then Some(start)
    else FindFrom(s, sep, start + 1)
  }

  /** `s.split(sep)`: the pieces between the non-overlapping occurrences
      of `sep`, scanning left to right; never empty. */
  function Split(s: string, sep: string): (parts: seq<string>)
    requires |sep| > 0
    ensures |parts| >= 1
    decreases |s|
  {
    match FindFrom(s, sep, 0)
    case None => [s]
    case Some(i) => [s[..i]] + Split(s[i + |sep|..], sep)
  }

  /** `sep.join(parts)`. */
  function Join(parts: seq<string>, sep: string): string
  {
    if parts == [] then ""
    else if |parts| == 1 then parts[0]
    else parts[0] + sep + Join(parts[1..], sep)
  }

  /** Joining the pieces of a split gives back the original text. */
  lemma {:induction false} JoinSplit(s: string, sep: string)
    requires |sep| > 0
    ensures Join(Split(s, sep), sep) == s
    decreases |s|
  {
    match FindFrom(s, sep, 0)
    case None =>
    case Some(i) =>
      var head, rest := s[..i], s[i + |sep|..];
      var tail := Split(rest, sep);
      JoinSplit(rest, sep);
      var parts := [head] + tail;
      assert Split(s, sep) == parts;
      assert parts[1..] == tail;
      assert Join(parts, sep) == head + sep + Join(tail, sep);
      assert s[i..i + |sep|] == sep;
      assert s == head + s[i..i + |sep|] + rest;
  }

  /** No piece of a split contains the separator. */
  lemma {:induction false} SplitPiecesFree(s: string, sep: string)
    requires |sep| > 0
    ensures forall p :: p in Split(s, sep) ==> !Occurs(p, sep)
    decreases |s|
  {
    match FindFrom(s, sep, 0)
    case None =>
      forall j: nat ensures !OccursAt(s, sep, j) { }
    case Some(i) =>
      var rest := s[i + |sep|..];
      SplitPiecesFree(rest, sep);
      forall j: nat | OccursAt(s[..i], sep, j) ensures false {
        assert s[..i][j..j + |sep|] == s[j..j + |sep|];
        assert OccursAt(s, sep, j);
      }
      assert Split(s, sep) == [s[..i]] + Split(rest, sep);
  }

  /** For a one-character separator, splitting undoes joining pieces that
      do not contain it. */
  lemma {:induction false} SplitJoin(parts: seq<string>, c: char)
    requires |parts| >= 1
    requires forall p :: p in parts ==> !Occurs(p, [c])
    ensures Split(Join(parts, [c]), [c]) == parts
    decreases |parts|
  {
    var p0 := parts[0];
    assert p0 in parts;
    if |parts| == 1 {
      assert FindFrom(p0, [c], 0).None?;
    } else {
      var rest := Join(parts[1..], [c]);
      var s := p0 + [c] + rest;
      assert Join(parts, [c]) == s;
      assert OccursAt(s, [c], |p0|);
      forall j | 0 <= j < |p0| ensures !OccursAt(s, [c], j) {
        assert s[j..j + 1] == p0[j..j + 1];
        assert !OccursAt(p0, [c], j);
      }
      var r := FindFrom(s, [c], 0);
      assert r.Some?;
      assert r.value == |p0|;
      assert s[..|p0|] == p0 && s[|p0| + 1..] == rest;
      SplitJoin(parts[1..], c);
      assert Split(s, [c]) == [p0] + Split(rest, [c]);
      assert parts == [p0] + parts[1..];
    }
  }

  /** A text none of whose characters is `c` does not contain `c`. */
  lemma CharFree(s: string, c: char)
    requires forall i :: 0 <= i < |s| ==> s[i] != c
    ensures !Occurs(s, [c])
  {
    forall j: nat | j <= |s| ensures !OccursAt(s, [c], j) {
      if j + 1 <= |s| {
        assert s[j..j + 1] == [s[j]];
      }
    }
  }

  predicate IsDigit(c: char) { '0' <= c <= '9' }

  function DigitValue(c: char): (d: nat)
    requires IsDigit(c)
    ensures d < 10
  {
    (c as int) - ('0' as int)
  }

  function DigitChar(d: nat): (c: char)
    requires d < 10
    ensures IsDigit(c) && DigitValue(c) == d
  {
    (('0' as int) + d) as char
  }

  /** `str(n)` for a non-negative integer: its decimal digits. */
  function NatText(n: nat): (t: string)
    ensures |t| >= 1
    ensures forall i :: 0 <= i < |t| ==> IsDigit(t[i])
  {
    if n < 10 then [DigitChar(n)] else NatText(n / 10) + [DigitChar(n % 10)]
  }

  /** `str(i)` for a Python int. */
  function IntText(i: int): string
  {
    if i < 0 then "-" + NatText(-i) else NatText(i)
  }

  /** The ASCII characters that `int()` and `str.strip()` treat as white space. */
  predicate IsSpace(c: char) {
    c == ' ' || (9 <= c as int <= 13) || (28 <= c as int <= 31)
  }

  function LStrip(s: string): string
    decreases |s|
  {
    if |s| > 0 && IsSpace(s[0]) then LStrip(s[1..]) else s
  }

  function RStrip(s: string): string
    decreases |s|
  {
    if |s| > 0 && IsSpace(s[|s| - 1]) then RStrip(s[..|s| - 1]) else s
  }

  /** Decimal digits with single underscores between digits, the body of
      an integer literal that `int()` accepts in base 10. */
  predicate DigitGroups(u: string) {
    && |u| > 0 && IsDigit(u[0]) && IsDigit(u[|u| - 1])
    && forall i :: 0 <= i < |u| ==> IsDigit(u[i]) || (u[i] == '_' && i + 1 < |u| && IsDigit(u[i + 1]))
  }

  /** The number a run of digits denotes, underscores skipped. */
  function DigitsValue(u: string): nat
    decreases |u|
  {
    if u == [] then 0
    else if IsDigit(u[|u| - 1]) then DigitsValue(u[..|u| - 1]) * 10 + DigitValue(u[|u| - 1])
    else DigitsValue(u[..|u| - 1])
  }

  /** `int(s)` for a string, with None where Python raises ValueError:
      surrounding white space, an optional sign, then digit groups. */
  function ParseInt(s: string): Option<int>
  {
    var t := RStrip(LStrip(s));
    if |t| > 0 && (t[0] == '+' || t[0] == '-') then
      if DigitGroups(t[1..]) then
        var n: int := DigitsValue(t[1..]);
        Some(if t[0] == '-' then -n else n)
      else None
    else if DigitGroups(t) then Some(DigitsValue(t))
    else None
  }

  lemma {:induction false} NatTextValue(n: nat)
    ensures DigitsValue(NatText(n)) == n
  {
    if n >= 10 {
      NatTextValue(n / 10);
      var t := NatText(n / 10) + [DigitChar(n % 10)];
      assert t[..|t| - 1] == NatText(n / 10);
    }
  }

  /** `int(str(i)) == i`: reading back the decimal text of an integer. */
  lemma ParseIntText(i: int)
    ensures ParseInt(IntText(i)) == Some(i)
  {
    var m: nat := if i < 0 then -i else i;
    var digits := NatText(m);
    NatTextValue(m);
    assert DigitGroups(digits);
    var t := IntText(i);
    assert t[0] == '-' || IsDigit(t[0]);
    assert IsDigit(t[|t| - 1]);
    assert LStrip(t) == t;
    assert RStrip(t) == t;
    if i < 0 {
      assert t[1..] == digits;
    } else {
      assert t == digits;
    }
  }

  /** Python's `int(x)` on a float: truncation toward zero. */
  function Trunc(r: real): int
  {
    if r >= 0.0 then r.Floor else -((-r).Floor)
  }

  /** The decimal digits of a fraction, at most `fuel` of them, stopping
      where the expansion ends. */
  function FractionDigits(f: real, fuel: nat): string
    requires 0.0 <= f < 1.0
    decreases fuel
  {
    if fuel == 0 || f == 0.0 then ""
    else
      var d := (f * 10.0).Floor;
      [DigitChar(d)] + FractionDigits(f * 10.0 - d as real, fuel - 1)
  }

  /** `str(x)` for a float in positional notation. */
  function FloatText(r: real): string
  {
    var a := if r < 0.0 then -r else r;
    var whole := a.Floor;
    var frac := a - whole as real;
    (if r < 0.0 then "-" else "") + NatText(whole) + "."
      + (if frac == 0.0 then "0" else FractionDigits(frac, 17))
  }
}
