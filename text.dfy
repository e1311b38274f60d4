/** String helpers with the meaning of the JavaScript built-ins the bot relies on:
    `includes`, `startsWith`, `trim`, `split`, `join`, `toLowerCase` (ASCII letters only),
    `parseInt` and `[...new Set(xs)]`. */
module Text {

  datatype Option<T> = None | Some(value: T)

  predicate IsDigit(c: char) { '0' <= c <= '9' }

  predicate IsAsciiAlnum(c: char) { IsDigit(c) || 'a' <= c <= 'z' || 'A' <= c <= 'Z' }

  /** The characters JavaScript counts as white space in `trim`, `parseInt` and the regex class `\s`:
      WhiteSpace and LineTerminator of ECMA-262. */
  predicate IsSpace(c: char) {
    c == '\t' || c == '\n' || c == '\U{B}' || c == '\U{C}' || c == '\r' || c == ' '
    || c == '\U{A0}' || c == '\U{1680}' || ('\U{2000}' <= c <= '\U{200A}')
    || c == '\U{2028}' || c == '\U{2029}' || c == '\U{202F}' || c == '\U{205F}'
    || c == '\U{3000}' || c == '\U{FEFF}'
  }

  predicate StartsWith(s: string, prefix: string) {
    |prefix| <= |s| && s[..|prefix|] == prefix
  }

  /** A text made of four parts starts with the first, ends with the last, and contains whatever
      the middle two start with. */
  lemma FourParts(a: string, b: string, c: string, d: string, tb: string, tc: string)
    ensures StartsWith(a + b + c + d, a) && EndsWith(a + b + c + d, d)
    ensures StartsWith(b, tb) ==> Contains(a + b + c + d, tb)
    ensures StartsWith(c, tc) ==> Contains(a + b + c + d, tc)
  {
    var s := a + b + c + d;
    assert s[..|a|] == a;
    assert s[|s| - |d|..] == d;
    if StartsWith(b, tb) {
      assert s[|a|..|a| + |tb|] == tb;
      ContainsAt(s, tb, |a|);
    }
    if StartsWith(c, tc) {
      assert s[|a| + |b|..|a| + |b| + |tc|] == tc;
      ContainsAt(s, tc, |a| + |b|);
    }
  }

  /** A concatenation starts with its left part. */
  lemma StartsWithConcat(a: string, b: string)
    ensures StartsWith(a + b, a)
  {
    assert (a + b)[..|a|] == a;
  }

  predicate EndsWith(s: string, suffix: string) {
    |suffix| <= |s| && s[|s| - |suffix|..] == suffix
  }

  /** `s.includes(needle)`: the needle starts at some position of `s`. */
  predicate Contains(s: string, needle: string)
    decreases |s|
  {
    StartsWith(s, needle) || (|s| > 0 && Contains(s[1..], needle))
  }

  /** `s.indexOf(needle)` for a needle that occurs: the first position where it starts. */
  function IndexOf(s: string, needle: string): (i: nat)
    requires Contains(s, needle)
    ensures i + |needle| <= |s| && s[i..i + |needle|] == needle
    ensures forall k :: 0 <= k < i ==> !StartsWith(s[k..], needle)
    decreases |s|
  {
    if StartsWith(s, needle) then 0
    else
      var i := IndexOf(s[1..], needle);
      assert s[1..][i..i + |needle|] == s[i + 1..i + 1 + |needle|];
      assert forall k :: 1 <= k <= i ==> s[1..][k - 1..] == s[k..];
      i + 1
  }

  /** A needle sitting at position `i` of `s` is contained in `s`. */
  lemma {:induction false} ContainsAt(s: string, needle: string, i: nat)
    requires i + |needle| <= |s| && s[i..i + |needle|] == needle
    ensures Contains(s, needle)
    decreases i
  {
    if i == 0 {
      assert s[..|needle|] == needle;
    } else {
      assert s[1..][i - 1..i - 1 + |needle|] == s[i..i + |needle|];
      ContainsAt(s[1..], needle, i - 1);
    }
  }

  /** A needle found in one part of a concatenation is found in the whole. */
  lemma ContainsConcat(a: string, b: string, needle: string)
    ensures Contains(a, needle) ==> Contains(a + b, needle)
    ensures Contains(b, needle) ==> Contains(a + b, needle)
  {
    if Contains(a, needle) {
      ContainsInLeft(a, b, needle);
    }
    if Contains(b, needle) {
      ContainsInRight(a, b, needle);
    }
  }

  lemma ContainsInLeft(a: string, b: string, needle: string)
    requires Contains(a, needle)
    ensures Contains(a + b, needle)
  {
    var i := IndexOf(a, needle);
    assert (a + b)[i..i + |needle|] == a[i..i + |needle|];
    ContainsAt(a + b, needle, i);
  }

  lemma ContainsInRight(a: string, b: string, needle: string)
    requires Contains(b, needle)
    ensures Contains(a + b, needle)
  {
    var i := IndexOf(b, needle);
    assert (a + b)[|a| + i..|a| + i + |needle|] == b[i..i + |needle|];
    ContainsAt(a + b, needle, |a| + i);
  }

  function LowerChar(c: char): char {
    if 'A' <= c <= 'Z' then (c as int + 32) as char else c
  }

  /** `s.toLowerCase()` restricted to ASCII letters. */
  function LowerAscii(s: string): (r: string)
    ensures |r| == |s|
    ensures forall i :: 0 <= i < |s| ==> r[i] == LowerChar(s[i])
  {
    seq(|s|, i requires 0 <= i < |s| => LowerChar(s[i]))
  }

  /** The number of white-space characters `s` starts with. */
  function LeadingSpace(s: string): (n: nat)
    ensures n <= |s|
    ensures forall i :: 0 <= i < n ==> IsSpace(s[i])
    ensures n < |s| ==> !IsSpace(s[n])
  {
    if |s| > 0 && IsSpace(s[0]) then 1 + LeadingSpace(s[1..]) else 0
  }

  /** The number of white-space characters `s` ends with. */
  function TrailingSpace(s: string): (n: nat)
    ensures n <= |s|
    ensures forall i :: |s| - n <= i < |s| ==> IsSpace(s[i])
    ensures n < |s| ==> !IsSpace(s[|s| - 1 - n])
  {
    if |s| > 0 && IsSpace(s[|s| - 1]) then 1 + TrailingSpace(s[..|s| - 1]) else 0
  }

  /** Leading white space removed. */
  function TrimStart(s: string): (r: string)
    ensures r == [] || !IsSpace(r[0])
  {
    s[LeadingSpace(s)..]
  }

  /** `s.trim()`: white space removed from both ends; all of `s` when it is only white space. */
  function Trim(s: string): (r: string)
    ensures |r| <= |s|
    ensures r == [] || (!IsSpace(r[0]) && !IsSpace(r[|r| - 1]))
  {
    var a := LeadingSpace(s);
    if a == |s| then ""
    else
      assert !IsSpace(s[a]);
      s[a..|s| - TrailingSpace(s)]
  }

  /** `parts.join(sep)` */
  function Join(parts: seq<string>, sep: string): string {
    if |parts| == 0 then ""
    else if |parts| == 1 then parts[0]
    else parts[0] + sep + Join(parts[1..], sep)
  }

  /** Every piece occurs in the joined string. */
  lemma {:induction false} JoinHoldsPart(parts: seq<string>, sep: string, i: nat)
    requires i < |parts|
    ensures Contains(Join(parts, sep), parts[i])
    decreases |parts|
  {
    if |parts| == 1 {
      ContainsAt(parts[0], parts[0], 0);
    } else if i == 0 {
      var j := Join(parts, sep);
      assert j[..|parts[0]|] == parts[0];
      ContainsAt(j, parts[0], 0);
    } else {
      JoinHoldsPart(parts[1..], sep, i - 1);
      ContainsInRight(parts[0] + sep, Join(parts[1..], sep), parts[i]);
    }
  }

  /** `s.split(sep)` for a one-character separator: the pieces between separators, empty pieces
      included, so there is always at least one. */
  function Split(s: string, sep: char): (parts: seq<string>)
    ensures |parts| >= 1
    ensures forall k :: 0 <= k < |parts| ==> sep !in parts[k]
  {
    if |s| == 0 then [""]
    else
      var rest := Split(s[1..], sep);
      if s[0] == sep then [""] + rest else [[s[0]] + rest[0]] + rest[1..]
  }

  /** Joining the pieces of a split with the separator gives the string back. */
  lemma {:induction false} JoinSplit(s: string, sep: char)
    ensures Join(Split(s, sep), [sep]) == s
  {
    if |s| > 0 {
      var rest := Split(s[1..], sep);
      JoinSplit(s[1..], sep);
      if s[0] != sep && |rest| > 1 {
        assert Join(rest, [sep]) == rest[0] + [sep] + Join(rest[1..], [sep]);
      }
    }
  }

  /** Splitting a join of separator-free pieces gives the pieces back. */
  lemma {:induction false} SplitJoin(parts: seq<string>, sep: char)
    requires |parts| >= 1
    requires forall k :: 0 <= k < |parts| ==> sep !in parts[k]
    ensures Split(Join(parts, [sep]), sep) == parts
    decreases |parts|, |parts[0]|
  {
    var s := Join(parts, [sep]);
    if |parts[0]| == 0 {
      if |parts| > 1 {
        assert s == [sep] + Join(parts[1..], [sep]);
        assert s[1..] == Join(parts[1..], [sep]);
        SplitJoin(parts[1..], sep);
        assert parts == [""] + parts[1..];
      }
    } else {
      var p' := [parts[0][1..]] + parts[1..];
      assert p'[1..] == parts[1..];
      assert s == [parts[0][0]] + Join(p', [sep]);
      assert s[1..] == Join(p', [sep]);
      SplitJoin(p', sep);
      assert parts[0] == [parts[0][0]] + p'[0];
      assert parts == [[parts[0][0]] + p'[0]] + p'[1..];
    }
  }

  /** `jid.split("@")[0]`: the user part of a WhatsApp id. */
  function UserPart(jid: string): (r: string)
    ensures StartsWith(jid, r) && '@' !in r
    ensures '@' !in jid ==> r == jid
    ensures '@' in jid ==> |r| < |jid| && jid[|r|] == '@'
  {
    var parts := Split(jid, '@');
    JoinSplit(jid, '@');
    assert |parts| > 1 ==> jid == parts[0] + "@" + Join(parts[1..], "@");
    assert |parts| == 1 ==> jid == parts[0];
    SplitNoSep(jid, '@');
    parts[0]
  }

  lemma {:induction false} SplitNoSep(s: string, sep: char)
    ensures sep !in s ==> Split(s, sep) == [s]
  {
    if |s| > 0 && sep !in s {
      SplitNoSep(s[1..], sep);
      assert s == [s[0]] + s[1..];
    }
  }

  /** No element occurs twice. */
  predicate NoDup<T(==)>(s: seq<T>) {
    forall i, j :: 0 <= i < j < |s| ==> s[i] != s[j]
  }

  /** `[...new Set(s)]`: the first occurrence of every element, in order. */
  function Dedup(s: seq<string>): (r: seq<string>)
    ensures NoDup(r)
    ensures forall x :: x in r <==> x in s
    ensures NoDup(s) ==> r == s
  {
    if s == [] then []
    else
      var d := Dedup(s[..|s| - 1]);
      var x := s[|s| - 1];
      assert s == s[..|s| - 1] + [x];
      if x in d then d else d + [x]
  }

  lemma DedupSnoc(s: seq<string>, x: string)
    ensures Dedup(s + [x]) == if x in s then Dedup(s) else Dedup(s) + [x]
  {
    assert (s + [x])[..|s + [x]| - 1] == s;
  }

  function DigitChar(d: nat): char
    requires d < 10
  {
    ('0' as int + d) as char
  }

  /** Decimal rendering of a natural number, as JavaScript's number-to-string does for integers. */
  function NatToString(n: nat): (r: string)
    ensures |r| >= 1 && forall i :: 0 <= i < |r| ==> IsDigit(r[i])
    ensures n >= 10 ==> |r| >= 2
  {
    if n < 10 then [DigitChar(n)] else NatToString(n / 10) + [DigitChar(n % 10)]
  }

  /** The value of a character as a digit of radix 16 (`hex`) or 10, or -1. */
  function DigitValue(c: char, hex: bool): (d: int)
    ensures -1 <= d < 16
    ensures d >= 0 ==> d < if hex then 16 else 10
    ensures !hex ==> (d >= 0 <==> IsDigit(c))
  {
    var v :=
      if '0' <= c <= '9' then c as int - '0' as int
      else if 'a' <= c <= 'f' then c as int - 'a' as int + 10
      else if 'A' <= c <= 'F' then c as int - 'A' as int + 10
      else -1;
    if v < (if hex then 16 else 10) then v else -1
  }

  /** The longest prefix of digits. */
  function DigitPrefix(s: string, hex: bool): (z: string)
    ensures StartsWith(s, z)
    ensures forall i :: 0 <= i < |z| ==> DigitValue(z[i], hex) >= 0
    ensures |z| < |s| ==> DigitValue(s[|z|], hex) < 0
  {
    if |s| > 0 && DigitValue(s[0], hex) >= 0 then [s[0]] + DigitPrefix(s[1..], hex) else ""
  }

  function DigitsValue(z: string, hex: bool): nat
    requires forall i :: 0 <= i < |z| ==> DigitValue(z[i], hex) >= 0
  {
    if z == [] then 0
    else
      var init := z[..|z| - 1];
      assert forall i :: 0 <= i < |init| ==> init[i] == z[i];
      var high: nat := DigitsValue(init, hex);
      var low: nat := DigitValue(z[|z| - 1], hex);
      if hex then high * 16 + low else high * 10 + low
  }

  /** `parseInt(s)` without a radix: leading white space, an optional sign, an optional `0x`/`0X`
      prefix selecting radix 16, then the longest run of digits; `None` stands for NaN. */
  function ParseInt(s: string): (r: Option<int>)
    ensures TrimStart(s) == [] ==> r.None?
    ensures r.Some? && r.value < 0 ==> TrimStart(s)[0] == '-'
    ensures |TrimStart(s)| > 0 && TrimStart(s)[0] == '-' && r.Some? ==> r.value <= 0
  {
    var t := TrimStart(s);
    if |t| > 0 && t[0] == '-' then
      match ParseUnsigned(t[1..])
      case None => None
      case Some(v) => var w: int := v; Some(-w)
    else if |t| > 0 && t[0] == '+' then
      match ParseUnsigned(t[1..])
      case None => None
      case Some(v) => Some(v)
    else
      match ParseUnsigned(t)
      case None => None
      case Some(v) => Some(v)
  }

  /** The unsigned part of `parseInt`: radix 16 after a `0x`/`0X` prefix, radix 10 otherwise. */
  function ParseUnsigned(u: string): Option<nat> {
    if |u| >= 2 && u[0] == '0' && (u[1] == 'x' || u[1] == 'X') then ParseDigits(u[2..], true)
    else ParseDigits(u, false)
  }

  function ParseDigits(v: string, hex: bool): Option<nat> {
    var z := DigitPrefix(v, hex);
    if |z| == 0 then None else Some(DigitsValue(z, hex))
  }

  lemma {:induction false} DigitPrefixOfDigits(s: string)
    requires forall i :: 0 <= i < |s| ==> IsDigit(s[i])
    ensures DigitPrefix(s, false) == s
  {
    if |s| > 0 {
      DigitPrefixOfDigits(s[1..]);
    }
  }

  lemma {:induction false} DigitsValueOfNat(n: nat)
    ensures DigitsValue(NatToString(n), false) == n
  {
    if n >= 10 {
      DigitsValueOfNat(n / 10);
      var s := NatToString(n);
      assert s[..|s| - 1] == NatToString(n / 10);
    }
  }

  lemma DigitIsPlain(c: char)
    requires IsDigit(c)
    ensures !IsSpace(c) && c != '-' && c != '+' && c != 'x' && c != 'X'
  {
  }

  lemma ParseUnsignedOfDigits(s: string)
    requires |s| >= 1 && forall i :: 0 <= i < |s| ==> IsDigit(s[i])
    ensures ParseUnsigned(s) == Some(DigitsValue(s, false))
  {
    if |s| >= 2 {
      DigitIsPlain(s[1]);
    }
    DigitPrefixOfDigits(s);
  }

  lemma ParseIntOfDigits(s: string)
    requires |s| >= 1 && forall i :: 0 <= i < |s| ==> IsDigit(s[i])
    ensures ParseInt(s) == Some(DigitsValue(s, false))
  {
    DigitIsPlain(s[0]);
    assert TrimStart(s) == s;
    ParseUnsignedOfDigits(s);
  }

  /** Reading back the decimal rendering of a natural number gives the number. */
  lemma ParseIntOfNat(n: nat)
    ensures ParseInt(NatToString(n)) == Some(n)
  {
    ParseIntOfDigits(NatToString(n));
    DigitsValueOfNat(n);
  }
}
