/** Shared vocabulary of the checker: optional values, the kinds of files a
  * script item can come from and their load order, source locations with
  * their macro-expansion link, tokens, and the small string and number
  * parsers the registries rely on. */
module Base {

  datatype Option<T> = None | Some(value: T)

  /** Where a file was loaded from. The declaration order is the load order:
    * a later kind overrides an earlier one. */
  datatype FileKind = Internal | Clausewitz | Jomini | Vanilla | LoadedMod(index: nat) | Mod

  function KindRank(k: FileKind): nat
  {
    match k
    case Internal => 0
    case Clausewitz => 1
    case Jomini => 2
    case Vanilla => 3
    case LoadedMod(_) => 4
    case Mod => 5
  }

  /** `a >= b` in the derived ordering of the enum: by variant, then by the
    * index of a loaded mod. */
  predicate KindAtLeast(a: FileKind, b: FileKind)
  {
    KindRank(a) > KindRank(b)
    || (KindRank(a) == KindRank(b) && (a.LoadedMod? ==> a.index >= b.index))
  }

  lemma KindAtLeastTotal(a: FileKind, b: FileKind)
    ensures KindAtLeast(a, b) || KindAtLeast(b, a)
    ensures KindAtLeast(a, b) && KindAtLeast(b, a) ==> a == b
  {
  }

  /** A position in a file; `link` is the location a macro was expanded from. */
  datatype Loc = Loc(kind: FileKind, path: string, line: nat, column: nat, link: Option<Loc>)

  /** A piece of script text and where it was read. Tokens compare by text. */
  datatype Token = Token(text: string, loc: Loc)
  {
    predicate Is(s: string) { text == s }
    predicate LowercaseIs(s: string) { Lower(text) == s }
  }

  // ---------------------------------------------------------------- strings

  function LowerChar(c: char): char
  {
    if 'A' <= c <= 'Z' then (c as int + 32) as char else c
  }

  /** ASCII lower-casing, character by character. */
  function Lower(s: string): (r: string)
    ensures |r| == |s|
    ensures forall i :: 0 <= i < |s| ==> r[i] == LowerChar(s[i])
  {
    seq(|s|, i requires 0 <= i < |s| => LowerChar(s[i]))
  }

  predicate StartsWith(s: string, prefix: string)
  {
    |prefix| <= |s| && s[..|prefix|] == prefix
  }

  predicate EndsWith(s: string, suffix: string)
  {
    |suffix| <= |s| && s[|s| - |suffix|..] == suffix
  }

  function StripSuffix(s: string, suffix: string): (r: Option<string>)
    ensures r.Some? <==> EndsWith(s, suffix)
    ensures r.Some? ==> r.value + suffix == s
  {
    if EndsWith(s, suffix) then Some(s[..|s| - |suffix|]) else None
  }

  /** Index of the first occurrence of `c` in `s`. */
  function IndexOf(s: string, c: char): (r: Option<nat>)
    ensures r.Some? ==> r.value < |s| && s[r.value] == c && c !in s[..r.value]
    ensures r.None? ==> c !in s
  {
    if |s| == 0 then None
    else if s[0] == c then Some(0)
    else match IndexOf(s[1..], c)
      case None => None
      case Some(k) => Some(k + 1)
  }

  /** The text before and after the first `c`, as `str::split_once` gives them. */
  function SplitOnce(s: string, c: char): (r: Option<(string, string)>)
    ensures r.None? <==> c !in s
    ensures r.Some? ==> s == r.value.0 + [c] + r.value.1 && c !in r.value.0
  {
    match IndexOf(s, c)
    case None => None
    case Some(k) =>
      assert s == s[..k] + [c] + s[k + 1..];
      Some((s[..k], s[k + 1..]))
  }

  /** The parts of `s` between occurrences of `c`, as `str::split` gives them:
    * always at least one part, and no part contains `c`. */
  function Split(s: string, c: char): (parts: seq<string>)
    ensures |parts| >= 1
    ensures forall p :: p in parts ==> c !in p
    decreases |s|
  {
    match SplitOnce(s, c)
    case None => [s]
    case Some((before, after)) => [before] + Split(after, c)
  }

  lemma {:induction false} SplitJoin(s: string, c: char)
    ensures Join(Split(s, c), c) == s
    decreases |s|
  {
    match SplitOnce(s, c)
    case None =>
    case Some((before, after)) =>
      SplitJoin(after, c);
  }

  /** Inverse of `Split`: the parts with `c` between them. */
  function Join(parts: seq<string>, c: char): string
  {
    if |parts| == 0 then ""
    else if |parts| == 1 then parts[0]
    else parts[0] + [c] + Join(parts[1..], c)
  }

  /** How many characters the parts take up in the joined text, each
    * followed by its separator: part `i` starts `PartsWidth(parts[..i])`
    * characters in. */
  function PartsWidth(parts: seq<string>): nat
  {
    if |parts| == 0 then 0 else |parts[0]| + 1 + PartsWidth(parts[1..])
  }

  lemma {:induction false} PartStartsAt(parts: seq<string>, c: char, i: nat)
    requires i < |parts|
    ensures PartsWidth(parts[..i]) + |parts[i]| <= |Join(parts, c)|
    ensures Join(parts, c)[PartsWidth(parts[..i])..PartsWidth(parts[..i]) + |parts[i]|] == parts[i]
  {
    if i > 0 {
      var rest := parts[1..];
      PartStartsAt(rest, c, i - 1);
      assert parts[..i][1..] == rest[..i - 1];
      var o' := PartsWidth(rest[..i - 1]);
      var head := parts[0] + [c];
      var tail := Join(rest, c);
      assert PartsWidth(parts[..i]) == |head| + o';
      assert Join(parts, c) == head + tail;
      assert (head + tail)[|head| + o'..|head| + o' + |parts[i]|] == tail[o'..o' + |parts[i]|];
    } else if |parts| > 1 {
      assert Join(parts, c) == parts[0] + ([c] + Join(parts[1..], c));
    }
  }

  /** Each part of `Split(s, c)` is found in `s` where `PartsWidth` says it starts. */
  lemma SplitPartStartsAt(s: string, c: char, i: nat)
    requires i < |Split(s, c)|
    ensures var parts := Split(s, c); var o := PartsWidth(parts[..i]);
      o + |parts[i]| <= |s| && s[o..o + |parts[i]|] == parts[i]
  {
    SplitJoin(s, c);
    PartStartsAt(Split(s, c), c, i);
  }

  // ---------------------------------------------------------------- numbers

  predicate IsDigit(c: char) { '0' <= c <= '9' }

  predicate AllDigits(s: string) { forall i :: 0 <= i < |s| ==> IsDigit(s[i]) }

  /** The value of a string of decimal digits, most significant first. */
  function DigitsValue(s: string): nat
    requires AllDigits(s)
  {
    if |s| == 0 then 0
    else DigitsValue(s[..|s| - 1]) * 10 + (s[|s| - 1] as int - '0' as int)
  }

  /** The digits an unsigned `from_str` reads: an optional leading `+` is
    * skipped, but a lone `+` is not a number. */
  function UnsignedDigits(s: string): (r: Option<string>)
    ensures r.Some? ==> |r.value| > 0 && AllDigits(r.value)
  {
    var d := if |s| > 1 && s[0] == '+' then s[1..] else s;
    if |d| > 0 && AllDigits(d) then Some(d) else None
  }

  const U16_MAX: nat := 65535

  /** `u16::from_str`. */
  function ParseU16(s: string): (r: Option<nat>)
    ensures r.Some? ==> r.value <= U16_MAX
  {
    match UnsignedDigits(s)
    case None => None
    case Some(d) => if DigitsValue(d) <= U16_MAX then Some(DigitsValue(d)) else None
  }

  const ISIZE_MIN: int := -0x8000_0000_0000_0000
  const ISIZE_MAX: int := 0x7FFF_FFFF_FFFF_FFFF

  /** `isize::from_str` on a 64-bit target: an optional sign (not alone) and
    * decimal digits, in range. */
  function ParseIsize(s: string): (r: Option<int>)
    ensures r.Some? ==> ISIZE_MIN <= r.value <= ISIZE_MAX
  {
    if |s| > 1 && s[0] == '-' && AllDigits(s[1..]) then
      var v := -(DigitsValue(s[1..]) as int);
      if ISIZE_MIN <= v then Some(v) else None
    else match UnsignedDigits(s)
      case None => None
      case Some(d) => if DigitsValue(d) <= ISIZE_MAX then Some(DigitsValue(d)) else None
  }

  /** Leading zeros do not change a number's value. */
  lemma {:induction false} LeadingZeroValue(d: string)
    requires AllDigits(d)
    ensures AllDigits("0" + d) && DigitsValue("0" + d) == DigitsValue(d)
  {
    var z := "0" + d;
    assert AllDigits(z) by {
      forall i | 0 <= i < |z|
        ensures IsDigit(z[i])
      {
        if i > 0 { assert z[i] == d[i - 1]; }
      }
    }
    if |d| > 0 {
      var init := d[..|d| - 1];
      assert z[..|z| - 1] == "0" + init;
      LeadingZeroValue(init);
    }
  }

  /** `u16::from_str` over every input: it accepts exactly the digit strings
    * (optionally after one `+`) whose value fits in 16 bits, and gives that
    * value. */
  lemma ParseU16Meaning(s: string)
    ensures ParseU16(s).Some? <==> UnsignedDigits(s).Some? && DigitsValue(UnsignedDigits(s).value) <= U16_MAX
    ensures ParseU16(s).Some? ==> ParseU16(s).value == DigitsValue(UnsignedDigits(s).value)
    ensures |s| > 0 && AllDigits(s) && DigitsValue(s) <= U16_MAX ==> ParseU16(s) == Some(DigitsValue(s))
    ensures |s| > 1 && s[0] == '+' && AllDigits(s[1..]) && DigitsValue(s[1..]) <= U16_MAX ==>
              ParseU16(s) == Some(DigitsValue(s[1..]))
    ensures UnsignedDigits(s).Some? ==> s == UnsignedDigits(s).value || s == "+" + UnsignedDigits(s).value
  {
    if |s| > 1 && s[0] == '+' {
      assert s == "+" + s[1..];
    }
  }

  /** `isize::from_str` over every input: a `-` and digits give the
    * negated value when it is in range, and otherwise it reads as
    * `UnsignedDigits` does within the 64-bit range. */
  lemma ParseIsizeMeaning(s: string)
    ensures |s| > 0 && AllDigits(s) && DigitsValue(s) <= ISIZE_MAX ==> ParseIsize(s) == Some(DigitsValue(s))
    ensures |s| > 1 && s[0] == '-' && AllDigits(s[1..]) && DigitsValue(s[1..]) <= -ISIZE_MIN ==>
              ParseIsize(s) == Some(-(DigitsValue(s[1..]) as int))
    ensures |s| > 1 && s[0] == '-' && AllDigits(s[1..]) && DigitsValue(s[1..]) > -ISIZE_MIN ==> ParseIsize(s).None?
    ensures ParseIsize(s).Some? && ParseIsize(s).value < 0 ==>
              |s| > 1 && s[0] == '-' && AllDigits(s[1..]) && ParseIsize(s).value == -(DigitsValue(s[1..]) as int)
    ensures ParseIsize(s).Some? && !(|s| > 1 && s[0] == '-') ==>
              UnsignedDigits(s).Some? && ParseIsize(s).value == DigitsValue(UnsignedDigits(s).value)
  {
    if |s| > 0 && AllDigits(s) {
      assert !IsDigit('-');
    }
  }

  // --------------------------------------------------------------- ordering

  /** Lexicographic order on strings, character by character, as Rust
    * orders `str` (byte order of UTF-8 agrees with code-point order). */
  predicate StrLt(a: string, b: string)
    decreases |a|
  {
    |b| > 0 && (|a| == 0 || a[0] < b[0] || (a[0] == b[0] && StrLt(a[1..], b[1..])))
  }

  predicate StrLe(a: string, b: string) { a == b || StrLt(a, b) }

  lemma {:induction false} StrLtIrreflexive(a: string)
    ensures !StrLt(a, a)
    decreases |a|
  {
    if |a| > 0 {
      StrLtIrreflexive(a[1..]);
    }
  }

  lemma {:induction false} StrLtTransitive(a: string, b: string, c: string)
    requires StrLt(a, b) && StrLt(b, c)
    ensures StrLt(a, c)
    decreases |a|
  {
    if |a| > 0 && a[0] == b[0] && b[0] == c[0] {
      StrLtTransitive(a[1..], b[1..], c[1..]);
    }
  }

  /** Two different strings are ordered one way or the other. */
  lemma {:induction false} StrLtTotal(a: string, b: string)
    requires a != b
    ensures StrLt(a, b) || StrLt(b, a)
    decreases |a|
  {
    if |a| > 0 && |b| > 0 && a[0] == b[0] {
      assert a == [a[0]] + a[1..] && b == [b[0]] + b[1..];
      StrLtTotal(a[1..], b[1..]);
    }
  }

  /** Locations in file order: by path, then line, then column. */
  predicate LocLe(a: Loc, b: Loc)
  {
    StrLt(a.path, b.path)
    || (a.path == b.path && (a.line < b.line || (a.line == b.line && a.column <= b.column)))
  }

  lemma LocLeTotal(a: Loc, b: Loc)
    ensures LocLe(a, b) || LocLe(b, a)
  {
    if a.path != b.path {
      StrLtTotal(a.path, b.path);
    }
  }

  lemma LocLeTransitive(a: Loc, b: Loc, c: Loc)
    requires LocLe(a, b) && LocLe(b, c)
    ensures LocLe(a, c)
  {
    if StrLt(a.path, b.path) && StrLt(b.path, c.path) {
      StrLtTransitive(a.path, b.path, c.path);
    }
  }
}
