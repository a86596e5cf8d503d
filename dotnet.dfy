/** The few .NET primitives the domain code leans on, stated with the
    semantics the runtime gives them: GUIDs, 32-bit `int` with unchecked
    wrap-around, `DateTime` (whose comparisons look at ticks only),
    UTF-16 strings with `char.IsWhiteSpace`, `string.Trim` and
    `string.IsNullOrWhiteSpace`, and IEEE doubles as far as a `<= 0`
    guard can tell them apart. */
module DotNet {
  import opened Wrappers

  // ---------------------------------------------------------------- Guid

  /** A GUID is an opaque identifier; 0 stands for `Guid.Empty`. */
  type Guid = int

  const EMPTY_GUID: Guid := 0

  type NonEmptyGuid = g: Guid | g != EMPTY_GUID witness 1

  // --------------------------------------------------------------- Int32

  const INT32_MIN: int := -0x8000_0000
  const INT32_MAX: int := 0x7FFF_FFFF

  type Int32 = x: int | INT32_MIN <= x <= INT32_MAX

  /** The value an unchecked C# `int` expression yields for the exact
      mathematical result `x`: two's-complement wrap-around modulo 2^32. */
  function Wrap32(x: int): (r: Int32)
    ensures INT32_MIN <= x <= INT32_MAX ==> r == x
    ensures INT32_MAX < x <= INT32_MAX + 0x1_0000_0000 ==> r == x - 0x1_0000_0000
    ensures INT32_MIN - 0x1_0000_0000 <= x < INT32_MIN ==> r == x + 0x1_0000_0000
  {
    (x - INT32_MIN) % 0x1_0000_0000 + INT32_MIN
  }

  /** `Int32.CompareTo`: -1, 0 or 1. */
  function CompareInts(a: int, b: int): (r: int)
    ensures r in {-1, 0, 1}
    ensures r < 0 <==> a < b
    ensures r == 0 <==> a == b
  {
    if a < b then -1 else if a > b then 1 else 0
  }

  // ------------------------------------------------------------ DateTime

  datatype DateTimeKind = Unspecified | Utc | Local

  /** `DateTime.MaxValue.Ticks`. */
  const MAX_TICKS: int := 3155378975999999999

  type Ticks = t: int | 0 <= t <= MAX_TICKS

  /** A `DateTime` is a tick count and a kind. Equality, `<` and
      `CompareTo` on `DateTime` compare the tick counts only. */
  datatype DateTime = DateTime(ticks: Ticks, kind: DateTimeKind)

  /** `DateTime.UtcNow` at the instant `now`. */
  function UtcAt(now: Ticks): (d: DateTime)
    ensures d.kind == Utc && d.ticks == now
  {
    DateTime(now, Utc)
  }

  /** One hour as a `TimeSpan` tick count (10^7 ticks per second). */
  const ONE_HOUR_TICKS: int := 36_000_000_000

  // ------------------------------------------------------------- Strings

  /** A .NET `char` is one UTF-16 code unit, and `string.Length` counts
      code units. */
  type CodeUnit = c: int | 0 <= c <= 0xFFFF

  type NetString = seq<CodeUnit>

  /** `char.IsWhiteSpace`: the Unicode space, line and paragraph
      separators plus the control characters U+0009..U+000D and U+0085. */
  predicate IsWhiteSpace(c: CodeUnit) {
    || (0x09 <= c <= 0x0D) || c == 0x20 || c == 0x85 || c == 0xA0
    || c == 0x1680 || (0x2000 <= c <= 0x200A) || c == 0x2028 || c == 0x2029
    || c == 0x202F || c == 0x205F || c == 0x3000
  }

  predicate IsBlank(s: NetString) {
    forall i :: 0 <= i < |s| ==> IsWhiteSpace(s[i])
  }

  /** `string.IsNullOrWhiteSpace`; `None` is the null reference. */
  predicate IsNullOrWhiteSpace(value: Option<NetString>) {
    value.None? || IsBlank(value.value)
  }

  /** Neither end of `s` is white space. */
  predicate IsTrimmed(s: NetString) {
    s == [] || (!IsWhiteSpace(s[0]) && !IsWhiteSpace(s[|s| - 1]))
  }

  /** Non-empty text with no white space at either end: what every
      trimming validator of the domain stores. */
  type TrimmedText = s: NetString | s != [] && IsTrimmed(s) witness [0x41]

  /** Drops the leading white space. */
  function TrimStart(s: NetString): (r: NetString)
    ensures |r| <= |s| && r == s[|s| - |r|..]
    ensures forall i :: 0 <= i < |s| - |r| ==> IsWhiteSpace(s[i])
    ensures r != [] ==> !IsWhiteSpace(r[0])
    decreases |s|
  {
    if s != [] && IsWhiteSpace(s[0]) then TrimStart(s[1..]) else s
  }

  /** Drops the trailing white space. */
  function TrimEnd(s: NetString): (r: NetString)
    ensures |r| <= |s| && r == s[..|r|]
    ensures forall i :: |r| <= i < |s| ==> IsWhiteSpace(s[i])
    ensures r != [] ==> !IsWhiteSpace(r[|r| - 1])
    decreases |s|
  {
    if s != [] && IsWhiteSpace(s[|s| - 1]) then TrimEnd(s[..|s| - 1]) else s
  }

  /** `string.Trim()`: the longest infix of `s` that neither starts nor
      ends with white space; empty exactly when `s` is blank, and `s`
      itself when `s` is already trimmed. */
  function Trim(s: NetString): (r: NetString)
    ensures IsTrimmed(r)
    ensures |r| <= |s|
    ensures r == [] <==> IsBlank(s)
    ensures IsTrimmed(s) ==> r == s
    ensures exists i, j :: 0 <= i <= j <= |s| && r == s[i..j] && IsBlank(s[..i]) && IsBlank(s[j..])
  {
    TrimBothEnds(s);
    TrimIsInfix(s);
    TrimEnd(TrimStart(s))
  }

  lemma TrimIsInfix(s: NetString)
    ensures exists i, j :: 0 <= i <= j <= |s| && TrimEnd(TrimStart(s)) == s[i..j]
                           && IsBlank(s[..i]) && IsBlank(s[j..])
  {
    var t := TrimStart(s);
    assert |t| <= |s| && t == s[|s| - |t|..];
    assert forall k :: 0 <= k < |s| - |t| ==> IsWhiteSpace(s[k]);
    var r := TrimEnd(t);
    assert |r| <= |t| && r == t[..|r|];
    assert forall k :: |r| <= k < |t| ==> IsWhiteSpace(t[k]);
    BlankAround(s, t, r);
  }

  /** `r` is `s` without a blank prefix and then without a blank suffix,
      so an infix of `s` between two blank ends. */
  lemma BlankAround(s: NetString, t: NetString, r: NetString)
    requires |t| <= |s| && t == s[|s| - |t|..] && forall k :: 0 <= k < |s| - |t| ==> IsWhiteSpace(s[k])
    requires |r| <= |t| && r == t[..|r|] && forall k :: |r| <= k < |t| ==> IsWhiteSpace(t[k])
    ensures exists i, j :: 0 <= i <= j <= |s| && r == s[i..j] && IsBlank(s[..i]) && IsBlank(s[j..])
  {
    var i := |s| - |t|;
    var j := i + |r|;
    var suffix := s[j..];
    forall k | 0 <= k < |suffix|
      ensures IsWhiteSpace(suffix[k])
    {
      assert suffix[k] == t[|r| + k];
    }
    assert r == s[i..j] && IsBlank(s[..i]) && IsBlank(s[j..]);
  }

  lemma TrimBothEnds(s: NetString)
    ensures IsTrimmed(TrimEnd(TrimStart(s)))
    ensures TrimEnd(TrimStart(s)) == [] <==> IsBlank(s)
    ensures IsTrimmed(s) ==> TrimEnd(TrimStart(s)) == s
  {
    var t := TrimStart(s);
    var r := TrimEnd(t);
    if r != [] {
      assert r[0] == t[0];
    }
    if IsTrimmed(s) && s != [] {
      assert t == s;
    }
  }

  /** The validators' path: a string that is not null or blank trims to
      non-empty trimmed text, which trimming again leaves as it is. */
  lemma {:induction false} TrimNonBlank(s: NetString)
    requires !IsNullOrWhiteSpace(Some(s))
    ensures Trim(s) != [] && IsTrimmed(Trim(s))
    ensures Trim(Trim(s)) == Trim(s)
    ensures !IsNullOrWhiteSpace(Some(Trim(s)))
  {
    var r := Trim(s);
    assert r != [] && !IsWhiteSpace(r[0]);
  }

  /** Leading white space is dropped whatever follows it. */
  lemma {:induction false} TrimStartBlankPrefix(p: NetString, s: NetString)
    requires IsBlank(p)
    ensures TrimStart(p + s) == TrimStart(s)
    decreases |p|
  {
    if p == [] {
      assert p + s == s;
    } else {
      assert (p + s)[1..] == p[1..] + s;
      TrimStartBlankPrefix(p[1..], s);
    }
  }

  /** Trailing white space is dropped whatever precedes it. */
  lemma {:induction false} TrimEndBlankSuffix(s: NetString, q: NetString)
    requires IsBlank(q)
    ensures TrimEnd(s + q) == TrimEnd(s)
    decreases |q|
  {
    if q == [] {
      assert s + q == s;
    } else {
      assert (s + q)[..|s + q| - 1] == s + q[..|q| - 1];
      TrimEndBlankSuffix(s, q[..|q| - 1]);
    }
  }

  /** Once a non-blank string has lost its leading white space, what
      follows it is kept as it is. */
  lemma {:induction false} TrimStartAppend(s: NetString, q: NetString)
    requires !IsBlank(s)
    ensures TrimStart(s + q) == TrimStart(s) + q
    decreases |s|
  {
    if IsWhiteSpace(s[0]) {
      assert (s + q)[1..] == s[1..] + q;
      TrimStartAppend(s[1..], q);
    }
  }

  /** A blank string has nothing left once its leading white space is
      gone. */
  lemma BlankTrimsAway(b: NetString)
    requires IsBlank(b)
    ensures TrimStart(b) == []
  {
    assert b + [] == b;
    TrimStartBlankPrefix(b, []);
  }

  /** `Trim` does not see white space added around its input. */
  lemma TrimIgnoresPadding(p: NetString, s: NetString, q: NetString)
    requires IsBlank(p) && IsBlank(q)
    ensures Trim(p + s + q) == Trim(s)
  {
    assert p + s + q == p + (s + q);
    TrimStartBlankPrefix(p, s + q);
    if IsBlank(s) {
      forall k | 0 <= k < |s + q|
        ensures IsWhiteSpace((s + q)[k])
      {
        if k < |s| {
          assert (s + q)[k] == s[k];
        } else {
          assert (s + q)[k] == q[k - |s|];
        }
      }
      BlankTrimsAway(s + q);
      BlankTrimsAway(s);
    } else {
      TrimStartAppend(s, q);
      TrimEndBlankSuffix(TrimStart(s), q);
    }
  }

  // ------------------------------------------------------------- Doubles

  /** An IEEE double, as far as the domain's guards look at it: the
      finite values (rounding is not modelled), the two infinities and
      NaN. */
  datatype Double = Finite(r: real) | PositiveInfinity | NegativeInfinity | NaN

  /** The IEEE comparison `d <= 0`: false for NaN. */
  predicate AtMostZero(d: Double) {
    match d
    case Finite(r) => r <= 0.0
    case NegativeInfinity => true
    case PositiveInfinity => false
    case NaN => false
  }
}
