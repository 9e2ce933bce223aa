/** The Java and Guava string and integer operations that the query DSL relies
    on, stated over `seq<char>` and unbounded integers. */
module Lang {
  import opened Errors

  // ---------------------------------------------------------------------------
  // 32- and 64-bit integers
  // ---------------------------------------------------------------------------

  const IntMin: int := -0x8000_0000
  const IntMax: int := 0x7fff_ffff
  const LongMin: int := -0x8000_0000_0000_0000
  const LongMax: int := 0x7fff_ffff_ffff_ffff

  /** A Java `int`. */
  type Int32 = x: int | IntMin <= x <= IntMax

  /** Two's-complement wrap-around of Java `int` arithmetic. */
  function Wrap32(x: int): (r: Int32)
    ensures IntMin <= x <= IntMax ==> r == x
    ensures (x - r) % 0x1_0000_0000 == 0
  {
    var m := x % 0x1_0000_0000;
    if m > IntMax then m - 0x1_0000_0000 else m
  }

  // ---------------------------------------------------------------------------
  // Searching
  // ---------------------------------------------------------------------------

  predicate StartsWith(s: string, p: string) {
    |p| <= |s| && s[..|p|] == p
  }

  predicate EndsWith(s: string, p: string) {
    |p| <= |s| && s[|s| - |p|..] == p
  }

  /** `String.indexOf(char)`: the first position of `c`, or -1. */
  function IndexOf(s: string, c: char): (r: int)
    ensures -1 <= r < |s|
    ensures r == -1 <==> c !in s
    ensures 0 <= r ==> s[r] == c && c !in s[..r]
  {
    if |s| == 0 then -1
    else if s[0] == c then 0
    else
      var k := IndexOf(s[1..], c);
      assert s[1..][..if k < 0 then 0 else k] == s[1..1 + (if k < 0 then 0 else k)];
      if k < 0 then -1 else k + 1
  }

  /** `String.lastIndexOf(char)`: the last position of `c`, or -1. */
  function LastIndexOf(s: string, c: char): (r: int)
    ensures -1 <= r < |s|
    ensures r == -1 <==> c !in s
    ensures 0 <= r ==> s[r] == c && c !in s[r + 1..]
  {
    if |s| == 0 then -1
    else if s[|s| - 1] == c then |s| - 1
    else
      var k := LastIndexOf(s[..|s| - 1], c);
      assert s[..|s| - 1] + [s[|s| - 1]] == s;
      if k < 0 then -1 else k
  }

  /** Whether the two-character string `[a, b]` occurs at position `i`. */
  predicate PairAt(s: string, i: int, a: char, b: char) {
    0 <= i && i + 1 < |s| && s[i] == a && s[i + 1] == b
  }

  /** `String.indexOf` for a two-character string `[a, b]`, searching from
      `from`: the first position where it occurs, or -1. */
  function IndexOfPair(s: string, a: char, b: char, from: nat := 0): (r: int)
    ensures -1 <= r < |s|
    ensures 0 <= r ==> from <= r && PairAt(s, r, a, b)
    decreases |s| - from
  {
    if from + 1 >= |s| then -1
    else if PairAt(s, from, a, b) then from
    else IndexOfPair(s, a, b, from + 1)
  }

  /** -1 exactly when no occurrence starts at or after `from`; otherwise no
      occurrence comes before the one found. */
  lemma {:induction false} IndexOfPairSpec(s: string, a: char, b: char, from: nat)
    ensures IndexOfPair(s, a, b, from) == -1 <==> forall i :: from <= i ==> !PairAt(s, i, a, b)
    ensures 0 <= IndexOfPair(s, a, b, from) ==> forall i :: from <= i < IndexOfPair(s, a, b, from) ==> !PairAt(s, i, a, b)
    decreases |s| - from
  {
    if from + 1 < |s| && !PairAt(s, from, a, b) {
      IndexOfPairSpec(s, a, b, from + 1);
      forall i | from <= i && PairAt(s, i, a, b)
        ensures from + 1 <= i
      {
      }
    }
  }

  /** `String.contains` for a two-character string. */
  predicate ContainsPair(s: string, a: char, b: char) {
    IndexOfPair(s, a, b) >= 0
  }

  /** In `x + [a, b] + y`, where `x` holds no `[a, b]` and does not end in `a`,
      the first `[a, b]` is the one right after `x`. */
  lemma FirstPair(x: string, a: char, b: char, y: string)
    requires !ContainsPair(x, a, b)
    requires x == [] || x[|x| - 1] != a
    ensures IndexOfPair(x + [a, b] + y, a, b) == |x|
  {
    var s := x + [a, b] + y;
    assert PairAt(s, |x|, a, b);
    IndexOfPairSpec(x, a, b, 0);
    forall i | 0 <= i < |x|
      ensures !PairAt(s, i, a, b)
    {
      if i + 1 < |x| { assert !PairAt(x, i, a, b); }
    }
    IndexOfPairFirst(s, a, b, 0, |x|);
  }

  /** An occurrence at `k` with none between `from` and `k` is the one found. */
  lemma {:induction false} IndexOfPairFirst(s: string, a: char, b: char, from: nat, k: nat)
    requires from <= k && PairAt(s, k, a, b)
    requires forall i :: from <= i < k ==> !PairAt(s, i, a, b)
    ensures IndexOfPair(s, a, b, from) == k
    decreases k - from
  {
    if from < k {
      IndexOfPairFirst(s, a, b, from + 1, k);
    }
  }

  /** `String.replace(c, "")` for a single character: every `c` removed. */
  function RemoveChar(s: string, c: char): (r: string)
    ensures c !in r
    ensures forall x :: x != c ==> (x in r <==> x in s)
    ensures |r| <= |s|
  {
    if |s| == 0 then []
    else (if s[0] == c then [] else [s[0]]) + RemoveChar(s[1..], c)
  }

  // ---------------------------------------------------------------------------
  // Splitting and joining
  // ---------------------------------------------------------------------------

  /** Guava `Splitter.on(c).split(s)`: every piece, empty ones included. */
  function Split(s: string, c: char): (r: seq<string>)
    ensures |r| >= 1
    ensures c !in s ==> r == [s]
    decreases |s|
  {
    var k := IndexOf(s, c);
    if k < 0 then [s] else [s[..k]] + Split(s[k + 1..], c)
  }

  /** No piece holds the separator. */
  lemma {:induction false} SplitPieces(s: string, c: char)
    ensures forall i :: 0 <= i < |Split(s, c)| ==> c !in Split(s, c)[i]
    decreases |s|
  {
    var k := IndexOf(s, c);
    if k >= 0 {
      SplitPieces(s[k + 1..], c);
      var tail := Split(s[k + 1..], c);
      assert Split(s, c) == [s[..k]] + tail;
      forall i | 0 <= i < |Split(s, c)|
        ensures c !in Split(s, c)[i]
      {
        if i > 0 { assert Split(s, c)[i] == tail[i - 1]; }
      }
    }
  }

  /** Guava `Joiner.on(sep).join(parts)`. */
  function Join(parts: seq<string>, sep: string): (r: string)
  {
    if |parts| == 0 then []
    else if |parts| == 1 then parts[0]
    else parts[0] + sep + Join(parts[1..], sep)
  }

  lemma {:induction false} JoinSplit(s: string, c: char)
    ensures Join(Split(s, c), [c]) == s
    decreases |s|
  {
    var k := IndexOf(s, c);
    if k >= 0 {
      var rest := s[k + 1..];
      var parts := Split(rest, c);
      assert Split(s, c) == [s[..k]] + parts;
      JoinCons(s[..k], parts, [c]);
      JoinSplit(rest, c);
      SplitAt(s, k);
    }
  }

  /** A sequence is the part before position `k`, the element at `k` and the
      part after it. */
  lemma SplitAt<T>(s: seq<T>, k: nat)
    requires k < |s|
    ensures s == s[..k] + [s[k]] + s[k + 1..]
  {
    assert s[k..] == [s[k]] + s[k + 1..];
    assert s == s[..k] + s[k..];
  }

  lemma JoinCons(p: string, rest: seq<string>, sep: string)
    requires |rest| >= 1
    ensures Join([p] + rest, sep) == p + sep + Join(rest, sep)
  {
    assert ([p] + rest)[1..] == rest;
  }

  lemma {:induction false} SplitJoin(parts: seq<string>, c: char)
    requires |parts| >= 1
    requires forall i :: 0 <= i < |parts| ==> c !in parts[i]
    ensures Split(Join(parts, [c]), c) == parts
  {
    if |parts| > 1 {
      assert c !in parts[0];
      SplitJoin(parts[1..], c);
      SplitCons(parts[0], c, Join(parts[1..], [c]));
    }
  }

  /** A first piece without the separator is split off whole. */
  lemma SplitCons(x: string, c: char, rest: string)
    requires c !in x
    ensures Split(x + [c] + rest, c) == [x] + Split(rest, c)
  {
    var s := x + [c] + rest;
    assert s[..|x|] == x;
    assert s[|x|] == c;
    assert IndexOf(s, c) == |x|;
    assert s[|x| + 1..] == rest;
  }

  /** Guava `Splitter.on(c).omitEmptyStrings().split(s)`. */
  function SplitOmitEmpty(s: string, c: char): (r: seq<string>)
  {
    NonEmpty(Split(s, c))
  }

  function NonEmpty(parts: seq<string>): (r: seq<string>)
  {
    if |parts| == 0 then []
    else (if parts[0] == [] then [] else [parts[0]]) + NonEmpty(parts[1..])
  }

  /** The kept pieces are the non-empty pieces, in order. */
  lemma {:induction false} NonEmptyPieces(parts: seq<string>)
    ensures forall i :: 0 <= i < |NonEmpty(parts)| ==> NonEmpty(parts)[i] != []
    decreases |parts|
  {
    if |parts| > 0 {
      NonEmptyPieces(parts[1..]);
      var head := if parts[0] == [] then [] else [parts[0]];
      var tail := NonEmpty(parts[1..]);
      assert NonEmpty(parts) == head + tail;
      forall i | 0 <= i < |NonEmpty(parts)|
        ensures NonEmpty(parts)[i] != []
      {
        if i >= |head| { assert NonEmpty(parts)[i] == tail[i - |head|]; }
      }
    }
  }

  /** Guava `Splitter.on(sep).split(s)` for a two-character separator
      `[a, b]`: occurrences are found left to right and do not overlap. */
  function SplitOnPair(s: string, a: char, b: char): (r: seq<string>)
    ensures |r| >= 1
    ensures !ContainsPair(s, a, b) ==> r == [s]
    ensures ContainsPair(s, a, b) ==> |r| >= 2
    decreases |s|
  {
    var k := IndexOfPair(s, a, b);
    if k < 0 then [s] else [s[..k]] + SplitOnPair(s[k + 2..], a, b)
  }

  /** `String.split(" ")`: like `Split`, but trailing empty pieces are dropped,
      and a string without any space comes back whole. */
  function JavaSplitSpace(s: string): (r: seq<string>)
  {
    if ' ' !in s then [s] else DropTrailingEmpty(Split(s, ' '))
  }

  function DropTrailingEmpty(parts: seq<string>): (r: seq<string>)
    ensures |r| <= |parts| && r == parts[..|r|]
    ensures |r| > 0 ==> r[|r| - 1] != []
    ensures forall i :: |r| <= i < |parts| ==> parts[i] == []
  {
    if |parts| == 0 then []
    else if parts[|parts| - 1] == [] then DropTrailingEmpty(parts[..|parts| - 1])
    else parts
  }

  // ---------------------------------------------------------------------------
  // Trimming
  // ---------------------------------------------------------------------------

  /** A character that `String.trim` removes. */
  predicate IsTrimmed(c: char) { c <= ' ' }

  /** `String.trim`: leading and trailing characters up to U+0020 removed. */
  function Trim(s: string): (r: string)
    ensures r == [] || (!IsTrimmed(r[0]) && !IsTrimmed(r[|r| - 1]))
    ensures |r| <= |s|
    ensures s != [] && !IsTrimmed(s[0]) && !IsTrimmed(s[|s| - 1]) ==> r == s
  {
    TrimEnd(TrimStart(s))
  }

  function TrimStart(s: string): (r: string)
    ensures r == [] || !IsTrimmed(r[0])
    ensures |r| <= |s| && r == s[|s| - |r|..]
  {
    if |s| > 0 && IsTrimmed(s[0]) then TrimStart(s[1..]) else s
  }

  function TrimEnd(s: string): (r: string)
    ensures r == [] || !IsTrimmed(r[|r| - 1])
    ensures |r| <= |s| && r == s[..|r|]
    ensures |s| > 0 && !IsTrimmed(s[0]) && r != [] ==> r[0] == s[0]
    ensures |s| > 0 && !IsTrimmed(s[0]) ==> r != []
  {
    if |s| > 0 && IsTrimmed(s[|s| - 1]) then TrimEnd(s[..|s| - 1]) else s
  }

  /** Two pieces without the separator, joined by it, split back into the two. */
  lemma SplitTwo(x: string, c: char, y: string)
    requires c !in x && c !in y
    ensures Split(x + [c] + y, c) == [x, y]
  {
    SplitCons(x, c, y);
  }

  /** A string that does not end in a space (a trimmed one, say) has no trailing
      empty piece, so `split(" ")` on it agrees with Guava's splitter. */
  lemma SplitSpaceNoTrailing(s: string)
    requires s != [] ==> s[|s| - 1] != ' '
    ensures JavaSplitSpace(s) == Split(s, ' ')
  {
    if ' ' in s {
      SplitLastNonEmpty(s, ' ');
    }
  }

  lemma {:induction false} SplitLastNonEmpty(s: string, c: char)
    requires |s| > 0 && s[|s| - 1] != c
    ensures var r := Split(s, c); r[|r| - 1] != []
    decreases |s|
  {
    var k := IndexOf(s, c);
    if k >= 0 {
      var rest := s[k + 1..];
      assert |rest| > 0 && rest[|rest| - 1] == s[|s| - 1];
      SplitLastNonEmpty(rest, c);
      LastOfCons(s[..k], Split(rest, c));
    }
  }

  lemma ConcatAssoc<T>(a: seq<T>, b: seq<T>, c: seq<T>)
    ensures a + (b + c) == a + b + c
  {
  }

  lemma LastOfCons<T>(a: T, r: seq<T>)
    requires |r| > 0
    ensures var q := [a] + r; q[|q| - 1] == r[|r| - 1]
  {
  }

  // ---------------------------------------------------------------------------
  // Case-insensitive comparison (ASCII letters)
  // ---------------------------------------------------------------------------

  function ToLowerAscii(c: char): (r: char)
  {
    if 'A' <= c <= 'Z' then (c as int + 32) as char else c
  }

  function ToUpperAscii(c: char): (r: char)
  {
    if 'a' <= c <= 'z' then (c as int - 32) as char else c
  }

  predicate IsLowerAscii(c: char) { 'a' <= c <= 'z' }
  predicate IsUpperAscii(c: char) { 'A' <= c <= 'Z' }

  /** `String.equalsIgnoreCase`, for a comparison with an ASCII word. */
  predicate EqualsIgnoreCase(s: string, t: string) {
    |s| == |t| && forall i :: 0 <= i < |s| ==> ToLowerAscii(s[i]) == ToLowerAscii(t[i])
  }

  // ---------------------------------------------------------------------------
  // Decimal numbers
  // ---------------------------------------------------------------------------

  predicate IsDigit(c: char) { '0' <= c <= '9' }

  function DigitValue(c: char): (d: nat)
    requires IsDigit(c)
    ensures d < 10
  {
    c as int - '0' as int
  }

  function DigitChar(d: nat): (c: char)
    requires d < 10
    ensures IsDigit(c) && DigitValue(c) == d
  {
    ('0' as int + d) as char
  }

  /** The value of a string of decimal digits. */
  function DigitsValue(s: string): (n: nat)
    requires forall i :: 0 <= i < |s| ==> IsDigit(s[i])
  {
    if |s| == 0 then 0 else 10 * DigitsValue(s[..|s| - 1]) + DigitValue(s[|s| - 1])
  }

  /** The shortest decimal digits of `n`. */
  function NatDigits(n: nat): (s: string)
    ensures |s| >= 1
    ensures forall i :: 0 <= i < |s| ==> IsDigit(s[i])
    ensures n > 0 ==> s[0] != '0'
  {
    if n < 10 then [DigitChar(n)] else NatDigits(n / 10) + [DigitChar(n % 10)]
  }

  lemma {:induction false} NatDigitsValue(n: nat)
    ensures DigitsValue(NatDigits(n)) == n
  {
    if n >= 10 {
      NatDigitsValue(n / 10);
      var s := NatDigits(n);
      assert s[..|s| - 1] == NatDigits(n / 10);
    }
  }

  /** `Integer.toString` / `Long.toString`. */
  function DecimalString(n: int): (s: string)
  {
    if n < 0 then "-" + NatDigits(-n) else NatDigits(n)
  }

  /** The integer denoted by an optional sign followed by at least one
      decimal digit, or None. */
  function ParseDecimal(s: string): (r: Option<int>)
  {
    if |s| > 0 && (s[0] == '-' || s[0] == '+') then
      var body := s[1..];
      if |body| > 0 && forall i :: 0 <= i < |body| ==> IsDigit(body[i]) then
        var v: int := DigitsValue(body);
        Some(if s[0] == '-' then -v else v)
      else None
    else if |s| > 0 && forall i :: 0 <= i < |s| ==> IsDigit(s[i]) then Some(DigitsValue(s))
    else None
  }

  /** `Integer.valueOf(s, 10)`: None stands for a NumberFormatException. */
  function ParseInt(s: string): (r: Option<int>)
    ensures r.Some? ==> IntMin <= r.value <= IntMax
  {
    var p := ParseDecimal(s);
    if p.Some? && IntMin <= p.value <= IntMax then p else None
  }

  /** `Long.valueOf(s, 10)`: None stands for a NumberFormatException. */
  function ParseLong(s: string): (r: Option<int>)
    ensures r.Some? ==> LongMin <= r.value <= LongMax
  {
    var p := ParseDecimal(s);
    if p.Some? && LongMin <= p.value <= LongMax then p else None
  }

  lemma ParseDecimalString(n: int)
    ensures ParseDecimal(DecimalString(n)) == Some(n)
  {
    if n < 0 {
      NatDigitsValue(-n);
      assert DecimalString(n)[1..] == NatDigits(-n);
    } else {
      NatDigitsValue(n);
    }
  }

  /** Parsing inverts printing on the whole `int` range. */
  lemma ParseIntRoundTrip(n: Int32)
    ensures ParseInt(DecimalString(n)) == Some(n)
  {
    ParseDecimalString(n);
  }

  /** An optional sign followed by at least one decimal digit. */
  predicate IsDecimalText(s: string) {
    && |s| > 0
    && (s[0] in "+-" ==> |s| > 1)
    && forall i :: 0 <= i < |s| && (i > 0 || s[0] !in "+-") ==> IsDigit(s[i])
  }

  /** Exactly the signed digit strings parse; every other text, the empty
      one, a lone sign and a text with a non-digit anywhere past the sign
      included, is refused. */
  lemma ParseDecimalAccepts(s: string)
    ensures ParseDecimal(s).Some? <==> IsDecimalText(s)
  {
    if |s| > 0 && s[0] in "+-" {
      var body := s[1..];
      assert forall i :: 0 < i < |s| ==> s[i] == body[i - 1];
    }
  }

  // ---------------------------------------------------------------------------
  // Hashing
  // ---------------------------------------------------------------------------

  /** The UTF-16 code units of one character: the character itself inside the
      Basic Multilingual Plane, otherwise a high and a low surrogate. */
  function Utf16(c: char): (u: seq<int>)
    ensures |u| == if c as int < 0x10000 then 1 else 2
    ensures forall i :: 0 <= i < |u| ==> 0 <= u[i] < 0x10000
  {
    if c as int < 0x10000 then [c as int]
    else
      var v := c as int - 0x10000;
      [0xD800 + v / 0x400, 0xDC00 + v % 0x400]
  }

  /** A character's units decode back to it: a single unit is the character
      and is no surrogate; a pair is a high surrogate followed by a low one
      that together encode the character. */
  lemma Utf16Decodes(c: char)
    ensures var u := Utf16(c);
            && (|u| == 1 ==> u[0] == c as int && !(0xD800 <= u[0] < 0xE000))
            && (|u| == 2 ==> 0xD800 <= u[0] < 0xDC00 && 0xDC00 <= u[1] < 0xE000
                             && 0x10000 + (u[0] - 0xD800) * 0x400 + (u[1] - 0xDC00) == c as int)
  {
  }

  /** The UTF-16 code units of a string, as Java stores it. */
  function Utf16Units(s: string): (u: seq<int>)
    ensures |u| >= |s|
  {
    if |s| == 0 then [] else Utf16Units(s[..|s| - 1]) + Utf16(s[|s| - 1])
  }

  /** A text inside the Basic Multilingual Plane has one unit per character. */
  lemma {:induction false} Utf16UnitsBmp(s: string)
    requires forall i :: 0 <= i < |s| ==> s[i] as int < 0x10000
    ensures Utf16Units(s) == seq(|s|, i requires 0 <= i < |s| => s[i] as int)
  {
    if |s| > 0 {
      Utf16UnitsBmp(s[..|s| - 1]);
    }
  }

  /** The hashing loop of `String.hashCode` over code units, from the hash
      `h` of the units before them: each unit multiplies the hash by 31 and
      adds itself, in `int` arithmetic. */
  function HashUnits(h: Int32, u: seq<int>): Int32
    decreases |u|
  {
    if |u| == 0 then h else HashUnits(Wrap32(31 * h + u[0]), u[1..])
  }

  /** `String.hashCode`: the loop over the string's UTF-16 code units, one or
      two per character. */
  function StringHash(s: string): (h: Int32)
  {
    if |s| == 0 then 0 else HashUnits(StringHash(s[..|s| - 1]), Utf16(s[|s| - 1]))
  }

  /** Hashing two runs of units is hashing the first, then the second. */
  lemma {:induction false} HashUnitsAppend(h: Int32, a: seq<int>, b: seq<int>)
    ensures HashUnits(h, a + b) == HashUnits(HashUnits(h, a), b)
    decreases |a|
  {
    if |a| == 0 {
      assert a + b == b;
    } else {
      var h' := Wrap32(31 * h + a[0]);
      assert (a + b)[0] == a[0];
      assert (a + b)[1..] == a[1..] + b;
      assert HashUnits(h, a + b) == HashUnits(h', a[1..] + b);
      assert HashUnits(h, a) == HashUnits(h', a[1..]);
      HashUnitsAppend(h', a[1..], b);
    }
  }

  /** The hash is that of the whole sequence of the string's code units. */
  lemma {:induction false} StringHashUnits(s: string)
    ensures StringHash(s) == HashUnits(0, Utf16Units(s))
  {
    if |s| > 0 {
      StringHashUnits(s[..|s| - 1]);
      HashUnitsAppend(0, Utf16Units(s[..|s| - 1]), Utf16(s[|s| - 1]));
    }
  }

  /** One unit: the hash times 31, plus the unit. */
  lemma HashUnitsOne(h: Int32, u: seq<int>)
    requires |u| == 1
    ensures HashUnits(h, u) == Wrap32(31 * h + u[0])
  {
  }

  /** Two units: one step per unit. */
  lemma HashUnitsTwo(h: Int32, u: seq<int>)
    requires |u| == 2
    ensures HashUnits(h, u) == Wrap32(31 * Wrap32(31 * h + u[0]) + u[1])
  {
    var h' := Wrap32(31 * h + u[0]);
    assert HashUnits(h, u) == HashUnits(h', u[1..]);
    assert u[1..][0] == u[1] && |u[1..][1..]| == 0;
    assert HashUnits(h', u[1..]) == HashUnits(Wrap32(31 * h' + u[1]), u[1..][1..]);
  }

  /** The hash of one more character continues from the hash before it. */
  lemma StringHashStep(s: string, c: char)
    ensures StringHash(s + [c]) == HashUnits(StringHash(s), Utf16(c))
  {
    assert (s + [c])[..|s|] == s;
  }

  /** The units of one character advance the hash once or twice. */
  lemma HashUnitsOfChar(h: Int32, c: char)
    ensures var u := Utf16(c);
            HashUnits(h, u) ==
              if |u| == 1 then Wrap32(31 * h + u[0])
              else Wrap32(31 * Wrap32(31 * h + u[0]) + u[1])
  {
    if c as int < 0x10000 {
      HashUnitsOne(h, Utf16(c));
    } else {
      HashUnitsTwo(h, Utf16(c));
    }
  }

  /** `"ab".hashCode()` is 31 * 97 + 98. */
  lemma HashExampleBmp()
    ensures StringHash("ab") == 3105
  {
    assert "a" == "" + ['a'];
    assert "ab" == "a" + ['b'];
    StringHashStep("", 'a');
    HashUnitsOne(0, Utf16('a'));
    StringHashStep("a", 'b');
    HashUnitsOne(97, Utf16('b'));
  }

  /** A character outside the Basic Multilingual Plane hashes as its two
      surrogates: U+1F600 is 0xD83D 0xDE00, whose hash is 31 * 0xD83D + 0xDE00. */
  lemma HashExampleSupplementary()
    ensures StringHash("\U{1F600}") == 1772899
  {
    var c := '\U{1F600}';
    assert "\U{1F600}" == "" + [c];
    StringHashStep("", c);
    assert Utf16(c) == [0xD83D, 0xDE00];
    HashUnitsTwo(0, Utf16(c));
  }
}
