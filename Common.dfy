/**
 * Shared vocabulary of the ErsatzTV model: optional values and error
 * results, time expressed in .NET ticks, and the handful of string
 * operations (blank test, trimming, ASCII lower-casing, splitting) that the
 * server's decisions are built from.
 */
module Common {

  datatype Option<T> = None | Some(value: T)
  {
    predicate IsSome() { this.Some? }

    function GetOr(default: T): T
    {
      if this.Some? then value else default
    }
  }

  datatype Result<T> = Ok(value: T) | Err(error: string)

  // ---------------------------------------------------------------------
  // Time. A .NET tick is 100 ns; DateTime and TimeSpan values are ticks.
  // ---------------------------------------------------------------------

  const TicksPerMillisecond: int := 10_000
  const TicksPerSecond: int := 10_000_000
  const TicksPerMinute: int := 600_000_000
  const TicksPerHour: int := 36_000_000_000
  const TicksPerDay: int := 864_000_000_000

  /** DateTime ticks of 1970-01-01T00:00:00Z. */
  const UnixEpochTicks: int := 621_355_968_000_000_000

  /** DateTimeOffset.FromUnixTimeSeconds(s).DateTime, in ticks. */
  function FromUnixSeconds(s: int): (r: int)
    ensures (r - UnixEpochTicks) % TicksPerSecond == 0
    ensures (r - UnixEpochTicks) / TicksPerSecond == s
  {
    UnixEpochTicks + s * TicksPerSecond
  }

  /** Midnight of the day that contains instant `t` (DateTime.Date). */
  function DateOf(t: int): (r: int)
    ensures r <= t < r + TicksPerDay
    ensures r % TicksPerDay == 0
  {
    t - t % TicksPerDay
  }

  /** Time elapsed since midnight (DateTime.TimeOfDay). */
  function TimeOfDay(t: int): (r: int)
    ensures 0 <= r < TicksPerDay
    ensures DateOf(t) + r == t
  {
    t % TicksPerDay
  }

  /** A midnight plus a time of day is that day at that time. */
  lemma {:induction false} MidnightPlus(midnight: int, x: int)
    requires midnight % TicksPerDay == 0 && 0 <= x < TicksPerDay
    ensures DateOf(midnight + x) == midnight && TimeOfDay(midnight + x) == x
  {
    var q := midnight / TicksPerDay;
    assert midnight == TicksPerDay * q;
    assert (TicksPerDay * q + x) / TicksPerDay == q;
  }

  /** Two midnights less than a day apart are the same midnight. */
  lemma {:induction false} MidnightsApart(a: int, b: int)
    requires a % TicksPerDay == 0 && b % TicksPerDay == 0
    requires a - b > -TicksPerDay
    ensures a >= b
  {
    var qa := a / TicksPerDay;
    var qb := b / TicksPerDay;
    assert a == TicksPerDay * qa && b == TicksPerDay * qb;
    assert TicksPerDay * (qa - qb) > -TicksPerDay;
    assert qa - qb > -1;
  }

  /** Integer division is determined by the bounds on its quotient. */
  lemma {:induction false} DivUnique(n: int, d: int, q: int)
    requires d > 0 && q * d <= n < q * d + d
    ensures n / d == q && n % d == n - q * d
  {
    var x := n / d - q;
    assert d * x == (n - n % d) - q * d;
    assert -d < d * x < d;
  }

  function Min(a: int, b: int): (r: int)
    ensures r <= a && r <= b && (r == a || r == b)
  {
    if a <= b then a else b
  }

  function Max(a: int, b: int): (r: int)
    ensures r >= a && r >= b && (r == a || r == b)
  {
    if a >= b then a else b
  }

  /**
   * Math.Round with the default MidpointRounding.ToEven applied to the exact
   * quotient n / d; TimeSpan multiplication and division round this way.
   */
  function RoundHalfEven(n: int, d: int): (r: int)
    requires d > 0
    ensures -d <= 2 * n - 2 * d * r <= d
    ensures (2 * n - 2 * d * r == d || 2 * n - 2 * d * r == -d) ==> r % 2 == 0
  {
    var q := n / d;
    var rem := n % d;
    if 2 * rem < d then q
    else if 2 * rem > d then q + 1
    else if q % 2 == 0 then q
    else q + 1
  }

  // ---------------------------------------------------------------------
  // Strings
  // ---------------------------------------------------------------------

  predicate IsWhiteSpace(c: char)
  {
    c == ' ' || c == '\t' || c == '\n' || c == '\r' || c == '\U{000B}' || c == '\U{000C}'
  }

  /** string.IsNullOrWhiteSpace for a non-null string. */
  predicate IsBlank(s: string)
  {
    forall i :: 0 <= i < |s| ==> IsWhiteSpace(s[i])
  }

  /** string.IsNullOrWhiteSpace for a nullable string. */
  predicate IsBlankOpt(s: Option<string>)
  {
    s.None? || IsBlank(s.value)
  }

  function TrimStart(s: string): (r: string)
    ensures |r| <= |s| && r == s[|s| - |r|..]
    ensures |r| > 0 ==> !IsWhiteSpace(r[0])
    ensures IsBlank(s[..|s| - |r|])
  {
    if |s| > 0 && IsWhiteSpace(s[0]) then
      var r := TrimStart(s[1..]);
      assert s[1..][..|s[1..]| - |r|] == s[1..|s| - |r|];
      r
    else s
  }

  function TrimEnd(s: string): (r: string)
    ensures |r| <= |s| && r == s[..|r|]
    ensures |r| > 0 ==> !IsWhiteSpace(r[|r| - 1])
    ensures IsBlank(s[|r|..])
  {
    if |s| > 0 && IsWhiteSpace(s[|s| - 1]) then
      var r := TrimEnd(s[..|s| - 1]);
      assert s[..|s| - 1][|r|..] == s[|r|..|s| - 1];
      r
    else s
  }

  /** string.Trim: strip leading and trailing white space. */
  function Trim(s: string): (r: string)
    ensures |r| <= |s|
    ensures |r| > 0 ==> !IsWhiteSpace(r[0]) && !IsWhiteSpace(r[|r| - 1])
  {
    TrimEnd(TrimStart(s))
  }

  lemma {:induction false} TrimBlank(s: string)
    ensures IsBlank(s) <==> Trim(s) == ""
  {
    var t := TrimStart(s);
    if Trim(s) == "" {
      assert t[0..] == t;
      assert |t| == 0;
      assert s[..|s|] == s;
    }
  }

  function LowerChar(c: char): (r: char)
    ensures 'A' <= c <= 'Z' ==> 'a' <= r <= 'z'
    ensures !('A' <= c <= 'Z') ==> r == c
  {
    if 'A' <= c <= 'Z' then (c as int + 32) as char else c
  }

  /** The characters an ASCII lowercase letter comes from: itself and its capital. */
  lemma {:induction false} LowerCharIs(c: char, lower: char, upper: char)
    requires 'a' <= lower <= 'z' && upper as int == lower as int - 32
    ensures LowerChar(c) == lower <==> c == lower || c == upper
  {
  }

  /** ToLowerInvariant, restricted to the ASCII letters. */
  function ToLower(s: string): (r: string)
    ensures |r| == |s|
    ensures forall i :: 0 <= i < |s| ==> r[i] == LowerChar(s[i])
  {
    if s == [] then [] else [LowerChar(s[0])] + ToLower(s[1..])
  }

  /** Ordinal, case-insensitive equality (string.Equals with OrdinalIgnoreCase). */
  predicate EqualsIgnoreCase(a: string, b: string)
  {
    ToLower(a) == ToLower(b)
  }

  predicate StartsWith(s: string, prefix: string)
  {
    |prefix| <= |s| && s[..|prefix|] == prefix
  }

  predicate StartsWithIgnoreCase(s: string, prefix: string)
  {
    StartsWith(ToLower(s), ToLower(prefix))
  }

  /** string.Contains(sub) with ordinal comparison. */
  predicate Contains(s: string, sub: string)
  {
    exists i :: 0 <= i <= |s| - |sub| && StartsWith(s[i..], sub)
  }

  /** string.Contains(sub, StringComparison.OrdinalIgnoreCase). */
  predicate ContainsIgnoreCase(s: string, sub: string)
  {
    Contains(ToLower(s), ToLower(sub))
  }

  predicate EndsWith(s: string, suffix: string)
  {
    |suffix| <= |s| && s[|s| - |suffix|..] == suffix
  }

  /** string.Split(char): every piece, empty ones included. */
  function Split(s: string, sep: char): (r: seq<string>)
    ensures |r| >= 1
    ensures forall i :: 0 <= i < |r| ==> sep !in r[i]
  {
    if |s| == 0 then [""]
    else if s[0] == sep then [""] + Split(s[1..], sep)
    else
      var rest := Split(s[1..], sep);
      [[s[0]] + rest[0]] + rest[1..]
  }

  /** None of the characters of `x` is in `chars`. */
  predicate NoneOf(x: string, chars: seq<char>)
  {
    forall c :: c in x ==> c !in chars
  }

  /** string.Split(char[]): every piece between any of the separators, empty ones included. */
  function SplitAny(s: string, seps: seq<char>): (r: seq<string>)
    ensures |r| >= 1
    ensures forall i :: 0 <= i < |r| ==> NoneOf(r[i], seps)
  {
    if |s| == 0 then [""]
    else if s[0] in seps then [""] + SplitAny(s[1..], seps)
    else
      var rest := SplitAny(s[1..], seps);
      [[s[0]] + rest[0]] + rest[1..]
  }

  /** A string holding none of the separators is one piece. */
  lemma {:induction false} SplitAnyNone(s: string, seps: seq<char>)
    requires NoneOf(s, seps)
    ensures SplitAny(s, seps) == [s]
  {
    if |s| > 0 {
      assert s[0] in s;
      assert forall c :: c in s[1..] ==> c in s;
      SplitAnyNone(s[1..], seps);
      assert [s[0]] + s[1..] == s;
    }
  }

  /** Trimming keeps a run of the original characters. */
  lemma {:induction false} TrimChars(s: string)
    ensures forall c :: c in Trim(s) ==> c in s
  {
    var t := TrimStart(s);
    assert forall c :: c in t ==> c in s;
  }

  /** Trimming a non-blank string leaves a non-blank string. */
  lemma {:induction false} TrimNotBlank(s: string)
    requires !IsBlank(s)
    ensures !IsBlank(Trim(s)) && |Trim(s)| > 0
  {
    TrimBlank(s);
    assert Trim(s)[0] in Trim(s);
  }

  /** string.Join(char, parts). */
  function Join(parts: seq<string>, sep: char): string
    requires |parts| >= 1
  {
    if |parts| == 1 then parts[0] else parts[0] + [sep] + Join(parts[1..], sep)
  }

  /** Splitting loses nothing: joining the pieces gives back the input. */
  lemma {:induction false} SplitJoin(s: string, sep: char)
    ensures Join(Split(s, sep), sep) == s
  {
    if |s| == 0 {
    } else if s[0] == sep {
      SplitJoin(s[1..], sep);
    } else {
      var rest := Split(s[1..], sep);
      SplitJoin(s[1..], sep);
      if |rest| == 1 {
      } else {
        assert rest == [rest[0]] + rest[1..];
        assert ([[s[0]] + rest[0]] + rest[1..])[1..] == rest[1..];
      }
    }
  }

  /** string.Split(string) for a non-empty separator, matched left to right. */
  function SplitStr(s: string, sep: string): (r: seq<string>)
    requires |sep| > 0
    ensures |r| >= 1
    decreases |s|
  {
    if |s| < |sep| then [s]
    else if s[..|sep|] == sep then [""] + SplitStr(s[|sep|..], sep)
    else
      var rest := SplitStr(s[1..], sep);
      [[s[0]] + rest[0]] + rest[1..]
  }

  function JoinStr(parts: seq<string>, sep: string): string
    requires |parts| >= 1
  {
    if |parts| == 1 then parts[0] else parts[0] + sep + JoinStr(parts[1..], sep)
  }

  lemma {:induction false} SplitStrJoin(s: string, sep: string)
    requires |sep| > 0
    ensures JoinStr(SplitStr(s, sep), sep) == s
    decreases |s|
  {
    if |s| < |sep| {
    } else if s[..|sep|] == sep {
      SplitStrJoin(s[|sep|..], sep);
      assert s == sep + s[|sep|..];
    } else {
      var rest := SplitStr(s[1..], sep);
      SplitStrJoin(s[1..], sep);
      JoinStrConsFirst(s[0], rest, sep);
      assert s == [s[0]] + s[1..];
    }
  }

  /** Prefixing the first piece prefixes the joined text. */
  lemma {:induction false} JoinStrConsFirst(c: char, parts: seq<string>, sep: string)
    requires |parts| >= 1
    ensures JoinStr([[c] + parts[0]] + parts[1..], sep) == [c] + JoinStr(parts, sep)
  {
    var moved := [[c] + parts[0]] + parts[1..];
    if |parts| > 1 {
      assert moved[1..] == parts[1..];
    }
  }

  /** The prefix of `s` before the first `c`, or all of `s`. */
  function Before(s: string, c: char): (r: string)
    ensures StartsWith(s, r) && c !in r
    ensures |r| < |s| ==> s[|r|] == c
  {
    if |s| == 0 || s[0] == c then "" else [s[0]] + Before(s[1..], c)
  }

  /** Each part trimmed, in order. */
  function TrimAll(parts: seq<string>): (r: seq<string>)
    ensures |r| == |parts|
    ensures forall i :: 0 <= i < |parts| ==> r[i] == Trim(parts[i])
  {
    seq(|parts|, i requires 0 <= i < |parts| => Trim(parts[i]))
  }

  predicate NotBlank(x: string)
  {
    !IsBlank(x)
  }

  /** `x` is one of `parts` trimmed. */
  predicate TrimmedPartOf(x: string, parts: seq<string>)
  {
    exists p :: p in parts && Trim(p) == x
  }

  /** A kept part is non-empty with no white space at either end, and is one of the parts trimmed. */
  lemma {:induction false} KeptPartShape(parts: seq<string>, x: string)
    requires x in Filter(TrimAll(parts), NotBlank)
    ensures |x| > 0 && !IsWhiteSpace(x[0]) && !IsWhiteSpace(x[|x| - 1])
    ensures NotBlank(x) && TrimmedPartOf(x, parts)
  {
    var trimmed := TrimAll(parts);
    assert x in trimmed && NotBlank(x);
    var i :| 0 <= i < |trimmed| && trimmed[i] == x;
    assert x == Trim(parts[i]);
    assert parts[i] in parts;
    assert |x| > 0 by {
      if |x| == 0 {
        assert false;
      }
    }
  }

  /** Every non-blank trimming of a part is kept. */
  lemma {:induction false} PartKept(parts: seq<string>, x: string)
    requires NotBlank(x) && TrimmedPartOf(x, parts)
    ensures x in Filter(TrimAll(parts), NotBlank)
  {
    var trimmed := TrimAll(parts);
    var p :| p in parts && Trim(p) == x;
    var i :| 0 <= i < |parts| && parts[i] == p;
    assert trimmed[i] == x;
  }

  /** Trimmed, non-blank parts: exactly the non-blank trimmings, none with white space at either end. */
  lemma {:induction false} NonBlankTrimmedParts(parts: seq<string>)
    ensures forall x :: x in Filter(TrimAll(parts), NotBlank) ==>
              |x| > 0 && !IsWhiteSpace(x[0]) && !IsWhiteSpace(x[|x| - 1])
    ensures forall x :: x in Filter(TrimAll(parts), NotBlank) <==> NotBlank(x) && TrimmedPartOf(x, parts)
  {
    forall x | x in Filter(TrimAll(parts), NotBlank)
      ensures |x| > 0 && !IsWhiteSpace(x[0]) && !IsWhiteSpace(x[|x| - 1])
      ensures NotBlank(x) && TrimmedPartOf(x, parts)
    {
      KeptPartShape(parts, x);
    }
    forall x | NotBlank(x) && TrimmedPartOf(x, parts)
      ensures x in Filter(TrimAll(parts), NotBlank)
    {
      PartKept(parts, x);
    }
  }

  // ---------------------------------------------------------------------
  // Decimal numbers
  // ---------------------------------------------------------------------

  function DigitChar(d: int): char
    requires 0 <= d < 10
  {
    "0123456789"[d]
  }

  /** Invariant-culture decimal rendering of a natural number. */
  function NatToString(n: nat): (r: string)
    ensures |r| >= 1
    ensures forall i :: 0 <= i < |r| ==> '0' <= r[i] <= '9'
  {
    if n < 10 then [DigitChar(n)] else NatToString(n / 10) + [DigitChar(n % 10)]
  }

  /** Invariant-culture decimal rendering of an integer. */
  function IntToString(n: int): string
  {
    if n < 0 then "-" + NatToString(-n) else NatToString(n)
  }

  /** Custom format "0000": at least four digits, zero padded. */
  function PadNat4(n: nat): (r: string)
    ensures |r| >= 4
  {
    var d := NatToString(n);
    if |d| >= 4 then d else seq(4 - |d|, _ => '0') + d
  }

  predicate IsDigit(c: char) { '0' <= c <= '9' }

  function DigitsValue(s: string): (r: nat)
    requires forall i :: 0 <= i < |s| ==> IsDigit(s[i])
  {
    if |s| == 0 then 0
    else
      assert IsDigit(s[|s| - 1]);
      DigitsValue(s[..|s| - 1]) * 10 + (s[|s| - 1] as int - '0' as int)
  }

  /**
   * int.Parse restricted to plain decimal digits: a non-empty digit string
   * parses, anything else is a format error.
   */
  function ParseNat(s: string): (r: Option<nat>)
    ensures r.Some? <==> |s| > 0 && forall i :: 0 <= i < |s| ==> IsDigit(s[i])
  {
    if |s| > 0 && forall i :: 0 <= i < |s| ==> IsDigit(s[i]) then Some(DigitsValue(s)) else None
  }

  lemma {:induction false} DigitsOfNat(n: nat)
    ensures DigitsValue(NatToString(n)) == n
  {
    var d := NatToString(n);
    if n < 10 {
      assert DigitChar(n) as int - '0' as int == n;
      assert d[..0] == [];
    } else {
      DigitsOfNat(n / 10);
      assert d[..|d| - 1] == NatToString(n / 10);
      assert d[|d| - 1] as int - '0' as int == n % 10;
    }
  }

  /** Rendering a number and parsing it back gives the number. */
  lemma {:induction false} ParseNatRoundTrip(n: nat)
    ensures ParseNat(NatToString(n)) == Some(n)
  {
    DigitsOfNat(n);
  }

  // ---------------------------------------------------------------------
  // Sequences
  // ---------------------------------------------------------------------

  /** The first occurrence of each element, in order of first appearance. */
  function Distinct<T(==,!new)>(s: seq<T>): (r: seq<T>)
    ensures forall x :: x in r <==> x in s
    ensures forall i, j :: 0 <= i < j < |r| ==> r[i] != r[j]
  {
    DistinctFrom(s, [])
  }

  function DistinctFrom<T(==,!new)>(s: seq<T>, seen: seq<T>): (r: seq<T>)
    requires forall i, j :: 0 <= i < j < |seen| ==> seen[i] != seen[j]
    ensures forall x :: x in r <==> x in s || x in seen
    ensures forall i, j :: 0 <= i < j < |r| ==> r[i] != r[j]
    ensures |r| >= |seen| && r[..|seen|] == seen
    decreases |s|
  {
    if s == [] then seen
    else if s[0] in seen then DistinctFrom(s[1..], seen)
    else DistinctFrom(s[1..], seen + [s[0]])
  }

  /** The elements satisfying `p`, in order (LINQ Where; List.RemoveAll of the complement). */
  function Filter<T(==,!new)>(s: seq<T>, p: T -> bool): (r: seq<T>)
    ensures |r| <= |s|
    ensures forall x :: x in r <==> x in s && p(x)
  {
    if s == [] then []
    else Filter(s[..|s| - 1], p) + (if p(s[|s| - 1]) then [s[|s| - 1]] else [])
  }

  /** LINQ Except: the distinct elements of `s` that are not in `t`, in order of first appearance. */
  function Except<T(==,!new)>(s: seq<T>, t: seq<T>): (r: seq<T>)
    ensures forall x :: x in r <==> x in s && x !in t
    ensures forall i, j :: 0 <= i < j < |r| ==> r[i] != r[j]
  {
    Distinct(Filter(s, (x: T) => x !in t))
  }

  predicate SortedBy<T>(s: seq<T>, key: T -> int)
  {
    forall i, j :: 0 <= i < j < |s| ==> key(s[i]) <= key(s[j])
  }

  /** Inserts `x` after every element whose key is not greater than its own. */
  function InsertBy<T>(x: T, s: seq<T>, key: T -> int): (r: seq<T>)
    requires SortedBy(s, key)
    ensures SortedBy(r, key)
    ensures multiset(r) == multiset(s) + multiset{x}
  {
    if s == [] then [x]
    else if key(s[|s| - 1]) <= key(x) then
      SortedSnoc(s, x, key);
      s + [x]
    else
      var last := s[|s| - 1];
      var front := s[..|s| - 1];
      var r' := InsertBy(x, front, key);
      assert s == front + [last];
      BelowLast(x, s, r', key);
      SortedSnoc(r', last, key);
      r' + [last]
  }

  /** Inserting `x` below the last element of `s` into the rest keeps every key at most the last one's. */
  lemma {:induction false} BelowLast<T>(x: T, s: seq<T>, r: seq<T>, key: T -> int)
    requires SortedBy(s, key) && s != [] && key(x) < key(s[|s| - 1])
    requires multiset(r) == multiset(s[..|s| - 1]) + multiset{x}
    ensures forall i :: 0 <= i < |r| ==> key(r[i]) <= key(s[|s| - 1])
  {
    var front := s[..|s| - 1];
    forall i | 0 <= i < |r| ensures key(r[i]) <= key(s[|s| - 1]) {
      var e := r[i];
      assert e in multiset(r);
      if e in multiset(front) {
        var j :| 0 <= j < |front| && front[j] == e;
        assert s[j] == e;
      }
    }
  }

  lemma {:induction false} SortedSnoc<T>(s: seq<T>, x: T, key: T -> int)
    requires SortedBy(s, key)
    requires forall i :: 0 <= i < |s| ==> key(s[i]) <= key(x)
    ensures SortedBy(s + [x], key)
  {
  }

  /** LINQ OrderBy on an integer key: a sorted permutation, equal keys kept in their order. */
  function SortBy<T>(s: seq<T>, key: T -> int): (r: seq<T>)
    ensures SortedBy(r, key)
    ensures multiset(r) == multiset(s)
    ensures forall k :: WithKey(r, key, k) == WithKey(s, key, k)
  {
    if s == [] then []
    else
      var front := s[..|s| - 1];
      var x := s[|s| - 1];
      assert s == front + [x];
      var sorted := SortBy(front, key);
      InsertByWithKey(x, sorted, key);
      InsertBy(x, sorted, key)
  }

  /** The elements of `s` whose key is `k`, in their order in `s`. */
  function WithKey<T>(s: seq<T>, key: T -> int, k: int): seq<T>
  {
    if s == [] then []
    else WithKey(s[..|s| - 1], key, k) + (if key(s[|s| - 1]) == k then [s[|s| - 1]] else [])
  }

  /** Inserting `x` puts it after every element with its key, whatever the key looked at. */
  lemma {:induction false} InsertByWithKey<T>(x: T, s: seq<T>, key: T -> int)
    requires SortedBy(s, key)
    ensures forall k :: WithKey(InsertBy(x, s, key), key, k)
                        == WithKey(s, key, k) + (if key(x) == k then [x] else [])
    decreases |s|
  {
    if s == [] {
      forall k ensures WithKey([x], key, k) == (if key(x) == k then [x] else []) {
        WithKeySnoc([], x, key, k);
      }
    } else if key(s[|s| - 1]) <= key(x) {
      forall k ensures WithKey(s + [x], key, k) == WithKey(s, key, k) + (if key(x) == k then [x] else []) {
        WithKeySnoc(s, x, key, k);
      }
    } else {
      var last := s[|s| - 1];
      var front := s[..|s| - 1];
      assert s == front + [last];
      var r' := InsertBy(x, front, key);
      InsertByWithKey(x, front, key);
      assert InsertBy(x, s, key) == r' + [last];
      forall k ensures WithKey(r' + [last], key, k) == WithKey(s, key, k) + (if key(x) == k then [x] else []) {
        WithKeyBelowLast(x, front, last, r', key, k);
      }
    }
  }

  /** Putting `last` back after the insertion: `x`, with a smaller key, cannot share its key. */
  lemma {:induction false} WithKeyBelowLast<T>(x: T, front: seq<T>, last: T, r: seq<T>, key: T -> int, k: int)
    requires key(x) < key(last)
    requires WithKey(r, key, k) == WithKey(front, key, k) + (if key(x) == k then [x] else [])
    ensures WithKey(r + [last], key, k) == WithKey(front + [last], key, k) + (if key(x) == k then [x] else [])
  {
    WithKeySnoc(r, last, key, k);
    WithKeySnoc(front, last, key, k);
  }

  lemma {:induction false} WithKeySnoc<T>(s: seq<T>, y: T, key: T -> int, k: int)
    ensures WithKey(s + [y], key, k) == WithKey(s, key, k) + (if key(y) == k then [y] else [])
  {
    assert (s + [y])[..|s|] == s;
  }

  /** Filtering a run extended by one element. */
  lemma {:induction false} FilterSnoc<T(!new)>(s: seq<T>, k: nat, p: T -> bool)
    requires k < |s|
    ensures Filter(s[..k + 1], p) == Filter(s[..k], p) + (if p(s[k]) then [s[k]] else [])
  {
    assert s[..k + 1][..k] == s[..k];
  }
}
