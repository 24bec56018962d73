/** Bag directory names: the epoch base name, and the suffix that makes it new. */
module BagDirectory {

  // ---------- Decimal numerals ----------

  function Digit(d: nat): char
    requires d < 10
  {
    '0' + d as char
  }

  /** std::to_string of a number that is not negative. */
  function Decimal(n: nat): string {
    if n < 10 then [Digit(n)] else Decimal(n / 10) + [Digit(n % 10)]
  }

  function Value(s: string): nat
    decreases |s|
  {
    if s == [] then 0
    else
      var last := s[|s| - 1];
      Value(s[..|s| - 1]) * 10 + (if '0' <= last <= '9' then (last - '0') as nat else 0)
  }

  lemma {:induction false} ValueOfDecimal(n: nat)
    ensures Value(Decimal(n)) == n
  {
    var s := Decimal(n);
    if n < 10 {
      assert s[..0] == [] && Value([]) == 0;
    } else {
      assert s[..|s| - 1] == Decimal(n / 10);
      ValueOfDecimal(n / 10);
    }
  }

  /** A numeral is digits, without leading zeros, and stands for its number. */
  lemma {:induction false} DecimalShape(n: nat)
    ensures |Decimal(n)| >= 1 && Value(Decimal(n)) == n
    ensures forall i :: 0 <= i < |Decimal(n)| ==> '0' <= Decimal(n)[i] <= '9'
    ensures Decimal(n)[0] == '0' <==> n == 0
  {
    ValueOfDecimal(n);
    if n >= 10 {
      DecimalShape(n / 10);
      assert Decimal(n)[0] == Decimal(n / 10)[0];
    }
  }

  /** The first names tried after the base: its suffix is a dash and 1, then a dash and 2. */
  lemma FirstSuffixes(base: string)
    ensures Candidate(base, 0) == base && Candidate(base, 1) == base + "-1" && Candidate(base, 2) == base + "-2"
  {
    assert Decimal(1) == "1" && Decimal(2) == "2";
  }

  // ---------- The first free name ----------

  /** The names tried, in order: the base itself, then base-1, base-2 and so on. */
  function Candidate(base: string, n: nat): string {
    if n == 0 then base else base + "-" + Decimal(n)
  }

  lemma CandidatesDiffer(base: string, n: nat, m: nat)
    requires Candidate(base, n) == Candidate(base, m)
    ensures n == m
  {
    if n != 0 && m != 0 {
      assert Candidate(base, n)[|base| + 1..] == Decimal(n);
      assert Candidate(base, m)[|base| + 1..] == Decimal(m);
      ValueOfDecimal(n);
      ValueOfDecimal(m);
    }
  }

  lemma SubsetIsSmaller(a: set<string>, b: set<string>)
    requires a <= b
    ensures |a| <= |b|
  {
    assert b == a + (b - a);
  }

  /** The least candidate not taken; the search ends because the candidates are distinct. */
  method CreateBagDir(base: string, existing: set<string>) returns (dir: string, ghost n: nat)
    ensures dir == (if n == 0 then base else base + "-" + Decimal(n)) && dir !in existing
    ensures n > 0 ==> base in existing
    ensures forall m: nat :: 0 < m < n ==> base + "-" + Decimal(m) in existing
    ensures n <= |existing|
  {
    dir, n := base, 0;
    var next := 1;
    ghost var taken: set<string> := {};
    while dir in existing
      invariant next == n + 1 && dir == Candidate(base, n)
      invariant forall m: nat :: m < n ==> Candidate(base, m) in taken
      invariant forall name :: name in taken ==> exists m: nat :: m < n && name == Candidate(base, m)
      invariant taken <= existing && |taken| == n <= |existing|
      decreases |existing| - n
    {
      if dir in taken {
        var m: nat :| m < n && dir == Candidate(base, m);
        CandidatesDiffer(base, n, m);
      }
      taken := taken + {dir};
      SubsetIsSmaller(taken, existing);
      dir := base + "-" + Decimal(next);
      n, next := n + 1, next + 1;
    }
    assert n > 0 ==> Candidate(base, 0) in existing;
    forall m: nat | 0 < m < n ensures base + "-" + Decimal(m) in existing {
      assert Candidate(base, m) in existing;
    }
  }

  // ---------- The epoch base name ----------

  const NANOS: nat := 1_000_000_000

  /** setw and setfill: zeros on the left up to the width, nothing cut off. */
  function Pad(s: string, width: nat): string
    decreases width - |s|
  {
    if |s| >= width then s else Pad(['0'] + s, width)
  }

  /** The name for a clock reading in nanoseconds since the epoch. */
  function EpochBase(t: nat): string {
    Pad(Decimal(t / NANOS), 10) + "_" + Pad(Decimal(t % NANOS), 9)
  }

  function Pow10(k: nat): (p: nat)
    ensures p >= 1
  {
    if k == 0 then 1 else 10 * Pow10(k - 1)
  }

  /** The last `width` digits of a number. */
  function Fixed(n: nat, width: nat): string {
    if width == 0 then [] else Fixed(n / 10, width - 1) + [Digit(n % 10)]
  }

  lemma {:induction false} FixedOfZero(width: nat)
    ensures Fixed(0, width) == seq(width, _ => '0')
  {
    if width > 0 {
      FixedOfZero(width - 1);
    }
  }

  lemma {:induction false} PadZeros(s: string, width: nat)
    requires |s| <= width
    ensures Pad(s, width) == seq(width - |s|, _ => '0') + s
    decreases width - |s|
  {
    if |s| < width {
      PadZeros(['0'] + s, width);
    } else {
      assert Pad(s, width) == s;
    }
  }

  lemma {:induction false} DecimalIsFixed(n: nat, width: nat)
    requires width >= 1 && n < Pow10(width)
    ensures |Decimal(n)| <= width
    ensures seq(width - |Decimal(n)|, _ => '0') + Decimal(n) == Fixed(n, width)
  {
    if n < 10 {
      FixedOfZero(width - 1);
    } else {
      assert Pow10(1) == 10 * Pow10(0);
      DecimalIsFixed(n / 10, width - 1);
      var zeros := seq(width - |Decimal(n)|, _ => '0');
      assert zeros + Decimal(n) == (zeros + Decimal(n / 10)) + [Digit(n % 10)];
    }
  }

  lemma PadIsFixed(n: nat, width: nat)
    requires width >= 1 && n < Pow10(width)
    ensures Pad(Decimal(n), width) == Fixed(n, width)
  {
    DecimalIsFixed(n, width);
    PadZeros(Decimal(n), width);
  }

  // ---------- Sorting names sorts times ----------

  /** Lexicographic order of strings. */
  predicate Less(s: string, t: string) {
    if t == [] then false
    else if s == [] then true
    else s[0] < t[0] || (s[0] == t[0] && Less(s[1..], t[1..]))
  }

  lemma {:induction false} LessIsStrict(s: string, t: string)
    requires Less(s, t)
    ensures !Less(t, s)
  {
    if s != [] && s[0] == t[0] {
      LessIsStrict(s[1..], t[1..]);
    }
  }

  lemma {:induction false} SamePrefix(p: string, s: string, t: string)
    requires Less(s, t)
    ensures Less(p + s, p + t)
  {
    if p == [] {
      assert p + s == s && p + t == t;
    } else {
      SamePrefix(p[1..], s, t);
      assert (p + s)[1..] == p[1..] + s && (p + t)[1..] == p[1..] + t;
    }
  }

  lemma {:induction false} FixedSorts(a: nat, b: nat, width: nat, s: string, t: string)
    requires a < b < Pow10(width)
    ensures Less(Fixed(a, width) + s, Fixed(b, width) + t)
  {
    if width > 0 {
      var s', t' := [Digit(a % 10)] + s, [Digit(b % 10)] + t;
      assert Fixed(a, width) + s == Fixed(a / 10, width - 1) + s';
      assert Fixed(b, width) + t == Fixed(b / 10, width - 1) + t';
      if a / 10 < b / 10 {
        FixedSorts(a / 10, b / 10, width - 1, s', t');
      } else {
        SamePrefix(Fixed(a / 10, width - 1), s', t');
      }
    }
  }

  lemma Powers()
    ensures Pow10(9) == NANOS && Pow10(10) == 10 * NANOS
  {
    assert Pow10(5) == 100_000 by {
      assert Pow10(2) == 100;
      assert Pow10(3) == 1_000;
      assert Pow10(4) == 10_000;
    }
    assert Pow10(6) == 1_000_000;
    assert Pow10(7) == 10_000_000;
    assert Pow10(8) == 100_000_000;
  }

  const END: nat := 10 * NANOS * NANOS

  lemma NameParts(t: nat)
    requires t < END
    ensures t / NANOS < Pow10(10) && t % NANOS < Pow10(9)
    ensures EpochBase(t) == Fixed(t / NANOS, 10) + ("_" + Fixed(t % NANOS, 9))
  {
    Powers();
    PadIsFixed(t / NANOS, 10);
    PadIsFixed(t % NANOS, 9);
  }

  lemma {:induction false} FixedShape(n: nat, width: nat)
    requires n < Pow10(width)
    ensures |Fixed(n, width)| == width && Value(Fixed(n, width)) == n
    ensures AllDigits(Fixed(n, width))
  {
    if width > 0 {
      FixedShape(n / 10, width - 1);
      assert Fixed(n, width)[..width - 1] == Fixed(n / 10, width - 1);
    }
  }

  predicate AllDigits(s: string) {
    forall i :: 0 <= i < |s| ==> '0' <= s[i] <= '9'
  }

  lemma Joined(secs: string, nanos: string)
    requires |secs| == 10 && |nanos| == 9 && AllDigits(secs) && AllDigits(nanos)
    ensures var name := secs + ("_" + nanos);
      && |name| == 20 && name[10] == '_' && name[..10] == secs && name[11..] == nanos
      && forall i :: 0 <= i < 20 && i != 10 ==> '0' <= name[i] <= '9'
  {
    var name := secs + ("_" + nanos);
    assert forall i :: 11 <= i < 20 ==> name[i] == nanos[i - 11];
  }

  /** A name below the limit is ten digits of seconds, an underscore and nine digits of nanoseconds. */
  lemma NameShape(t: nat)
    requires t < END
    ensures var name := EpochBase(t);
      && |name| == 20 && name[10] == '_'
      && (forall i :: 0 <= i < 20 && i != 10 ==> '0' <= name[i] <= '9')
      && Value(name[..10]) == t / 1_000_000_000 && Value(name[11..]) == t % 1_000_000_000
  {
    NameParts(t);
    FixedShape(t / NANOS, 10);
    FixedShape(t % NANOS, 9);
    Joined(Fixed(t / NANOS, 10), Fixed(t % NANOS, 9));
  }

  lemma PairSorts(a: nat, x: nat, b: nat, y: nat, v: nat, w: nat)
    requires a < b < Pow10(v) || (a == b && x < y < Pow10(w))
    ensures Less(Fixed(a, v) + ("_" + Fixed(x, w)), Fixed(b, v) + ("_" + Fixed(y, w)))
  {
    var s, t := "_" + Fixed(x, w), "_" + Fixed(y, w);
    if a < b {
      FixedSorts(a, b, v, s, t);
    } else {
      assert Fixed(x, w) + "" == Fixed(x, w) && Fixed(y, w) + "" == Fixed(y, w);
      FixedSorts(x, y, w, "", "");
      SamePrefix("_", Fixed(x, w), Fixed(y, w));
      SamePrefix(Fixed(a, v), s, t);
    }
  }

  lemma EarlierSortsFirst(t: nat, u: nat)
    requires t < u < END
    ensures Less(EpochBase(t), EpochBase(u))
  {
    NameParts(t);
    NameParts(u);
    PairSorts(t / NANOS, t % NANOS, u / NANOS, u % NANOS, 10, 9);
  }

  /** Below 10^10 seconds names sort exactly as the times do, so no two times share a name. */
  lemma NamesSortAsTimes(t: nat, u: nat)
    requires t < END && u < END
    ensures Less(EpochBase(t), EpochBase(u)) <==> t < u
    ensures EpochBase(t) == EpochBase(u) ==> t == u
  {
    if t < u {
      EarlierSortsFirst(t, u);
      LessIsStrict(EpochBase(t), EpochBase(u));
    } else if u < t {
      EarlierSortsFirst(u, t);
      LessIsStrict(EpochBase(u), EpochBase(t));
    } else if Less(EpochBase(t), EpochBase(u)) {
      LessIsStrict(EpochBase(t), EpochBase(u));
    }
  }

  // ---------- And no further ----------

  lemma {:induction false} FirstDigits(k: nat)
    ensures |Decimal(Pow10(k))| == k + 1 && Decimal(Pow10(k))[0] == '1'
    ensures k >= 1 ==> |Decimal(Pow10(k) - 1)| == k && Decimal(Pow10(k) - 1)[0] == '9'
  {
    if k > 0 {
      FirstDigits(k - 1);
      assert Pow10(k) == 10 * Pow10(k - 1);
      assert Pow10(k) / 10 == Pow10(k - 1);
      assert k > 1 ==> Pow10(k - 1) == 10 * Pow10(k - 2);
      assert (Pow10(k) - 1) / 10 == Pow10(k - 1) - 1;
      assert k == 1 ==> Pow10(0) == 1 && Decimal(9) == "9";
    }
  }

  lemma LastNameSortsLate()
    ensures Less(EpochBase(END), EpochBase(END - 1))
  {
    Powers();
    FirstDigits(10);
    assert END / NANOS == Pow10(10) && (END - 1) / NANOS == Pow10(10) - 1;
    assert EpochBase(END)[0] == '1' && EpochBase(END - 1)[0] == '9';
  }

  /** Names of all clock readings below a limit sort by time exactly when the limit is at most 10^10 seconds. */
  lemma SortedUpToEnd(limit: nat)
    ensures (forall t: nat, u: nat :: t < u < limit ==> Less(EpochBase(t), EpochBase(u))) <==> limit <= END
  {
    if limit <= END {
      forall t: nat, u: nat | t < u < limit ensures Less(EpochBase(t), EpochBase(u)) {
        EarlierSortsFirst(t, u);
      }
    } else {
      LastNameSortsLate();
      LessIsStrict(EpochBase(END), EpochBase(END - 1));
    }
  }
}
