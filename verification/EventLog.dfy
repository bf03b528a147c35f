/** Append-only event directories: one numbered file per event, read back by sorting the file names. */
module EventLog {
  import opened Wrappers
  import opened Ordering

  function Digit(n: nat): char
    requires n < 10
  {
    "0123456789"[n]
  }

  function Decimal(n: nat): string {
    if n < 10 then [Digit(n)] else Decimal(n / 10) + [Digit(n % 10)]
  }

  function FourDigits(n: nat): (d: seq<nat>)
    requires n < 10000
    ensures |d| == 4 && d[0] < 10 && d[1] < 10 && d[2] < 10 && d[3] < 10
  {
    [n / 1000, n / 100 % 10, n / 10 % 10, n % 10]
  }

  // f"{n:04d}": at least four digits.
  function Pad4(n: nat): string {
    if n < 10000 then
      var d := FourDigits(n);
      [Digit(d[0]), Digit(d[1]), Digit(d[2]), Digit(d[3])]
    else Decimal(n)
  }

  function FileName<S>(seqNo: nat, status: S, suffix: S -> string): string {
    Pad4(seqNo) + suffix(status)
  }

  lemma DigitIncreases(a: nat, b: nat)
    requires a < b < 10
    ensures Digit(a) < Digit(b)
  {
  }

  lemma DigitsOfNumber(n: nat)
    ensures n < 10000 ==> n == 1000 * FourDigits(n)[0] + 100 * FourDigits(n)[1] + 10 * FourDigits(n)[2] + FourDigits(n)[3]
    ensures n == 1000 * (n / 1000) + 100 * (n / 100 % 10) + 10 * (n / 10 % 10) + n % 10
  {
    assert n / 10 == n / 100 * 10 + n / 10 % 10;
    assert n / 100 == n / 1000 * 10 + n / 100 % 10;
  }

  // Two four-digit names compare like their digits, the first difference deciding.
  lemma FirstDifference(p: string, q: string, k: nat, a: string, b: string)
    requires |p| == |q| == 4 && k < 4 && p[..k] == q[..k] && p[k] < q[k]
    ensures Less(p + a, q + b)
  {
    LessAppend(p[..k], p[k..] + a, q[k..] + b);
    assert p[..k] + (p[k..] + a) == p + a && q[..k] + (q[k..] + b) == q + b;
  }

  lemma PadIncreases(m: nat, n: nat, a: string, b: string)
    requires m < n < 10000
    ensures Less(Pad4(m) + a, Pad4(n) + b)
  {
    DigitsOfNumber(m);
    DigitsOfNumber(n);
    hide FourDigits, Less;
    var p, q := FourDigits(m), FourDigits(n);
    var k := if p[0] != q[0] then 0 else if p[1] != q[1] then 1 else if p[2] != q[2] then 2 else 3;
    DigitIncreases(p[k], q[k]);
    FirstDifference(Pad4(m), Pad4(n), k, a, b);
  }

  /** Four digits are exactly enough: the ten-thousandth name sorts before the one appended before it. */
  lemma TenThousandthSortsEarlier(a: string, b: string)
    ensures Less(Pad4(10000) + a, Pad4(9999) + b)
  {
    assert Decimal(10) == "1" + "0";
    assert Decimal(100) == Decimal(10) + "0";
    assert Decimal(1000) == Decimal(100) + "0";
    assert Decimal(10000) == Decimal(1000) + "0";
    assert (Pad4(10000) + a)[0] == '1' && (Pad4(9999) + b)[0] == '9';
  }

  // ---------------------------------------------------------------- logs as paths of a phase table

  ghost predicate Acyclic<S(!new)>(legal: (S, S) -> bool, rank: S -> nat, top: nat) {
    && (forall s, t :: legal(s, t) ==> rank(s) < rank(t))
    && (forall s :: rank(s) <= top)
  }

  // The append guard: the first event is fixed, every later one follows the table.
  predicate MayAppend<S(==)>(log: seq<S>, status: S, first: S, legal: (S, S) -> bool) {
    if log == [] then status == first else legal(log[|log| - 1], status)
  }

  ghost predicate IsPathOf<S(!new)>(log: seq<S>, first: S, legal: (S, S) -> bool) {
    log == [] ||
    var n := |log| - 1;
    IsPathOf(log[..n], first, legal) && MayAppend(log[..n], log[n], first, legal)
  }

  /** A path of an acyclic table is no longer than the table is high. */
  lemma {:induction false} PathIsShort<S(!new)>(log: seq<S>, first: S, legal: (S, S) -> bool, rank: S -> nat, top: nat)
    requires IsPathOf(log, first, legal) && Acyclic(legal, rank, top)
    ensures log != [] ==> |log| <= rank(log[|log| - 1]) + 1
    ensures |log| <= top + 1
  {
    if log != [] {
      PathIsShort(log[..|log| - 1], first, legal, rank, top);
    }
  }

  // ---------------------------------------------------------------- the directory a log is stored in

  ghost function FilesOf<S>(log: seq<S>, suffix: S -> string): map<string, S> {
    if log == [] then map[]
    else
      var n := |log| - 1;
      FilesOf(log[..n], suffix)[FileName(|log|, log[n], suffix) := log[n]]
  }

  // Each stored name sorts below any name with a later number.
  lemma {:induction false} NamesBelow<S>(log: seq<S>, suffix: S -> string, name: string, later: nat, b: string)
    requires name in FilesOf(log, suffix) && |log| < later < 10000
    ensures Less(name, Pad4(later) + b)
  {
    var n := |log| - 1;
    if name == FileName(|log|, log[n], suffix) {
      PadIncreases(|log|, later, suffix(log[n]), b);
    } else {
      NamesBelow(log[..n], suffix, name, later, b);
    }
  }

  lemma {:induction false} FileCount<S>(log: seq<S>, suffix: S -> string)
    requires |log| < 10000
    ensures |FilesOf(log, suffix)| == |log|
  {
    if log != [] {
      var n := |log| - 1;
      FileCount(log[..n], suffix);
      NextNameIsFree(log[..n], log[n], suffix);
    }
  }

  lemma NextNameIsFree<S>(log: seq<S>, status: S, suffix: S -> string)
    requires |log| + 1 < 10000
    ensures FileName(|log| + 1, status, suffix) !in FilesOf(log, suffix)
  {
    var name := FileName(|log| + 1, status, suffix);
    if name in FilesOf(log, suffix) {
      NamesBelow(log, suffix, name, |log| + 1, suffix(status));
      LessIrreflexive(name);
    }
  }

  /** The name that sorts last is the one appended last. */
  lemma LastNameIsNewest<S>(log: seq<S>, suffix: S -> string, name: string)
    requires log != [] && |log| < 10000 && name in FilesOf(log, suffix)
    requires forall other :: other in FilesOf(log, suffix) ==> other == name || Less(other, name)
    ensures FilesOf(log, suffix)[name] == log[|log| - 1]
  {
    var n := |log| - 1;
    var newest := FileName(|log|, log[n], suffix);
    assert newest in FilesOf(log, suffix);
    if name != newest {
      NamesBelow(log[..n], suffix, name, |log|, suffix(log[n]));
      LessTransitive(name, newest, name);
      LessIrreflexive(name);
    }
  }

  lemma OneMore<S(!new)>(log: seq<S>, status: S, first: S, legal: (S, S) -> bool, suffix: S -> string)
    ensures IsPathOf(log + [status], first, legal) <==> IsPathOf(log, first, legal) && MayAppend(log, status, first, legal)
    ensures FilesOf(log + [status], suffix) == FilesOf(log, suffix)[FileName(|log| + 1, status, suffix) := status]
  {
    hide FileName;
    assert (log + [status])[..|log|] == log;
  }

  /** One journal's `events` directory. */
  class EventDirectory<S(==, !new)> {
    const first: S
    const legal: (S, S) -> bool
    const suffix: S -> string
    ghost const rank: S -> nat
    ghost const top: nat
    var files: map<string, S>
    ghost var log: seq<S>

    ghost predicate Valid()
      reads this
    {
      && Acyclic(legal, rank, top) && top < 9998
      && IsPathOf(log, first, legal)
      && files == FilesOf(log, suffix)
    }

    constructor (first: S, legal: (S, S) -> bool, suffix: S -> string, ghost rank: S -> nat, ghost top: nat)
      requires Acyclic(legal, rank, top) && top < 9998
      ensures Valid() && log == []
      ensures this.first == first && this.legal == legal && this.suffix == suffix
    {
      this.first, this.legal, this.suffix, this.rank, this.top := first, legal, suffix, rank, top;
      files, log := map[], [];
    }

    // sorted(events.glob("*.json"))[-1]
    method LastName() returns (last: string)
      requires files != map[]
      ensures last in files && forall name :: name in files ==> name == last || Less(name, last)
    {
      last :| last in files;
      var todo := files.Keys - {last};
      while todo != {}
        invariant todo <= files.Keys && last in files
        invariant forall name :: name in files.Keys - todo ==> name == last || Less(name, last)
      {
        var name :| name in todo;
        LessTotal(last, name);
        if Less(last, name) {
          forall other | other in files.Keys - todo ensures Less(other, name) {
            if other != last { LessTransitive(other, last, name); }
          }
          last := name;
        }
        todo := todo - {name};
      }
    }

    /** The status read from the sorted listing is always the one appended last. */
    method Latest() returns (status: Option<S>)
      requires Valid()
      ensures status == if log == [] then None else Some(log[|log| - 1])
    {
      PathIsShort(log, first, legal, rank, top);
      FileCount(log, suffix);
      if files == map[] {
        return None;
      }
      var last := LastName();
      LastNameIsNewest(log, suffix, last);
      return Some(files[last]);
    }

    /** Appends exactly when the table allows it, never collides, and otherwise changes nothing. */
    method Append(status: S) returns (ok: bool)
      requires Valid()
      modifies this
      ensures Valid() && ok == MayAppend(old(log), status, first, legal)
      ensures log == if ok then old(log) + [status] else old(log)
      ensures !ok ==> files == old(files)
    {
      hide FileName, FilesOf, IsPathOf, Acyclic;
      PathIsShort(log, first, legal, rank, top);
      FileCount(log, suffix);
      var latest := Latest();
      if latest.Some? {
        if !legal(latest.value, status) { return false; }
      } else if status != first {
        return false;
      }
      var name := FileName(|files| + 1, status, suffix);
      NextNameIsFree(log, status, suffix);
      if name in files {
        return false;
      }
      OneMore(log, status, first, legal, suffix);
      files := files[name := status];
      log := log + [status];
      return true;
    }
  }

  // ---------------------------------------------------------------- reading the directory back

  // The statuses in the order of the sorted listing.
  function Listing<S>(files: map<string, S>): (statuses: seq<S>)
    ensures |statuses| == 0 <==> files == map[]
  {
    var names := SortedOf(files.Keys);
    assert forall i :: 0 <= i < |names| ==> names[i] in Elements(names);
    assert files != map[] ==> exists name :: name in files.Keys && name in Elements(names);
    seq(|names|, i requires 0 <= i < |names| => files[names[i]])
  }

  function LatestOf<S>(files: map<string, S>): Option<S> {
    var statuses := Listing(files);
    if statuses == [] then None else Some(statuses[|statuses| - 1])
  }

  lemma ListingIs<S>(files: map<string, S>, names: seq<string>, statuses: seq<S>)
    requires SortedUnique(names) && Elements(names) == files.Keys && |names| == |statuses|
    requires forall i :: 0 <= i < |names| ==> names[i] in files && files[names[i]] == statuses[i]
    ensures Listing(files) == statuses
  {
    SortedIsUnique(SortedOf(files.Keys), names);
  }

  function NamesOf<S>(log: seq<S>, suffix: S -> string): (names: seq<string>)
    ensures |names| == |log| && forall i :: 0 <= i < |log| ==> names[i] == FileName(i + 1, log[i], suffix)
  {
    seq(|log|, i requires 0 <= i < |log| => FileName(i + 1, log[i], suffix))
  }

  lemma {:induction false} FilesAreNamed<S>(log: seq<S>, suffix: S -> string)
    requires |log| < 10000
    ensures Elements(NamesOf(log, suffix)) == FilesOf(log, suffix).Keys && SortedUnique(NamesOf(log, suffix))
    ensures forall i :: 0 <= i < |log| ==> FileName(i + 1, log[i], suffix) in FilesOf(log, suffix)
    ensures forall i :: 0 <= i < |log| ==> FilesOf(log, suffix)[FileName(i + 1, log[i], suffix)] == log[i]
  {
    hide FileName;
    if log != [] {
      var n := |log| - 1;
      var names := NamesOf(log, suffix);
      FilesAreNamed(log[..n], suffix);
      NextNameIsFree(log[..n], log[n], suffix);
      assert names == NamesOf(log[..n], suffix) + [FileName(n + 1, log[n], suffix)];
      NamesIncrease(log, suffix);
    }
  }

  lemma NamesIncrease<S>(log: seq<S>, suffix: S -> string)
    requires |log| < 10000
    ensures SortedUnique(NamesOf(log, suffix))
  {
    forall i, k | 0 <= i < k < |log| ensures Less(NamesOf(log, suffix)[i], NamesOf(log, suffix)[k]) {
      PadIncreases(i + 1, k + 1, suffix(log[i]), suffix(log[k]));
    }
  }

  /** What was appended is what is read back, in order. */
  lemma ListingOfLog<S>(log: seq<S>, suffix: S -> string)
    requires |log| < 10000
    ensures Listing(FilesOf(log, suffix)) == log
  {
    FilesAreNamed(log, suffix);
    ListingIs(FilesOf(log, suffix), NamesOf(log, suffix), log);
  }

  // ---------------------------------------------------------------- appending on a stale reading

  // Two statuses under one number, in the order of their names.
  function InOrder<S>(a: S, b: S, suffix: S -> string): seq<S> {
    if Less(suffix(a), suffix(b)) then [a, b] else [b, a]
  }

  lemma SameNumberOrder<S>(number: nat, a: S, b: S, suffix: S -> string)
    ensures Less(FileName(number, a, suffix), FileName(number, b, suffix)) <==> Less(suffix(a), suffix(b))
  {
    LessAppend(Pad4(number), suffix(a), suffix(b));
  }

  lemma SameNumberNames<S>(number: nat, a: S, b: S, suffix: S -> string)
    ensures FileName(number, a, suffix) == FileName(number, b, suffix) <==> suffix(a) == suffix(b)
  {
    var pad := Pad4(number);
    assert (pad + suffix(a))[|pad|..] == suffix(a) && (pad + suffix(b))[|pad|..] == suffix(b);
  }

  // The names of the log with one more under a number that is taken.
  function StaleNames<S>(log: seq<S>, n: nat, b: S, suffix: S -> string): (names: seq<string>)
    requires n < |log|
    ensures |names| == |log| + 1
  {
    var names, name := NamesOf(log, suffix), FileName(n + 1, b, suffix);
    names[..n] + (if Less(suffix(log[n]), suffix(b)) then [names[n], name] else [name, names[n]]) + names[n + 1..]
  }

  lemma SortedJoin(a: seq<string>, b: seq<string>)
    requires SortedUnique(a) && SortedUnique(b)
    requires forall i, k :: 0 <= i < |a| && 0 <= k < |b| ==> Less(a[i], b[k])
    ensures SortedUnique(a + b)
  {
    hide Less;
  }

  lemma StaleNameFits<S>(log: seq<S>, n: nat, b: S, suffix: S -> string)
    requires n < |log| < 9999
    ensures var names, name := NamesOf(log, suffix), FileName(n + 1, b, suffix);
            && (forall i :: 0 <= i < n ==> Less(names[i], name))
            && (forall i :: n < i < |log| ==> Less(name, names[i]))
  {
    hide FileName, Less, Pad4;
    forall i | 0 <= i < n ensures Less(NamesOf(log, suffix)[i], FileName(n + 1, b, suffix)) {
      NumbersOrder(i + 1, n + 1, log[i], b, suffix);
    }
    forall i | n < i < |log| ensures Less(FileName(n + 1, b, suffix), NamesOf(log, suffix)[i]) {
      NumbersOrder(n + 1, i + 1, b, log[i], suffix);
    }
  }

  lemma NumbersOrder<S>(m: nat, n: nat, a: S, b: S, suffix: S -> string)
    requires m < n < 10000
    ensures Less(FileName(m, a, suffix), FileName(n, b, suffix))
  {
    PadIncreases(m, n, suffix(a), suffix(b));
    hide Pad4, Less;
  }

  lemma StaleNamesSorted<S>(log: seq<S>, n: nat, b: S, suffix: S -> string)
    requires n < |log| < 9999 && suffix(log[n]) != suffix(b)
    ensures SortedUnique(StaleNames(log, n, b, suffix))
  {
    hide FileName, Less;
    var names, name := NamesOf(log, suffix), FileName(n + 1, b, suffix);
    NamesIncrease(log, suffix);
    StaleNameFits(log, n, b, suffix);
    SameNumberOrder(n + 1, log[n], b, suffix);
    SameNumberOrder(n + 1, b, log[n], suffix);
    LessTotal(suffix(log[n]), suffix(b));
    var pair := if Less(suffix(log[n]), suffix(b)) then [names[n], name] else [name, names[n]];
    SortedJoin(pair, names[n + 1..]);
    SortedJoin(names[..n], pair + names[n + 1..]);
    assert names[..n] + (pair + names[n + 1..]) == StaleNames(log, n, b, suffix);
  }

  lemma StaleNameIsNew<S>(log: seq<S>, n: nat, b: S, suffix: S -> string)
    requires n < |log| < 9999 && suffix(log[n]) != suffix(b)
    ensures FileName(n + 1, b, suffix) !in NamesOf(log, suffix)
    ensures Elements(StaleNames(log, n, b, suffix)) == Elements(NamesOf(log, suffix)) + {FileName(n + 1, b, suffix)}
  {
    hide FileName, Less;
    var names, name := NamesOf(log, suffix), FileName(n + 1, b, suffix);
    StaleNameFits(log, n, b, suffix);
    SameNumberNames(n + 1, log[n], b, suffix);
    LessIrreflexive(name);
    assert names == names[..n] + [names[n]] + names[n + 1..];
  }

  // What the listing shows once a second file has a taken number.
  function WithStale<S>(log: seq<S>, n: nat, b: S, suffix: S -> string): (statuses: seq<S>)
    requires n < |log|
    ensures |statuses| == |log| + 1
  {
    log[..n] + InOrder(log[n], b, suffix) + log[n + 1..]
  }

  lemma StaleNameAt<S>(log: seq<S>, n: nat, b: S, suffix: S -> string, i: nat)
    requires n < |log| && i < |log| + 1
    ensures var name, names, status := StaleNames(log, n, b, suffix)[i], NamesOf(log, suffix), WithStale(log, n, b, suffix)[i];
            || (name == FileName(n + 1, b, suffix) && status == b)
            || (exists k :: 0 <= k < |log| && name == names[k] && status == log[k])
  {
    hide FileName, Less;
    var k := if i < n then i else if i == n || i == n + 1 then n else i - 1;
    assert 0 <= k < |log|;
    if i < n || i > n + 1 {
      assert StaleNames(log, n, b, suffix)[i] == NamesOf(log, suffix)[k] && WithStale(log, n, b, suffix)[i] == log[k];
    }
  }

  /** An event written under a number that is taken by now lands beside the event that took it, before everything
      appended since: the reading was stale, and the listing shows it there. */
  lemma StaleAppendListing<S>(log: seq<S>, n: nat, b: S, suffix: S -> string)
    requires n < |log| < 9999 && suffix(log[n]) != suffix(b)
    ensures Listing(FilesOf(log, suffix)[FileName(n + 1, b, suffix) := b]) == WithStale(log, n, b, suffix)
  {
    hide FileName, Less, FilesOf, Listing, StaleNames, WithStale, SortedUnique;
    var name, names := FileName(n + 1, b, suffix), StaleNames(log, n, b, suffix);
    var files := FilesOf(log, suffix)[name := b];
    FilesAreNamed(log, suffix);
    StaleNamesSorted(log, n, b, suffix);
    StaleNameIsNew(log, n, b, suffix);
    forall i | 0 <= i < |log| + 1 ensures names[i] in files && files[names[i]] == WithStale(log, n, b, suffix)[i] {
      StaleNameAt(log, n, b, suffix, i);
    }
    ListingIs(files, names, WithStale(log, n, b, suffix));
  }

  lemma {:induction false} PathSteps<S(!new)>(log: seq<S>, first: S, legal: (S, S) -> bool, i: nat)
    requires IsPathOf(log, first, legal) && i + 1 < |log|
    ensures legal(log[i], log[i + 1])
  {
    var n := |log| - 1;
    if i + 1 < n { PathSteps(log[..n], first, legal, i); }
  }

  /** Two writers that read the same listing write under the same number. What is then read back is a path of the
      table exactly when they wrote the same status, into one file, or when the status whose name sorts second may
      follow the other. Which of them wrote second makes no difference. */
  lemma OverlappingAppends<S(!new)>(log: seq<S>, a: S, b: S, first: S, legal: (S, S) -> bool, suffix: S -> string)
    requires IsPathOf(log, first, legal) && |log| < 9998
    requires MayAppend(log, a, first, legal) && MayAppend(log, b, first, legal)
    requires suffix(a) == suffix(b) ==> a == b
    ensures var number := |log| + 1;
            var files := FilesOf(log, suffix)[FileName(number, a, suffix) := a][FileName(number, b, suffix) := b];
            && files == FilesOf(log, suffix)[FileName(number, b, suffix) := b][FileName(number, a, suffix) := a]
            && Listing(files) == (if a == b then log + [a] else log + InOrder(a, b, suffix))
            && (IsPathOf(Listing(files), first, legal) <==>
                  a == b || legal(InOrder(a, b, suffix)[0], InOrder(a, b, suffix)[1]))
  {
    hide FileName, Less, Listing;
    var longer := log + [a];
    OneMore(log, a, first, legal, suffix);
    SameNumberNames(|log| + 1, a, b, suffix);
    hide FilesOf;
    if a == b {
      var once := FilesOf(log, suffix)[FileName(|log| + 1, a, suffix) := a];
      assert once[FileName(|log| + 1, b, suffix) := b] == once;
      ListingOfLog(longer, suffix);
      assert longer[|longer| - 1] == a;
    } else {
      StaleAppendListing(longer, |log|, b, suffix);
      assert longer[|log| + 1..] == [];
      assert longer[..|log|] == log;
      var pair := InOrder(a, b, suffix);
      assert log + pair + [] == log + pair;
      PairIsPath(log, pair[0], pair[1], first, legal);
      assert log + [pair[0], pair[1]] == log + pair;
    }
  }

  lemma PairIsPath<S(!new)>(log: seq<S>, x: S, y: S, first: S, legal: (S, S) -> bool)
    requires IsPathOf(log, first, legal) && MayAppend(log, x, first, legal)
    ensures IsPathOf(log + [x, y], first, legal) <==> legal(x, y)
  {
    hide IsPathOf;
    OneMore(log, x, first, legal, _ => "");
    OneMore(log + [x], y, first, legal, _ => "");
    assert log + [x] + [y] == log + [x, y];
  }

  // ---------------------------------------------------------------- what a name tells

  predicate IsDigit(c: char) {
    '0' <= c <= '9'
  }

  lemma {:induction false} DecimalDigits(n: nat)
    ensures forall i :: 0 <= i < |Decimal(n)| ==> IsDigit(Decimal(n)[i])
    ensures n >= 10000 ==> |Decimal(n)| > 4
    ensures n >= 1000 ==> |Decimal(n)| > 3
    ensures n >= 100 ==> |Decimal(n)| > 2
    ensures n >= 10 ==> |Decimal(n)| > 1
    ensures |Decimal(n)| > 0
  {
    if n >= 10 { DecimalDigits(n / 10); }
  }

  lemma {:induction false} DecimalIsInjective(m: nat, n: nat)
    requires Decimal(m) == Decimal(n)
    ensures m == n
  {
    DecimalDigits(m / 10);
    DecimalDigits(n / 10);
    if m >= 10 && n >= 10 {
      SameLast(Decimal(m / 10), Decimal(n / 10), Digit(m % 10), Digit(n % 10));
      DecimalIsInjective(m / 10, n / 10);
    }
  }

  lemma SameLast(p: string, q: string, a: char, b: char)
    requires p + [a] == q + [b]
    ensures p == q && a == b
  {
    assert (p + [a])[..|p|] == p && (q + [b])[..|q|] == q;
    assert (p + [a])[|p|] == a && (q + [b])[|q|] == b;
  }

  lemma PadDigits(n: nat)
    ensures forall i :: 0 <= i < |Pad4(n)| ==> IsDigit(Pad4(n)[i])
    ensures if n < 10000 then |Pad4(n)| == 4 else |Pad4(n)| > 4
  {
    DecimalDigits(n);
  }

  lemma PadIsInjective(m: nat, n: nat)
    requires Pad4(m) == Pad4(n)
    ensures m == n
  {
    PadDigits(m);
    PadDigits(n);
    hide Less, FourDigits;
    if m < 10000 && n < 10000 {
      LessIrreflexive(Pad4(m) + []);
      if m < n { PadIncreases(m, n, [], []); }
      if n < m { PadIncreases(n, m, [], []); }
    } else {
      DecimalIsInjective(m, n);
    }
  }

  lemma ShorterNumber(p: string, q: string, a: string, b: string)
    requires |p| < |q| && a != [] && !IsDigit(a[0]) && forall i :: 0 <= i < |q| ==> IsDigit(q[i])
    ensures p + a != q + b
  {
    assert (p + a)[|p|] == a[0] && (q + b)[|p|] == q[|p|];
  }

  // The number ends where the suffix begins, so a name gives back both.
  lemma NameDetermines<S>(m: nat, n: nat, a: S, b: S, suffix: S -> string)
    requires FileName(m, a, suffix) == FileName(n, b, suffix)
    requires suffix(a) != [] && suffix(b) != [] && !IsDigit(suffix(a)[0]) && !IsDigit(suffix(b)[0])
    ensures m == n && suffix(a) == suffix(b)
  {
    PadDigits(m);
    PadDigits(n);
    var p, q := Pad4(m), Pad4(n);
    hide Pad4;
    if |p| < |q| { ShorterNumber(p, q, suffix(a), suffix(b)); }
    if |q| < |p| { ShorterNumber(q, p, suffix(b), suffix(a)); }
    assert (p + suffix(a))[..|p|] == p && (q + suffix(b))[..|q|] == q;
    assert (p + suffix(a))[|p|..] == suffix(a) && (q + suffix(b))[|q|..] == suffix(b);
    PadIsInjective(m, n);
  }

  // ---------------------------------------------------------------- two files under one number

  lemma {:induction false} SortedLength(names: seq<string>)
    requires SortedUnique(names)
    ensures |names| == |Elements(names)|
  {
    if names != [] {
      var n := |names| - 1;
      SortedLength(names[..n]);
      LessIrreflexive(names[n]);
      assert names == names[..n] + [names[n]];
      assert Elements(names) == Elements(names[..n]) + {names[n]};
      assert names[n] !in names[..n];
    }
  }

  lemma ListingLength<S>(files: map<string, S>)
    ensures |Listing(files)| == |files|
  {
    SortedLength(SortedOf(files.Keys));
  }

  // Every name is made of a number of four digits and the status that is in the file.
  ghost predicate Numbered<S>(files: map<string, S>, suffix: S -> string) {
    forall name :: name in files ==> exists m: nat :: m < 10000 && name == FileName(m, files[name], suffix)
  }

  // No status may follow one that shares its number and sorts before it.
  ghost predicate NoneFollows<S(!new)>(files: map<string, S>, suffix: S -> string, legal: (S, S) -> bool) {
    forall m: nat, x, y ::
      (FileName(m, x, suffix) in files && files[FileName(m, x, suffix)] == x
       && FileName(m, y, suffix) in files && files[FileName(m, y, suffix)] == y && Less(suffix(x), suffix(y)))
      ==> !legal(x, y)
  }

  lemma NextSharesNumber<S(!new)>(files: map<string, S>, suffix: S -> string, i: nat, j: nat, m: nat)
    requires Numbered(files, suffix)
    requires i < j < |SortedOf(files.Keys)| && m < 10000
    requires var names := SortedOf(files.Keys);
             && names[i] in files && names[j] in files && names[i + 1] in files
             && names[i] == FileName(m, files[names[i]], suffix) && names[j] == FileName(m, files[names[j]], suffix)
    ensures var name := SortedOf(files.Keys)[i + 1]; name == FileName(m, files[name], suffix)
  {
    hide FileName, Less;
    var names := SortedOf(files.Keys);
    var next := names[i + 1];
    var k: nat :| k < 10000 && next == FileName(k, files[next], suffix);
    assert Less(names[i], next) && (next == names[j] || Less(next, names[j]));
    if k < m {
      NumbersOrder(k, m, files[next], files[names[i]], suffix);
      LessTransitive(next, names[i], next);
      LessIrreflexive(next);
    } else if m < k {
      NumbersOrder(m, k, files[names[j]], files[next], suffix);
      LessIrreflexive(next);
      if next != names[j] { LessTransitive(next, names[j], next); }
    }
  }

  lemma PositionOf(names: seq<string>, name: string) returns (i: nat)
    requires name in Elements(names)
    ensures i < |names| && names[i] == name
  {
    i :| i < |names| && names[i] == name;
  }

  /** Two files that share a number break the log for good, if no status may follow a sibling that sorts before it:
      whatever was appended since, two neighbours in the listing still share the number. */
  lemma SharedNumberBreaks<S(!new)>(files: map<string, S>, suffix: S -> string, first: S, legal: (S, S) -> bool, a: string, b: string, m: nat)
    requires Numbered(files, suffix) && NoneFollows(files, suffix, legal)
    requires a in files && b in files && Less(a, b) && m < 10000
    requires a == FileName(m, files[a], suffix) && b == FileName(m, files[b], suffix)
    ensures !IsPathOf(Listing(files), first, legal)
  {
    hide FileName, Less;
    var names := SortedOf(files.Keys);
    var i := PositionOf(names, a);
    var j := PositionOf(names, b);
    LessIrreflexive(a);
    if j < i { LessTransitive(a, b, a); }
    assert names[i + 1] in Elements(names);
    NextSharesNumber(files, suffix, i, j, m);
    SameNumberOrder(m, files[names[i]], files[names[i + 1]], suffix);
    assert !legal(files[names[i]], files[names[i + 1]]);
    assert Listing(files)[i] == files[names[i]] && Listing(files)[i + 1] == files[names[i + 1]];
    if IsPathOf(Listing(files), first, legal) { PathSteps(Listing(files), first, legal, i); }
  }
}
