// Allocation of refs: one counter per kind, printed as tc://<kind>/<prefix>_<six digits>.
module Refs {
  import opened Text

  datatype Kind =
    | Message | Delivery | Attempt | Checkpoint | Readback | DeadLetter
    | SideEffect | QualityDecision | Accepted | ArtifactFinalization

  function KindName(kind: Kind): string {
    match kind
    case Message => "message"
    case Delivery => "delivery"
    case Attempt => "attempt"
    case Checkpoint => "checkpoint"
    case Readback => "readback"
    case DeadLetter => "dead-letter"
    case SideEffect => "side-effect"
    case QualityDecision => "quality-decision"
    case Accepted => "accepted"
    case ArtifactFinalization => "artifact-finalization"
  }

  function KindPrefix(kind: Kind): string {
    match kind
    case Message => "msg"
    case Delivery => "dlv"
    case Attempt => "att"
    case Checkpoint => "ckp"
    case Readback => "rdb"
    case DeadLetter => "dlq"
    case SideEffect => "sfx"
    case QualityDecision => "qdc"
    case Accepted => "acc"
    case ArtifactFinalization => "ref"
  }

  function Digit(d: nat): char
    requires d < 10
  {
    '0' + d as char
  }

  function Decimal(n: nat): string {
    if n < 10 then [Digit(n)] else Decimal(n / 10) + [Digit(n % 10)]
  }

  function Zeros(k: nat): string {
    seq(k, _ => '0')
  }

  /** Go's %06d for a number that is not negative. */
  function Padded(n: nat): string {
    var d := Decimal(n);
    if |d| < 6 then Zeros(6 - |d|) + d else d
  }

  function Stem(kind: Kind): string {
    "tc://" + KindName(kind) + "/" + KindPrefix(kind) + "_"
  }

  function AllocRef(kind: Kind, n: nat): string {
    Stem(kind) + Padded(n)
  }

  // Reading a number back

  predicate IsDigits(s: string) {
    forall i :: 0 <= i < |s| ==> '0' <= s[i] <= '9'
  }

  function Value(s: string): nat
    requires IsDigits(s)
  {
    if s == [] then 0 else Value(s[..|s| - 1]) * 10 + (s[|s| - 1] as int - '0' as int)
  }

  lemma {:induction false} DecimalValue(n: nat)
    ensures Decimal(n) != [] && IsDigits(Decimal(n)) && Value(Decimal(n)) == n
  {
    if n >= 10 {
      DecimalValue(n / 10);
      assert Decimal(n)[..|Decimal(n)| - 1] == Decimal(n / 10);
    } else {
      assert Decimal(n)[..0] == [];
    }
  }

  lemma {:induction false} ZerosValue(k: nat, s: string)
    requires IsDigits(s)
    ensures IsDigits(Zeros(k) + s) && Value(Zeros(k) + s) == Value(s)
    decreases |s|, k
  {
    var t := Zeros(k) + s;
    if s != [] {
      assert t[..|t| - 1] == Zeros(k) + s[..|s| - 1];
      ZerosValue(k, s[..|s| - 1]);
    } else if k > 0 {
      assert t[..|t| - 1] == Zeros(k - 1) + s;
      ZerosValue(k - 1, s);
    } else {
      assert t == [];
    }
  }

  lemma PaddedValue(n: nat)
    ensures IsDigits(Padded(n)) && Value(Padded(n)) == n
  {
    DecimalValue(n);
    if |Decimal(n)| < 6 { ZerosValue(6 - |Decimal(n)|, Decimal(n)); }
  }

  lemma KindsApart(j: Kind, m: nat, k: Kind, n: nat)
    requires j != k
    ensures AllocRef(j, m) != AllocRef(k, n)
  {
    var a, b := AllocRef(j, m), AllocRef(k, n);
    assert a[5] == KindName(j)[0] && a[6] == KindName(j)[1] && a[7] == KindName(j)[2];
    assert b[5] == KindName(k)[0] && b[6] == KindName(k)[1] && b[7] == KindName(k)[2];
    assert a[5] != b[5] || a[6] != b[6] || a[7] != b[7];
  }

  /** No two counters, of one kind or of two, ever print the same ref. */
  lemma AllocRefInjective(j: Kind, m: nat, k: Kind, n: nat)
    requires AllocRef(j, m) == AllocRef(k, n)
    ensures j == k && m == n
  {
    if j != k { KindsApart(j, m, k, n); }
    assert Padded(m) == AllocRef(j, m)[|Stem(j)|..] && Padded(n) == AllocRef(k, n)[|Stem(k)|..];
    PaddedValue(m);
    PaddedValue(n);
  }

  // Order

  lemma {:induction false} LessOnPrefix(p: string, a: string, b: string)
    ensures Less(p + a, p + b) == Less(a, b)
  {
    if p == [] {
      assert p + a == a && p + b == b;
    } else {
      assert (p + a)[1..] == p[1..] + a && (p + b)[1..] == p[1..] + b;
      LessOnPrefix(p[1..], a, b);
    }
  }

  lemma {:induction false} LessExtends(a: string, b: string, x: string, y: string)
    requires |a| == |b| && Less(a, b)
    ensures Less(a + x, b + y)
  {
    if a[0] == b[0] {
      LessExtends(a[1..], b[1..], x, y);
      assert (a + x)[1..] == a[1..] + x && (b + y)[1..] == b[1..] + y;
    }
  }

  /** On digit strings of one length, string order is number order. */
  lemma {:induction false} ValueOrdersDigits(a: string, b: string)
    requires |a| == |b| && IsDigits(a) && IsDigits(b)
    ensures Value(a) == Value(b) ==> a == b
    ensures Value(a) < Value(b) ==> Less(a, b)
  {
    if a != [] {
      var n := |a| - 1;
      ValueOrdersDigits(a[..n], b[..n]);
      assert a == a[..n] + [a[n]] && b == b[..n] + [b[n]];
      if Value(a[..n]) < Value(b[..n]) {
        LessExtends(a[..n], b[..n], [a[n]], [b[n]]);
      } else if Value(a[..n]) == Value(b[..n]) && a[n] < b[n] {
        LessOnPrefix(a[..n], [a[n]], [b[n]]);
      }
    }
  }

  /** A number without its last k digits. */
  function DropDigits(n: nat, k: nat): nat
    decreases k
  {
    if k == 0 then n else DropDigits(n / 10, k - 1)
  }

  lemma {:induction false} DecimalPrefix(n: nat, k: nat)
    requires k < |Decimal(n)|
    ensures |Decimal(DropDigits(n, k))| == |Decimal(n)| - k
    ensures Decimal(n) == Decimal(DropDigits(n, k)) + Decimal(n)[|Decimal(n)| - k..]
    decreases k
  {
    if k == 0 {
      assert Decimal(n)[|Decimal(n)|..] == [];
    } else if n >= 10 {
      var shorter := n / 10;
      DecimalPrefix(shorter, k - 1);
      assert Decimal(n)[|Decimal(n)| - k..] == Decimal(shorter)[|Decimal(shorter)| - (k - 1)..] + [Digit(n % 10)];
    }
  }

  function Width(n: nat): nat {
    |Padded(n)|
  }

  /**
   * The ref of m sorts before the ref of n: the shorter number is compared with as many leading digits of the longer.
   */
  predicate Before(m: nat, n: nat) {
    if Width(m) <= Width(n) then m != n && m <= DropDigits(n, Width(n) - Width(m))
    else DropDigits(m, Width(m) - Width(n)) < n
  }

  lemma WideIsPlain(n: nat)
    requires Width(n) > 6
    ensures Padded(n) == Decimal(n)
  {
  }

  lemma {:induction false} LessThanLonger(a: string, b: string, tail: string)
    requires |a| == |b| && IsDigits(a) && IsDigits(b) && tail != []
    ensures Less(a, b + tail) <==> Value(a) <= Value(b)
  {
    ValueOrdersDigits(a, b);
    ValueOrdersDigits(b, a);
    if Value(a) == Value(b) {
      LessOnPrefix(a, [], tail);
      assert a + [] == a;
    } else if Value(a) < Value(b) {
      LessExtends(a, b, [], tail);
      assert a + [] == a;
    } else {
      LessExtends(b, a, tail, []);
      assert a + [] == a;
      LessAsymmetric(b + tail, a);
    }
  }

  lemma WiderOrder(m: nat, n: nat)
    requires Width(m) < Width(n)
    ensures Less(Padded(m), Padded(n)) <==> m <= DropDigits(n, Width(n) - Width(m))
  {
    var k := Width(n) - Width(m);
    WideIsPlain(n);
    DecimalPrefix(n, k);
    DecimalValue(DropDigits(n, k));
    PaddedValue(m);
    LessThanLonger(Padded(m), Decimal(DropDigits(n, k)), Decimal(n)[|Decimal(n)| - k..]);
  }

  /** String order on the refs of one kind, exactly, for any two counters. */
  lemma AllocRefOrder(kind: Kind, m: nat, n: nat)
    ensures Less(AllocRef(kind, m), AllocRef(kind, n)) <==> Before(m, n)
  {
    LessOnPrefix(Stem(kind), Padded(m), Padded(n));
    PaddedValue(m);
    PaddedValue(n);
    if Width(m) < Width(n) {
      WiderOrder(m, n);
    } else if Width(n) < Width(m) {
      WiderOrder(n, m);
      LessTotal(Padded(m), Padded(n));
      if Less(Padded(m), Padded(n)) { LessAsymmetric(Padded(m), Padded(n)); }
    } else {
      ValueOrdersDigits(Padded(m), Padded(n));
      ValueOrdersDigits(Padded(n), Padded(m));
      if m == n { LessIrreflexive(Padded(m)); }
      if n < m { LessAsymmetric(Padded(n), Padded(m)); }
    }
  }

  lemma {:induction false} DecimalFits(n: nat, bound: nat, k: nat)
    requires k >= 1 && bound >= 10 && n < bound
    requires k == 1 ==> bound == 10
    requires k > 1 ==> bound % 10 == 0 && Fits(bound / 10, k - 1)
    ensures |Decimal(n)| <= k
    decreases k
  {
    if n >= 10 && k > 1 {
      assert n / 10 < bound / 10;
      DecimalFits(n / 10, bound / 10, k - 1);
    }
  }

  predicate Fits(bound: nat, k: nat) {
    k >= 1 && bound >= 10 && (k == 1 ==> bound == 10) && (k > 1 ==> bound % 10 == 0 && Fits(bound / 10, k - 1))
  }

  const MAX_ORDERED: nat := 999999

  lemma SixDigits(n: nat)
    requires n <= MAX_ORDERED
    ensures Width(n) == 6
  {
    assert Fits(10, 1) && Fits(100, 2) && Fits(1000, 3) && Fits(10000, 4) && Fits(100000, 5);
    DecimalFits(n, 1000000, 6);
  }

  lemma LeadingDigit(n: nat)
    requires n >= 10
    ensures |Decimal(n)| == |Decimal(n / 10)| + 1 && Decimal(n)[0] == Decimal(n / 10)[0]
  {
    DecimalValue(n / 10);
  }

  lemma SevenDigits()
    ensures Width(MAX_ORDERED + 1) == 7
  {
    LeadingDigit(1000000); LeadingDigit(100000); LeadingDigit(10000);
    LeadingDigit(1000); LeadingDigit(100); LeadingDigit(10);
  }

  ghost predicate OrderedUpTo(kind: Kind, bound: nat) {
    forall m: nat, n: nat :: m <= bound && n <= bound ==> (Less(AllocRef(kind, m), AllocRef(kind, n)) <==> m < n)
  }

  /** String order on the refs of one kind is allocation order up to 999999, and no further. */
  lemma OrderedUpToIff(kind: Kind, bound: nat)
    ensures OrderedUpTo(kind, bound) <==> bound <= MAX_ORDERED
  {
    if bound <= MAX_ORDERED {
      forall m: nat, n: nat | m <= bound && n <= bound ensures Less(AllocRef(kind, m), AllocRef(kind, n)) <==> m < n {
        AllocRefOrder(kind, m, n);
        SixDigits(m);
        SixDigits(n);
      }
    } else {
      AllocRefOrder(kind, MAX_ORDERED, MAX_ORDERED + 1);
      SixDigits(MAX_ORDERED);
      SevenDigits();
      assert DropDigits(MAX_ORDERED + 1, 1) == 100000;
    }
  }
}
