/** The file server's names: the second, a sequence number within it, and an extension. */
module FileNames {
  // ---- The text ----

  function Digit(n: nat): char
    requires n < 10
  {
    '0' + n as char
  }

  function Natural(n: nat): (t: string)
    ensures t != [] && forall i :: 0 <= i < |t| ==> '0' <= t[i] <= '9'
    ensures |t| == 1 <==> n < 10
  {
    if n < 10 then [Digit(n)] else Natural(n / 10) + [Digit(n % 10)]
  }

  /** Go's %d. */
  function Decimal(n: int): (t: string)
    ensures forall i :: 0 <= i < |t| ==> t[i] == '-' || '0' <= t[i] <= '9'
  {
    if n < 0 then "-" + Natural(-n) else Natural(n)
  }

  function Name(second: int, sequence: nat): (t: string)
    ensures forall i :: 0 <= i < |t| ==> t[i] != '.'
  {
    Decimal(second) + "_" + Decimal(sequence)
  }

  function FileName(name: string, extension: string): string {
    name + "." + extension
  }

  /** The number that a text of digits stands for, read from the left. */
  function ValueOf(t: string): int {
    if t == [] then 0 else ValueOf(t[..|t| - 1]) * 10 + (t[|t| - 1] as int - '0' as int)
  }

  /** The text stands for its number, without leading zeros. */
  lemma {:induction false} NaturalRoundTrip(n: nat)
    ensures ValueOf(Natural(n)) == n
    ensures n > 0 ==> Natural(n)[0] != '0'
    decreases n
  {
    if n < 10 {
      assert ValueOf([]) == 0 && Natural(n)[..0] == [];
    } else {
      NaturalRoundTrip(n / 10);
      assert Natural(n)[..|Natural(n)| - 1] == Natural(n / 10);
    }
  }

  lemma NaturalInjective(a: nat, b: nat)
    requires Natural(a) == Natural(b)
    ensures a == b
  {
    NaturalRoundTrip(a);
    NaturalRoundTrip(b);
  }

  lemma DecimalSign(n: int)
    ensures Decimal(n) != [] && (Decimal(n)[0] == '-' <==> n < 0)
  {
  }

  lemma DecimalInjective(a: int, b: int)
    requires Decimal(a) == Decimal(b)
    ensures a == b
  {
    DecimalSign(a);
    DecimalSign(b);
    if a < 0 {
      assert Decimal(a)[1..] == Natural(-a) && Decimal(b)[1..] == Natural(-b);
      NaturalInjective(-a, -b);
    } else {
      NaturalInjective(a, b);
    }
  }

  /** Splitting at the first separator is unambiguous when the left part has none. */
  lemma SplitInjective(a: string, b: string, c: string, d: string, separator: char)
    requires a + [separator] + b == c + [separator] + d
    requires separator !in a && separator !in c
    ensures a == c && b == d
  {
    var whole := a + [separator] + b;
    assert whole[|a|] == separator && whole[|c|] == separator;
    assert forall i :: 0 <= i < |a| ==> whole[i] == a[i];
    assert forall i :: 0 <= i < |c| ==> whole[i] == c[i];
    assert |a| == |c|;
    assert a == whole[..|a|] == c;
    assert b == whole[|a| + 1..] == d;
  }

  /** The text tells the second and the sequence number apart. */
  lemma NameInjective(s1: int, q1: nat, s2: int, q2: nat)
    ensures Name(s1, q1) == Name(s2, q2) <==> s1 == s2 && q1 == q2
  {
    if Name(s1, q1) == Name(s2, q2) {
      SplitInjective(Decimal(s1), Decimal(q1), Decimal(s2), Decimal(q2), '_');
      DecimalInjective(s1, s2);
      DecimalInjective(q1, q2);
    }
  }

  lemma JoinedText(a: string, c: char, b: string)
    ensures (a + [c] + b)[..|a|] == a && (a + [c] + b)[|a|] == c && (a + [c] + b)[|a| + 1..] == b
  {
  }

  lemma DecimalReads(n: int)
    ensures if n < 0 then Decimal(n)[0] == '-' && ValueOf(Decimal(n)[1..]) == -n else ValueOf(Decimal(n)) == n
  {
    NaturalRoundTrip(if n < 0 then -n else n);
    if n < 0 {
      assert Decimal(n)[1..] == Natural(-n);
    }
  }

  /** A name is the second, an underscore and the sequence number, each in decimal; a negative second has a sign. */
  lemma NameReads(second: int, sequence: nat)
    ensures var t, d := Name(second, sequence), Decimal(second);
      && |t| > |d| && t[..|d|] == d && t[|d|] == '_' && ValueOf(t[|d| + 1..]) == sequence
      && (if second < 0 then d[0] == '-' && ValueOf(d[1..]) == -second else ValueOf(d) == second)
  {
    JoinedText(Decimal(second), '_', Decimal(sequence));
    DecimalReads(second);
    DecimalReads(sequence);
  }

  /** Appending the extension keeps distinct names distinct. */
  lemma FileNameInjective(s1: int, q1: nat, e1: string, s2: int, q2: nat, e2: string)
    ensures FileName(Name(s1, q1), e1) == FileName(Name(s2, q2), e2) <==> s1 == s2 && q1 == q2 && e1 == e2
  {
    if FileName(Name(s1, q1), e1) == FileName(Name(s2, q2), e2) {
      SplitInjective(Name(s1, q1), e1, Name(s2, q2), e2, '.');
    }
    NameInjective(s1, q1, s2, q2);
  }

  // ---- The allocator ----

  datatype State = State(lastUnixSec: int, seqNum: nat)

  const START := State(0, 0)

  function Allocate(s: State, now: int): (State, string) {
    var seqNum := if now != s.lastUnixSec then 0 else s.seqNum;
    (State(now, seqNum + 1), Name(now, seqNum))
  }

  class Allocator {
    var seqNum: nat
    var lastUnixSec: int

    ghost function Value(): State
      reads this
    {
      State(lastUnixSec, seqNum)
    }

    constructor ()
      ensures Value() == START
    {
      seqNum, lastUnixSec := 0, 0;
    }

    /** `now` is the clock reading, taken under the lock. */
    method GenerateFilename(now: int) returns (name: string)
      modifies this
      ensures (Value(), name) == Allocate(old(Value()), now)
    {
      if now != lastUnixSec {
        seqNum := 0;
        lastUnixSec := now;
      }
      var sequence := seqNum;
      seqNum := seqNum + 1;
      return Name(now, sequence);
    }
  }

  function After(s: State, clock: seq<int>): State
    decreases |clock|
  {
    if clock == [] then s else Allocate(After(s, clock[..|clock| - 1]), clock[|clock| - 1]).0
  }

  /** The name the `i`-th call gets. */
  function NameAt(clock: seq<int>, i: nat): string
    requires i < |clock|
  {
    Allocate(After(START, clock[..i]), clock[i]).1
  }

  ghost predicate AllDistinct(clock: seq<int>) {
    forall i, j :: 0 <= i < j < |clock| ==> NameAt(clock, i) != NameAt(clock, j)
  }

  /** Equal seconds occur only in one contiguous block. */
  ghost predicate Contiguous(clock: seq<int>) {
    forall i, k, j :: 0 <= i <= k <= j < |clock| && clock[i] == clock[j] ==> clock[k] == clock[i]
  }

  /** The number of calls just before `i` that read the same second. */
  function Preceding(clock: seq<int>, i: nat): (n: nat)
    requires i < |clock|
    ensures n <= i
    ensures forall k :: i - n <= k <= i ==> clock[k] == clock[i]
    ensures n < i ==> clock[i - n - 1] != clock[i]
  {
    if i == 0 || clock[i - 1] != clock[i] then 0 else Preceding(clock, i - 1) + 1
  }

  lemma {:induction false} SequenceCounts(clock: seq<int>, i: nat)
    requires i < |clock|
    ensures After(START, clock[..i + 1]) == State(clock[i], Preceding(clock, i) + 1)
    ensures NameAt(clock, i) == Name(clock[i], Preceding(clock, i))
  {
    assert clock[..i + 1][..i] == clock[..i];
    if i > 0 {
      SequenceCounts(clock, i - 1);
    } else {
      assert clock[..0] == [];
    }
  }

  lemma BrokenBlock(clock: seq<int>, i: nat, k: nat, j: nat)
    requires i < k < j < |clock| && clock[i] == clock[j] && clock[k] != clock[i]
    ensures !AllDistinct(clock)
  {
    var a := i - Preceding(clock, i);
    var b := j - Preceding(clock, j);
    assert Preceding(clock, a) == 0 && Preceding(clock, b) == 0;
    assert a <= i < k < b;
    SequenceCounts(clock, a);
    SequenceCounts(clock, b);
    assert NameAt(clock, a) == NameAt(clock, b);
  }

  lemma {:induction false} SameBlock(clock: seq<int>, i: nat, j: nat)
    requires i < j < |clock| && forall k :: i <= k <= j ==> clock[k] == clock[i]
    ensures Preceding(clock, j) == Preceding(clock, i) + (j - i)
    decreases j
  {
  }

  /** Main result, for any sequence of clock readings: the names are pairwise distinct exactly when equal seconds
      occur only in one contiguous block. */
  lemma DistinctExactlyWhenContiguous(clock: seq<int>)
    ensures AllDistinct(clock) <==> Contiguous(clock)
  {
    if Contiguous(clock) {
      forall i, j | 0 <= i < j < |clock| ensures NameAt(clock, i) != NameAt(clock, j) {
        SequenceCounts(clock, i);
        SequenceCounts(clock, j);
        NameInjective(clock[i], Preceding(clock, i), clock[j], Preceding(clock, j));
        if clock[i] == clock[j] {
          SameBlock(clock, i, j);
        }
      }
    } else {
      var i, k, j :| 0 <= i <= k <= j < |clock| && clock[i] == clock[j] && clock[k] != clock[i];
      BrokenBlock(clock, i, k, j);
    }
  }

  /** Two uploads get the same file name exactly when they get the same name and the same extension. */
  lemma FileNamesCollide(clock: seq<int>, i: nat, j: nat, e1: string, e2: string)
    requires i < j < |clock|
    ensures FileName(NameAt(clock, i), e1) == FileName(NameAt(clock, j), e2) <==>
            NameAt(clock, i) == NameAt(clock, j) && e1 == e2
  {
    SequenceCounts(clock, i);
    SequenceCounts(clock, j);
    FileNameInjective(clock[i], Preceding(clock, i), e1, clock[j], Preceding(clock, j), e2);
    NameInjective(clock[i], Preceding(clock, i), clock[j], Preceding(clock, j));
  }

  lemma MonotoneIsContiguous(clock: seq<int>)
    requires forall i, j :: 0 <= i < j < |clock| ==> clock[i] <= clock[j]
    ensures Contiguous(clock)
  {
  }

  /** So a clock that never goes back gives distinct file names, whatever the extensions. */
  lemma MonotoneClockSuffices(clock: seq<int>, i: nat, j: nat, e1: string, e2: string)
    requires forall i, j :: 0 <= i < j < |clock| ==> clock[i] <= clock[j]
    requires i < j < |clock|
    ensures FileName(NameAt(clock, i), e1) != FileName(NameAt(clock, j), e2)
  {
    MonotoneIsContiguous(clock);
    DistinctExactlyWhenContiguous(clock);
    FileNamesCollide(clock, i, j, e1, e2);
  }
}
