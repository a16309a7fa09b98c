/** Failure-compatible results, the error values of the control plane, instants
    in nanoseconds, and the byte-wise order Go uses when it sorts identifiers. */
module Basics {

  datatype Option<+T> = None | Some(value: T)

  /** One constructor per sentinel error the source compares with `errors.Is`;
      `Invalid` stands for the anonymous `errors.New` values, which no caller
      distinguishes. */
  datatype Error =
    | DuplicateId
    | NotFound
    | ConflictScope
    | Closed
    | ExpiredMessage
    | TaskTerminal
    | Integrity
    | EvidenceScope
    | MessageIdCollision
    | StaleOwnership
    | RevisionConflict
    | InvalidTransition
    | InvalidDescriptor
    | InvalidEnvelope
    | Invalid
    | DeadlineExceeded
    | Cancelled
    | NoReceipt

  datatype Result<+T> = Ok(value: T) | Err(error: Error) {
    predicate IsFailure() {
      Err?
    }

    function PropagateFailure<U>(): Result<U>
      requires Err?
    {
      Err(error)
    }

    function Extract(): T
      requires Ok?
    {
      value
    }
  }

  datatype Outcome = Pass | Fail(error: Error) {
    predicate IsFailure() {
      Fail?
    }

    function PropagateFailure<U>(): Result<U>
      requires Fail?
    {
      Err(error)
    }
  }

  /** An instant in nanoseconds since the Unix epoch; the zero `time.Time` is
      1 January of the year 1. */
  type Time = int

  const ZERO_TIME: Time := -62135596800 * SECOND
  const SECOND := 1_000_000_000
  const DAY := 24 * 60 * 60 * SECOND
  const MAX_INT64 := 0x7FFF_FFFF_FFFF_FFFF

  /** `time.Time.Unix` floors, also before the epoch. */
  function Unix(t: Time): int {
    t / SECOND
  }

  function Max(a: int, b: int): int {
    if a >= b then a else b
  }

  /** Lexicographic order, the `<` of Go strings. */
  predicate Less(a: string, b: string) {
    |b| > 0 && (|a| == 0 || a[0] < b[0] || (a[0] == b[0] && Less(a[1..], b[1..])))
  }

  lemma LessIrreflexive(a: string)
    ensures !Less(a, a)
  {
  }

  lemma LessTransitive(a: string, b: string, c: string)
    requires Less(a, b) && Less(b, c)
    ensures Less(a, c)
  {
  }

  lemma {:induction false} LessTotal(a: string, b: string)
    ensures a == b || Less(a, b) || Less(b, a)
  {
    if |a| > 0 && |b| > 0 && a[0] == b[0] {
      LessTotal(a[1..], b[1..]);
      assert a == [a[0]] + a[1..] && b == [b[0]] + b[1..];
    }
  }

  lemma LessAsymmetric(a: string, b: string)
    requires Less(a, b)
    ensures a != b && !Less(b, a)
  {
    LessIrreflexive(a);
    if Less(b, a) {
      LessTransitive(a, b, a);
    }
  }

  ghost predicate IsLeast(s: set<string>, m: string) {
    m in s && forall y :: y in s && y != m ==> Less(m, y)
  }

  lemma {:induction false} LeastExists(s: set<string>) returns (m: string)
    requires s != {}
    ensures IsLeast(s, m)
    decreases |s|
  {
    var x :| x in s;
    if s == {x} {
      m := x;
    } else {
      var rest := s - {x};
      var n := LeastExists(rest);
      LessTotal(x, n);
      if Less(x, n) {
        m := x;
        forall y | y in s && y != x
          ensures Less(x, y)
        {
          if y != n {
            LessTransitive(x, n, y);
          }
        }
      } else {
        m := n;
      }
    }
  }

  /** The least identifier of a nonempty set. */
  function Least(s: set<string>): (m: string)
    requires s != {}
    ensures IsLeast(s, m)
  {
    assert exists m :: m in s && forall y :: y in s && y != m ==> Less(m, y) by {
      var m := LeastExists(s);
    }
    assert forall m, n | m in s && n in s && m != n && Less(m, n) :: !Less(n, m) by {
      forall m, n | m in s && n in s && m != n && Less(m, n)
        ensures !Less(n, m)
      {
        LessAsymmetric(m, n);
      }
    }
    var m :| m in s && forall y :: y in s && y != m ==> Less(m, y);
    m
  }

  ghost predicate Ascending(xs: seq<string>) {
    forall i, j :: 0 <= i < j < |xs| ==> Less(xs[i], xs[j])
  }

  /** What `slices.Sort` leaves of a slice of distinct identifiers. */
  function Sorted(s: set<string>): (xs: seq<string>)
    ensures |xs| == |s|
    ensures forall x :: x in xs <==> x in s
    ensures Ascending(xs)
    decreases |s|
  {
    if s == {} then []
    else
      var m := Least(s);
      var rest := Sorted(s - {m});
      assert forall x :: x in rest ==> Less(m, x);
      [m] + rest
  }

  /** Ascending sequences with the same members are the same sequence. */
  lemma {:induction false} AscendingUnique(xs: seq<string>, ys: seq<string>)
    requires Ascending(xs) && Ascending(ys) && |xs| == |ys|
    requires forall x :: x in xs <==> x in ys
    ensures xs == ys
    decreases |xs|
  {
    if xs == [] {
    } else {
      assert xs[0] in ys;
      assert ys[0] in xs;
      assert xs[0] == ys[0] by {
        var i :| 0 <= i < |ys| && ys[i] == xs[0];
        var j :| 0 <= j < |xs| && xs[j] == ys[0];
        if i > 0 && j > 0 {
          LessAsymmetric(ys[0], ys[i]);
        }
      }
      forall x
        ensures x in xs[1..] <==> x in ys[1..]
      {
        AscendingTail(xs, x);
        AscendingTail(ys, x);
      }
      AscendingUnique(xs[1..], ys[1..]);
      assert xs == [xs[0]] + xs[1..] && ys == [ys[0]] + ys[1..];
    }
  }

  lemma AscendingTail(xs: seq<string>, x: string)
    requires xs != [] && Ascending(xs)
    ensures x in xs[1..] <==> x in xs && x != xs[0]
  {
    if x in xs[1..] {
      var i :| 0 <= i < |xs[1..]| && xs[1..][i] == x;
      assert Less(xs[0], xs[i + 1]);
      LessAsymmetric(xs[0], x);
    }
    if x in xs && x != xs[0] {
      var i :| 0 <= i < |xs| && xs[i] == x;
      assert xs[1..][i - 1] == x;
    }
  }

  lemma {:induction false} SubsetSize<T>(a: set<T>, b: set<T>)
    requires a <= b
    ensures |a| <= |b|
    decreases |a|
  {
    if a != {} {
      var x :| x in a;
      SubsetSize(a - {x}, b - {x});
    }
  }
}
