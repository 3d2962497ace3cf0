/** Small failure-carrying datatypes and list helpers shared by every
    module of the model. */
module Common {

  /** Python's `None` or a present value. */
  datatype Option<T> = None | Some(value: T) {
    function GetOr(default: T): T {
      match this
      case Some(v) => v
      case None => default
    }
  }

  /** A value or the exception the Python code raises instead. */
  datatype Result<T, E> = Ok(value: T) | Err(error: E)

  /** An `HTTPException`: the status code and the detail text. */
  datatype HttpError = HttpError(status: int, detail: string)

  function Min(a: int, b: int): int { if a <= b then a else b }
  function Max(a: int, b: int): int { if a >= b then a else b }

  /** `[x for x in xs if keep(x)]`. */
  function Select<T>(xs: seq<T>, keep: T -> bool): (r: seq<T>)
    ensures |r| <= |xs|
    decreases |xs|
  {
    if xs == [] then []
    else Select(xs[..|xs| - 1], keep) + (if keep(xs[|xs| - 1]) then [xs[|xs| - 1]] else [])
  }

  /** The selection holds exactly the elements that pass the test. */
  lemma {:induction false} SelectMembers<T>(xs: seq<T>, keep: T -> bool, x: T)
    ensures x in Select(xs, keep) <==> x in xs && keep(x)
    decreases |xs|
  {
    if xs != [] {
      var init, last := xs[..|xs| - 1], xs[|xs| - 1];
      SelectMembers(init, keep, x);
      assert xs == init + [last];
    }
  }

  lemma SelectStep<T>(xs: seq<T>, i: nat, keep: T -> bool)
    requires i < |xs|
    ensures Select(xs[..i + 1], keep) == Select(xs[..i], keep) + (if keep(xs[i]) then [xs[i]] else [])
  {
    assert xs[..i + 1][..i] == xs[..i];
  }

  /** A subset is no larger than its superset, and a proper one is smaller. */
  lemma {:induction false} SubsetSize<T>(a: set<T>, b: set<T>)
    requires a <= b
    ensures |a| <= |b|
    ensures a < b ==> |a| < |b|
    decreases b
  {
    if a != {} {
      var x :| x in a;
      SubsetSize(a - {x}, b - {x});
      if a < b {
        assert !(forall z :: z in a <==> z in b);
        var y :| !(y in a <==> y in b);
        assert y in (b - {x}) - (a - {x});
      }
    } else if b != {} {
      var y :| y in b;
      assert y in b - a;
    }
  }

  /** `[f(x) for x in xs]`. */
  function MapSeq<A, B>(xs: seq<A>, f: A -> B): (r: seq<B>)
    ensures |r| == |xs|
  {
    if xs == [] then [] else MapSeq(xs[..|xs| - 1], f) + [f(xs[|xs| - 1])]
  }

  /** Each entry of the mapped sequence is the image of the entry at the
      same place. */
  lemma {:induction false} MapSeqIndex<A, B>(xs: seq<A>, f: A -> B)
    ensures forall i | 0 <= i < |xs| :: MapSeq(xs, f)[i] == f(xs[i])
  {
    if xs != [] {
      MapSeqIndex(xs[..|xs| - 1], f);
    }
  }

  lemma MapSeqStep<A, B>(xs: seq<A>, i: nat, f: A -> B)
    requires i < |xs|
    ensures MapSeq(xs[..i + 1], f) == MapSeq(xs[..i], f) + [f(xs[i])]
  {
    assert xs[..i + 1][..i] == xs[..i];
  }

  /** The concatenation of `f(x)` over `xs`, in order. */
  function FlatMap<A, B>(xs: seq<A>, f: A -> seq<B>): seq<B> {
    if xs == [] then [] else FlatMap(xs[..|xs| - 1], f) + f(xs[|xs| - 1])
  }

  lemma FlatMapStep<A, B>(xs: seq<A>, i: nat, f: A -> seq<B>)
    requires i < |xs|
    ensures FlatMap(xs[..i + 1], f) == FlatMap(xs[..i], f) + f(xs[i])
  {
    assert xs[..i + 1][..i] == xs[..i];
  }

  /** Elements whose image is empty can be dropped before flattening. */
  lemma {:induction false} FlatMapSkips<A, B>(xs: seq<A>, f: A -> seq<B>, keep: A -> bool)
    requires forall x :: !keep(x) ==> f(x) == []
    ensures FlatMap(xs, f) == FlatMap(Select(xs, keep), f)
  {
    if xs != [] {
      var init, last := xs[..|xs| - 1], xs[|xs| - 1];
      FlatMapSkips(init, f, keep);
      var sel := Select(init, keep);
      if keep(last) {
        assert Select(xs, keep) == sel + [last];
        assert (sel + [last])[..|sel|] == sel;
      } else {
        assert Select(xs, keep) == sel;
      }
    }
  }

  lemma AppendAssoc<T>(a: seq<T>, b: seq<T>, c: seq<T>)
    ensures (a + b) + c == a + (b + c)
  {
  }

  /** The sum of `f` over a finite set. */
  ghost function SumSet<T>(s: set<T>, f: T -> nat): nat
    decreases s
  {
    if s == {} then 0 else var x :| x in s; f(x) + SumSet(s - {x}, f)
  }

  /** Any element can be taken out first. */
  lemma {:induction false} SumSetPick<T>(s: set<T>, f: T -> nat, y: T)
    requires y in s
    ensures SumSet(s, f) == f(y) + SumSet(s - {y}, f)
    decreases s
  {
    var x :| x in s && SumSet(s, f) == f(x) + SumSet(s - {x}, f);
    if x != y {
      SumSetPick(s - {x}, f, y);
      SumSetPick(s - {y}, f, x);
      assert s - {x} - {y} == s - {y} - {x};
    }
  }

  /** Functions that agree on the set have the same sum over it. */
  lemma {:induction false} SumSetAgree<T>(s: set<T>, f: T -> nat, g: T -> nat)
    requires forall x | x in s :: f(x) == g(x)
    ensures SumSet(s, f) == SumSet(s, g)
    decreases s
  {
    if s != {} {
      var x :| x in s;
      SumSetPick(s, f, x);
      SumSetPick(s, g, x);
      SumSetAgree(s - {x}, f, g);
    }
  }

  /** `base ** n` on naturals. */
  function Pow(base: nat, n: nat): (r: nat)
    ensures base >= 1 ==> r >= 1
  {
    if n == 0 then 1 else base * Pow(base, n - 1)
  }
}
