/**
 * The record streams the reader produces and the filters compose over them. A stream is
 * the finite sequence of records it yields, followed by the error that ended it, if any.
 */
module Streams {
  import opened Wrappers
  import opened Seqs

  datatype Stream<R, E> = Stream(items: seq<R>, failure: Option<E>)

  /** A stream that yields `x` and then whatever `s` yields. */
  function Prepend<R, E>(x: R, s: Stream<R, E>): Stream<R, E>
  {
    Stream([x] + s.items, s.failure)
  }

  /** `itertools.dropwhile` on the records: the longest prefix satisfying `p` is removed. */
  function DropWhileSeq<R>(xs: seq<R>, p: R -> bool): (r: seq<R>)
    ensures |r| <= |xs| && r == xs[|xs| - |r|..]
    ensures forall i | 0 <= i < |xs| - |r| :: p(xs[i])
    ensures r != [] ==> !p(r[0])
  {
    if xs == [] || !p(xs[0]) then xs else DropWhileSeq(xs[1..], p)
  }

  /** `itertools.takewhile` on the records: the longest prefix satisfying `p`. */
  function TakeWhileSeq<R>(xs: seq<R>, p: R -> bool): (r: seq<R>)
    ensures |r| <= |xs| && r == xs[..|r|]
    ensures forall i | 0 <= i < |r| :: p(xs[i])
    ensures |r| < |xs| ==> !p(xs[|r|])
  {
    if xs == [] || !p(xs[0]) then [] else [xs[0]] + TakeWhileSeq(xs[1..], p)
  }

  /** The built-in `filter`: the records satisfying `p`, in their original order. */
  function FilterSeq<R>(xs: seq<R>, p: R -> bool): (r: seq<R>)
    ensures |r| <= |xs|
    ensures forall i | 0 <= i < |r| :: p(r[i])
  {
    if xs == [] then []
    else if p(xs[0]) then [xs[0]] + FilterSeq(xs[1..], p)
    else FilterSeq(xs[1..], p)
  }

  /** Filtering keeps exactly the records satisfying `p`. */
  lemma {:induction false} FilterSeqMembers<R>(xs: seq<R>, p: R -> bool, x: R)
    ensures x in FilterSeq(xs, p) <==> x in xs && p(x)
  {
    if xs != [] {
      FilterSeqMembers(xs[1..], p, x);
      assert xs == [xs[0]] + xs[1..];
    }
  }

  /** Filtering keeps the original order. */
  lemma {:induction false} FilterSeqSubsequence<R>(xs: seq<R>, p: R -> bool)
    ensures IsSubsequence(FilterSeq(xs, p), xs)
  {
    if xs != [] {
      FilterSeqSubsequence(xs[1..], p);
      var r := FilterSeq(xs, p);
      if p(xs[0]) {
        assert r[1..] == FilterSeq(xs[1..], p);
      } else if r != [] {
        assert IsSubsequence(r, xs[1..]);
      }
    }
  }

  /** Filtering depends on the predicate only through its values on the records. */
  lemma {:induction false} FilterSeqAgree<R>(xs: seq<R>, p: R -> bool, q: R -> bool)
    requires forall i | 0 <= i < |xs| :: p(xs[i]) == q(xs[i])
    ensures FilterSeq(xs, p) == FilterSeq(xs, q)
  {
    if xs != [] {
      FilterSeqAgree(xs[1..], p, q);
    }
  }

  /** Two filters in a row are one filter by the conjunction. */
  lemma {:induction false} FilterSeqTwice<R>(xs: seq<R>, p: R -> bool, q: R -> bool, both: R -> bool)
    requires forall x :: both(x) == (p(x) && q(x))
    ensures FilterSeq(FilterSeq(xs, p), q) == FilterSeq(xs, both)
  {
    if xs != [] {
      FilterSeqTwice(xs[1..], p, q, both);
      if p(xs[0]) {
        assert FilterSeq(xs, p) == [xs[0]] + FilterSeq(xs[1..], p);
      }
    }
  }

  function DropWhile<R, E>(s: Stream<R, E>, p: R -> bool): Stream<R, E>
  {
    Stream(DropWhileSeq(s.items, p), s.failure)
  }

  function Keep<R, E>(s: Stream<R, E>, p: R -> bool): Stream<R, E>
  {
    Stream(FilterSeq(s.items, p), s.failure)
  }

  /**
   * `takewhile` stops pulling records at the first one that fails `p`, so an error that
   * would have ended the stream later is never raised.
   */
  function TakeWhile<R, E>(s: Stream<R, E>, p: R -> bool): (r: Stream<R, E>)
    ensures r.failure.Some? ==> r.failure == s.failure && r.items == s.items
  {
    var t := TakeWhileSeq(s.items, p);
    Stream(t, if |t| == |s.items| then s.failure else None)
  }

  /** The three iterator functions the filters are built from. */
  datatype Kind = DropLeading | KeepMatching | TakeLeading

  function Apply<R, E>(kind: Kind, s: Stream<R, E>, p: R -> bool): Stream<R, E>
  {
    match kind
    case DropLeading => DropWhile(s, p)
    case KeepMatching => Keep(s, p)
    case TakeLeading => TakeWhile(s, p)
  }

  /**
   * `functools.reduce(lambda r, f: f.filterfunc(f.predicate, r), filters, s)`: each stage
   * applies its iterator function with its predicate to the output of the stage before.
   */
  function Pipe<R, E, P>(s: Stream<R, E>, stages: seq<(Kind, P)>, holds: (P, R) -> bool): Stream<R, E>
    decreases |stages|
  {
    if stages == [] then s
    else
      var pred := stages[0].1;
      Pipe(Apply(stages[0].0, s, r => holds(pred, r)), stages[1..], holds)
  }

  /** Every stage keeps the records it passes on in their original order. */
  lemma ApplySubsequence<R, E>(kind: Kind, s: Stream<R, E>, p: R -> bool)
    ensures IsSubsequence(Apply(kind, s, p).items, s.items)
    ensures Apply(kind, s, p).failure.Some? ==> Apply(kind, s, p).failure == s.failure
  {
    match kind
    case DropLeading =>
      var r := DropWhileSeq(s.items, p);
      SuffixIsSubsequence(s.items, |s.items| - |r|);
    case KeepMatching =>
      FilterSeqSubsequence(s.items, p);
    case TakeLeading =>
      var r := TakeWhileSeq(s.items, p);
      PrefixIsSubsequence(s.items, |r|);
  }

  /**
   * Whatever the stages, the pipeline yields a subsequence of the input records, and the only
   * error it can raise is the one that ended the input.
   */
  lemma {:induction false} PipeSubsequence<R, E, P>(s: Stream<R, E>, stages: seq<(Kind, P)>, holds: (P, R) -> bool)
    ensures IsSubsequence(Pipe(s, stages, holds).items, s.items)
    ensures Pipe(s, stages, holds).failure.Some? ==> Pipe(s, stages, holds).failure == s.failure
    decreases |stages|
  {
    if stages == [] {
      SubsequenceReflexive(s.items);
    } else {
      var pred := stages[0].1;
      var p := r => holds(pred, r);
      var s1 := Apply(stages[0].0, s, p);
      ApplySubsequence(stages[0].0, s, p);
      PipeSubsequence(s1, stages[1..], holds);
      SubsequenceTransitive(Pipe(s1, stages[1..], holds).items, s1.items, s.items);
    }
  }

  /** A record passes every stage's predicate. */
  predicate AllHold<R, P>(stages: seq<(Kind, P)>, holds: (P, R) -> bool, r: R)
  {
    forall k | 0 <= k < |stages| :: holds(stages[k].1, r)
  }

  /**
   * A pipeline of `filter` stages alone keeps exactly the records that satisfy every
   * predicate, in their original order, whatever the order of the stages.
   */
  lemma {:induction false} PipeOfFilters<R, E, P>(s: Stream<R, E>, stages: seq<(Kind, P)>, holds: (P, R) -> bool)
    requires forall k | 0 <= k < |stages| :: stages[k].0 == KeepMatching
    ensures Pipe(s, stages, holds) == Keep(s, r => AllHold(stages, holds, r))
    decreases |stages|
  {
    if stages == [] {
      FilterSeqAll(s.items);
      assert FilterSeq(s.items, r => AllHold(stages, holds, r)) == FilterSeq(s.items, r => true) by {
        FilterSeqAgree(s.items, r => AllHold(stages, holds, r), r => true);
      }
    } else {
      var pred := stages[0].1;
      var p := r => holds(pred, r);
      var rest := stages[1..];
      var all := r => AllHold(stages, holds, r);
      var s1 := Apply(stages[0].0, s, p);
      assert s1 == Keep(s, p);
      assert Pipe(s, stages, holds) == Pipe(s1, rest, holds);
      PipeOfFilters(s1, rest, holds);
      var q := r => AllHold(rest, holds, r);
      forall x: R ensures all(x) == (p(x) && q(x)) {
        AllHoldCons(stages, holds, x);
      }
      FilterSeqTwice(s.items, p, q, all);
    }
  }

  lemma AllHoldCons<R, P>(stages: seq<(Kind, P)>, holds: (P, R) -> bool, x: R)
    requires stages != []
    ensures AllHold(stages, holds, x) == (holds(stages[0].1, x) && AllHold(stages[1..], holds, x))
  {
    if holds(stages[0].1, x) && AllHold(stages[1..], holds, x) {
      forall k | 0 <= k < |stages| ensures holds(stages[k].1, x) {
        if k > 0 {
          assert stages[k] == stages[1..][k - 1];
        }
      }
    }
  }

  lemma {:induction false} FilterSeqAll<R>(xs: seq<R>)
    ensures FilterSeq(xs, r => true) == xs
  {
    if xs != [] {
      FilterSeqAll(xs[1..]);
    }
  }

  /** The records' keys never decrease along the sequence. */
  predicate SortedBy<R>(xs: seq<R>, key: R -> int)
  {
    forall i, j | 0 <= i < j < |xs| :: key(xs[i]) <= key(xs[j])
  }

  /**
   * On records in time order, dropping the leading records before `t` is the same as
   * keeping every record at or after `t`.
   */
  lemma {:induction false} DropWhileSorted<R>(xs: seq<R>, key: R -> int, t: int, before: R -> bool, from: R -> bool)
    requires SortedBy(xs, key)
    requires forall x :: before(x) == (key(x) < t) && from(x) == (key(x) >= t)
    ensures DropWhileSeq(xs, before) == FilterSeq(xs, from)
  {
    if xs != [] {
      if key(xs[0]) < t {
        DropWhileSorted(xs[1..], key, t, before, from);
      } else {
        FilterSeqAgree(xs, from, r => true);
        FilterSeqAll(xs);
      }
    }
  }

  /**
   * On records in time order, the longest prefix at or before `t` is every record at or
   * before `t`.
   */
  lemma {:induction false} TakeWhileSorted<R>(xs: seq<R>, key: R -> int, t: int, upTo: R -> bool)
    requires SortedBy(xs, key)
    requires forall x :: upTo(x) == (key(x) <= t)
    ensures TakeWhileSeq(xs, upTo) == FilterSeq(xs, upTo)
  {
    if xs != [] {
      if key(xs[0]) <= t {
        TakeWhileSorted(xs[1..], key, t, upTo);
      } else {
        FilterSeqNone(xs, upTo);
      }
    }
  }

  lemma {:induction false} FilterSeqNone<R>(xs: seq<R>, p: R -> bool)
    requires forall i | 0 <= i < |xs| :: !p(xs[i])
    ensures FilterSeq(xs, p) == []
  {
    if xs != [] {
      FilterSeqNone(xs[1..], p);
    }
  }

  /** Dropping depends on the predicate only through its values on the records. */
  lemma {:induction false} DropWhileAgree<R>(xs: seq<R>, p: R -> bool, q: R -> bool)
    requires forall i | 0 <= i < |xs| :: p(xs[i]) == q(xs[i])
    ensures DropWhileSeq(xs, p) == DropWhileSeq(xs, q)
  {
    if xs != [] {
      DropWhileAgree(xs[1..], p, q);
    }
  }

  /** Taking depends on the predicate only through its values on the records. */
  lemma {:induction false} TakeWhileAgree<R>(xs: seq<R>, p: R -> bool, q: R -> bool)
    requires forall i | 0 <= i < |xs| :: p(xs[i]) == q(xs[i])
    ensures TakeWhileSeq(xs, p) == TakeWhileSeq(xs, q)
  {
    if xs != [] {
      TakeWhileAgree(xs[1..], p, q);
    }
  }

  /** Filtering records in time order leaves them in time order. */
  lemma {:induction false} FilterSeqSorted<R>(xs: seq<R>, p: R -> bool, key: R -> int)
    requires SortedBy(xs, key)
    ensures SortedBy(FilterSeq(xs, p), key)
  {
    if xs != [] {
      FilterSeqSorted(xs[1..], p, key);
      if p(xs[0]) {
        var rest := FilterSeq(xs[1..], p);
        forall j | 0 <= j < |rest| ensures key(xs[0]) <= key(rest[j]) {
          assert rest[j] in rest;
          FilterSeqMembers(xs[1..], p, rest[j]);
          var k :| 0 <= k < |xs[1..]| && xs[1..][k] == rest[j];
          assert xs[k + 1] == rest[j];
        }
        assert FilterSeq(xs, p) == [xs[0]] + rest;
      }
    }
  }

  /** The same, for a stage named by its value rather than its position. */
  lemma PipeMemberSound<R, E, P>(s: Stream<R, E>, stages: seq<(Kind, P)>, holds: (P, R) -> bool, f: (Kind, P), x: R)
    requires f in stages && f.0 != DropLeading
    requires x in Pipe(s, stages, holds).items
    ensures holds(f.1, x)
  {
    var k :| 0 <= k < |stages| && stages[k] == f;
    PipeSound(s, stages, holds, k, x);
  }

  /**
   * Every record that comes out of a `filter` or `takewhile` stage satisfies that stage's
   * predicate, whatever the stages after it do.
   */
  lemma {:induction false} PipeSound<R, E, P>(s: Stream<R, E>, stages: seq<(Kind, P)>, holds: (P, R) -> bool, k: nat, x: R)
    requires k < |stages| && stages[k].0 != DropLeading
    requires x in Pipe(s, stages, holds).items
    ensures holds(stages[k].1, x)
    decreases |stages|
  {
    var pred := stages[0].1;
    var p := r => holds(pred, r);
    var s1 := Apply(stages[0].0, s, p);
    assert Pipe(s, stages, holds) == Pipe(s1, stages[1..], holds);
    if k == 0 {
      PipeSubsequence(s1, stages[1..], holds);
      SubsequenceElements(Pipe(s1, stages[1..], holds).items, s1.items, x);
      if stages[0].0 == KeepMatching {
        FilterSeqMembers(s.items, p, x);
      }
    } else {
      assert stages[1..][k - 1] == stages[k];
      PipeSound(s1, stages[1..], holds, k - 1, x);
    }
  }

  /** A stage's result depends on its predicate only through the predicate's values. */
  lemma ApplyAgree<R, E>(kind: Kind, s: Stream<R, E>, p: R -> bool, q: R -> bool)
    requires forall x :: p(x) == q(x)
    ensures Apply(kind, s, p) == Apply(kind, s, q)
  {
    DropWhileAgree(s.items, p, q);
    TakeWhileAgree(s.items, p, q);
    FilterSeqAgree(s.items, p, q);
  }

  /** The first stage of a pipeline, with its predicate given by any function of the same values. */
  lemma PipeHead<R, E, P>(s: Stream<R, E>, stages: seq<(Kind, P)>, holds: (P, R) -> bool, p: R -> bool)
    requires stages != [] && forall x :: p(x) == holds(stages[0].1, x)
    ensures Pipe(s, stages, holds) == Pipe(Apply(stages[0].0, s, p), stages[1..], holds)
  {
    var pred := stages[0].1;
    ApplyAgree(stages[0].0, s, r => holds(pred, r), p);
  }

  /**
   * On input ordered by `key`, a stage is a plain filter by what it keeps: a leading drop
   * by a bound on `key` keeps what is at or after the bound, a leading take what is at or
   * before it.
   */
  ghost predicate SortedStage<R(!new), P>(stage: (Kind, P), holds: (P, R) -> bool, keeps: (P, R) -> bool, key: R -> int, bound: P -> int)
  {
    match stage.0
    case DropLeading =>
      forall x :: holds(stage.1, x) == (key(x) < bound(stage.1)) && keeps(stage.1, x) == (key(x) >= bound(stage.1))
    case TakeLeading =>
      forall x :: holds(stage.1, x) == (key(x) <= bound(stage.1)) && keeps(stage.1, x) == holds(stage.1, x)
    case KeepMatching =>
      forall x :: keeps(stage.1, x) == holds(stage.1, x)
  }

  /** All of `stages` from `k` on keep `x`. */
  predicate KeptFrom<R, P>(stages: seq<(Kind, P)>, keeps: (P, R) -> bool, k: nat, x: R)
  {
    forall i | k <= i < |stages| :: keeps(stages[i].1, x)
  }

  /** One stage on input ordered by `key`. */
  lemma StageSorted<R(!new), E, P>(s: Stream<R, E>, stage: (Kind, P), holds: (P, R) -> bool, keeps: (P, R) -> bool, key: R -> int, bound: P -> int, p: R -> bool, q: R -> bool)
    requires SortedBy(s.items, key) && SortedStage(stage, holds, keeps, key, bound)
    requires forall x :: p(x) == holds(stage.1, x) && q(x) == keeps(stage.1, x)
    ensures Apply(stage.0, s, p).items == FilterSeq(s.items, q)
  {
    match stage.0
    case DropLeading =>
      DropWhileSorted(s.items, key, bound(stage.1), p, q);
    case TakeLeading =>
      TakeWhileSorted(s.items, key, bound(stage.1), p);
      FilterSeqAgree(s.items, p, q);
    case KeepMatching =>
      FilterSeqAgree(s.items, p, q);
  }

  /**
   * On input ordered by `key`, a pipeline of stages that are each a plain filter when the
   * input is ordered keeps exactly what every stage keeps.
   */
  lemma {:induction false} SortedPipe<R(!new), E, P>(s: Stream<R, E>, stages: seq<(Kind, P)>, holds: (P, R) -> bool, keeps: (P, R) -> bool, key: R -> int, bound: P -> int)
    requires SortedBy(s.items, key)
    requires forall i | 0 <= i < |stages| :: SortedStage(stages[i], holds, keeps, key, bound)
    ensures Pipe(s, stages, holds).items == FilterSeq(s.items, x => KeptFrom(stages, keeps, 0, x))
    decreases |stages|
  {
    var all := x => KeptFrom(stages, keeps, 0, x);
    if stages == [] {
      FilterSeqAgree(s.items, all, x => true);
      FilterSeqAll(s.items);
    } else {
      var pred := stages[0].1;
      var p := x => holds(pred, x);
      var first := x => keeps(pred, x);
      PipeHead(s, stages, holds, p);
      var s1 := Apply(stages[0].0, s, p);
      StageSorted(s, stages[0], holds, keeps, key, bound, p, first);
      FilterSeqSorted(s.items, first, key);
      var tail := stages[1..];
      assert forall i | 0 <= i < |tail| :: tail[i] == stages[i + 1];
      SortedPipe(s1, tail, holds, keeps, key, bound);
      var rest := x => KeptFrom(tail, keeps, 0, x);
      KeptSplit(stages, keeps, first, rest, all);
      FilterSeqTwice(s.items, first, rest, all);
    }
  }

  /** Kept by all stages is kept by the first and by all the others. */
  lemma KeptSplit<R, P>(stages: seq<(Kind, P)>, keeps: (P, R) -> bool, first: R -> bool, rest: R -> bool, all: R -> bool)
    requires stages != []
    requires forall x :: first(x) == keeps(stages[0].1, x)
    requires forall x :: rest(x) == KeptFrom(stages[1..], keeps, 0, x)
    requires forall x :: all(x) == KeptFrom(stages, keeps, 0, x)
    ensures forall x :: all(x) == (first(x) && rest(x))
  {
    forall x ensures all(x) == (first(x) && rest(x)) {
      if first(x) && rest(x) {
        forall i | 0 <= i < |stages| ensures keeps(stages[i].1, x) {
          if i > 0 { assert stages[i] == stages[1..][i - 1]; }
        }
      }
    }
  }
}
