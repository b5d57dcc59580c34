/**
 * The shape of `get_filters`: a fixed list of candidate filters, each yielded only when its
 * option is set, so the filters come out in the candidates' order.
 */
module Selection {
  import opened Streams

  /** The filter an option yields: one filter when the option is set, none otherwise. */
  function Optional<T>(enabled: bool, f: (Kind, T)): seq<(Kind, T)>
  {
    if enabled then [f] else []
  }

  /** The filters of the candidates whose option is set, in order. */
  function Selected<T>(cs: seq<(bool, (Kind, T))>): seq<(Kind, T)>
  {
    if cs == [] then [] else Optional(cs[0].0, cs[0].1) + Selected(cs[1..])
  }

  /** A filter is selected exactly when it is a candidate whose option is set. */
  lemma {:induction false} SelectedMembers<T>(cs: seq<(bool, (Kind, T))>, f: (Kind, T))
    ensures f in Selected(cs) <==> exists k | 0 <= k < |cs| :: cs[k] == (true, f)
  {
    if cs != [] {
      SelectedMembers(cs[1..], f);
      if f in Selected(cs[1..]) {
        var k :| 0 <= k < |cs[1..]| && cs[1..][k] == (true, f);
        assert cs[k + 1] == (true, f);
      }
      if exists k | 0 <= k < |cs| :: cs[k] == (true, f) {
        var k :| 0 <= k < |cs| && cs[k] == (true, f);
        if k > 0 {
          assert cs[1..][k - 1] == (true, f);
        }
      }
    }
  }

  /** The filters' tests are in strictly increasing order of rank. */
  predicate StrictlyRanked<T>(fs: seq<(Kind, T)>, rank: T -> nat)
  {
    forall i, j | 0 <= i < j < |fs| :: rank(fs[i].1) < rank(fs[j].1)
  }

  /** Candidates in strictly increasing order of rank. */
  predicate RankedCandidates<T>(cs: seq<(bool, (Kind, T))>, rank: T -> nat)
  {
    forall i, j | 0 <= i < j < |cs| :: rank(cs[i].1.1) < rank(cs[j].1.1)
  }

  /** Selection keeps the candidates' order: a later filter comes from a later candidate. */
  lemma {:induction false} SelectedOrder<T>(cs: seq<(bool, (Kind, T))>, rank: T -> nat)
    requires RankedCandidates(cs, rank)
    ensures StrictlyRanked(Selected(cs), rank)
  {
    if cs != [] {
      SelectedOrder(cs[1..], rank);
      if cs[0].0 {
        SelectedAbove(cs, rank);
        RankedCons(cs[0].1, Selected(cs[1..]), rank);
      }
    }
  }

  /** The filters selected after the first candidate rank above it. */
  lemma SelectedAbove<T>(cs: seq<(bool, (Kind, T))>, rank: T -> nat)
    requires cs != [] && RankedCandidates(cs, rank)
    ensures forall i | 0 <= i < |Selected(cs[1..])| :: rank(cs[0].1.1) < rank(Selected(cs[1..])[i].1)
  {
    var rest := Selected(cs[1..]);
    forall i | 0 <= i < |rest| ensures rank(cs[0].1.1) < rank(rest[i].1) {
      assert rest[i] in rest;
      SelectedMembers(cs[1..], rest[i]);
      var k :| 0 <= k < |cs[1..]| && cs[1..][k] == (true, rest[i]);
      assert cs[k + 1].1 == rest[i];
    }
  }

  /** A filter ranked below every filter of a ranked sequence can go in front of it. */
  lemma RankedCons<T>(f: (Kind, T), rest: seq<(Kind, T)>, rank: T -> nat)
    requires StrictlyRanked(rest, rank) && forall i | 0 <= i < |rest| :: rank(f.1) < rank(rest[i].1)
    ensures StrictlyRanked([f] + rest, rank)
  {
    var fs := [f] + rest;
    forall i, j | 0 <= i < j < |fs| ensures rank(fs[i].1) < rank(fs[j].1) {
      assert fs[j] == rest[j - 1];
      if i > 0 {
        assert fs[i] == rest[i - 1];
      }
    }
  }

  /** With ranked candidates, a candidate's filter is selected exactly when its option is set. */
  lemma CandidateSelected<T>(cs: seq<(bool, (Kind, T))>, rank: T -> nat, k: nat)
    requires k < |cs| && RankedCandidates(cs, rank)
    ensures cs[k].0 <==> cs[k].1 in Selected(cs)
  {
    SelectedMembers(cs, cs[k].1);
    if cs[k].1 in Selected(cs) {
      var j :| 0 <= j < |cs| && cs[j] == (true, cs[k].1);
      assert j == k;
    }
    if cs[k].0 {
      assert cs[k] == (true, cs[k].1);
    }
  }
}
