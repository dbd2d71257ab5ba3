/** Parts of a list that keep its order, given by the positions of their elements. */
module Sublists {

  /** Positions in a list of length `n`, in increasing order. */
  ghost predicate Increasing(at: seq<nat>, n: nat) {
    (forall i :: 0 <= i < |at| ==> at[i] < n) && forall i, j :: 0 <= i < j < |at| ==> at[i] < at[j]
  }

  /** The elements of `out` are those of `ps` at these positions, in the same order. */
  ghost predicate Picks<T>(ps: seq<T>, out: seq<T>, at: seq<nat>) {
    Increasing(at, |ps|) && |at| == |out| && forall i :: 0 <= i < |at| ==> out[i] == ps[at[i]]
  }

  lemma PicksMore<T>(ps: seq<T>, out: seq<T>, at: seq<nat>)
    requires ps != [] && Picks(ps[..|ps| - 1], out, at)
    ensures Picks(ps, out, at) && Picks(ps, out + [ps[|ps| - 1]], at + [|ps| - 1])
    ensures forall j :: j in at ==> j < |ps| - 1
  {
  }

  lemma MemberMore(at: seq<nat>, n: nat)
    ensures forall j :: j in at + [n] <==> j in at || j == n
  {
  }

  lemma PicksNone<T>(ps: seq<T>)
    ensures Picks(ps, [], [])
  {
  }

  /**
   A list that is made by going through `ps` and taking each element or leaving it: `outs` are its
   states on the way, and `takes` tells which elements are taken.
   */
  lemma {:induction false} TakenInOrder<T>(ps: seq<T>, outs: seq<seq<T>>, takes: seq<bool>) returns (at: seq<nat>)
    requires |takes| == |ps| && |outs| == |ps| + 1 && outs[0] == []
    requires forall i :: 0 <= i < |ps| ==> outs[i + 1] == outs[i] + if takes[i] then [ps[i]] else []
    ensures Picks(ps, outs[|ps|], at)
    ensures forall j :: 0 <= j < |ps| ==> (j in at <==> takes[j])
  {
    hide Picks;
    if ps == [] {
      at := [];
      PicksNone(ps);
    } else {
      var n := |ps| - 1;
      var before := TakenInOrder(ps[..n], outs[..n + 1], takes[..n]);
      PicksMore(ps, outs[n], before);
      assert outs[n + 1] == outs[n] + if takes[n] then [ps[n]] else [];
      assert outs[n] + [] == outs[n];
      at := if takes[n] then before + [n] else before;
      MemberMore(before, n);
    }
  }
}
