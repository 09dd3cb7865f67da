/** Elements picked from a list in order, told by their positions. */
module Picks {
  predicate Increasing(ix: seq<nat>) {
    forall i, j :: 0 <= i < j < |ix| ==> ix[i] < ix[j]
  }

  predicate Below(ix: seq<nat>, n: nat) {
    forall i :: 0 <= i < |ix| ==> ix[i] < n
  }

  lemma PickNext(ix: seq<nat>, n: nat)
    requires Increasing(ix) && Below(ix, n)
    ensures Increasing(ix + [n]) && Below(ix + [n], n + 1) && Below(ix, n + 1)
    ensures forall k :: k in ix + [n] <==> k in ix || k == n
  {
  }
}
