/**
 The standard priority queue of integer pairs with the smallest pair on top, kept
 as the sequence of its entries.
 */
module PriorityQueue {

  datatype Entry = Entry(first: nat, second: nat)

  type Queue = seq<Entry>

  /** Lexicographic order of pairs, as std::greater uses it. */
  predicate AtMost(x: Entry, y: Entry) {
    x.first < y.first || (x.first == y.first && x.second <= y.second)
  }

  predicate Distinct(pq: Queue) {
    forall i, j :: 0 <= i < j < |pq| ==> pq[i] != pq[j]
  }

  /** Position of a smallest entry. */
  method Top(pq: Queue) returns (k: nat)
    requires pq != []
    ensures k < |pq|
    ensures forall i :: 0 <= i < |pq| ==> AtMost(pq[k], pq[i])
  {
    k := 0;
    for i := 1 to |pq|
      invariant k < |pq|
      invariant forall j :: 0 <= j < i ==> AtMost(pq[k], pq[j])
    {
      if !AtMost(pq[k], pq[i]) { k := i; }
    }
  }

  /** The queue without the entry at k. */
  function Without(pq: Queue, k: nat): (rest: Queue)
    requires k < |pq|
    ensures |rest| == |pq| - 1
    ensures forall x :: x in pq && x != pq[k] ==> x in rest
    ensures forall x :: x in rest ==> x in pq
    ensures Distinct(pq) ==> Distinct(rest) && pq[k] !in rest
  {
    pq[..k] + pq[k + 1..]
  }

  lemma DistinctPush(pq: Queue, e: Entry)
    requires Distinct(pq) && e !in pq
    ensures Distinct(pq + [e])
  {
  }
}
