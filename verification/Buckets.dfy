/** Rounding, and the division of a span into slots of equal width, over exact reals. */
module Buckets {

  /** `Math.round`: halves go up. */
  function Round(x: real): int {
    (x + 0.5).Floor
  }

  lemma RoundIsMonotone(x: real, y: real)
    requires x <= y
    ensures Round(x) <= Round(y)
  {
  }

  /** The slot of a position: by division, the last slot taking what lies beyond. */
  function Slot(at: real, width: real, count: int): int
    requires width > 0.0
  {
    var slot := (at / width).Floor;
    if count - 1 < slot then count - 1 else slot
  }

  lemma Quotient(at: real, width: real, q: real)
    requires width > 0.0 && q == at / width
    ensures q * width == at
  {
  }

  lemma Scaled(a: real, b: real, width: real)
    requires width > 0.0
    ensures a <= b ==> a * width <= b * width
    ensures a < b ==> a * width < b * width
  {
  }

  /** Where slot `k` starts. */
  function Edge(k: int, width: real): real {
    k as real * width
  }

  lemma BeforeEdge(at: real, width: real, k: int)
    requires width > 0.0
    ensures at < Edge(k, width) <==> at / width < k as real
  {
    var q, e := at / width, k as real;
    Quotient(at, width, q);
    Scaled(q, e, width);
    Scaled(e, q, width);
  }

  /** A position in the span lies in its slot, and in no other. */
  lemma SlotExact(at: real, width: real, count: int, k: int)
    requires width > 0.0 && 0.0 <= at && count >= 1
    ensures 0 <= Slot(at, width, count) < count
    ensures 0 <= k < count - 1 ==> (Slot(at, width, count) == k <==> Edge(k, width) <= at < Edge(k + 1, width))
    ensures k == count - 1 ==> (Slot(at, width, count) == k <==> Edge(k, width) <= at)
  {
    BeforeEdge(at, width, 0);
    BeforeEdge(at, width, k);
    BeforeEdge(at, width, k + 1);
    hide Edge;
    assert (at / width).Floor == k <==> k as real <= at / width < k as real + 1.0;
  }

  lemma SlotIsMonotone(a: real, b: real, width: real, count: int)
    requires width > 0.0 && a <= b
    ensures Slot(a, width, count) <= Slot(b, width, count)
  {
    var p, q := a / width, b / width;
    Quotient(a, width, p);
    Quotient(b, width, q);
    Scaled(q, p, width);
  }
}
