/**
 The process-wide websocket numbering of main.go (`globalSocketCount` and
 `nextSocketNum`): a counter that starts at zero and is bumped on every use.
 The numbers are for log messages only.
 */
module SocketCount {

  class SocketCounter {
    var count: int
    /** Every number handed out so far, in the order it was handed out. */
    ghost var Issued: seq<int>

    ghost predicate Valid()
      reads this
    {
      && 0 <= count
      && (forall i, j :: 0 <= i < j < |Issued| ==> Issued[i] < Issued[j])
      && (forall i :: 0 <= i < |Issued| ==> 0 < Issued[i] <= count)
    }

    /** The counter is zero when the process starts. */
    constructor ()
      ensures Valid() && count == 0 && Issued == []
    {
      count := 0;
      Issued := [];
    }

    /** Returns the previous count plus one and stores it: the result is
        larger than, hence different from, every number handed out before. */
    method Next() returns (n: int)
      requires Valid()
      modifies this
      ensures Valid()
      ensures n == old(count) + 1 && count == n
      ensures Issued == old(Issued) + [n]
      ensures forall k :: k in old(Issued) ==> k < n
    {
      count := count + 1;
      n := count;
      Issued := Issued + [n];
    }
  }

  /** Two successive sockets get increasing, distinct numbers. */
  method NumberTwoSockets(counter: SocketCounter) returns (first: int, second: int)
    requires counter.Valid()
    modifies counter
    ensures counter.Valid()
    ensures first < second && second == first + 1
  {
    first := counter.Next();
    second := counter.Next();
  }
}
