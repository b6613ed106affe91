/** The counter demo: one integer with increment, decrement and reset. */
module CounterDemo {

  class Counter {
    var count: int

    constructor ()
      ensures count == 0
    {
      count := 0;
    }

    method Increment()
      modifies this
      ensures count == old(count) + 1
    {
      count := count + 1;
    }

    /** No lower bound: the count may go negative. */
    method Decrement()
      modifies this
      ensures count == old(count) - 1
    {
      count := count - 1;
    }

    method Reset()
      modifies this
      ensures count == 0
    {
      count := 0;
    }

    /** Increment then decrement restores the count. */
    method IncrementThenDecrement()
      modifies this
      ensures count == old(count)
    {
      Increment();
      Decrement();
    }

    /** Resetting twice is resetting once. */
    method ResetTwice()
      modifies this
      ensures count == 0
    {
      Reset();
      Reset();
    }
  }

  /** From a fresh counter, one decrement gives a negative count. */
  method DecrementBelowZero() returns (c: Counter)
    ensures fresh(c) && c.count == -1
  {
    c := new Counter();
    c.Decrement();
  }
}
