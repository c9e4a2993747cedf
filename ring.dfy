/**
 * The delay line: the `AllocRingBuffer<f32>` of the `ringbuffer` crate, seen
 * through the part of its contract the delay effects use. It is a FIFO of
 * fixed capacity; `enqueue` appends and, when the buffer is full, drops the
 * oldest element; `front` is the oldest element and `back` the newest.
 */
module Ring {

  /** The contents after enqueueing `x` into a FIFO of capacity `cap`. */
  function Enqueued(items: seq<real>, x: real, cap: nat): (r: seq<real>)
    requires 1 <= cap && |items| <= cap
    ensures |r| <= cap && r != []
  {
    if |items| == cap then items[1..] + [x] else items + [x]
  }

  /**
   * An enqueue puts `x` last: it is appended to a line that is not full,
   * and a full line keeps its length and drops its oldest value.
   */
  lemma EnqueuedContents(items: seq<real>, x: real, cap: nat)
    requires 1 <= cap && |items| <= cap
    ensures var r := Enqueued(items, x, cap);
      && r[|r| - 1] == x
      && (|items| < cap ==> r == items + [x])
      && (|items| == cap ==> |r| == cap && r[..cap - 1] == items[1..])
  {
  }

  /** The last `n` elements of `q` (all of it when it is shorter). */
  function LastN(q: seq<real>, n: nat): (r: seq<real>)
    ensures |r| == if |q| <= n then |q| else n
  {
    if |q| <= n then q else q[|q| - n..]
  }

  /**
   * A FIFO of capacity `cap` holds exactly the last `cap` values ever put
   * into it: enqueueing into the window of a stream gives the window of the
   * longer stream.
   */
  lemma EnqueuedLastN(q: seq<real>, x: real, cap: nat)
    requires 1 <= cap
    ensures Enqueued(LastN(q, cap), x, cap) == LastN(q + [x], cap)
  {
    var w := LastN(q, cap);
    if |q| < cap {
      assert Enqueued(w, x, cap) == q + [x];
    } else {
      assert w[1..] == q[|q| - cap + 1..];
      assert (q + [x])[|q| + 1 - cap..] == q[|q| - cap + 1..] + [x];
    }
  }

  /**
   * The oldest value of a line that started holding one `0.0` and has since
   * received `e[..k]`: `0.0` while fewer than `cap` values were enqueued,
   * otherwise the value enqueued `cap` steps earlier.
   */
  function FrontAfter(e: seq<real>, k: nat, cap: nat): real
    requires 1 <= cap && k <= |e|
  {
    if k < cap then 0.0 else e[k - cap]
  }

  /** The line's front is the value enqueued `cap` steps before (or the initial `0.0`). */
  lemma LineFront(e: seq<real>, k: nat, cap: nat)
    requires 1 <= cap && k <= |e|
    ensures LastN([0.0] + e[..k], cap) != []
    ensures LastN([0.0] + e[..k], cap)[0] == FrontAfter(e, k, cap)
  {
    var q := [0.0] + e[..k];
    if k >= cap {
      assert LastN(q, cap)[0] == q[k + 1 - cap] == e[k - cap];
    }
  }

  /** While a line that started with one `0.0` is not full, that `0.0` is still its front. */
  lemma NotFullFrontIsZero(e: seq<real>, cap: nat)
    requires 1 <= cap
    ensures |LastN([0.0] + e, cap)| < cap ==> LastN([0.0] + e, cap)[0] == 0.0
  {
  }

  function Square(v: real): real {
    v * v
  }

  /** Sum of the squares of the values in `s` (`iter().map(|v| v * v).sum()`). */
  function SumSquares(s: seq<real>): real
  {
    if s == [] then 0.0 else SumSquares(s[..|s| - 1]) + Square(s[|s| - 1])
  }

  /** A sum of squares is never negative. */
  lemma {:induction false} SumSquaresNonNegative(s: seq<real>)
    ensures SumSquares(s) >= 0.0
  {
    if s != [] {
      SumSquaresNonNegative(s[..|s| - 1]);
      assert Square(s[|s| - 1]) >= 0.0;
    }
  }

  /** The sum of squares split off at the front. */
  lemma {:induction false} SumSquaresFront(s: seq<real>)
    requires s != []
    ensures SumSquares(s) == Square(s[0]) + SumSquares(s[1..])
  {
    if |s| > 1 {
      var init := s[..|s| - 1];
      SumSquaresFront(init);
      assert init[1..] == s[1..][..|s[1..]| - 1];
    }
  }

  /**
   * The bookkeeping of the delay's energy test: when the front was the
   * element dropped (the line was full) or was the initial `0.0` (the line
   * was not yet full), subtracting front² and adding the new value² keeps the
   * running sum equal to the sum of squares of the line.
   */
  lemma SquareSumAfterEnqueue(items: seq<real>, x: real, cap: nat)
    requires 1 <= cap && |items| <= cap && items != []
    requires |items| < cap ==> items[0] == 0.0
    ensures SumSquares(Enqueued(items, x, cap))
         == SumSquares(items) - Square(items[0]) + Square(x)
  {
    if |items| == cap {
      SquareSumWhenFull(items, x, cap);
    } else {
      SquareSumWhenFilling(items, x, cap);
    }
  }

  lemma SquareSumWhenFull(items: seq<real>, x: real, cap: nat)
    requires 1 <= cap && |items| == cap
    ensures SumSquares(Enqueued(items, x, cap))
         == SumSquares(items) - Square(items[0]) + Square(x)
  {
    assert Enqueued(items, x, cap) == items[1..] + [x];
    SumSquaresSnoc(items[1..], x);
    SumSquaresFront(items);
  }

  lemma SquareSumWhenFilling(items: seq<real>, x: real, cap: nat)
    requires |items| < cap && items != [] && items[0] == 0.0
    ensures SumSquares(Enqueued(items, x, cap))
         == SumSquares(items) - Square(items[0]) + Square(x)
  {
    assert Enqueued(items, x, cap) == items + [x];
    SumSquaresSnoc(items, x);
    ZeroSquare(items[0]);
  }

  lemma SumSquaresSnoc(s: seq<real>, x: real)
    ensures SumSquares(s + [x]) == SumSquares(s) + Square(x)
  {
    assert (s + [x])[..|s|] == s;
  }

  lemma ZeroSquare(v: real)
    requires v == 0.0
    ensures Square(v) == 0.0
  {
  }

  /** The delay line as the object the delay effects mutate. */
  class RingBuffer {
    const capacity: nat
    var items: seq<real>

    ghost predicate Valid()
      reads this
    {
      1 <= capacity && |items| <= capacity
    }

    /** `AllocRingBuffer::new(capacity)`; the crate refuses a zero capacity. */
    constructor (capacity: nat)
      requires 1 <= capacity
      ensures Valid() && this.capacity == capacity && items == []
    {
      this.capacity := capacity;
      items := [];
    }

    /** `enqueue`: append, dropping the oldest value when full. */
    method Enqueue(x: real)
      requires Valid()
      modifies this
      ensures Valid() && items == Enqueued(old(items), x, capacity)
    {
      items := Enqueued(items, x, capacity);
    }

    /** `front().unwrap()`: the oldest value. */
    function Front(): (r: real)
      reads this
      requires items != []
      ensures [r] + items[1..] == items
    {
      items[0]
    }

    /** `back().unwrap()`: the newest value. */
    function Back(): (r: real)
      reads this
      requires items != []
      ensures items[..|items| - 1] + [r] == items
    {
      items[|items| - 1]
    }

    /** `iter().map(|v| v * v).sum()`: the energy of the line, accumulated oldest first. */
    method SquareSum() returns (sum: real)
      requires Valid()
      ensures sum == SumSquares(items)
      ensures sum >= 0.0
    {
      sum := 0.0;
      for i := 0 to |items|
        invariant sum == SumSquares(items[..i])
      {
        assert items[..i + 1][..i] == items[..i];
        sum := sum + Square(items[i]);
      }
      assert items[..|items|] == items;
      SumSquaresNonNegative(items);
    }
  }
}
