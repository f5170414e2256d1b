/**
  The fixed-capacity circular buffer `ringbuf<T, N>`: `push` overwrites the
  oldest element once the buffer is full, `pop` hands elements back oldest
  first and throws when there is nothing left. The tunnel uses it as the
  bounded window of in-flight echo probes.
 */
module RingBuffer {
  import opened Basics

  /** The slot after `i` in a ring of `n` slots (`i >= N - 1 ? 0 : i + 1`). */
  function Next(i: nat, n: nat): (j: nat)
    requires i < n
    ensures j < n
    ensures j == (i + 1) % n
  {
    if i >= n - 1 then ModUnique(i + 1, n, 1, 0); 0
    else ModUnique(i + 1, n, 0, i + 1); i + 1
  }

  /** The slot `k` places after `start` in a ring of `n` slots. */
  function Slot(start: nat, k: nat, n: nat): (j: nat)
    requires start < n && k < n
    ensures j < n
    ensures j == (start + k) % n
  {
    if start + k < n then ModUnique(start + k, n, 0, start + k); start + k
    else ModUnique(start + k, n, 1, start + k - n); start + k - n
  }

  /** The `len` elements of the ring `buf` read in order from slot `start`. */
  function Window<T>(buf: seq<T>, start: nat, len: nat): (w: seq<T>)
    requires start < |buf| && len <= |buf|
    ensures |w| == len
    ensures forall k :: 0 <= k < len ==> w[k] == buf[Slot(start, k, |buf|)]
  {
    seq(len, k requires 0 <= k < len => buf[Slot(start, k, |buf|)])
  }

  /** What a push does to the sequence of stored elements: append, and drop
      the oldest element when the buffer already holds `cap` of them. */
  function Pushed<T>(w: seq<T>, x: T, cap: nat): (r: seq<T>)
    requires 0 < cap && |w| <= cap
    ensures |r| == if |w| < cap then |w| + 1 else cap
    ensures r[|r| - 1] == x
    ensures r[..|r| - 1] == if |w| < cap then w else w[1..]
  {
    if |w| < cap then w + [x] else w[1..] + [x]
  }

  /** The last `cap` elements of `s` (all of `s` when it is shorter). */
  function Newest<T>(s: seq<T>, cap: nat): (r: seq<T>)
    ensures |r| == if |s| < cap then |s| else cap
  {
    if |s| <= cap then s else s[|s| - cap..]
  }

  /** The stored elements after pushing each of `xs`, in order, onto `w`. */
  function PushAll<T>(w: seq<T>, xs: seq<T>, cap: nat): seq<T>
    requires 0 < cap && |w| <= cap
    decreases |xs|
  {
    if xs == [] then w else PushAll(Pushed(w, xs[0], cap), xs[1..], cap)
  }

  /** Writing the slot just past a window and growing the window by one
      appends the written value. */
  lemma WindowGrow<T>(buf: seq<T>, start: nat, len: nat, x: T)
    requires start < |buf| && len < |buf|
    ensures Window(buf[Slot(start, len, |buf|) := x], start, len + 1)
         == Window(buf, start, len) + [x]
  {
    var n := |buf|;
    var b' := buf[Slot(start, len, n) := x];
    var lhs := Window(b', start, len + 1);
    var rhs := Window(buf, start, len) + [x];
    forall k | 0 <= k < len + 1
      ensures lhs[k] == rhs[k]
    {
      if k < len {
        assert Slot(start, k, n) != Slot(start, len, n);
      }
    }
  }

  /** Dropping the first element of a window moves its start one slot on. */
  lemma WindowDrop<T>(buf: seq<T>, start: nat, len: nat)
    requires start < |buf| && 0 < len <= |buf|
    ensures Window(buf, start, len)[1..] == Window(buf, Next(start, |buf|), len - 1)
  {
    var n := |buf|;
    var lhs := Window(buf, start, len)[1..];
    var rhs := Window(buf, Next(start, n), len - 1);
    forall k | 0 <= k < len - 1
      ensures lhs[k] == rhs[k]
    {
      assert Slot(Next(start, n), k, n) == Slot(start, k + 1, n);
    }
  }

  /** A full ring whose oldest slot (`start`) is overwritten: the window now
      starts one slot on, the old oldest element is gone and `x` is newest. */
  lemma WindowOverwrite<T>(buf: seq<T>, start: nat, x: T)
    requires start < |buf|
    ensures Window(buf[start := x], Next(start, |buf|), |buf|)
         == Window(buf, start, |buf|)[1..] + [x]
  {
    var n := |buf|;
    var b' := buf[start := x];
    var lhs := Window(b', Next(start, n), n);
    WindowDrop(buf, start, n);
    var rhs := Window(buf, Next(start, n), n - 1) + [x];
    forall k | 0 <= k < n
      ensures lhs[k] == rhs[k]
    {
      if k < n - 1 {
        assert Slot(Next(start, n), k, n) == Slot(start, k + 1, n);
      } else {
        assert Slot(Next(start, n), k, n) == start;
      }
    }
  }

  /** Keeping the newest `cap` elements does not depend on how much older
      history is kept, as long as at least `cap` elements are. */
  lemma NewestOfSuffix<T>(a: seq<T>, b: seq<T>, t: seq<T>, cap: nat)
    requires |a| <= |b| && a == b[|b| - |a|..]
    requires a == b || cap <= |a|
    ensures Newest(a + t, cap) == Newest(b + t, cap)
  {
    if a != b {
      var u, v := a + t, b + t;
      assert u == v[|v| - |u|..];
      assert Newest(u, cap) == u[|u| - cap..];
    }
  }

  /** After any run of pushes the buffer holds exactly the newest `cap`
      elements of everything ever pushed, oldest first. */
  lemma {:induction false} PushAllKeepsNewest<T>(w: seq<T>, xs: seq<T>, cap: nat)
    requires 0 < cap && |w| <= cap
    ensures PushAll(w, xs, cap) == Newest(w + xs, cap)
    decreases |xs|
  {
    if xs == [] {
      assert w + xs == w;
    } else {
      var w' := Pushed(w, xs[0], cap);
      PushAllKeepsNewest(w', xs[1..], cap);
      var v := w + [xs[0]];
      assert w + xs == v + xs[1..];
      assert w' == v[|v| - |w'|..];
      NewestOfSuffix(w', v, xs[1..], cap);
    }
  }

  /** Once more than `cap` distinct values have been pushed onto an empty
      buffer, the first of them is no longer stored. */
  lemma EarliestForgotten<T>(xs: seq<T>, cap: nat)
    requires 0 < cap < |xs|
    requires forall i :: 0 < i < |xs| ==> xs[i] != xs[0]
    ensures xs[0] !in PushAll([], xs, cap)
  {
    var r := xs[|xs| - cap..];
    assert PushAll([], xs, cap) == r by {
      PushAllKeepsNewest([], xs, cap);
      assert [] + xs == xs;
    }
    assert xs[0] !in r by {
      forall j | 0 <= j < |r|
        ensures r[j] != xs[0]
      {
        assert r[j] == xs[|xs| - cap + j];
      }
    }
  }

  /** While fewer than `cap` values have been pushed, every one of them is
      still stored, in push order, so pops return them first in, first out. */
  lemma NothingLostBelowCapacity<T>(xs: seq<T>, cap: nat)
    requires 0 < cap && |xs| <= cap
    ensures PushAll([], xs, cap) == xs
  {
    PushAllKeepsNewest([], xs, cap);
    assert [] + xs == xs;
  }

  class RingBuf<T(0)> {
    const N: nat
    const data: array<T>
    var head: nat
    var tail: nat
    var count: nat

    /** `head` is the next slot to write; while the buffer is not full the
        `count` stored elements run from `tail` up to `head`. When it is
        full, `tail` is stale: the oldest element is at `head`. */
    ghost predicate Valid()
      reads this
    {
      && N >= 2 && data.Length == N
      && head < N && tail < N && count <= N
      && (count < N ==> Slot(tail, count, N) == head)
    }

    /** The slot of the oldest stored element. */
    ghost function Start(): (s: nat)
      reads this
      requires Valid()
      ensures s < N
      ensures count < N ==> s == tail
      ensures count == N ==> s == head
    {
      if head >= count then head - count else head + N - count
    }

    /** The stored elements, oldest first. */
    ghost function Contents(): (c: seq<T>)
      reads this, data
      requires Valid()
      ensures |c| == count
    {
      Window(data[..], Start(), count)
    }

    /** `ringbuf()`: an empty buffer whose slots hold default values. */
    constructor (n: nat)
      requires n >= 2
      ensures Valid() && fresh(data)
      ensures N == n && head == 0 && tail == 0 && count == 0
      ensures Contents() == []
    {
      N := n;
      data := new T[n];
      head, tail, count := 0, 0, 0;
    }

    /** `ringbuf(def)`: an empty buffer with every slot filled with `def`. */
    constructor Filled(n: nat, def: T)
      requires n >= 2
      ensures Valid() && fresh(data)
      ensures N == n && head == 0 && tail == 0 && count == 0
      ensures forall i :: 0 <= i < n ==> data[i] == def
      ensures Contents() == []
    {
      N := n;
      data := new T[n](_ => def);
      head, tail, count := 0, 0, 0;
    }

    /** `push(x)`: writes slot `head`, advances `head` cyclically and counts
        up to `N`; a full buffer loses its oldest element. */
    method Push(x: T)
      requires Valid()
      modifies this, data
      ensures Valid()
      ensures data[old(head)] == x
      ensures forall i :: 0 <= i < N && i != old(head) ==> data[i] == old(data[i])
      ensures head == Next(old(head), N) && tail == old(tail)
      ensures count == if old(count) < N then old(count) + 1 else N
      ensures Contents() == Pushed(old(Contents()), x, N)
    {
      ghost var before := data[..];
      ghost var start := Start();
      data[head] := x;
      if count < N {
        WindowGrow(before, start, count, x);
        count := count + 1;
      } else {
        WindowOverwrite(before, start, x);
      }
      head := Next(head, N);
      assert data[..] == before[old(head) := x];
    }

    /** `pop()`: the oldest stored element, which leaves the buffer; on an
        empty buffer the error `AllPopped` and no change. */
    method Pop() returns (r: Result<T>)
      requires Valid()
      modifies this
      ensures Valid() && head == old(head)
      ensures old(count) == 0 ==> r == Err(AllPopped) && count == 0 && tail == old(tail)
      ensures old(count) > 0 ==>
                && r == Ok(old(Contents())[0])
                && count == old(count) - 1
                && Contents() == old(Contents())[1..]
    {
      ghost var start := Start();
      if count == N {
        tail := head;
      }
      var ret := data[tail];
      if count > 0 {
        count := count - 1;
      }
      if tail == head && count == 0 {
        return Err(AllPopped);
      }
      WindowDrop(data[..], start, count + 1);
      tail := Next(tail, N);
      return Ok(ret);
    }
  }
}
