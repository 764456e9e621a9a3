/** The fixed-capacity circular store of transformation matrices of
    Minimal/ringBuffer.h.  The matrix type is a type parameter `M`: nothing
    here looks inside a matrix.  `std::size_t` values are `nat`: the three
    counters never grow past the capacity, so they never wrap around.  The
    sum `first + pos` of `operator[]` is taken unbounded, although a huge
    caller-supplied `pos` would wrap it in `std::size_t`. */
module RingBuffers {

  /** What `pop` hands back.  `Underrun` is the `logic_error("Buffer underrun")`
      it throws; `NoValue` is the path on which control reaches the end of the
      function without a `return` statement, so the caller receives no
      defined matrix; `Value` is a matrix actually returned. */
  datatype PopOutcome<M> = Underrun | NoValue | Value(value: M)

  function Min(a: nat, b: nat): nat { if a <= b then a else b }

  /** The last `min(|history|, cap)` elements of `history`, oldest first: what a
      FIFO store of capacity `cap` retains after receiving `history`. */
  function Window<M>(history: seq<M>, cap: nat): (w: seq<M>)
    ensures |w| == Min(|history|, cap)
    ensures forall i :: 0 <= i < |w| ==> w[i] == history[|history| - |w| + i]
  {
    history[|history| - Min(|history|, cap)..]
  }

  /** Receiving one more element: append it, and when that exceeds the
      capacity drop the oldest. */
  lemma {:induction false} WindowPush<M>(history: seq<M>, cap: nat, m: M)
    requires cap > 0
    ensures Window(history + [m], cap) == Window(Window(history, cap) + [m], cap)
  {
    var h := history + [m];
    var w := Window(history, cap) + [m];
    assert |Window(h, cap)| == |Window(w, cap)|;
    forall i | 0 <= i < |Window(h, cap)|
      ensures Window(h, cap)[i] == Window(w, cap)[i]
    {
      var k := |Window(w, cap)|;
      if |w| - k + i < |w| - 1 {
        assert Window(w, cap)[i] == Window(history, cap)[|w| - k + i];
      }
    }
  }

  lemma WindowExtend<M>(start: seq<M>, history: seq<M>, n: nat, cap: nat)
    requires n < |history| && cap > 0
    ensures Window(Window(start + history[..n], cap) + [history[n]], cap) == Window(start + history[..n + 1], cap)
  {
    WindowPush(start + history[..n], cap, history[n]);
    assert start + history[..n + 1] == start + history[..n] + [history[n]];
  }

  lemma WindowOfShort<M>(s: seq<M>, cap: nat)
    requires |s| <= cap
    ensures Window(s, cap) == s
  {
  }

  /** Once at least `cap` elements have been received, the window is exactly
      the last `cap` of them, the newest at index `cap - 1`: every element
      received earlier is out of reach. */
  lemma WindowForgetsOlder<M>(history: seq<M>, cap: nat)
    requires 0 < cap <= |history|
    ensures Window(history, cap) == history[|history| - cap..]
    ensures Window(history, cap)[cap - 1] == history[|history| - 1]
  {
  }

  /** `x % cap` for an `x` below two laps, written without division. */
  function Wrap(x: nat, cap: nat): nat
  {
    if x < cap then x else x - cap
  }

  lemma ModOfSmall(x: nat, cap: nat)
    requires 0 < cap && x < 2 * cap
    ensures x % cap == Wrap(x, cap)
  {
    if x >= cap {
      assert x == (x - cap) + 1 * cap;
    }
  }

  lemma {:induction false} MulAtLeast(k: int, cap: nat)
    requires k >= 1
    ensures k * cap >= cap
  {
    if k > 1 {
      MulAtLeast(k - 1, cap);
      assert k * cap == (k - 1) * cap + cap;
    }
  }

  /** The remainder is the only value in `[0, cap)` that differs from `y` by a
      multiple of `cap`. */
  lemma ModUnique(y: nat, cap: nat, q: int, r: int)
    requires cap > 0 && 0 <= r < cap && y == q * cap + r
    ensures y % cap == r
  {
    var d := q - y / cap;
    assert d * cap == y % cap - r by {
      assert y == (y / cap) * cap + y % cap;
      assert d * cap == q * cap - (y / cap) * cap;
    }
    if d >= 1 {
      MulAtLeast(d, cap);
    } else if d <= -1 {
      MulAtLeast(-d, cap);
    }
  }

  lemma ModPlusCap(y: nat, cap: nat)
    requires cap > 0
    ensures (y + cap) % cap == y % cap
  {
    var q, r := y / cap, y % cap;
    assert y == q * cap + r;
    assert y + cap == (q + 1) * cap + r;
    ModUnique(y + cap, cap, q + 1, r);
  }

  /** The `sz` slots of `slots` read from `first` on, wrapping once past the end. */
  function View<M>(slots: seq<M>, first: nat, sz: nat): (s: seq<M>)
    requires first < |slots| && sz <= |slots|
    ensures |s| == sz
  {
    seq(sz, i requires 0 <= i < sz => slots[Wrap(first + i, |slots|)])
  }

  /** `last ≡ first + sz (mod cap)`, with `last == cap` standing for slot 0. */
  predicate AlignedAt(last: nat, first: nat, sz: nat, cap: nat)
  {
    cap > 0 ==> (if last == cap then 0 else last) == Wrap(first + sz, cap)
  }

  /** `push` into a buffer with a free slot: the newest entry is appended. */
  lemma PushViewNotFull<M>(slots: seq<M>, first: nat, sz: nat, slot: nat, m: M)
    requires first < |slots| && sz < |slots| && slot == Wrap(first + sz, |slots|)
    ensures View(slots[slot := m], first, sz + 1) == View(slots, first, sz) + [m]
  {
    var after := View(slots[slot := m], first, sz + 1);
    var w := View(slots, first, sz) + [m];
    forall i | 0 <= i < sz + 1 ensures after[i] == w[i] {
      if i < sz {
        assert Wrap(first + i, |slots|) != slot;
      }
    }
  }

  /** `push` into a full buffer: the oldest slot is overwritten by the newest
      entry and the window moves on by one. */
  lemma PushViewFull<M>(slots: seq<M>, first: nat, m: M)
    requires first < |slots|
    ensures View(slots[first := m], Wrap(first + 1, |slots|), |slots|) == (View(slots, first, |slots|) + [m])[1..]
  {
    var cap := |slots|;
    var after := View(slots[first := m], Wrap(first + 1, cap), cap);
    var w := (View(slots, first, cap) + [m])[1..];
    forall i | 0 <= i < cap ensures after[i] == w[i] {
      assert Wrap(Wrap(first + 1, cap) + i, cap) == Wrap(first + 1 + i, cap);
      if i < cap - 1 {
        assert w[i] == View(slots, first, cap)[i + 1];
        assert Wrap(first + 1 + i, cap) != first;
      } else {
        assert Wrap(first + 1 + i, cap) == first;
      }
    }
  }

  /** The effect of `push` on the entries and on the alignment of the counters. */
  lemma PushView<M>(slots: seq<M>, first: nat, sz: nat, last: nat, m: M)
    requires 0 < |slots| && first < |slots| && sz <= |slots| && last <= |slots|
    requires AlignedAt(last, first, sz, |slots|)
    ensures var cap := |slots|;
      var slot := if last >= cap then 0 else last;
      var first', sz' := if sz == cap then Wrap(first + 1, cap) else first, if sz == cap then sz else sz + 1;
      first' < cap &&
      View(slots[slot := m], first', sz') == Window(View(slots, first, sz) + [m], cap) &&
      AlignedAt(slot + 1, first', sz', cap)
  {
    var cap := |slots|;
    var slot := if last >= cap then 0 else last;
    assert slot == Wrap(first + sz, cap);
    if sz == cap {
      PushViewFull(slots, first, m);
    } else {
      PushViewNotFull(slots, first, sz, slot, m);
    }
  }

  /** The effect of the corrected `pop`: the oldest entry leaves, alignment stays. */
  lemma PopView<M>(slots: seq<M>, first: nat, sz: nat, last: nat)
    requires first < |slots| && 0 < sz <= |slots|
    ensures var first' := if first + 1 == |slots| then 0 else first + 1;
      first' < |slots| &&
      View(slots, first', sz - 1) == View(slots, first, sz)[1..] &&
      (AlignedAt(last, first, sz, |slots|) ==> AlignedAt(last, first', sz - 1, |slots|))
  {
    var first' := if first + 1 == |slots| then 0 else first + 1;
    forall i | 0 <= i < sz - 1
      ensures View(slots, first', sz - 1)[i] == View(slots, first, sz)[1..][i]
    {
      assert Wrap(first' + i, |slots|) == Wrap(first + 1 + i, |slots|);
    }
    assert View(slots, first', sz - 1) == View(slots, first, sz)[1..];
  }

  class RingBuffer<M(0)> {
    var buffer: array<M>
    var first: nat
    var last: nat
    var sz: nat

    /** The ranges the three counters stay in; every operation keeps it. */
    ghost predicate Valid()
      reads this
    {
      if buffer.Length == 0 then first == 0 && last == 0 && sz == 0
      else first < buffer.Length && last <= buffer.Length && sz <= buffer.Length
    }

    /** `last` is the slot after the newest entry: `last == first + sz` modulo
        the capacity.  The constructor and `push` keep it; `pop` as written
        breaks it. */
    ghost predicate Aligned()
      reads this
    {
      AlignedAt(last, first, sz, buffer.Length)
    }

    /** The entries as `operator[]` addresses them, oldest first. */
    ghost function Contents(): (s: seq<M>)
      reads this, buffer
      requires Valid()
      ensures |s| == sz
    {
      if buffer.Length == 0 then [] else View(buffer[..], first, sz)
    }

    /** `Aligned` is the congruence `last ≡ first + sz (mod capacity)`. */
    lemma AlignedIsCongruence()
      requires Valid()
      ensures Aligned() <==>
        (buffer.Length > 0 ==> last % buffer.Length == (first + sz) % buffer.Length)
    {
      if buffer.Length > 0 {
        ModOfSmall(last, buffer.Length);
        ModOfSmall(first + sz, buffer.Length);
      }
    }

    constructor (cap: nat)
      ensures Valid() && Aligned() && fresh(buffer)
      ensures buffer.Length == cap && first == 0 && last == 0 && sz == 0
      ensures Contents() == []
    {
      buffer := new M[cap];
      first, last, sz := 0, 0, 0;
    }

    function Empty(): (r: bool)
      reads this, buffer
      requires Valid()
      ensures r <==> Contents() == []
    {
      sz == 0
    }

    function Full(): (r: bool)
      reads this, buffer
      requires Valid()
      ensures r <==> |Contents()| == buffer.Length
    {
      sz == buffer.Length
    }

    /** `operator[]`: the slot `pos` places after the oldest one, modulo the
        capacity, with no bounds check. */
    function At(pos: nat): (r: M)
      reads this, buffer
      requires Valid() && buffer.Length > 0
      ensures pos < sz ==> r == Contents()[pos]
    {
      ModOfSmall(first + if pos < sz then pos else 0, buffer.Length);
      buffer[(first + pos) % buffer.Length]
    }

    /** An index past the entries is not refused: it is reduced modulo the
        capacity, so `pos` and `pos + capacity` name the same slot, and on a full
        buffer every index names the retained entry `pos % capacity`. */
    lemma {:induction false} AtAliases(pos: nat)
      requires Valid() && buffer.Length > 0
      ensures At(pos + buffer.Length) == At(pos)
      ensures sz == buffer.Length ==> At(pos) == Contents()[pos % buffer.Length]
      decreases pos
    {
      var cap := buffer.Length;
      ModPlusCap(first + pos, cap);
      assert first + (pos + cap) == (first + pos) + cap;
      if pos < cap {
        ModUnique(pos, cap, 0, pos);
      } else {
        AtAliases(pos - cap);
        ModPlusCap(pos - cap, cap);
        assert pos - cap + cap == pos;
      }
    }

    /** Writes `m` at `last` (restarting at 0 once `last` has reached the end)
        and, when the buffer was already full, evicts the oldest entry by
        moving `first` on. */
    method Push(m: M)
      requires Valid() && buffer.Length > 0
      modifies this, buffer
      ensures Valid() && buffer == old(buffer)
      ensures var slot := if old(last) >= buffer.Length then 0 else old(last);
        buffer[..] == old(buffer[..])[slot := m] && last == slot + 1
      ensures old(sz) == buffer.Length ==> sz == buffer.Length && first == (old(first) + 1) % buffer.Length
      ensures old(sz) < buffer.Length ==> sz == old(sz) + 1 && first == old(first)
      ensures old(Aligned()) ==> Aligned() && Contents() == Window(old(Contents()) + [m], buffer.Length)
    {
      ghost var slots := buffer[..];
      ghost var before := Contents();
      var cap := buffer.Length;
      ghost var slot := if last >= cap then 0 else last;
      ghost var first', sz' := if sz == cap then Wrap(first + 1, cap) else first, if sz == cap then sz else sz + 1;
      ghost var wasAligned := Aligned();
      if wasAligned {
        PushView(slots, first, sz, last, m);
      }
      if last >= cap {
        last := 0;
      }
      buffer[last] := m;
      assert buffer[..] == slots[slot := m];
      last := last + 1;
      if sz == cap {
        ModOfSmall(first + 1, cap);
        first := (first + 1) % cap;
      } else {
        sz := sz + 1;
      }
      assert first == first' && sz == sz';
      if wasAligned {
        assert Contents() == View(slots[slot := m], first', sz');
        assert Contents() == Window(before + [m], cap);
      }
    }

    /** `pop` as written: it throws on an empty buffer; otherwise it reads the
        oldest entry into a local it never returns, decrements `sz`, and moves
        `first` one slot on the path where the pre-increment reaches the
        capacity but two slots on every other path, which puts `first` out of
        step with `last`. */
    method PopAsWritten() returns (r: PopOutcome<M>)
      requires Valid()
      modifies this
      ensures Valid() && buffer == old(buffer) && last == old(last)
      ensures old(sz) == 0 ==> r == Underrun && first == old(first) && sz == 0
      ensures old(sz) > 0 ==> r == NoValue && sz == old(sz) - 1
      ensures old(sz) > 0 ==>
        first == if old(first) + 1 == buffer.Length then 0 else (old(first) + 2) % buffer.Length
      ensures old(sz) > 0 && old(first) + 1 == buffer.Length && old(Aligned()) ==> Aligned()
      ensures old(sz) > 0 && old(first) + 1 != buffer.Length && old(Aligned()) ==> !Aligned()
    {
      if sz == 0 {
        return Underrun;
      }
      var toReturn := buffer[first];
      first := first + 1;
      if first == buffer.Length {
        first := 0;
        sz := sz - 1;
      } else {
        ModOfSmall(first + 1, buffer.Length);
        first := (first + 1) % buffer.Length;
        sz := sz - 1;
      }
      r := NoValue;
    }

    /** `pop` as its guard and its local `toReturn` say it was meant: remove and
        return the oldest entry. */
    method Pop() returns (r: PopOutcome<M>)
      requires Valid()
      modifies this
      ensures Valid() && buffer == old(buffer) && last == old(last)
      ensures old(sz) == 0 ==> r == Underrun && first == old(first) && sz == 0
      ensures old(sz) > 0 ==> r == Value(old(Contents())[0]) && Contents() == old(Contents())[1..]
      ensures old(Aligned()) ==> Aligned()
    {
      if sz == 0 {
        return Underrun;
      }
      PopView(buffer[..], first, sz, last);
      assert Contents()[0] == buffer[..][Wrap(first + 0, buffer.Length)];
      var toReturn := buffer[first];
      first := first + 1;
      if first == buffer.Length {
        first := 0;
      }
      sz := sz - 1;
      r := Value(toReturn);
    }
  }

  /** Pushing a whole history, one `push` after another: the entries become
      the last `capacity` elements of what was there followed by `history`. */
  method PushAll<M(0)>(b: RingBuffer<M>, history: seq<M>)
    requires b.Valid() && b.Aligned() && b.buffer.Length > 0
    modifies b, b.buffer
    ensures b.Valid() && b.Aligned() && b.buffer == old(b.buffer)
    ensures b.Contents() == Window(old(b.Contents()) + history, b.buffer.Length)
  {
    var n := 0;
    ghost var start := b.Contents();
    var cap := b.buffer.Length;
    WindowOfShort(start, cap);
    while n < |history|
      invariant 0 <= n <= |history|
      invariant b.Valid() && b.Aligned() && b.buffer == old(b.buffer)
      invariant b.Contents() == Window(start + history[..n], cap)
    {
      b.Push(history[n]);
      WindowExtend(start, history, n, cap);
      n := n + 1;
    }
    assert history[..n] == history;
  }

  /** A buffer built by the constructor and then given `history`: index
      `0 .. sz-1` of `operator[]` are the last `min(n, cap)` matrices pushed,
      oldest first. */
  method FromHistory<M(0)>(cap: nat, history: seq<M>) returns (b: RingBuffer<M>)
    requires cap > 0
    ensures fresh(b) && b.Valid() && b.Aligned() && b.buffer.Length == cap
    ensures b.Contents() == Window(history, cap)
  {
    b := new RingBuffer(cap);
    PushAll(b, history);
    assert [] + history == history;
  }

  /** Three pushes into a capacity-3 buffer, then `pop` as written: the two
      entries left reachable are `c` and `a`, the one just popped, while `b`
      has become unreachable. */
  method PopAsWrittenLosesEntry<M(0)>(a: M, b: M, c: M) returns (size: nat, reachable: seq<M>)
    ensures size == 2 && reachable == [c, a]
  {
    var rb := new RingBuffer(3);
    rb.Push(a);
    rb.Push(b);
    rb.Push(c);
    var out := rb.PopAsWritten();
    size := rb.sz;
    reachable := [rb.At(0), rb.At(1)];
  }

  /** The same sequence with the corrected `pop`: it returns `a` and leaves
      `b`, `c` reachable, oldest first. */
  method PopKeepsOrder<M(0)>(a: M, b: M, c: M) returns (popped: PopOutcome<M>, size: nat, reachable: seq<M>)
    ensures popped == Value(a) && size == 2 && reachable == [b, c]
  {
    var rb := new RingBuffer(3);
    rb.Push(a);
    assert rb.Contents() == [a];
    rb.Push(b);
    assert rb.Contents() == [a, b];
    rb.Push(c);
    assert rb.Contents() == [a, b, c];
    popped := rb.Pop();
    size := rb.sz;
    reachable := [rb.At(0), rb.At(1)];
  }
}
