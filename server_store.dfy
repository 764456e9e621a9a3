/** The server's two global player records and its two remote procedures:
    `in` stores the record a client sends under the client's id, and `out`
    sends back the record stored under an id.  Id 1 names the first record
    and every other id the second; no id is refused.  `P` is the record
    type (the server's `Player`). */
module ServerStore {

  /** Which of the two records an id names. */
  datatype Which = First | Second

  function Addressed(id: int): (w: Which)
    ensures w == First <==> id == 1
  {
    if id == 1 then First else Second
  }

  /** The two stored records. */
  datatype State<P> = State(first: P, second: P)

  /** The store after `in(id, p)`: the addressed record is replaced by `p`. */
  function Write<P>(s: State<P>, id: int, p: P): State<P>
  {
    match Addressed(id)
    case First => s.(first := p)
    case Second => s.(second := p)
  }

  /** What `out(id)` returns. */
  function Read<P>(s: State<P>, id: int): P
  {
    match Addressed(id)
    case First => s.first
    case Second => s.second
  }

  /** A record written under an id is read back under that id: every client
      gets its own record echoed, whatever its id. */
  lemma ReadOwnWrite<P>(s: State<P>, id: int, p: P)
    ensures Read(Write(s, id, p), id) == p
  {
  }

  /** A write under one record's ids leaves the other record alone. */
  lemma WriteIsolated<P>(s: State<P>, id: int, other: int, p: P)
    requires Addressed(other) != Addressed(id)
    ensures Read(Write(s, id, p), other) == Read(s, other)
  {
  }

  /** Ids that name the same record are interchangeable: every id other than
      1 behaves as 2. */
  lemma SameRecordSameEffect<P>(s: State<P>, id: int, p: P)
    requires id != 1
    ensures Write(s, id, p) == Write(s, 2, p)
    ensures Read(s, id) == Read(s, 2)
  {
  }

  /** A later write to the same record replaces an earlier one. */
  lemma LaterWriteWins<P>(s: State<P>, id1: int, id2: int, p: P, q: P)
    requires Addressed(id1) == Addressed(id2)
    ensures Write(Write(s, id1, p), id2, q) == Write(s, id2, q)
  {
  }

  /** Writing the same record twice is writing it once. */
  lemma WriteIdempotent<P>(s: State<P>, id: int, p: P)
    ensures Write(Write(s, id, p), id, p) == Write(s, id, p)
  {
    LaterWriteWins(s, id, id, p, p);
  }

  /** Writes to the two records commute. */
  lemma WritesCommute<P>(s: State<P>, id1: int, id2: int, p: P, q: P)
    requires Addressed(id1) != Addressed(id2)
    ensures Write(Write(s, id1, p), id2, q) == Write(Write(s, id2, q), id1, p)
  {
  }

  /** The store after a sequence of `in` calls, in order. */
  function Replay<P>(s: State<P>, calls: seq<(int, P)>): State<P>
    decreases |calls|
  {
    if calls == [] then s
    else Replay(Write(s, calls[0].0, calls[0].1), calls[1..])
  }

  /** The record a read finds after a sequence of calls: the one sent by the
      last call addressed to the same record, or the one stored before if
      there was none. */
  function LastSent<P>(s: State<P>, calls: seq<(int, P)>, id: int): P
    decreases |calls|
  {
    if calls == [] then Read(s, id)
    else if Addressed(calls[|calls| - 1].0) == Addressed(id) then calls[|calls| - 1].1
    else LastSent(s, calls[..|calls| - 1], id)
  }

  lemma {:induction false} ReplayAppend<P>(s: State<P>, calls: seq<(int, P)>, id: int, p: P)
    ensures Replay(s, calls + [(id, p)]) == Write(Replay(s, calls), id, p)
    decreases |calls|
  {
    if calls == [] {
      assert calls + [(id, p)] == [(id, p)];
    } else {
      assert (calls + [(id, p)])[1..] == calls[1..] + [(id, p)];
      ReplayAppend(Write(s, calls[0].0, calls[0].1), calls[1..], id, p);
    }
  }

  /** Last write wins: after any sequence of calls, each record is the one
      the last call to it sent. */
  lemma {:induction false} ReplayLastWrite<P>(s: State<P>, calls: seq<(int, P)>, id: int)
    ensures Read(Replay(s, calls), id) == LastSent(s, calls, id)
    decreases |calls|
  {
    if calls != [] {
      var init, last := calls[..|calls| - 1], calls[|calls| - 1];
      assert calls == init + [last];
      ReplayAppend(s, init, last.0, last.1);
      ReplayLastWrite(s, init, id);
    }
  }

  /** The server's globals `first` and `second`. */
  class Store<P> {
    var first: P
    var second: P

    function Contents(): State<P>
      reads this
    {
      State(first, second)
    }

    /** Both records start as the given one (the server's globals start
        zero-initialised). */
    constructor (initial: P)
      ensures Contents() == State(initial, initial)
    {
      first := initial;
      second := initial;
    }

    /** The `in` procedure. */
    method In(id: int, p: P)
      modifies this
      ensures Contents() == Write(old(Contents()), id, p)
    {
      if id == 1 {
        first := p;
      } else {
        second := p;
      }
    }

    /** The `out` procedure. */
    function Out(id: int): (r: P)
      reads this
      ensures r == Read(Contents(), id)
    {
      if id == 1 then first else second
    }
  }
}
