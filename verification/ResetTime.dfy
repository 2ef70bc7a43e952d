/**
 * Rebasing progress timestamps (progress/reset.go). Times are nanoseconds; a Duration is a 64-bit signed number of
 * them, so that Sub saturates and the negation of the smallest duration is itself.
 */
module ResetTime {
  import opened Text

  const MIN_DURATION := -0x8000_0000_0000_0000
  const MAX_DURATION := 0x7fff_ffff_ffff_ffff

  /** time.Time.Sub. */
  function Sub(a: int, b: int): (d: int)
    ensures MIN_DURATION <= d <= MAX_DURATION
    ensures MIN_DURATION <= a - b <= MAX_DURATION ==> d == a - b
  {
    if a - b < MIN_DURATION then MIN_DURATION else if a - b > MAX_DURATION then MAX_DURATION else a - b
  }

  /** Negation of a Duration. */
  function Negate(d: int): int {
    if d == MIN_DURATION then MIN_DURATION else -d
  }

  /** The time fields of a vertex, a status or a log entry; absent fields are None. */
  datatype Times = Times(started: Option<int>, completed: Option<int>, stamp: Option<int>)

  function Move(t: Option<int>, offset: int): Option<int> {
    if t.Some? then Some(t.value + offset) else None
  }

  function Moved(t: Times, offset: int): Times {
    Times(Move(t.started, offset), Move(t.completed, offset), Move(t.stamp, offset))
  }

  class Timed {
    var started: Option<int>
    var completed: Option<int>
    var stamp: Option<int>

    constructor (value: Times)
      ensures Value() == value
    {
      started, completed, stamp := value.started, value.completed, value.stamp;
    }

    function Value(): Times
      reads this
    {
      Times(started, completed, stamp)
    }

    method MoveBy(offset: int)
      modifies this
      ensures Value() == Moved(old(Value()), offset)
    {
      if started.Some? {
        started := Some(started.value + offset);
      }
      if completed.Some? {
        completed := Some(completed.value + offset);
      }
      if stamp.Some? {
        stamp := Some(stamp.value + offset);
      }
    }
  }

  /** A status message. Only vertexes can start the rebasing. */
  datatype SolveStatus = SolveStatus(vertexes: seq<Timed>, statuses: seq<Timed>, logs: seq<Timed>)
  {
    function All(): seq<Timed> {
      vertexes + statuses + logs
    }

    ghost function Objects(): set<Timed> {
      set t | t in All()
    }
  }

  predicate Distinct(ts: seq<Timed>) {
    forall i, j :: 0 <= i < j < |ts| ==> ts[i] != ts[j]
  }

  function Values(ts: seq<Timed>): (r: seq<Times>)
    reads ts
    ensures |r| == |ts| && forall i :: 0 <= i < |ts| ==> r[i] == ts[i].Value()
  {
    seq(|ts|, i requires 0 <= i < |ts| reads ts => ts[i].Value())
  }

  method MoveAll(ts: seq<Timed>, offset: int)
    requires Distinct(ts)
    modifies ts
    ensures forall i :: 0 <= i < |ts| ==> ts[i].Value() == Moved(old(ts[i].Value()), offset)
  {
    for i := 0 to |ts|
      invariant forall k :: 0 <= k < |ts| ==>
        ts[k].Value() == if k < i then Moved(old(ts[k].Value()), offset) else old(ts[k].Value())
    {
      ts[i].MoveBy(offset);
    }
  }

  /** The records of a message say what they said before, moved by an offset. */
  ghost predicate SaysMoved(st: SolveStatus, was: seq<Times>, offset: int)
    requires |was| == |st.All()|
    reads st.Objects()
  {
    forall i :: 0 <= i < |was| ==> st.All()[i].Value() == Moved(was[i], offset)
  }

  /** The last vertex that has started: the loop that sets the offset does not stop at the first. */
  function Anchor(vertexes: seq<Times>): Option<int> {
    if vertexes == [] then None
    else if vertexes[|vertexes| - 1].started.Some? then vertexes[|vertexes| - 1].started
    else Anchor(vertexes[..|vertexes| - 1])
  }

  function DiffAfter(diff: Option<int>, tm: int, vertexes: seq<Times>): Option<int> {
    if diff.Some? then diff
    else match Anchor(vertexes)
         case None => None
         case Some(t) => Some(Sub(t, tm))
  }

  function OffsetOf(diff: Option<int>): int {
    if diff.Some? then Negate(diff.value) else 0
  }

  class TimeWriter {
    const tm: int
    var diff: Option<int>

    constructor (tm: int)
      ensures this.tm == tm && diff == None
    {
      this.tm, diff := tm, None;
    }

    method FindAnchor(vertexes: seq<Timed>)
      modifies this
      ensures diff == DiffAfter(old(diff), tm, Values(vertexes))
    {
      if diff.None? {
        ghost var values := Values(vertexes);
        for i := 0 to |vertexes|
          invariant diff == DiffAfter(None, tm, values[..i])
        {
          assert values[..i + 1][..i] == values[..i];
          if vertexes[i].started.Some? {
            diff := Some(Sub(vertexes[i].started.value, tm));
          }
        }
        assert values[..|vertexes|] == values;
      }
    }

    method Rebase(st: SolveStatus)
      requires Distinct(st.All())
      modifies this, st.Objects()
      ensures diff == DiffAfter(old(diff), tm, old(Values(st.vertexes)))
      ensures forall i :: 0 <= i < |st.All()| ==> st.All()[i].Value() == Moved(old(st.All()[i].Value()), OffsetOf(diff))
    {
      FindAnchor(st.vertexes);
      if diff.Some? {
        MoveAll(st.All(), Negate(diff.value));
      }
    }
  }

  // ----- a whole stream

  /** What the goroutine's select receives. */
  datatype Input = Status(st: SolveStatus) | Closed | WriterDone

  /** The offset in force after some batches of vertexes. */
  function DiffUpTo(tm: int, batches: seq<seq<Times>>): Option<int> {
    if batches == [] then None
    else DiffAfter(DiffUpTo(tm, batches[..|batches| - 1]), tm, batches[|batches| - 1])
  }

  /** The first batches of the stream, up to whatever ends it. */
  predicate Begins(inputs: seq<Input>, sts: seq<SolveStatus>) {
    && |sts| <= |inputs|
    && (forall k :: 0 <= k < |sts| ==> inputs[k] == Status(sts[k]))
    && (|sts| < |inputs| ==> !inputs[|sts|].Status?)
  }

  /** Every record of the stream is an object of its own. */
  ghost predicate FreshRecords(sts: seq<SolveStatus>) {
    && (forall k :: 0 <= k < |sts| ==> Distinct(sts[k].All()))
    && (forall k, l :: 0 <= k < l < |sts| ==> sts[k].Objects() !! sts[l].Objects())
  }

  predicate SameShape(sts: seq<SolveStatus>, was: seq<seq<Times>>) {
    |was| == |sts| && forall k :: 0 <= k < |sts| ==> |was[k]| == |sts[k].All()|
  }

  ghost function Records(sts: seq<SolveStatus>): (r: set<Timed>)
    ensures forall k :: 0 <= k < |sts| ==> sts[k].Objects() <= r
  {
    set k, t | 0 <= k < |sts| && t in sts[k].All() :: t
  }

  /** The records of the k-th batch were moved by offsets[k]. */
  ghost predicate AllSayMoved(sts: seq<SolveStatus>, was: seq<seq<Times>>, offsets: seq<int>)
    requires SameShape(sts, was) && |offsets| == |sts|
    reads Records(sts)
  {
    forall k :: 0 <= k < |sts| ==> SaysMoved(sts[k], was[k], offsets[k])
  }

  /** One batch: its records move, those of the other batches do not. */
  method Relay(
      w: TimeWriter, ghost sts: seq<SolveStatus>, ghost was: seq<seq<Times>>, ghost offsets: seq<int>, ghost next: nat,
      st: SolveStatus)
    requires FreshRecords(sts) && SameShape(sts, was) && next < |sts| == |offsets| && st == sts[next]
    requires AllSayMoved(sts, was, offsets) && offsets[next] == 0
    modifies w, st.Objects()
    ensures w.diff == DiffAfter(old(w.diff), w.tm, was[next][..|st.vertexes|])
    ensures AllSayMoved(sts, was, offsets[next := OffsetOf(w.diff)])
  {
    assert SaysMoved(st, was[next], 0);
    assert Values(st.vertexes) == was[next][..|st.vertexes|];
    w.Rebase(st);
    assert SaysMoved(st, was[next], OffsetOf(w.diff));
  }

  /** The vertexes of each batch. */
  function Batches(sts: seq<SolveStatus>, was: seq<seq<Times>>): seq<seq<Times>>
    requires SameShape(sts, was)
  {
    seq(|sts|, k requires 0 <= k < |sts| => assert |was[k]| == |sts[k].All()|; was[k][..|sts[k].vertexes|])
  }

  /** The offset in force for each of the first `done` batches, and 0 for the rest. */
  function Offsets(tm: int, batches: seq<seq<Times>>, done: nat): (r: seq<int>)
    ensures |r| == |batches|
  {
    seq(|batches|, k requires 0 <= k < |batches| => if k < done then OffsetOf(DiffUpTo(tm, batches[..k + 1])) else 0)
  }

  lemma OffsetsAfter(tm: int, batches: seq<seq<Times>>, next: nat)
    requires next < |batches|
    ensures Offsets(tm, batches, next)[next] == 0
    ensures DiffUpTo(tm, batches[..next + 1]) == DiffAfter(DiffUpTo(tm, batches[..next]), tm, batches[next])
    ensures Offsets(tm, batches, next + 1) ==
      Offsets(tm, batches, next)[next := OffsetOf(DiffUpTo(tm, batches[..next + 1]))]
  {
    assert batches[..next + 1][..next] == batches[..next];
  }

  /**
   * The goroutine of ResetTime over a stream that begins with the batches `sts`: they come out in order, each record
   * moved exactly once, by the offset in force after its own batch; close is passed on at most once.
   * `was` is what the records say when the stream begins, with nothing moved yet.
   */
  method Run(w: TimeWriter, inputs: seq<Input>, ghost sts: seq<SolveStatus>, ghost was: seq<seq<Times>>)
    returns (out: seq<SolveStatus>, closes: nat)
    requires Begins(inputs, sts) && FreshRecords(sts) && w.diff == None
    requires SameShape(sts, was) && AllSayMoved(sts, was, Offsets(w.tm, Batches(sts, was), 0))
    modifies w, Records(sts)
    ensures out == sts
    ensures closes == if |sts| < |inputs| && inputs[|sts|].Closed? then 1 else 0
    ensures AllSayMoved(sts, was, Offsets(w.tm, Batches(sts, was), |sts|))
  {
    hide AllSayMoved, FreshRecords, DiffAfter, SaysMoved;
    out, closes := [], 0;
    ghost var batches := Batches(sts, was);
    var next := 0;
    while next < |inputs| && inputs[next].Status?
      invariant next <= |sts| && out == sts[..next]
      invariant w.diff == DiffUpTo(w.tm, batches[..next])
      invariant AllSayMoved(sts, was, Offsets(w.tm, batches, next))
    {
      OffsetsAfter(w.tm, batches, next);
      Relay(w, sts, was, Offsets(w.tm, batches, next), next, inputs[next].st);
      out := out + [inputs[next].st];
      next := next + 1;
    }
    if next < |inputs| && inputs[next].Closed? {
      closes := 1;
    }
  }

  /**
   * A client that breaks the rule of fresh records: `progress.Write` sends a vertex and later a copy of it. When the
   * copy is taken after the first one went through, its start is moved a second time, and the duration is kept only
   * if the offset is zero.
   */
  method WriteThroughReset(w: TimeWriter, started: int, completed: int) returns (first: Timed, second: Timed)
    modifies w
    ensures w.diff == DiffAfter(old(w.diff), w.tm, [Times(Some(started), None, None)])
    ensures first.Value() == Times(Some(started + OffsetOf(w.diff)), None, None)
    ensures second.Value() == Times(Some(started + 2 * OffsetOf(w.diff)), Some(completed + OffsetOf(w.diff)), None)
    ensures second.completed.value - second.started.value == completed - started <==> OffsetOf(w.diff) == 0
  {
    first := new Timed(Times(Some(started), None, None));
    var st := SolveStatus([first], [], []);
    assert st.All() == [first] && first in st.Objects();
    assert Values([first]) == [Times(Some(started), None, None)];
    w.Rebase(st);
    assert first == st.All()[0];
    second := new Timed(first.Value().(completed := Some(completed)));
    var st2 := SolveStatus([second], [], []);
    assert st2.All() == [second] && second in st2.Objects();
    w.Rebase(st2);
    assert second == st2.All()[0];
  }

  /** The offset is fixed by the first batch with a started vertex, and never changes after it. */
  lemma {:induction false} OffsetIsFixed(tm: int, batches: seq<seq<Times>>, k: nat)
    requires k <= |batches| && DiffUpTo(tm, batches[..k]).Some?
    ensures DiffUpTo(tm, batches) == DiffUpTo(tm, batches[..k])
  {
    if k < |batches| {
      var last := |batches| - 1;
      assert batches[..last][..k] == batches[..k];
      OffsetIsFixed(tm, batches[..last], k);
    } else {
      assert batches[..k] == batches;
    }
  }

  /** The three times of a record. */
  function TimeOf(t: Times, field: nat): Option<int> {
    if field == 0 then t.started else if field == 1 then t.completed else t.stamp
  }

  lemma OffsetFrom(tm: int, batches: seq<seq<Times>>, k: nat)
    requires k < |batches| && DiffUpTo(tm, batches[..k + 1]).Some?
    ensures Offsets(tm, batches, |batches|)[k] == OffsetOf(DiffUpTo(tm, batches))
  {
    OffsetIsFixed(tm, batches, k + 1);
  }

  /**
   * After Run: any two times of any records, both from batches of the anchor's batch on, keep their distance, and so
   * all durations and orders, within a batch and across batches.
   */
  lemma DistancesAreKept(
      tm: int, sts: seq<SolveStatus>, was: seq<seq<Times>>, k: nat, i: nat, field: nat, k2: nat, i2: nat, field2: nat)
    requires SameShape(sts, was) && AllSayMoved(sts, was, Offsets(tm, Batches(sts, was), |sts|))
    requires k < |sts| && i < |was[k]| && DiffUpTo(tm, Batches(sts, was)[..k + 1]).Some?
    requires k2 < |sts| && i2 < |was[k2]| && DiffUpTo(tm, Batches(sts, was)[..k2 + 1]).Some?
    ensures
      var a, b := TimeOf(was[k][i], field), TimeOf(was[k2][i2], field2);
      var a', b' := TimeOf(sts[k].All()[i].Value(), field), TimeOf(sts[k2].All()[i2].Value(), field2);
      && (a'.Some? <==> a.Some?) && (b'.Some? <==> b.Some?)
      && (a.Some? && b.Some? ==> b'.value - a'.value == b.value - a.value)
  {
    OffsetFrom(tm, Batches(sts, was), k);
    OffsetFrom(tm, Batches(sts, was), k2);
    assert SaysMoved(sts[k], was[k], Offsets(tm, Batches(sts, was), |sts|)[k]);
    assert SaysMoved(sts[k2], was[k2], Offsets(tm, Batches(sts, was), |sts|)[k2]);
  }

  /** After Run: the records of the batches before the anchor's are as they were. */
  lemma NothingMovesBeforeAnchor(tm: int, sts: seq<SolveStatus>, was: seq<seq<Times>>, k: nat, i: nat)
    requires SameShape(sts, was) && AllSayMoved(sts, was, Offsets(tm, Batches(sts, was), |sts|))
    requires k < |sts| && i < |was[k]| && DiffUpTo(tm, Batches(sts, was)[..k + 1]) == None
    ensures i < |sts[k].All()| && sts[k].All()[i].Value() == was[k][i]
  {
    assert SaysMoved(sts[k], was[k], Offsets(tm, Batches(sts, was), |sts|)[k]);
  }

  /** There is an offset exactly from the first batch on in which some vertex has started. */
  lemma {:induction false} OffsetComesWithStart(tm: int, batches: seq<seq<Times>>)
    ensures DiffUpTo(tm, batches).Some? <==>
      exists k, i :: 0 <= k < |batches| && 0 <= i < |batches[k]| && batches[k][i].started.Some?
  {
    if batches != [] {
      var last := |batches| - 1;
      OffsetComesWithStart(tm, batches[..last]);
      AnchorIsSomeStart(batches[last]);
      if k, i :| 0 <= k < |batches| && 0 <= i < |batches[k]| && batches[k][i].started.Some? {
        assert k < last ==> batches[..last][k] == batches[k];
      }
    }
  }

  lemma {:induction false} AnchorIsSomeStart(vertexes: seq<Times>)
    ensures Anchor(vertexes).Some? <==> exists i :: 0 <= i < |vertexes| && vertexes[i].started.Some?
  {
    if vertexes != [] {
      var last := |vertexes| - 1;
      AnchorIsSomeStart(vertexes[..last]);
      if i :| 0 <= i < |vertexes| && vertexes[i].started.Some? {
        assert i < last ==> vertexes[..last][i] == vertexes[i];
      }
    }
  }

  /** Vertex i of batch k fixes the offset: nothing has started before that batch, nor after it in that batch. */
  predicate IsAnchor(batches: seq<seq<Times>>, tm: int, k: nat, i: nat) {
    && k < |batches| && i < |batches[k]| && DiffUpTo(tm, batches[..k]) == None && batches[k][i].started.Some?
    && forall j :: i < j < |batches[k]| ==> batches[k][j].started.None?
  }

  lemma {:induction false} AnchorIsTheLast(vertexes: seq<Times>, i: nat)
    requires i < |vertexes| && vertexes[i].started.Some?
    requires forall j :: i < j < |vertexes| ==> vertexes[j].started.None?
    ensures Anchor(vertexes) == vertexes[i].started
  {
    if i < |vertexes| - 1 {
      AnchorIsTheLast(vertexes[..|vertexes| - 1], i);
    }
  }

  /**
   * After Run the anchor's start is the writer's creation time, exactly when its distance from that time is a duration
   * that can be negated.
   */
  lemma AnchorBecomesCreationTime(tm: int, sts: seq<SolveStatus>, was: seq<seq<Times>>, k: nat, i: nat)
    requires SameShape(sts, was) && AllSayMoved(sts, was, Offsets(tm, Batches(sts, was), |sts|))
    requires IsAnchor(Batches(sts, was), tm, k, i)
    ensures i < |sts[k].vertexes| && i < |was[k]| && was[k][i].started.Some?
    ensures sts[k].vertexes[i].started == Some(tm) <==> MIN_DURATION < was[k][i].started.value - tm <= MAX_DURATION
  {
    var batches := Batches(sts, was);
    assert batches[k] == was[k][..|sts[k].vertexes|] by {
      assert |was[k]| == |sts[k].All()|;
    }
    AnchorIsTheLast(batches[k], i);
    assert batches[..k + 1][..k] == batches[..k];
    assert SaysMoved(sts[k], was[k], Offsets(tm, batches, |sts|)[k]);
    assert sts[k].All()[i] == sts[k].vertexes[i];
  }
}
