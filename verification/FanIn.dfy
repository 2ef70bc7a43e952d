/**
 * The progress fan-in (progress/multiwriter.go): every WithPrefix call starts a forwarder that copies its own input
 * channel to one shared output channel; one more goroutine closes that output when all forwarders have returned.
 * The goroutines are a step machine, and a run is any list of their actions.
 */
module FanIn {
  import opened Text

  function AddPrefix(pfx: string, name: string): string {
    if "[" <= name then "[" + pfx + " " + name[1..] else "[" + pfx + "] " + name
  }

  /** A name that is already in brackets gets the prefix inside them, any other in brackets of its own. */
  lemma PrefixGoesInBrackets(pfx: string, name: string)
    ensures AddPrefix(pfx, "[" + name) == "[" + pfx + " " + name
    ensures (name == "" || name[0] != '[') ==> AddPrefix(pfx, name) == "[" + pfx + "] " + name
  {
    assert ("[" + name)[1..] == name;
  }

  /** No two names become the same, and so prefixes of nested writers can be told apart again. */
  lemma PrefixIsInjective(pfx: string, a: string, b: string)
    requires AddPrefix(pfx, a) == AddPrefix(pfx, b)
    ensures a == b
  {
    var pa, pb := AddPrefix(pfx, a), AddPrefix(pfx, b);
    var n := 1 + |pfx|;
    assert pa[n] == (if "[" <= a then ' ' else ']') && pb[n] == (if "[" <= b then ' ' else ']');
    if "[" <= a {
      assert pa[n + 1..] == a[1..] && pb[n + 1..] == b[1..];
      assert a == "[" + a[1..] && b == "[" + b[1..];
    } else {
      assert pa[n + 2..] == a && pb[n + 2..] == b;
    }
  }

  /** A status batch, as the names of its vertexes. */
  type Batch = seq<string>

  function Renamed(pfx: string, force: bool, batch: Batch): Batch {
    if force then seq(|batch|, i requires 0 <= i < |batch| => AddPrefix(pfx, batch[i])) else batch
  }

  /** Spawned: counted by the group, not running yet. Holding: between receiving a batch and sending it. */
  datatype Phase = Spawned | Looping | Holding(batch: Batch) | Exited(normally: bool)

  /**
   * `inputs` is all that the client will ever send; `taken` of them have been received. The client closes its
   * channel last.
   */
  datatype Forwarder = Forwarder(pfx: string, force: bool, inputs: seq<Batch>, taken: nat, inClosed: bool, phase: Phase)

  /**
   * The goroutine of NewMultiWriter: waits for `ready`, then for the group, then closes the output. A call of the
   * group's Wait returns at once if nothing is counted, and else blocks. The last exit releases a blocked call for
   * good: a group that has grown again by the time the call wakes makes it panic.
   */
  datatype Closer = AwaitReady | AboutToWait | Blocked | Released | GroupDone | Finished

  datatype Output = Output(from: nat, batch: Batch)

  datatype State = State(
    forwarders: seq<Forwarder>,
    ready: bool,
    writerDone: bool,
    closer: Closer,
    closes: nat,
    out: seq<Output>,
    panicked: bool)
  {
    function With(f: nat, forwarder: Forwarder): State
      requires f < |forwarders|
    {
      this.(forwarders := forwarders[f := forwarder])
    }

    /** The exit of forwarder f, which the group counts. */
    function Exit(f: nat, normally: bool): (r: State)
      requires f < |forwarders|
      ensures r == With(f, forwarders[f].(phase := Exited(normally))).(closer := r.closer)
    {
      var t := With(f, forwarders[f].(phase := Exited(normally)));
      if closer.Blocked? && t.AllExited() then t.(closer := Released) else t
    }

    predicate AllExited() {
      forall f :: 0 <= f < |forwarders| ==> forwarders[f].phase.Exited?
    }
  }

  const INITIAL := State([], false, false, AwaitReady, 0, [], false)

  datatype Action =
    | WithPrefix(pfx: string, force: bool, inputs: seq<Batch>)
    | Start(f: nat)
    | Receive(f: nat)
    | Send(f: nat)
    | CloseInput(f: nat)
    | SeeClosed(f: nat)
    | SeeDone(f: nat)
    | WriterDone
    | CloserSeesReady
    | CloserCallsWait
    | CloserWakes
    | CloserCloses

  /**
   * The state after an action, or None when the action cannot happen. A send on, or close of, a closed channel
   * panics, and so does a waiter that wakes to a group in use.
   */
  function Next(s: State, a: Action): Option<State> {
    match a
    case WithPrefix(pfx, force, inputs) =>
      Some(s.(forwarders := s.forwarders + [Forwarder(pfx, force, inputs, 0, false, Spawned)]))
    case WriterDone => Some(s.(writerDone := true))
    case CloserSeesReady =>
      if s.closer.AwaitReady? && s.ready then Some(s.(closer := AboutToWait)) else None
    case CloserCallsWait =>
      if s.closer.AboutToWait? then Some(s.(closer := if s.AllExited() then GroupDone else Blocked)) else None
    case CloserWakes =>
      if !s.closer.Released? then None
      else if s.AllExited() then Some(s.(closer := GroupDone))
      else Some(s.(panicked := true))
    case CloserCloses =>
      if !s.closer.GroupDone? then None
      else Some(s.(closer := Finished, closes := s.closes + 1, panicked := s.panicked || s.closes > 0))
    case _ =>
      if a.f < |s.forwarders| then ForwarderNext(s, a, s.forwarders[a.f]) else None
  }

  function ForwarderNext(s: State, a: Action, w: Forwarder): Option<State>
    requires a.Start? || a.Receive? || a.Send? || a.CloseInput? || a.SeeClosed? || a.SeeDone?
    requires a.f < |s.forwarders| && w == s.forwarders[a.f]
  {
    match a
    case Start(f) =>
      if w.phase.Spawned? then Some(s.With(f, w.(phase := Looping)).(ready := true)) else None
    case Receive(f) =>
      if w.phase.Looping? && w.taken < |w.inputs| && !w.inClosed then
        Some(s.With(f, w.(taken := w.taken + 1, phase := Holding(Renamed(w.pfx, w.force, w.inputs[w.taken])))))
      else None
    case Send(f) =>
      if !w.phase.Holding? then None
      else if s.closes > 0 then Some(s.(panicked := true))
      else Some(s.With(f, w.(phase := Looping)).(out := s.out + [Output(f, w.phase.batch)]))
    case CloseInput(f) =>
      if !w.inClosed && w.taken == |w.inputs| then Some(s.With(f, w.(inClosed := true))) else None
    case SeeClosed(f) =>
      if w.phase.Looping? && w.inClosed then Some(s.Exit(f, true)) else None
    case SeeDone(f) =>
      if w.phase.Looping? && s.writerDone then Some(s.Exit(f, false)) else None
  }

  /** The state after a whole run, or None when some action cannot happen. */
  function Run(s: State, actions: seq<Action>): Option<State> {
    if actions == [] then Some(s)
    else
      match Run(s, actions[..|actions| - 1])
      case None => None
      case Some(t) => Next(t, actions[|actions| - 1])
  }

  // ----- what a client has to respect

  /**
   * When a client may call WithPrefix: nobody has yet, or some input is still open, which a client can tell as it
   * closes the inputs itself, and the writer has not ended, which it cannot prevent.
   */
  ghost predicate Open(s: State) {
    || |s.forwarders| == 0
    || (!s.writerDone && exists f :: 0 <= f < |s.forwarders| && !s.forwarders[f].inClosed)
  }

  /** Every WithPrefix call of the run is made in an open state. */
  ghost predicate Disciplined(s: State, actions: seq<Action>) {
    forall k :: 0 <= k < |actions| && actions[k].WithPrefix? ==>
      Run(s, actions[..k]).Some? && Open(Run(s, actions[..k]).value)
  }

  // ----- the invariant

  function Projection(out: seq<Output>, f: nat): seq<Batch> {
    if out == [] then []
    else
      var last := |out| - 1;
      Projection(out[..last], f) + if out[last].from == f then [out[last].batch] else []
  }

  function RenamedAll(w: Forwarder, inputs: seq<Batch>): (r: seq<Batch>)
    ensures |r| == |inputs|
  {
    seq(|inputs|, i requires 0 <= i < |inputs| => Renamed(w.pfx, w.force, inputs[i]))
  }

  function Held(w: Forwarder): seq<Batch> {
    if w.phase.Holding? then [w.phase.batch] else []
  }

  /** What forwarder f has sent and still holds is what it has taken, renamed, in order. */
  predicate Faithful(s: State, f: nat)
    requires f < |s.forwarders|
  {
    var w := s.forwarders[f];
    w.taken <= |w.inputs| && Projection(s.out, f) + Held(w) == Taken(w)
  }

  function Taken(w: Forwarder): seq<Batch>
    requires w.taken <= |w.inputs|
  {
    RenamedAll(w, w.inputs[..w.taken])
  }

  predicate ForwarderInv(s: State, w: Forwarder) {
    && w.taken <= |w.inputs|
    && (w.inClosed ==> w.taken == |w.inputs|)
    && (w.phase.Exited? && w.phase.normally ==> w.inClosed)
    && (w.phase.Exited? && !w.phase.normally ==> s.writerDone)
    && (!w.phase.Spawned? ==> s.ready)
  }

  /** The wait is over, though the closer may not have noticed. */
  predicate PastWait(s: State) {
    s.closer.Released? || s.closer.GroupDone? || s.closer.Finished?
  }

  /** Holds in every run, whatever the client does. */
  ghost predicate BasicInv(s: State) {
    && (forall f :: 0 <= f < |s.forwarders| ==> ForwarderInv(s, s.forwarders[f]))
    && s.closes == (if s.closer.Finished? then 1 else 0)
    && (s.ready ==> |s.forwarders| > 0)
    && (!s.closer.AwaitReady? ==> s.ready)
    && (s.closer.Blocked? ==> !s.AllExited())
    && (forall k :: 0 <= k < |s.out| ==> s.out[k].from < |s.forwarders|)
  }

  /** The group's wait is over only when all forwarders have exited for good. */
  predicate SafeInv(s: State) {
    !s.panicked && (PastWait(s) ==> s.AllExited())
  }

  lemma ProjectionOfAppend(out: seq<Output>, o: Output, f: nat)
    ensures Projection(out + [o], f) == Projection(out, f) + if o.from == f then [o.batch] else []
  {
    assert (out + [o])[..|out|] == out;
  }

  lemma {:induction false} ProjectionOfUnused(out: seq<Output>, f: nat)
    requires forall k :: 0 <= k < |out| ==> out[k].from < f
    ensures Projection(out, f) == []
  {
    if out != [] {
      ProjectionOfUnused(out[..|out| - 1], f);
    }
  }

  /** A blocked closer has somebody to wait for: the last exit releases it. */
  lemma BlockedIsBusy(s: State, a: Action, t: State)
    requires BasicInv(s) && Next(s, a) == Some(t) && t.closer.Blocked?
    ensures !t.AllExited()
  {
    if a.WithPrefix? {
      assert !t.forwarders[|s.forwarders|].phase.Exited?;
    } else if !a.SeeClosed? && !a.SeeDone? {
      var f :| 0 <= f < |s.forwarders| && !s.forwarders[f].phase.Exited?;
      assert !t.forwarders[f].phase.Exited?;
    }
  }

  lemma NextKeepsBasicInv(s: State, a: Action, t: State)
    requires BasicInv(s) && Next(s, a) == Some(t)
    ensures BasicInv(t)
    ensures |t.forwarders| >= |s.forwarders|
  {
    hide Renamed;
    if t.closer.Blocked? {
      BlockedIsBusy(s, a, t);
    }
    ForwardersStayFine(s, a, t);
  }

  lemma ForwardersStayFine(s: State, a: Action, t: State)
    requires BasicInv(s) && Next(s, a) == Some(t)
    ensures forall f :: 0 <= f < |t.forwarders| ==> ForwarderInv(t, t.forwarders[f])
  {
    hide Renamed, State.Exit;
  }

  lemma NextKeepsFaithful(s: State, a: Action, t: State)
    requires BasicInv(s) && Next(s, a) == Some(t)
    requires forall f :: 0 <= f < |s.forwarders| ==> Faithful(s, f)
    ensures forall f :: 0 <= f < |t.forwarders| ==> Faithful(t, f)
  {
    forall f | 0 <= f < |t.forwarders|
      ensures Faithful(t, f)
    {
      if f == |s.forwarders| {
        ProjectionOfUnused(s.out, f);
      } else {
        assert Faithful(s, f);
        StepIsFaithful(s, a, t, f);
      }
    }
  }

  lemma TakenGrows(w: Forwarder, u: Forwarder)
    requires w.taken < |w.inputs| && u.taken == w.taken + 1
    requires u.pfx == w.pfx && u.force == w.force && u.inputs == w.inputs
    ensures Taken(u) == Taken(w) + [Renamed(w.pfx, w.force, w.inputs[w.taken])]
  {
    assert w.inputs[..u.taken] == w.inputs[..w.taken] + [w.inputs[w.taken]];
  }

  lemma SendIsFaithful(s: State, t: State, a: Action, f: nat)
    requires a.Send? && Next(s, a) == Some(t) && s.closes == 0
    requires f < |s.forwarders| && Faithful(s, f)
    ensures Faithful(t, f)
  {
    hide Renamed, RenamedAll, Projection;
    ProjectionOfAppend(s.out, Output(a.f, s.forwarders[a.f].phase.batch), f);
    var w, u := s.forwarders[f], t.forwarders[f];
    SameTaken(w, u);
    assert f == a.f ==> Held(u) == [] && Projection(t.out, f) + [] == Projection(t.out, f);
    assert f != a.f ==> u == w && Projection(s.out, f) + [] == Projection(s.out, f);
  }

  lemma ReceiveIsFaithful(s: State, t: State, f: nat)
    requires Next(s, Receive(f)) == Some(t)
    requires f < |s.forwarders| && Faithful(s, f)
    ensures Faithful(t, f)
  {
    hide Renamed, RenamedAll;
    TakenGrows(s.forwarders[f], t.forwarders[f]);
    assert Projection(s.out, f) + [] == Projection(s.out, f);
  }

  predicate IsForwarderStep(a: Action) {
    a.Start? || a.Receive? || a.Send? || a.CloseInput? || a.SeeClosed? || a.SeeDone?
  }

  /** A forwarder's own data, and what it holds. */
  predicate SameShare(w: Forwarder, u: Forwarder) {
    && u.pfx == w.pfx && u.force == w.force && u.inputs == w.inputs && u.taken == w.taken
    && (u.phase == w.phase || (!u.phase.Holding? && !w.phase.Holding?))
  }

  lemma ForwarderStepKeepsShares(s: State, a: Action, t: State, f: nat)
    requires IsForwarderStep(a) && Next(s, a) == Some(t) && f < |s.forwarders|
    requires !(a.Send? && s.closes == 0) && a != Receive(f)
    ensures t.out == s.out && f < |t.forwarders| && SameShare(s.forwarders[f], t.forwarders[f])
  {
    hide Renamed, State.Exit;
  }

  /** Any other step leaves what a forwarder has taken, holds and has sent. */
  lemma OtherStepsAreFaithful(s: State, a: Action, t: State, f: nat)
    requires Next(s, a) == Some(t)
    requires f < |s.forwarders| && Faithful(s, f) && !(a.Send? && s.closes == 0) && a != Receive(f)
    ensures f < |t.forwarders| && Faithful(t, f)
  {
    hide ForwarderNext, RenamedAll, Projection;
    if IsForwarderStep(a) {
      ForwarderStepKeepsShares(s, a, t, f);
    }
    SameTaken(s.forwarders[f], t.forwarders[f]);
  }

  lemma SameTaken(w: Forwarder, u: Forwarder)
    requires w.taken <= |w.inputs| && u.taken == w.taken && u.inputs == w.inputs && u.pfx == w.pfx && u.force == w.force
    ensures Taken(u) == Taken(w)
  {
    assert forall i :: 0 <= i < |Taken(w)| ==> Taken(u)[i] == Taken(w)[i];
  }

  lemma StepIsFaithful(s: State, a: Action, t: State, f: nat)
    requires BasicInv(s) && Next(s, a) == Some(t)
    requires f < |s.forwarders| && Faithful(s, f)
    ensures f < |t.forwarders| && Faithful(t, f)
  {
    hide Next, Faithful;
    NextKeepsBasicInv(s, a, t);
    if a.Send? && s.closes == 0 {
      SendIsFaithful(s, t, a, f);
    } else if a == Receive(f) {
      ReceiveIsFaithful(s, t, f);
    } else {
      OtherStepsAreFaithful(s, a, t, f);
    }
  }

  lemma {:induction false} RunKeepsInv(actions: seq<Action>)
    requires Run(INITIAL, actions).Some?
    ensures
      var s := Run(INITIAL, actions).value;
      BasicInv(s) && forall f :: 0 <= f < |s.forwarders| ==> Faithful(s, f)
  {
    if actions != [] {
      var last := |actions| - 1;
      RunKeepsInv(actions[..last]);
      var s, t := Run(INITIAL, actions[..last]).value, Run(INITIAL, actions).value;
      NextKeepsBasicInv(s, actions[last], t);
      NextKeepsFaithful(s, actions[last], t);
    }
  }

  /**
   * The group cannot become empty while new forwarders may still come: the wait starts after a counted forwarder
   * did.
   */
  lemma NextKeepsSafeInv(s: State, a: Action, t: State)
    requires BasicInv(s) && SafeInv(s) && Next(s, a) == Some(t)
    requires a.WithPrefix? ==> !PastWait(s)
    ensures SafeInv(t)
  {
  }

  /**
   * In an open state the wait cannot be over: an open input keeps its forwarder running, and that keeps the group
   * up.
   */
  lemma OpenIsNotPastWait(s: State)
    requires BasicInv(s) && SafeInv(s) && Open(s)
    ensures !PastWait(s)
  {
    if |s.forwarders| > 0 {
      var f :| 0 <= f < |s.forwarders| && !s.forwarders[f].inClosed;
      assert ForwarderInv(s, s.forwarders[f]);
    }
  }

  lemma DisciplineOfPrefix(actions: seq<Action>, n: nat)
    requires Disciplined(INITIAL, actions) && n <= |actions|
    ensures Disciplined(INITIAL, actions[..n])
  {
    forall k | 0 <= k < n && actions[..n][k].WithPrefix?
      ensures Run(INITIAL, actions[..n][..k]).Some? && Open(Run(INITIAL, actions[..n][..k]).value)
    {
      assert actions[k].WithPrefix? && actions[..n][..k] == actions[..k];
    }
  }

  lemma {:induction false} DisciplinedRunIsSafe(actions: seq<Action>)
    requires Run(INITIAL, actions).Some? && Disciplined(INITIAL, actions)
    ensures SafeInv(Run(INITIAL, actions).value)
  {
    hide Next, Open;
    if actions != [] {
      var last := |actions| - 1;
      DisciplineOfPrefix(actions, last);
      DisciplinedRunIsSafe(actions[..last]);
      RunKeepsInv(actions[..last]);
      var s := Run(INITIAL, actions[..last]).value;
      if actions[last].WithPrefix? {
        OpenIsNotPastWait(s);
      }
      NextKeepsSafeInv(s, actions[last], Run(INITIAL, actions).value);
    }
  }

  /**
   * The fan-in over every interleaving: the output is closed at most once and only after every forwarder has exited,
   * nothing is ever sent after the close, each forwarder's share of the output is a prefix of its renamed inputs, and
   * it is all of them when that forwarder ended by its input being closed.
   */
  lemma FanInIsSafe(actions: seq<Action>)
    requires Run(INITIAL, actions).Some? && Disciplined(INITIAL, actions)
    ensures
      var s := Run(INITIAL, actions).value;
      && !s.panicked && s.closes <= 1 && (s.closes == 1 ==> s.AllExited())
      && (forall k :: 0 <= k < |s.out| ==> s.out[k].from < |s.forwarders|)
      && forall f :: 0 <= f < |s.forwarders| ==>
           var w := s.forwarders[f];
           && Projection(s.out, f) <= RenamedAll(w, w.inputs)
           && (w.phase == Exited(true) ==> Projection(s.out, f) == RenamedAll(w, w.inputs))
  {
    RunKeepsInv(actions);
    DisciplinedRunIsSafe(actions);
    var s := Run(INITIAL, actions).value;
    forall f | 0 <= f < |s.forwarders|
      ensures
        var w := s.forwarders[f];
        && Projection(s.out, f) <= RenamedAll(w, w.inputs)
        && (w.phase == Exited(true) ==> Projection(s.out, f) == RenamedAll(w, w.inputs))
    {
      var w := s.forwarders[f];
      assert Faithful(s, f) && ForwarderInv(s, w);
      assert RenamedAll(w, w.inputs[..w.taken]) <= RenamedAll(w, w.inputs);
      assert w.inputs[..|w.inputs|] == w.inputs;
    }
  }

  /** What renaming does to a forwarder's inputs: with force every name of every batch gets the prefix, else none. */
  lemma RenamedAllAt(w: Forwarder, k: nat, i: nat)
    requires k < |w.inputs| && i < |w.inputs[k]|
    ensures |RenamedAll(w, w.inputs)[k]| == |w.inputs[k]|
    ensures RenamedAll(w, w.inputs)[k][i] == if w.force then AddPrefix(w.pfx, w.inputs[k][i]) else w.inputs[k][i]
  {
  }

  // ----- without the discipline: exactly when a panic can still come

  predicate CanStillSend(w: Forwarder) {
    w.phase.Holding? || ((w.phase.Spawned? || w.phase.Looping?) && w.taken < |w.inputs|)
  }

  /**
   * The wait is over, although the group is in use again when the closer wakes, or later some forwarder has something
   * left to send.
   */
  ghost predicate Hazard(s: State) {
    || (s.closer.Released? && !s.AllExited())
    || (PastWait(s) && exists f :: 0 <= f < |s.forwarders| && CanStillSend(s.forwarders[f]))
  }

  ghost predicate NoNewForwarder(actions: seq<Action>) {
    forall k :: 0 <= k < |actions| ==> !actions[k].WithPrefix?
  }

  lemma NextKeepsHarmless(s: State, a: Action, t: State)
    requires BasicInv(s) && !s.panicked && !Hazard(s) && Next(s, a) == Some(t) && !a.WithPrefix?
    ensures !t.panicked && !Hazard(t)
  {
    if PastWait(s) {
      if IsForwarderStep(a) {
        assert !CanStillSend(s.forwarders[a.f]);
      }
      forall f | 0 <= f < |t.forwarders|
        ensures !CanStillSend(t.forwarders[f])
      {
        assert !CanStillSend(s.forwarders[f]);
      }
    } else if PastWait(t) {
      assert t.AllExited();
    }
  }

  lemma {:induction false} HarmlessStaysHarmless(s: State, actions: seq<Action>)
    requires BasicInv(s) && !s.panicked && !Hazard(s)
    requires NoNewForwarder(actions) && Run(s, actions).Some?
    ensures
      var t := Run(s, actions).value;
      BasicInv(t) && !t.panicked && !Hazard(t)
  {
    if actions != [] {
      var last := |actions| - 1;
      HarmlessStaysHarmless(s, actions[..last]);
      var t := Run(s, actions[..last]).value;
      NextKeepsBasicInv(t, actions[last], Run(s, actions).value);
      NextKeepsHarmless(t, actions[last], Run(s, actions).value);
    }
  }

  lemma RunOfAppend(s: State, actions: seq<Action>, a: Action)
    ensures Run(s, actions + [a]) == if Run(s, actions).None? then None else Next(Run(s, actions).value, a)
  {
    assert (actions + [a])[..|actions|] == actions;
  }

  lemma {:induction false} RunOfConcat(s: State, a: seq<Action>, b: seq<Action>)
    requires Run(s, a).Some?
    ensures Run(s, a + b) == Run(Run(s, a).value, b)
    decreases |b|
  {
    hide Next;
    if b == [] {
      assert a + b == a;
    } else {
      var last := |b| - 1;
      assert (a + b)[..|a + b| - 1] == a + b[..last];
      RunOfConcat(s, a, b[..last]);
    }
  }

  /** Forwarder f still has something to send, and the closer has left its wait, or panics when it does. */
  ghost predicate Colliding(s: State, f: nat) {
    BasicInv(s) && PastWait(s) && f < |s.forwarders| && CanStillSend(s.forwarders[f])
  }

  /** The next step by which forwarder f runs into the closed output. */
  function StepToPanic(s: State, f: nat): Action
    requires f < |s.forwarders|
  {
    if s.closer.Released? then CloserWakes
    else if s.closer.GroupDone? then CloserCloses
    else
      match s.forwarders[f].phase
      case Spawned => Start(f)
      case Holding(_) => Send(f)
      case _ => Receive(f)
  }

  function StepsToPanic(s: State, f: nat): nat
    requires f < |s.forwarders|
  {
    (if s.closer.GroupDone? then 1 else 0)
    + match s.forwarders[f].phase case Spawned => 3 case Looping => 2 case Holding(_) => 1 case Exited(_) => 0
  }

  lemma StepToPanicWorks(s: State, f: nat) returns (t: State)
    requires Colliding(s, f)
    ensures Next(s, StepToPanic(s, f)) == Some(t) && !StepToPanic(s, f).WithPrefix?
    ensures t.panicked || (Colliding(t, f) && StepsToPanic(t, f) < StepsToPanic(s, f))
  {
    assert ForwarderInv(s, s.forwarders[f]);
    t := Next(s, StepToPanic(s, f)).value;
    NextKeepsBasicInv(s, StepToPanic(s, f), t);
  }

  /** The steps by which forwarder f runs into the closed output. */
  lemma {:induction false} HazardLeadsToPanic(s: State, f: nat) returns (actions: seq<Action>)
    requires BasicInv(s) && PastWait(s) && f < |s.forwarders| && CanStillSend(s.forwarders[f])
    ensures NoNewForwarder(actions) && Run(s, actions).Some? && Run(s, actions).value.panicked
    decreases StepsToPanic(s, f)
  {
    hide Next, BasicInv, StepToPanic;
    var a := StepToPanic(s, f);
    var t := StepToPanicWorks(s, f);
    actions := [a];
    assert [a][..0] == [] && Run(s, [a]) == Some(t);
    if !t.panicked {
      var rest := HazardLeadsToPanic(t, f);
      RunOfConcat(s, [a], rest);
      actions := [a] + rest;
    }
  }

  /** A closer that wakes to a group in use panics at once. */
  lemma WakingPanics(s: State)
    requires s.closer.Released? && !s.AllExited()
    ensures NoNewForwarder([CloserWakes]) && Run(s, [CloserWakes]).Some? && Run(s, [CloserWakes]).value.panicked
  {
    assert [CloserWakes][..0] == [];
  }

  /** In any reachable state, with or without discipline: a panic can still come iff the wait ended too early. */
  lemma PanicComesExactlyFromHazard(past: seq<Action>)
    requires Run(INITIAL, past).Some? && !Run(INITIAL, past).value.panicked
    ensures
      var s := Run(INITIAL, past).value;
      Hazard(s) <==> exists actions ::
        NoNewForwarder(actions) && Run(s, actions).Some? && Run(s, actions).value.panicked
  {
    RunKeepsInv(past);
    var s := Run(INITIAL, past).value;
    if s.closer.Released? && !s.AllExited() {
      WakingPanics(s);
    } else if Hazard(s) {
      var f :| 0 <= f < |s.forwarders| && CanStillSend(s.forwarders[f]);
      var actions := HazardLeadsToPanic(s, f);
    } else {
      forall actions | NoNewForwarder(actions) && Run(s, actions).Some?
        ensures !Run(s, actions).value.panicked
      {
        HarmlessStaysHarmless(s, actions);
      }
    }
  }

  /**
   * A WithPrefix call is a hazard exactly when the wait is already over; one whose client never sends anything only
   * until the closer has woken.
   */
  lemma LateWithPrefixIsHazard(past: seq<Action>, pfx: string, force: bool, inputs: seq<Batch>)
    requires Run(INITIAL, past).Some? && !Hazard(Run(INITIAL, past).value)
    ensures
      var s := Run(INITIAL, past).value;
      Hazard(Next(s, WithPrefix(pfx, force, inputs)).value) <==>
        if inputs == [] then s.closer.Released? else PastWait(s)
  {
    var s := Run(INITIAL, past).value;
    var t := Next(s, WithPrefix(pfx, force, inputs)).value;
    var last := |s.forwarders|;
    assert CanStillSend(t.forwarders[last]) <==> inputs != [];
    assert !t.forwarders[last].phase.Exited?;
    forall f | 0 <= f < |t.forwarders| && PastWait(s)
      ensures CanStillSend(t.forwarders[f]) ==> f == last
    {
      assert f < last ==> t.forwarders[f] == s.forwarders[f];
    }
  }

  // ----- in a state that is not open, the goroutines alone can bring the hazard about

  /** The steps that goroutines take by themselves: the clients neither send nor close nor call anything. */
  predicate IsGoroutineStep(a: Action) {
    || a.Start? || a.Send? || a.SeeClosed? || a.SeeDone?
    || a.CloserSeesReady? || a.CloserCallsWait? || a.CloserWakes? || a.CloserCloses?
  }

  ghost predicate OnlyGoroutines(actions: seq<Action>) {
    forall k :: 0 <= k < |actions| ==> IsGoroutineStep(actions[k])
  }

  /** A state that is not open, and in which the wait is not over too early. */
  ghost predicate Winding(s: State) {
    BasicInv(s) && |s.forwarders| > 0 && !Open(s) && (PastWait(s) ==> s.AllExited())
  }

  /** The next step by which a forwarder comes closer to its exit. */
  function StepToExit(s: State, f: nat): Action
    requires f < |s.forwarders|
  {
    match s.forwarders[f].phase
    case Spawned => Start(f)
    case Holding(_) => Send(f)
    case _ => if s.forwarders[f].inClosed then SeeClosed(f) else SeeDone(f)
  }

  function Distance(p: Phase): nat {
    match p case Holding(_) => 2 case Spawned => 2 case Looping => 1 case Exited(_) => 0
  }

  lemma StaysWinding(s: State, a: Action, t: State)
    requires Winding(s) && (a.Start? || a.Send? || a.SeeClosed? || a.SeeDone?) && Next(s, a) == Some(t)
    ensures Winding(t)
  {
    hide BasicInv, Renamed;
    NextKeepsBasicInv(s, a, t);
    assert forall g :: 0 <= g < |s.forwarders| ==> t.forwarders[g].inClosed == s.forwarders[g].inClosed;
  }

  lemma StepToExitIsPossible(s: State, f: nat)
    requires Winding(s) && f < |s.forwarders| && !s.forwarders[f].phase.Exited?
    ensures Next(s, StepToExit(s, f)).Some?
    ensures
      var t := Next(s, StepToExit(s, f)).value;
      && |t.forwarders| == |s.forwarders| && t.writerDone == s.writerDone
      && Distance(t.forwarders[f].phase) < Distance(s.forwarders[f].phase)
      && forall g :: 0 <= g < |s.forwarders| && g != f ==> t.forwarders[g] == s.forwarders[g]
  {
    hide Renamed, ForwarderInv, SafeInv, State.Exit;
  }

  lemma StepToExitWorks(s: State, f: nat) returns (t: State)
    requires Winding(s) && f < |s.forwarders| && !s.forwarders[f].phase.Exited?
    ensures Next(s, StepToExit(s, f)) == Some(t) && Winding(t) && IsGoroutineStep(StepToExit(s, f))
    ensures |t.forwarders| == |s.forwarders| && t.writerDone == s.writerDone
    ensures Distance(t.forwarders[f].phase) < Distance(s.forwarders[f].phase)
    ensures forall g :: 0 <= g < |s.forwarders| && g != f ==> t.forwarders[g] == s.forwarders[g]
  {
    hide Next, Winding, Distance;
    StepToExitIsPossible(s, f);
    t := Next(s, StepToExit(s, f)).value;
    StaysWinding(s, StepToExit(s, f), t);
  }

  lemma {:induction false} DriveToExit(s: State, f: nat) returns (actions: seq<Action>, t: State)
    requires Winding(s) && f < |s.forwarders|
    ensures OnlyGoroutines(actions) && Run(s, actions) == Some(t) && Winding(t)
    ensures |t.forwarders| == |s.forwarders| && t.forwarders[f].phase.Exited?
    ensures forall g :: 0 <= g < |s.forwarders| && g != f ==> t.forwarders[g] == s.forwarders[g]
    decreases Distance(s.forwarders[f].phase)
  {
    hide Next, Winding, StepToExit;
    if s.forwarders[f].phase.Exited? {
      actions, t := [], s;
    } else {
      var a := StepToExit(s, f);
      var u := StepToExitWorks(s, f);
      var rest;
      rest, t := DriveToExit(u, f);
      RunOfConcat(s, [a], rest);
      assert [a][..0] == [] && Run(s, [a]) == Some(u);
      actions := [a] + rest;
    }
  }

  lemma {:induction false} DriveAllToExit(s: State, n: nat) returns (actions: seq<Action>, t: State)
    requires Winding(s) && n <= |s.forwarders|
    ensures OnlyGoroutines(actions) && Run(s, actions) == Some(t) && Winding(t)
    ensures |t.forwarders| == |s.forwarders| && forall f :: 0 <= f < n ==> t.forwarders[f].phase.Exited?
    decreases n
  {
    hide Next, Winding;
    if n == 0 {
      actions, t := [], s;
    } else {
      var front, u := DriveAllToExit(s, n - 1);
      var rest;
      rest, t := DriveToExit(u, n - 1);
      RunOfConcat(s, front, rest);
      actions := front + rest;
    }
  }

  /** When all forwarders have exited the closer's wait is over, or ends. */
  lemma WaitEnds(s: State) returns (actions: seq<Action>, t: State)
    requires Winding(s) && s.AllExited()
    ensures OnlyGoroutines(actions) && Run(s, actions) == Some(t) && PastWait(t)
  {
    actions, t := [], s;
    if s.closer.AwaitReady? {
      assert ForwarderInv(s, s.forwarders[0]);
      RunOfAppend(s, actions, CloserSeesReady);
      actions, t := [CloserSeesReady], Next(s, CloserSeesReady).value;
    }
    if t.closer.AboutToWait? {
      RunOfAppend(s, actions, CloserCallsWait);
      actions, t := actions + [CloserCallsWait], Next(t, CloserCallsWait).value;
    }
  }

  /**
   * The discipline is exact: from any reachable state that is not open, the goroutines can end the wait by
   * themselves, and a WithPrefix call with something to send is then a hazard.
   */
  lemma NotOpenLeadsToHazard(past: seq<Action>, s: State, pfx: string, force: bool, inputs: seq<Batch>)
    returns (actions: seq<Action>, t: State)
    requires Run(INITIAL, past) == Some(s) && !Open(s) && inputs != []
    ensures OnlyGoroutines(actions) && Run(s, actions) == Some(t)
    ensures Hazard(Next(t, WithPrefix(pfx, force, inputs)).value)
  {
    RunKeepsInv(past);
    actions, t := [], s;
    if PastWait(s) ==> s.AllExited() {
      actions, t := DriveAllToExit(s, |s.forwarders|);
      var rest, u := WaitEnds(t);
      RunOfConcat(s, actions, rest);
      actions, t := actions + rest, u;
    }
    var late := Next(t, WithPrefix(pfx, force, inputs)).value;
    assert CanStillSend(late.forwarders[|t.forwarders|]);
  }

  lemma {:induction false} GoroutinesKeepOpen(s: State, actions: seq<Action>, t: State)
    requires BasicInv(s) && SafeInv(s) && Open(s) && OnlyGoroutines(actions) && Run(s, actions) == Some(t)
    ensures BasicInv(t) && SafeInv(t) && Open(t)
    decreases |actions|
  {
    if actions != [] {
      var last := |actions| - 1;
      var u := Run(s, actions[..last]).value;
      GoroutinesKeepOpen(s, actions[..last], u);
      GoroutineStepKeepsOpen(u, actions[last], t);
    }
  }

  lemma GoroutineStepKeepsOpen(s: State, a: Action, t: State)
    requires BasicInv(s) && SafeInv(s) && Open(s) && IsGoroutineStep(a) && Next(s, a) == Some(t)
    ensures BasicInv(t) && SafeInv(t) && Open(t)
  {
    NextKeepsBasicInv(s, a, t);
    NextKeepsSafeInv(s, a, t);
    if |s.forwarders| > 0 {
      var f :| 0 <= f < |s.forwarders| && !s.forwarders[f].inClosed;
      assert !t.forwarders[f].inClosed;
    }
  }

  /**
   * What a client has to know, exactly: after a disciplined run a WithPrefix call with something to send is safe,
   * however the goroutines move before it takes effect, if and only if the state is open.
   */
  lemma OpenIsExactlySafe(past: seq<Action>, s: State, pfx: string, force: bool, inputs: seq<Batch>)
    requires Run(INITIAL, past) == Some(s) && Disciplined(INITIAL, past) && inputs != []
    ensures Open(s) <==>
      forall actions, t :: OnlyGoroutines(actions) && Run(s, actions) == Some(t) ==>
        !Hazard(Next(t, WithPrefix(pfx, force, inputs)).value)
  {
    if Open(s) {
      forall actions, t | OnlyGoroutines(actions) && Run(s, actions) == Some(t)
        ensures !Hazard(Next(t, WithPrefix(pfx, force, inputs)).value)
      {
        RunKeepsInv(past);
        DisciplinedRunIsSafe(past);
        GoroutinesKeepOpen(s, actions, t);
        OpenIsNotPastWait(t);
      }
    } else {
      var actions, t := NotOpenLeadsToHazard(past, s, pfx, force, inputs);
    }
  }

  /** The end of the writer is nobody's choice: after it the goroutines can make any next call a hazard. */
  lemma WriterEndLeadsToHazard(past: seq<Action>, s: State, pfx: string, force: bool, inputs: seq<Batch>)
    returns (actions: seq<Action>, t: State)
    requires Run(INITIAL, past) == Some(s) && |s.forwarders| > 0 && inputs != []
    ensures OnlyGoroutines(actions) && Run(s, [WriterDone] + actions) == Some(t)
    ensures Hazard(Next(t, WithPrefix(pfx, force, inputs)).value)
  {
    RunOfAppend(INITIAL, past, WriterDone);
    var u := Next(s, WriterDone).value;
    actions, t := NotOpenLeadsToHazard(past + [WriterDone], u, pfx, force, inputs);
    assert [WriterDone][..0] == [] && Run(s, [WriterDone]) == Some(u);
    RunOfConcat(s, [WriterDone], actions);
  }

  ghost predicate OnlyGoroutinesAndWriter(actions: seq<Action>) {
    forall k :: 0 <= k < |actions| ==> IsGoroutineStep(actions[k]) || actions[k].WriterDone?
  }

  /** Without a forwarder the closer does not get past its first wait. */
  lemma {:induction false} NothingStartsByItself(s: State, actions: seq<Action>, t: State)
    requires BasicInv(s) && |s.forwarders| == 0 && OnlyGoroutinesAndWriter(actions) && Run(s, actions) == Some(t)
    ensures BasicInv(t) && |t.forwarders| == 0
    decreases |actions|
  {
    if actions != [] {
      var last := |actions| - 1;
      var u := Run(s, actions[..last]).value;
      NothingStartsByItself(s, actions[..last], u);
      NextKeepsBasicInv(u, actions[last], t);
    }
  }

  lemma FirstCallIsSafe(s: State, pfx: string, force: bool, inputs: seq<Batch>)
    requires BasicInv(s) && |s.forwarders| == 0
    ensures
      var t := Next(s, WithPrefix(pfx, force, inputs));
      t.Some? && !Hazard(t.value)
  {
  }

  /**
   * Counting the writer's own end among what may happen before the call takes effect, exactly the calls before any
   * forwarder exists are safe.
   */
  lemma OnlyFirstCallsAreSafeFromWriterEnd(past: seq<Action>, s: State, pfx: string, force: bool, inputs: seq<Batch>)
    requires Run(INITIAL, past) == Some(s) && inputs != []
    ensures |s.forwarders| == 0 <==>
      forall actions, t :: OnlyGoroutinesAndWriter(actions) && Run(s, actions) == Some(t) ==>
        !Hazard(Next(t, WithPrefix(pfx, force, inputs)).value)
  {
    hide BasicInv;
    if |s.forwarders| == 0 {
      forall actions, t | OnlyGoroutinesAndWriter(actions) && Run(s, actions) == Some(t)
        ensures !Hazard(Next(t, WithPrefix(pfx, force, inputs)).value)
      {
        RunKeepsInv(past);
        NothingStartsByItself(s, actions, t);
        FirstCallIsSafe(t, pfx, force, inputs);
      }
    } else {
      var actions, t := WriterEndLeadsToHazard(past, s, pfx, force, inputs);
      assert OnlyGoroutinesAndWriter([WriterDone] + actions);
    }
  }

  // ----- renaming in place

  class Vertex {
    var name: string
  }

  function Occurrences(vertexes: seq<Vertex>, v: Vertex): nat {
    if vertexes == [] then 0
    else Occurrences(vertexes[..|vertexes| - 1], v) + if vertexes[|vertexes| - 1] == v then 1 else 0
  }

  function PrefixTimes(pfx: string, name: string, times: nat): string {
    if times == 0 then name else AddPrefix(pfx, PrefixTimes(pfx, name, times - 1))
  }

  /** The forwarder's loop over a batch: a vertex gets the prefix once for every time the batch lists it. */
  method PrefixVertexes(pfx: string, vertexes: seq<Vertex>)
    modifies set v | v in vertexes
    ensures forall v :: v in vertexes ==> v.name == PrefixTimes(pfx, old(v.name), Occurrences(vertexes, v))
  {
    for i := 0 to |vertexes|
      invariant forall v :: v in vertexes ==> v.name == PrefixTimes(pfx, old(v.name), Occurrences(vertexes[..i], v))
    {
      var v := vertexes[i];
      assert vertexes[..i + 1][..i] == vertexes[..i];
      v.name := AddPrefix(pfx, v.name);
    }
    assert vertexes[..|vertexes|] == vertexes;
  }

  /** In a batch of distinct vertexes every name gets the prefix exactly once. */
  lemma {:induction false} DistinctVertexesOccurOnce(vertexes: seq<Vertex>, v: Vertex)
    requires forall i, j :: 0 <= i < j < |vertexes| ==> vertexes[i] != vertexes[j]
    ensures Occurrences(vertexes, v) == if v in vertexes then 1 else 0
  {
    if vertexes != [] {
      DistinctVertexesOccurOnce(vertexes[..|vertexes| - 1], v);
    }
  }
}
