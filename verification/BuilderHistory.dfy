/**
 * What the steps of a bootstrapping process add up to (createBuilder in driver/kubernetes/creation.go): when it
 * returns an error, what its clean-up deletes, and which events it reports.
 */
module BuilderHistory {
  import opened Text
  import opened Manifest
  import opened Factory
  import opened EventLog
  import opened BuilderProtocol

  // ----- the error of a return

  /**
   * Whether the answer that a step gets is one that the loop keeps in its error variable, and if so whether it is an
   * error. The listings of pods and of their events, and all that the flip does, are not kept: their errors go to
   * shadowed variables. A new call of createBuilder starts without an error.
   */
  function KeptAnswer(c: Cli, server: Server, o: Outcome): Option<bool> {
    match c.pc
    case AtGet => Some(o.CallFails? || server.depl.None?)
    case AtCreate => Some(!o.CallSucceeds?)
    case AtListReplicas => Some(o.CallFails?)
    case AtReplica(rest) => if rest == [] then None else Some(o.CallFails?)
    case Returned(_, _) => Some(false)
    case _ => None
  }

  function AnswerTo(s: Option<State>, a: Action, i: nat): Option<bool> {
    match a
    case StatusChange(_) => None
    case Step(k, o) =>
      if k == i && s.Some? && i < |s.value.clis| then KeptAnswer(s.value.clis[i], s.value.server, o) else None
  }

  /** Whether the last kept answer of process i was an error; having got none at all is no error. */
  function LastAnswerFailed(start: State, actions: seq<Action>, i: nat): bool {
    if actions == [] then false
    else
      var before := actions[..|actions| - 1];
      var answer := AnswerTo(Run(start, before), actions[|actions| - 1], i);
      if answer.Some? then answer.value else LastAnswerFailed(start, before, i)
  }

  /** The error variable is set exactly when the last kept answer was an error; inside a round it is not set. */
  predicate ErrInv(c: Cli, failed: bool) {
    && c.err == failed
    && match c.pc
       case AtTop => true
       case AtGet => true
       case AtCreate => true
       case Returned(_, err) => err == c.err
       case _ => !c.err
  }

  /** The error variable after a step. */
  function ErrAfter(c: Cli, server: Server, o: Outcome, failed: bool): bool {
    var answer := KeptAnswer(c, server, o);
    if answer.Some? then answer.value else failed
  }

  lemma ReadingKeepsErrInv(c: Cli, server: Server, o: Outcome, failed: bool)
    requires ErrInv(c, failed) && PcInv(c)
    ensures c.pc.AtTop? && TopNext(c, o).Some? ==> ErrInv(TopNext(c, o).value, ErrAfter(c, server, o, failed))
    ensures c.pc.AtGet? && GetNext(c, server, o).Some? ==>
      ErrInv(GetNext(c, server, o).value, ErrAfter(c, server, o, failed))
    ensures !c.pc.AtGet? && InspectNext(c, o).Some? ==> ErrInv(InspectNext(c, o).value, ErrAfter(c, server, o, failed))
    ensures c.pc.Returned? && ReturnNext(c, o).Some? ==> ErrInv(ReturnNext(c, o).value, ErrAfter(c, server, o, failed))
  {
    hide VisitAll, LoopInv, Owned, ChildrenOf;
  }

  lemma PodStepsKeepErrInv(c: Cli, server: Server, o: Outcome, failed: bool)
    requires ErrInv(c, failed)
    ensures c.pc.AtEvent? && EventNext(c, o).Some? ==> ErrInv(EventNext(c, o).value, ErrAfter(c, server, o, failed))
    ensures InDeletion(c.pc) && DeleteNext(c, o).Some? ==>
      ErrInv(DeleteNext(c, o).value, ErrAfter(c, server, o, failed))
  {
    hide Init, Visit, IsMountFailure;
  }

  lemma WritingKeepsErrInv(c: Cli, id: nat, server: Server, o: Outcome, failed: bool)
    requires ErrInv(c, failed)
    ensures c.pc.AtCreate? && CreateNext(c, id, server, o).Some? ==>
      ErrInv(CreateNext(c, id, server, o).value.cli, ErrAfter(c, server, o, failed))
    ensures c.pc.AtUpdate? && UpdateNext(c, id, server, o).Some? ==>
      ErrInv(UpdateNext(c, id, server, o).value.cli, ErrAfter(c, server, o, failed))
  {
  }

  lemma MoverKeepsErrInv(c0: Cli, c: Cli, id: nat, server: Server, o: Outcome, failed: bool)
    requires LocalInv(c0, c) && ErrInv(c, failed) && CliNext(c, id, server, o).Some?
    ensures ErrInv(CliNext(c, id, server, o).value.cli, ErrAfter(c, server, o, failed))
  {
    hide Init, ErrInv, ErrAfter, TopNext, GetNext, InspectNext, EventNext, DeleteNext, ReturnNext, CreateNext,
      UpdateNext;
    ReadingKeepsErrInv(c, server, o, failed);
    PodStepsKeepErrInv(c, server, o, failed);
    WritingKeepsErrInv(c, id, server, o, failed);
  }

  lemma {:induction false} RunKeepsErrInv(start: State, actions: seq<Action>, s: State)
    requires Initial(start) && Run(start, actions) == Some(s)
    ensures |s.clis| == |start.clis|
    ensures forall i :: 0 <= i < |s.clis| ==> ErrInv(s.clis[i], LastAnswerFailed(start, actions, i))
    decreases |actions|
  {
    hide Init;
    if actions != [] {
      var before, a := actions[..|actions| - 1], actions[|actions| - 1];
      var t := Run(start, before).value;
      RunKeepsInv(start, before);
      RunKeepsErrInv(start, before, t);
      if a.Step? {
        assert CliInv(start.clis[a.cli], t.clis[a.cli], a.cli, t.server);
        MoverKeepsErrInv(
          start.clis[a.cli], t.clis[a.cli], a.cli, t.server, a.outcome, LastAnswerFailed(start, before, a.cli));
      }
    }
  }

  /**
   * Exactly when a call that its context ends returns an error: when the last answer that it kept was one. It does not
   * matter whether a builder is ready.
   */
  lemma ContextExitReturnsLastAnswer(start: State, actions: seq<Action>, s: State, i: nat)
    requires Initial(start) && Run(start, actions) == Some(s) && i < |s.clis|
    requires s.clis[i].pc.Returned? && s.clis[i].pc.byContext
    ensures s.clis[i].pc.err <==> LastAnswerFailed(start, actions, i)
  {
    hide Init;
    RunKeepsErrInv(start, actions, s);
  }

  lemma RunOneMore(start: State, actions: seq<Action>, a: Action)
    requires Run(start, actions).Some?
    ensures Run(start, actions + [a]) == Next(Run(start, actions).value, a)
  {
    hide Init;
    assert (actions + [a])[..|actions|] == actions;
  }

  /**
   * A context that ends after a round without errors makes createBuilder return nil, however few replicas are
   * ready.
   */
  lemma QuietRoundThenTimeout(start: State, actions: seq<Action>, s: State, i: nat) returns (t: State)
    requires Initial(start) && Run(start, actions) == Some(s) && i < |s.clis| && s.clis[i].pc == AtReplica([])
    ensures Run(start, actions + [Step(i, Proceed(None))] + [Step(i, ContextDone)]) == Some(t)
    ensures t == s.(clis := s.clis[i := s.clis[i].(pc := Returned(true, false))])
  {
    hide Init;
    RunKeepsErrInv(start, actions, s);
    RunOneMore(start, actions, Step(i, Proceed(None)));
    RunOneMore(start, actions + [Step(i, Proceed(None))], Step(i, ContextDone));
    t := s.(clis := s.clis[i := s.clis[i].(pc := Returned(true, false))]);
    assert s.clis[i := s.clis[i].(pc := AtTop)][i := t.clis[i]] == t.clis;
  }

  /**
   * The ordinary time-out: the Deployment is there, not enough replicas are ready, all calls succeed, the result is
   * nil.
   */
  lemma OrdinaryTimeoutReturnsNil(start: State) returns (actions: seq<Action>, s: State)
    requires Initial(start) && |start.clis| > 0 && start.server.depl.Some?
    requires start.server.depl.value.ready < Int32(start.clis[0].driver.minReplicas)
    ensures Run(start, actions) == Some(s) && s.server == start.server && |s.clis| > 0
    ensures s.clis[0].pc == Returned(true, false) && s.clis[0].depl == start.server.depl
  {
    hide Init;
    var calls := [Step(0, Proceed(None))];
    assert calls[..0] == [];
    assert IsNewCli(start.clis[0]);
    RunOneMore(start, calls, Step(0, CallSucceeds("")));
    RunOneMore(start, calls + [Step(0, CallSucceeds(""))], Step(0, ListReplies([])));
    calls := calls + [Step(0, CallSucceeds(""))] + [Step(0, ListReplies([]))];
    s := QuietRoundThenTimeout(start, calls, Run(start, calls).value, 0);
    actions := calls + [Step(0, Proceed(None))] + [Step(0, ContextDone)];
  }

  /** A context that has ended before the first call makes it return nil too, without having called the server. */
  lemma TimeoutCanReturnNil(start: State)
    requires Initial(start) && |start.clis| > 0
    ensures
      var s := Run(start, [Step(0, ContextDone)]);
      s.Some? && |s.value.clis| > 0 && s.value.clis[0].pc == Returned(true, false) && s.value.clis[0].depl == None
  {
    hide Init;
    var actions := [Step(0, ContextDone)];
    assert actions[..0] == [];
    assert Run(start, actions[..0]) == Some(start);
    assert IsNewCli(start.clis[0]);
  }

  // ----- the clean-up is complete

  /** The pods whose deletion was asked for, in order. */
  function DeletedPods(effects: seq<Effect>): seq<Meta> {
    if effects == [] then []
    else
      var last := effects[|effects| - 1];
      DeletedPods(effects[..|effects| - 1]) + if last.DeletedPod? then [last.pod] else []
  }

  /** The clean-up has reached all pods of the replica set that it passed, and in the end all of them. */
  predicate CleanupInv(c: Cli) {
    if |c.effects| <= 2 then DeletedPods(c.effects) == []
    else
      c.effects[2].DeletedReplica? &&
      var done := c.effects[2];
      if c.pc.AtDeletePod? then
        && c.pc.pod.pods == done.listed && c.pc.pod.replica == done.replica && c.pc.j <= |done.listed|
        && DeletedPods(c.effects) == ChildrenOf(done.listed[..c.pc.j], done.replica.uid)
      else DeletedPods(c.effects) == ChildrenOf(done.listed, done.replica.uid)
  }

  lemma DeletedPodsOfAppend(effects: seq<Effect>, e: Effect)
    ensures DeletedPods(effects + [e]) == DeletedPods(effects) + if e.DeletedPod? then [e.pod] else []
  {
    assert (effects + [e])[..|effects|] == effects;
  }

  lemma ChildrenOfOneMore(items: seq<Meta>, j: nat, parentUID: string)
    requires j < |items|
    ensures ChildrenOf(items[..j + 1], parentUID) ==
      ChildrenOf(items[..j], parentUID) + if IsChildOf(items[j], parentUID) then [items[j]] else []
  {
    assert items[..j + 1][..j] == items[..j];
  }

  lemma ReplicaDeletionKeepsCleanupInv(c: Cli, o: Outcome)
    requires CleanupInv(c) && c.pc.AtDeleteReplica? && |c.effects| == 2 && DeleteNext(c, o).Some?
    ensures CleanupInv(DeleteNext(c, o).value)
  {
    hide Init;
    DeletedPodsOfAppend(c.effects, DeleteNext(c, o).value.effects[2]);
  }

  lemma PodDeletionKeepsCleanupInv(c: Cli, o: Outcome)
    requires CleanupInv(c) && c.pc.AtDeletePod? && |c.effects| > 2 && c.pc.j < |c.pc.pod.pods| && DeleteNext(c, o).Some?
    ensures CleanupInv(DeleteNext(c, o).value)
  {
    hide Init, ChildrenOf, DeletedPods;
    var pods, j, parent := c.pc.pod.pods, c.pc.j, c.pc.pod.replica.uid;
    ChildrenOfOneMore(pods, j, parent);
    if IsChildOf(pods[j], parent) {
      DeletedPodsOfAppend(c.effects, DeletedPod(pods[j], parent));
    } else {
      assert ChildrenOf(pods[..j], parent) + [] == ChildrenOf(pods[..j], parent);
    }
  }

  lemma DeleteKeepsCleanupInv(c: Cli, o: Outcome)
    requires CleanupInv(c) && InDeletion(c.pc) && DeleteNext(c, o).Some?
    requires if c.pc.AtDeleteReplica? then |c.effects| == 2 else |c.effects| > 2
    ensures CleanupInv(DeleteNext(c, o).value)
  {
    hide Init, ChildrenOf, DeletedPods;
    if c.pc.AtDeleteReplica? {
      ReplicaDeletionKeepsCleanupInv(c, o);
    } else if c.pc.j < |c.pc.pod.pods| {
      PodDeletionKeepsCleanupInv(c, o);
    } else {
      assert c.pc.pod.pods[..c.pc.j] == c.pc.pod.pods;
    }
  }

  lemma EventKeepsCleanupInv(c0: Cli, c: Cli, o: Outcome)
    requires LocalInv(c0, c) && CleanupInv(c) && c.pc.AtEvent? && EventNext(c, o).Some?
    ensures CleanupInv(EventNext(c, o).value)
  {
    hide Init;
    DeletedPodsOfAppend([], FlipStarted);
  }

  lemma UpdateKeepsCleanupInv(c0: Cli, c: Cli, id: nat, server: Server, o: Outcome)
    requires LocalInv(c0, c) && CleanupInv(c) && c.pc.AtUpdate? && UpdateNext(c, id, server, o).Some?
    ensures CleanupInv(UpdateNext(c, id, server, o).value.cli)
  {
    hide Init, UpdateDeployment, ChildrenOf, DeletedPods, LogInv, LoopInv, DriverInv, EffectsInv;
    var next := UpdateNext(c, id, server, o).value.cli;
    if next.effects != c.effects {
      DeletedPodsOfAppend(c.effects, next.effects[1]);
    }
  }

  lemma SameEffectsKeepCleanupInv(c: Cli, next: Cli)
    requires CleanupInv(c) && next.effects == c.effects && !c.pc.AtDeletePod? && !next.pc.AtDeletePod?
    ensures CleanupInv(next)
  {
  }

  lemma ReadingKeepsCleanupInv(c: Cli, server: Server, o: Outcome)
    requires CleanupInv(c) && !c.pc.AtEvent? && !InDeletion(c.pc) && !c.pc.AtCreate? && !c.pc.AtUpdate?
    ensures c.pc.AtTop? && TopNext(c, o).Some? ==> CleanupInv(TopNext(c, o).value)
    ensures c.pc.AtGet? && GetNext(c, server, o).Some? ==> CleanupInv(GetNext(c, server, o).value)
    ensures InspectNext(c, o).Some? ==> CleanupInv(InspectNext(c, o).value)
  {
    if InspectNext(c, o).Some? {
      SameEffectsKeepCleanupInv(c, InspectNext(c, o).value);
    }
    if c.pc.AtGet? && GetNext(c, server, o).Some? {
      SameEffectsKeepCleanupInv(c, GetNext(c, server, o).value);
    }
  }

  lemma MoverKeepsCleanupInv(c0: Cli, c: Cli, id: nat, server: Server, o: Outcome)
    requires LocalInv(c0, c) && CleanupInv(c) && CliNext(c, id, server, o).Some?
    ensures CleanupInv(CliNext(c, id, server, o).value.cli)
  {
    hide Init;
    if c.pc.AtUpdate? {
      UpdateKeepsCleanupInv(c0, c, id, server, o);
    } else if c.pc.AtEvent? {
      EventKeepsCleanupInv(c0, c, o);
    } else if InDeletion(c.pc) {
      DeleteKeepsCleanupInv(c, o);
    } else if c.pc.AtCreate? {
      SameEffectsKeepCleanupInv(c, CreateNext(c, id, server, o).value.cli);
    } else {
      ReadingKeepsCleanupInv(c, server, o);
    }
  }

  // ----- a flip that is not stored at once never is

  lemma StuckStaysStuck(c0: Cli, c: Cli, id: nat, server: Server, o: Outcome)
    requires LocalInv(c0, c) && c.effects == [FlipStarted] && !c.pc.AtUpdate? && CliNext(c, id, server, o).Some?
    ensures
      var next := CliNext(c, id, server, o).value.cli;
      next.effects == [FlipStarted] && !next.pc.AtUpdate?
  {
    hide Init, VisitAll, Visit, ChildrenOf, CreateDeployment, EffectsInv, LogInv, LoopInv, Owned;
  }

  /**
   * A process whose flip has begun and is not waiting for its Update any more never stores one, nor deletes anything:
   * the runtime counts as chosen by then, so it is not flipped again, in this call or a later one.
   */
  lemma FailedFlipIsFinal(start: State, before: seq<Action>, after: seq<Action>, s: State, t: State, i: nat)
    requires Initial(start) && Run(start, before) == Some(s) && Run(start, before + after) == Some(t)
    requires i < |s.clis| && s.clis[i].effects == [FlipStarted] && !s.clis[i].pc.AtUpdate?
    ensures i < |t.clis| && t.clis[i].effects == [FlipStarted] && !t.clis[i].pc.AtUpdate?
    decreases |after|
  {
    hide Init;
    if after == [] {
      assert before + after == before;
    } else {
      var last := |after| - 1;
      var front := before + after[..last];
      assert (before + after)[..|before + after| - 1] == front;
      var u := Run(start, front).value;
      FailedFlipIsFinal(start, before, after[..last], s, u, i);
      RunKeepsInv(start, front);
      if after[last].Step? && after[last].cli == i {
        assert CliInv(start.clis[i], u.clis[i], i, u.server);
        StuckStaysStuck(start.clis[i], u.clis[i], i, u.server, after[last].outcome);
      }
    }
  }

  /** Any change of the Deployment's status between the last read and the Update is enough for that. */
  lemma StatusChangeSpoilsFlip(
      start: State, actions: seq<Action>, s: State, ready: int, u: State, i: nat, o: Outcome, t: State)
    requires Initial(start) && Run(start, actions) == Some(s) && i < |s.clis| && s.clis[i].pc.AtUpdate?
    requires Next(s, StatusChange(ready)) == Some(u) && Next(u, Step(i, o)) == Some(t)
    ensures t.server == u.server && t.clis[i].effects == [FlipStarted] && !t.clis[i].pc.AtUpdate?
  {
    hide Init;
    RunKeepsInv(start, actions);
    SpoiledUpdate(start.clis[i], s.clis[i], i, start.server, s.server, ready, o);
  }

  lemma SpoiledUpdate(c0: Cli, c: Cli, id: nat, start: Server, server: Server, ready: int, o: Outcome)
    requires CliInv(c0, c, id, server) && ServerInv(start, server) && c.pc.AtUpdate? && server.depl.Some?
    requires UpdateNext(c, id, ChangeStatus(server, ready), o).Some?
    ensures
      var m := UpdateNext(c, id, ChangeStatus(server, ready), o).value;
      m.server == ChangeStatus(server, ready) && m.cli.effects == [FlipStarted] && !m.cli.pc.AtUpdate?
  {
    hide Init;
    assert c.effects == [c.effects[0]];
  }

  // ----- the events of a pod are reported

  /** Of the events listed for the pod in hand, `rest` is still to come, and those before it have been reported. */
  predicate Handled(log: Log, p: PodLoop, rest: seq<Event>) {
    && p.i < |p.pods| && |rest| <= |p.answer| && rest == p.answer[|p.answer| - |rest|..]
    && forall k :: 0 <= k < |p.answer| - |rest| && p.answer[k].involved == p.pods[p.i].uid ==>
         Render(p.answer[k], p.pods[p.i].name) in log.reported
  }

  predicate ReportInv(c: Cli) {
    match c.pc
    case AtEvent(p, rest) => Handled(c.log, p, rest)
    case AtUpdate(p, rest) => Handled(c.log, p, rest)
    case AtDeleteReplica(p, rest) => Handled(c.log, p, rest)
    case AtDeletePod(p, rest, _) => Handled(c.log, p, rest)
    case _ => true
  }

  lemma HandledOneMore(log: Log, p: PodLoop, rest: seq<Event>)
    requires LogInv(log) && Handled(log, p, rest) && rest != []
    ensures Handled(Visit(log, rest[0], p.pods[p.i].name, p.pods[p.i].uid).log, p, rest[1..])
  {
    VisitKeepsLogInv(log, rest[0], p.pods[p.i].name, p.pods[p.i].uid);
    assert rest[0] == p.answer[|p.answer| - |rest|];
    assert rest[1..] == p.answer[|p.answer| - |rest| + 1..];
  }

  lemma EventKeepsReportInv(c: Cli, o: Outcome)
    requires LogInv(c.log) && ReportInv(c) && c.pc.AtEvent? && EventNext(c, o).Some?
    ensures ReportInv(EventNext(c, o).value)
  {
    hide Init, Visit, IsMountFailure;
    if c.pc.events != [] {
      HandledOneMore(c.log, c.pc.pod, c.pc.events);
    }
  }

  lemma UpdateKeepsReportInv(c: Cli, id: nat, server: Server, o: Outcome)
    requires ReportInv(c) && c.pc.AtUpdate? && UpdateNext(c, id, server, o).Some?
    ensures ReportInv(UpdateNext(c, id, server, o).value.cli)
  {
    hide Handled, UpdateDeployment;
  }

  lemma DeleteKeepsReportInv(c: Cli, o: Outcome)
    requires ReportInv(c) && InDeletion(c.pc) && DeleteNext(c, o).Some?
    ensures ReportInv(DeleteNext(c, o).value)
  {
    hide Handled, IsChildOf;
  }

  lemma InspectKeepsReportInv(c: Cli, o: Outcome)
    requires InspectNext(c, o).Some?
    ensures ReportInv(InspectNext(c, o).value)
  {
    hide VisitAll, ChildrenOf, IsChildOf;
  }

  lemma MoverKeepsReportInv(c0: Cli, c: Cli, id: nat, server: Server, o: Outcome)
    requires LocalInv(c0, c) && ReportInv(c) && CliNext(c, id, server, o).Some?
    ensures ReportInv(CliNext(c, id, server, o).value.cli)
  {
    hide Init, Handled, InspectNext, EventNext, DeleteNext, UpdateNext;
    if c.pc.AtEvent? {
      EventKeepsReportInv(c, o);
    } else if c.pc.AtUpdate? {
      UpdateKeepsReportInv(c, id, server, o);
    } else if InDeletion(c.pc) {
      DeleteKeepsReportInv(c, o);
    } else if InspectNext(c, o).Some? {
      InspectKeepsReportInv(c, o);
    }
  }

  // ----- both in every run

  lemma {:induction false} RunKeepsHistoryInv(start: State, actions: seq<Action>, s: State)
    requires Initial(start) && Run(start, actions) == Some(s)
    ensures |s.clis| == |start.clis| && forall i :: 0 <= i < |s.clis| ==> CleanupInv(s.clis[i]) && ReportInv(s.clis[i])
    decreases |actions|
  {
    hide Init;
    if actions != [] {
      var before, a := actions[..|actions| - 1], actions[|actions| - 1];
      var t := Run(start, before).value;
      RunKeepsInv(start, before);
      RunKeepsHistoryInv(start, before, t);
      if a.Step? {
        assert CliInv(start.clis[a.cli], t.clis[a.cli], a.cli, t.server);
        MoverKeepsCleanupInv(start.clis[a.cli], t.clis[a.cli], a.cli, t.server, a.outcome);
        MoverKeepsReportInv(start.clis[a.cli], t.clis[a.cli], a.cli, t.server, a.outcome);
      }
    }
  }

  /** A process that has come to the end of a pod's events has reported every one of them that is about the pod. */
  lemma PodEventsAreReported(start: State, actions: seq<Action>, s: State, i: nat)
    requires Initial(start) && Run(start, actions) == Some(s) && i < |s.clis|
    requires s.clis[i].pc.AtEvent? && s.clis[i].pc.events == []
    ensures
      var p := s.clis[i].pc.pod;
      p.i < |p.pods| && forall e :: e in p.answer && e.involved == p.pods[p.i].uid ==>
        Render(e, p.pods[p.i].name) in s.clis[i].log.reported
  {
    hide Init;
    RunKeepsHistoryInv(start, actions, s);
  }

  /** The step that lists the events of a replica set reports every one of them that is about the replica set. */
  lemma ReplicaEventsAreReported(start: State, actions: seq<Action>, s: State, i: nat, events: seq<Event>, t: State)
    requires Initial(start) && Run(start, actions) == Some(s) && i < |s.clis|
    requires s.clis[i].pc.AtReplica? && s.clis[i].pc.rest != []
    requires Next(s, Step(i, EventsReply(events))) == Some(t)
    ensures
      var replica := s.clis[i].pc.rest[0];
      forall e :: e in events && e.involved == replica.uid ==> Render(e, replica.name) in t.clis[i].log.reported
  {
    hide Init, Visit;
    RunKeepsInv(start, actions);
    assert CliInv(start.clis[i], s.clis[i], i, s.server);
    var b := ReplicaBatch(s.clis[i].pc.rest[0], events);
    CompletesWithoutCallback(s.clis[i].log, b);
    VisitAllKeepsLogInv(s.clis[i].log, b);
  }

  /**
   * Unless the process is still at it, its clean-up has asked for the deletion of exactly the listed pods that the
   * replica set owns: all of them, each as often as it was listed, in the order of the list.
   */
  lemma CleanupIsComplete(start: State, actions: seq<Action>, s: State, i: nat)
    requires Initial(start) && Run(start, actions) == Some(s) && i < |s.clis|
    ensures
      var c := s.clis[i];
      if |c.effects| <= 2 then DeletedPods(c.effects) == []
      else
        && c.effects[2].DeletedReplica?
        && (c.pc.AtDeletePod? || DeletedPods(c.effects) == ChildrenOf(c.effects[2].listed, c.effects[2].replica.uid))
  {
    hide Init;
    RunKeepsHistoryInv(start, actions, s);
  }
}
