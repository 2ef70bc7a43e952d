/**
 * createBuilder itself (driver/kubernetes/creation.go), with its loops and the variables that they reassign. Each call
 * to the server takes its answer from `inputs`. It takes exactly the steps of a process of the builder protocol.
 */
module BuilderLoop {
  import opened Text
  import opened Manifest
  import opened Factory
  import opened EventLog
  import opened BuilderProtocol

  /** What a step meets: the server as it is by then, and the outcome of the call. */
  datatype Input = Input(server: Server, outcome: Outcome)

  /** The steps of the protocol's process over some inputs. */
  function Follow(c: Cli, id: nat, inputs: seq<Input>): Option<Cli> {
    if inputs == [] then Some(c)
    else
      var last := inputs[|inputs| - 1];
      match Follow(c, id, inputs[..|inputs| - 1])
      case None => None
      case Some(d) =>
        match CliNext(d, id, last.server, last.outcome)
        case None => None
        case Some(m) => Some(m.cli)
  }

  lemma FollowOneMore(c: Cli, id: nat, inputs: seq<Input>, n: nat, d: Cli)
    requires n < |inputs| && Follow(c, id, inputs[..n]) == Some(d)
    ensures
      var m := CliNext(d, id, inputs[n].server, inputs[n].outcome);
      Follow(c, id, inputs[..n + 1]) == if m.None? then None else Some(m.value.cli)
  {
    hide CliNext;
    assert inputs[..n + 1][..n] == inputs[..n];
  }

  class BuilderCall {
    const id: nat
    const inputs: seq<Input>
    ghost const first: Cli
    var next: nat
    var cfg: Config
    var driver: DriverFields
    var err: bool
    var depl: Option<Stored>
    var log: Log
    var effects: seq<Effect>

    /** The process of the protocol that is where the code is. */
    function At(pc: Pc): Cli
      reads this
    {
      Cli(cfg, driver, pc, err, depl, log, effects)
    }

    ghost predicate Is(pc: Pc)
      reads this
    {
      next <= |inputs| && Follow(first, id, inputs[..next]) == Some(At(pc))
    }

    /** The call has returned, or its next input is missing or cannot occur. */
    ghost predicate Ends(pc: Pc)
      reads this
    {
      && Is(pc)
      && (pc.Returned? || next == |inputs| || CliNext(At(pc), id, inputs[next].server, inputs[next].outcome).None?)
    }

    constructor (id: nat, inputs: seq<Input>, cfg: Config, driver: DriverFields, effects: seq<Effect>)
      ensures this.id == id && this.inputs == inputs && next == 0 && Is(AtTop)
      ensures first == Cli(cfg, driver, AtTop, false, None, EMPTY_LOG, effects)
    {
      this.id, this.inputs, this.cfg, this.driver, this.effects := id, inputs, cfg, driver, effects;
      next, err, depl, log := 0, false, None, EMPTY_LOG;
      first := Cli(cfg, driver, AtTop, false, None, EMPTY_LOG, effects);
    }

    /** `was` is the process before this step, `pc` where the step has led. */
    lemma Stepped(was: Cli, pc: Pc)
      requires 0 < next <= |inputs| && Follow(first, id, inputs[..next - 1]) == Some(was)
      requires
        var m := CliNext(was, id, inputs[next - 1].server, inputs[next - 1].outcome);
        m.Some? && m.value.cli == At(pc)
      ensures Is(pc)
    {
      hide CliNext;
      FollowOneMore(first, id, inputs, next - 1, was);
    }

    /** The polling loop; it gives where the process is when the call returns or its inputs end. */
    method CreateBuilder() returns (end: Pc)
      requires Is(AtTop)
      modifies this
      ensures Ends(end)
    {
      hide Follow, Init, CreateNext, UpdateNext, GetNext, EventNext, DeleteNext, ReturnNext, InspectNext;
      while true
        invariant Is(AtTop)
        decreases |inputs| - next
      {
        ghost var was := At(AtTop);
        if next == |inputs| {
          return AtTop;
        }
        var o := inputs[next].outcome;
        if o.ContextDone? {
          next := next + 1;
          Stepped(was, Returned(true, err));
          return Returned(true, err);
        }
        if !o.Proceed? {
          return AtTop;
        }
        next := next + 1;
        Stepped(was, AtGet);
        var ended, read := GetOrCreate();
        if ended.Some? {
          return ended.value;
        }
        if !read {
          continue;
        }
        ended := InspectReplicas();
        if ended.Some? {
          return ended.value;
        }
      }
    }

    /** Gets the Deployment, or creates it; `read` if that has worked and not enough replicas are ready. */
    method GetOrCreate() returns (ended: Option<Pc>, read: bool)
      requires Is(AtGet)
      modifies this
      ensures old(next) <= next && (ended.Some? ==> Ends(ended.value))
      ensures ended.None? ==> if read then Is(AtListReplicas) && depl.Some? else Is(AtTop)
    {
      hide Follow, Init, CreateNext, UpdateNext, TopNext, EventNext, DeleteNext, ReturnNext, InspectNext;
      ended, read := None, false;
      ghost var was := At(AtGet);
      if next == |inputs| {
        return Some(AtGet), false;
      }
      var server, o := inputs[next].server, inputs[next].outcome;
      if o.CallFails? {
        next, err := next + 1, true;
        Stepped(was, AtTop);
        return;
      }
      if !o.CallSucceeds? {
        return Some(AtGet), false;
      }
      next := next + 1;
      if server.depl.None? {
        err := true;
        Stepped(was, AtCreate);
        var created;
        ended, created := Create();
        return ended, created;
      }
      depl, err := server.depl, false;
      ended := ReturnIfReady(was);
      read := ended.None?;
    }

    method Create() returns (ended: Option<Pc>, created: bool)
      requires Is(AtCreate)
      modifies this
      ensures old(next) <= next && (ended.Some? ==> Ends(ended.value))
      ensures ended.None? ==> if created then Is(AtListReplicas) && depl.Some? else Is(AtTop)
    {
      hide Follow, Init, UpdateNext, TopNext, GetNext, EventNext, DeleteNext, ReturnNext, InspectNext;
      ended, created := None, false;
      ghost var was := At(AtCreate);
      if next == |inputs| {
        return Some(AtCreate), false;
      }
      var server, o := inputs[next].server, inputs[next].outcome;
      if o.CallFails? {
        next, err := next + 1, true;
        Stepped(was, AtTop);
        return;
      }
      if server.depl.Some? || driver.deployment.None? || !(o.CallIsLost? || o.CallSucceeds?) {
        return Some(AtCreate), false;
      }
      next := next + 1;
      if o.CallIsLost? {
        err := true;
        Stepped(was, AtTop);
        return;
      }
      depl, err := Some(Stored(o.newUID, server.nextVersion, driver.deployment.value, 0)), false;
      ended := ReturnIfReady(was);
      created := ended.None?;
    }

    /** The exit once enough replicas are ready. */
    method ReturnIfReady(ghost was: Cli) returns (ended: Option<Pc>)
      requires depl.Some? && 0 < next <= |inputs| && Follow(first, id, inputs[..next - 1]) == Some(was)
      requires
        var m := CliNext(was, id, inputs[next - 1].server, inputs[next - 1].outcome);
        m.Some? && m.value.cli ==
          At(if depl.value.ready >= Int32(driver.minReplicas) then Returned(false, false) else AtListReplicas)
      ensures ended.Some? ==> Ends(ended.value)
      ensures ended.None? ==> Is(AtListReplicas)
    {
      hide CliNext;
      if depl.value.ready >= Int32(driver.minReplicas) {
        Stepped(was, Returned(false, false));
        return Some(Returned(false, false));
      }
      Stepped(was, AtListReplicas);
      return None;
    }

    /** getReplicaSets: keeps what the Deployment owns. */
    method OwnedBy(items: seq<Meta>, parentUID: string) returns (owned: seq<Meta>)
      ensures owned == ChildrenOf(items, parentUID)
    {
      owned := [];
      for k := 0 to |items|
        invariant owned == ChildrenOf(items[..k], parentUID)
      {
        assert items[..k + 1][..k] == items[..k];
        var isChild := HasOwner(items[k], parentUID);
        if isChild {
          owned := owned + [items[k]];
        }
      }
      assert items[..|items|] == items;
    }

    /** isChildOf. */
    method HasOwner(m: Meta, parentUID: string) returns (isChild: bool)
      ensures isChild <==> exists k :: 0 <= k < |m.owners| && m.owners[k] == parentUID
      ensures isChild == IsChildOf(m, parentUID)
    {
      for k := 0 to |m.owners|
        invariant forall h :: 0 <= h < k ==> m.owners[h] != parentUID
      {
        if m.owners[k] == parentUID {
          return true;
        }
      }
      return false;
    }

    /** One event of logEvents, but for the callback itself; it gives whether the callback runs. */
    method Report(e: Event, resource: string, originUID: string) returns (callback: bool)
      modifies `log
      ensures Visited(log, callback) == Visit(old(log), e, resource, originUID)
    {
      if e.involved != originUID {
        return false;
      }
      var msg := e.kind + " \t" + resource + " \t" + e.reason + " \t" + e.message + "\n";
      if msg in log.reported {
        return false;
      }
      log := log.(reported := log.reported + {msg}, logged := log.logged + [msg]);
      if e.kind == "Normal" {
        return false;
      }
      log := log.(calls := log.calls + [Call(msg, e)]);
      return true;
    }

    /** logEvents for a replica set, whose callback does nothing. */
    method ReportAll(replica: Meta, events: seq<Event>)
      modifies `log
      ensures log == VisitAll(old(log), ReplicaBatch(replica, events)).log
    {
      ghost var b := ReplicaBatch(replica, events);
      for k := 0 to |events|
        invariant VisitAll(log, b.(events := events[k..])).log == VisitAll(old(log), b).log
      {
        assert events[k..][0] == events[k] && events[k..][1..] == events[k + 1..];
        var callback := Report(events[k], replica.name, replica.uid);
      }
      assert events[|events|..] == [];
    }

    /** The replica sets of the Deployment; `listed` unless the call failed. */
    method ListReplicas() returns (ended: Option<Pc>, listed: bool, replicas: seq<Meta>)
      requires Is(AtListReplicas) && depl.Some?
      modifies this
      ensures old(next) <= next && depl.Some? && (ended.Some? ==> Ends(ended.value))
      ensures ended.None? ==> if listed then Is(AtReplica(replicas)) else Is(AtTop)
    {
      hide Follow, Init, CreateNext, UpdateNext, TopNext, GetNext, EventNext, DeleteNext, ReturnNext;
      ended, listed, replicas := None, false, [];
      ghost var was := At(AtListReplicas);
      if next == |inputs| {
        return Some(AtListReplicas), false, [];
      }
      var o := inputs[next].outcome;
      if o.CallFails? {
        next, err := next + 1, true;
        Stepped(was, AtTop);
        return;
      }
      if !o.ListReplies? {
        return Some(AtListReplicas), false, [];
      }
      replicas := OwnedBy(o.items, depl.value.uid);
      next, listed := next + 1, true;
      Stepped(was, AtReplica(replicas));
    }

    /** One round over the replica sets. */
    method InspectReplicas() returns (ended: Option<Pc>)
      requires Is(AtListReplicas) && depl.Some?
      modifies this
      ensures old(next) <= next && if ended.Some? then Ends(ended.value) else Is(AtTop)
    {
      hide CliNext, Follow;
      var listed, replicas;
      ended, listed, replicas := ListReplicas();
      if ended.Some? || !listed {
        return;
      }
      var k := 0;
      assert replicas[0..] == replicas;
      while k < |replicas|
        invariant k <= |replicas| && old(next) <= next && depl.Some? && Is(AtReplica(replicas[k..]))
      {
        var broken;
        assert replicas[k..] == [replicas[k]] + replicas[k + 1..];
        ended, broken := InspectReplica(replicas[k], replicas[k + 1..]);
        if ended.Some? || broken {
          return;
        }
        k := k + 1;
      }
      assert replicas[k..] == [];
      ended := EndRound();
    }

    method EndRound() returns (ended: Option<Pc>)
      requires Is(AtReplica([]))
      modifies this
      ensures old(next) <= next && if ended.Some? then Ends(ended.value) else Is(AtTop)
    {
      hide Follow, Init, CreateNext, UpdateNext, TopNext, GetNext, EventNext, DeleteNext, ReturnNext;
      ghost var was := At(AtReplica([]));
      if next == |inputs| || !inputs[next].outcome.Proceed? {
        return Some(AtReplica([]));
      }
      next := next + 1;
      Stepped(was, AtTop);
      return None;
    }

    /** One replica set: its events, then its pods. A failed listing of its events breaks off the round. */
    method InspectReplica(replica: Meta, rest: seq<Meta>) returns (ended: Option<Pc>, broken: bool)
      requires Is(AtReplica([replica] + rest)) && depl.Some?
      modifies this
      ensures old(next) <= next && depl.Some? && (ended.Some? ==> Ends(ended.value))
      ensures ended.None? ==> if broken then Is(AtTop) else Is(AtReplica(rest))
    {
      hide Follow, Init, CreateNext, UpdateNext, TopNext, GetNext, EventNext, DeleteNext, ReturnNext;
      hide VisitAll, ChildrenOf;
      ended, broken := None, false;
      ghost var was := At(AtReplica([replica] + rest));
      assert ([replica] + rest)[1..] == rest;
      if next == |inputs| {
        return Some(AtReplica([replica] + rest)), false;
      }
      var o := inputs[next].outcome;
      if o.CallFails? {
        next, err := next + 1, true;
        Stepped(was, AtTop);
        return None, true;
      }
      if !o.EventsReply? {
        return Some(AtReplica([replica] + rest)), false;
      }
      ReportAll(replica, o.events);
      next := next + 1;
      Stepped(was, AtListPods(replica, rest));
      ended := InspectPods(replica, rest);
    }

    /** The pods of one replica set. */
    method InspectPods(replica: Meta, rest: seq<Meta>) returns (ended: Option<Pc>)
      requires Is(AtListPods(replica, rest)) && depl.Some?
      modifies this
      ensures old(next) <= next && depl.Some? && if ended.Some? then Ends(ended.value) else Is(AtReplica(rest))
    {
      hide Follow, Init, CreateNext, UpdateNext, TopNext, GetNext, EventNext, DeleteNext, ReturnNext;
      hide VisitAll, ChildrenOf;
      ghost var was := At(AtListPods(replica, rest));
      if next == |inputs| {
        return Some(AtListPods(replica, rest));
      }
      var o := inputs[next].outcome;
      if o.CallFails? {
        next := next + 1;
        Stepped(was, AtReplica(rest));
        return None;
      }
      if !o.ListReplies? {
        return Some(AtListPods(replica, rest));
      }
      var pods, answer, i := o.items, [], 0;
      next := next + 1;
      Stepped(was, AtPod(PodLoop(replica, pods, 0, rest, answer)));
      while i < |pods|
        invariant i <= |pods| && old(next) <= next && depl.Some? && Is(AtPod(PodLoop(replica, pods, i, rest, answer)))
      {
        var p := PodLoop(replica, pods, i, rest, answer);
        ghost var here := At(AtPod(p));
        if next == |inputs| {
          return Some(AtPod(p));
        }
        o := inputs[next].outcome;
        var isChild := HasOwner(pods[i], replica.uid);
        if !isChild {
          if !o.Proceed? {
            return Some(AtPod(p));
          }
          next, i := next + 1, i + 1;
          Stepped(here, AtPod(PodLoop(replica, pods, i, rest, answer)));
          continue;
        }
        if o.CallFails? {
          next := next + 1;
          Stepped(here, AtReplica(rest));
          return None;
        }
        if !o.EventsReply? {
          return Some(AtPod(p));
        }
        answer := o.events;
        next := next + 1;
        p := PodLoop(replica, pods, i, rest, answer);
        Stepped(here, AtEvent(p, answer));
        ended := LogPodEvents(p);
        if ended.Some? {
          return;
        }
        i := i + 1;
      }
      was := At(AtPod(PodLoop(replica, pods, i, rest, answer)));
      if next == |inputs| || !inputs[next].outcome.Proceed? {
        return Some(AtPod(PodLoop(replica, pods, i, rest, answer)));
      }
      next := next + 1;
      Stepped(was, AtReplica(rest));
      return None;
    }

    /** logEvents for a pod, with the callback that flips the runtime. */
    method LogPodEvents(p: PodLoop) returns (ended: Option<Pc>)
      requires Is(AtEvent(p, p.answer)) && depl.Some? && p.i < |p.pods|
      modifies this
      ensures old(next) <= next && depl.Some? && if ended.Some? then Ends(ended.value) else Is(NextPod(p))
    {
      hide Follow, Init, CreateNext, UpdateNext, TopNext, GetNext, DeleteNext, ReturnNext, InspectNext, HandleEvent;
      var k := 0;
      assert p.answer[0..] == p.answer;
      while k < |p.answer|
        invariant k <= |p.answer| && old(next) <= next && depl.Some? && Is(AtEvent(p, p.answer[k..]))
      {
        var failed;
        assert p.answer[k..] == [p.answer[k]] + p.answer[k + 1..];
        ended, failed := LogPodEvent(p, p.answer[k], p.answer[k + 1..]);
        if ended.Some? || failed {
          return;
        }
        k := k + 1;
      }
      assert p.answer[k..] == [];
      ghost var was := At(AtEvent(p, []));
      if next == |inputs| || !inputs[next].outcome.Proceed? {
        return Some(AtEvent(p, []));
      }
      next := next + 1;
      Stepped(was, NextPod(p));
      return None;
    }

    /** One event of a pod; an error of the callback ends the loop over the events. */
    method LogPodEvent(p: PodLoop, e: Event, rest: seq<Event>) returns (ended: Option<Pc>, failed: bool)
      requires Is(AtEvent(p, [e] + rest)) && depl.Some? && p.i < |p.pods|
      modifies this
      ensures old(next) <= next && depl.Some? && (ended.Some? ==> Ends(ended.value))
      ensures ended.None? ==> if failed then Is(NextPod(p)) else Is(AtEvent(p, rest))
    {
      hide Follow, Init, CreateNext, UpdateNext, TopNext, GetNext, DeleteNext, ReturnNext, InspectNext, Visit, Contains;
      ended, failed := None, false;
      ghost var was := At(AtEvent(p, [e] + rest));
      assert ([e] + rest)[1..] == rest;
      if next == |inputs| || !inputs[next].outcome.Proceed? {
        return Some(AtEvent(p, [e] + rest)), false;
      }
      var file := inputs[next].outcome.file;
      next := next + 1;
      var callback := Report(e, p.pods[p.i].name, p.pods[p.i].uid);
      if !callback || e.reason != "FailedMount" || !Contains(e.message, "is not a socket file") {
        Stepped(was, AtEvent(p, rest));
        return;
      }
      if driver.userSpecifiedRuntime {
        Stepped(was, NextPod(p));
        return None, true;
      }
      var initialised := Flip(file);
      if !initialised {
        Stepped(was, NextPod(p));
        return None, true;
      }
      Stepped(was, AtUpdate(p, rest));
      var stored;
      ended, stored := UpdateAndCleanUp(p, rest);
      failed := !stored;
    }

    /** The flip: the options are edited and the driver is initialised again. */
    method Flip(file: Option<string>) returns (ok: bool)
      modifies `cfg, `driver, `effects
      ensures effects == old(effects) + [FlipStarted] && cfg == Flipped(old(cfg))
      ensures InitResult(driver, ok) == Init(old(driver), cfg, file)
    {
      hide Init;
      effects := effects + [FlipStarted];
      cfg := cfg.(opts := cfg.opts["runtime" := "containerd"]);
      cfg := cfg.(opts := cfg.opts["worker" := "auto"]);
      var r := Init(driver, cfg, file);
      driver, ok := r.fields, r.ok;
    }

    /** The Update, and if it is stored the forced deletions. */
    method UpdateAndCleanUp(p: PodLoop, rest: seq<Event>) returns (ended: Option<Pc>, stored: bool)
      requires Is(AtUpdate(p, rest)) && depl.Some?
      modifies this
      ensures old(next) <= next && depl.Some? && (ended.Some? ==> Ends(ended.value))
      ensures ended.None? ==> if stored then Is(AtEvent(p, rest)) else Is(NextPod(p))
    {
      hide Follow, Init, CreateNext, TopNext, GetNext, EventNext, DeleteNext, ReturnNext, InspectNext;
      ended, stored := None, false;
      ghost var was := At(AtUpdate(p, rest));
      if next == |inputs| {
        return Some(AtUpdate(p, rest)), false;
      }
      var server, o := inputs[next].server, inputs[next].outcome;
      if o.CallFails? {
        next := next + 1;
        Stepped(was, NextPod(p));
        return;
      }
      if server.depl.None? || server.depl.value.version != depl.value.version || driver.deployment.None?
         || !(o.CallIsLost? || o.CallSucceeds?) {
        return Some(AtUpdate(p, rest)), false;
      }
      next := next + 1;
      if o.CallIsLost? {
        Stepped(was, NextPod(p));
        return;
      }
      depl := UpdateDeployment(server, id, driver.deployment.value).depl;
      effects := effects + [FlipStored(depl.value.version)];
      Stepped(was, AtDeleteReplica(p, rest));
      ended := DeleteReplica(p, rest);
      stored := true;
    }

    method DeleteReplica(p: PodLoop, rest: seq<Event>) returns (ended: Option<Pc>)
      requires Is(AtDeleteReplica(p, rest)) && depl.Some?
      modifies this
      ensures old(next) <= next && depl.Some? && if ended.Some? then Ends(ended.value) else Is(AtEvent(p, rest))
    {
      hide Follow, Init, CreateNext, UpdateNext, TopNext, GetNext, EventNext, ReturnNext, InspectNext;
      ghost var was := At(AtDeleteReplica(p, rest));
      if next == |inputs| || !(inputs[next].outcome.CallFails? || inputs[next].outcome.CallSucceeds?) {
        return Some(AtDeleteReplica(p, rest));
      }
      effects := effects + [DeletedReplica(p.replica, depl.value.uid, p.pods)];
      next := next + 1;
      Stepped(was, AtDeletePod(p, rest, 0));
      var j := 0;
      while j < |p.pods|
        invariant j <= |p.pods| && old(next) <= next && depl.Some? && Is(AtDeletePod(p, rest, j))
      {
        ghost var here := At(AtDeletePod(p, rest, j));
        if next == |inputs| {
          return Some(AtDeletePod(p, rest, j));
        }
        var o := inputs[next].outcome;
        var isChild := HasOwner(p.pods[j], p.replica.uid);
        if isChild {
          if !o.CallFails? && !o.CallSucceeds? {
            return Some(AtDeletePod(p, rest, j));
          }
          effects := effects + [DeletedPod(p.pods[j], p.replica.uid)];
        } else if !o.Proceed? {
          return Some(AtDeletePod(p, rest, j));
        }
        next, j := next + 1, j + 1;
        Stepped(here, AtDeletePod(p, rest, j));
      }
      was := At(AtDeletePod(p, rest, j));
      if next == |inputs| || !inputs[next].outcome.Proceed? {
        return Some(AtDeletePod(p, rest, j));
      }
      next := next + 1;
      Stepped(was, AtEvent(p, rest));
      return None;
    }
  }
}
