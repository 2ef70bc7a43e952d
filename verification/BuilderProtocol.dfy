/**
 * Any number of command line processes bootstrapping one Deployment (createBuilder in driver/kubernetes/creation.go).
 * The API server hands out a fresh resource version with every write that changes something; an Update with a stale
 * version is refused.
 * Every API call is one step and may fail, a write may be stored although its caller sees an error, the cluster may
 * change the Deployment's status at any time, and lists and events are whatever the server answers. Nobody deletes
 * the Deployment meanwhile.
 */
module BuilderProtocol {
  import opened Text
  import opened Manifest
  import opened Factory
  import opened EventLog

  // ----- the server

  /** A replica set or pod as listed. */
  datatype Meta = Meta(name: string, uid: string, owners: seq<string>)

  predicate IsChildOf(m: Meta, parentUID: string) {
    parentUID in m.owners
  }

  /** The Deployment as stored. */
  datatype Stored = Stored(uid: string, version: nat, spec: Deployment, ready: int)

  datatype Operation = Created | Updated(base: nat)

  datatype Write = Write(cli: nat, op: Operation, version: nat, spec: Deployment)

  /** `writes` records the stored writes of all processes. */
  datatype Server = Server(depl: Option<Stored>, nextVersion: nat, writes: seq<Write>)

  function CreateDeployment(server: Server, cli: nat, uid: string, spec: Deployment): Server {
    Server(
      Some(Stored(uid, server.nextVersion, spec, 0)), server.nextVersion + 1,
      server.writes + [Write(cli, Created, server.nextVersion, spec)])
  }

  /** An Update that changes nothing is stored as no write at all would be: the version stays. */
  function UpdateDeployment(server: Server, cli: nat, spec: Deployment): Server
    requires server.depl.Some?
  {
    var was := server.depl.value;
    var isNew := spec != was.spec;
    var version := if isNew then server.nextVersion else was.version;
    Server(
      Some(was.(version := version, spec := spec)), if isNew then server.nextVersion + 1 else server.nextVersion,
      server.writes + [Write(cli, Updated(was.version), version, spec)])
  }

  function ChangeStatus(server: Server, ready: int): Server
    requires server.depl.Some?
  {
    var depl := server.depl.value.(version := server.nextVersion, ready := ready);
    server.(depl := Some(depl), nextVersion := server.nextVersion + 1)
  }

  // ----- one process

  /**
   * The variables of the loop over the pods of one replica set; `rest` is the replica sets still to come, and `answer`
   * the events that were listed for the pod in hand.
   */
  datatype PodLoop = PodLoop(replica: Meta, pods: seq<Meta>, i: nat, rest: seq<Meta>, answer: seq<Event>)

  datatype Pc =
    | AtTop
    | AtGet
    | AtCreate
    | AtListReplicas
    | AtReplica(rest: seq<Meta>)
    | AtListPods(replica: Meta, rest: seq<Meta>)
    | AtPod(pod: PodLoop)
    | AtEvent(pod: PodLoop, events: seq<Event>)
    | AtUpdate(pod: PodLoop, events: seq<Event>)
    | AtDeleteReplica(pod: PodLoop, events: seq<Event>)
    | AtDeletePod(pod: PodLoop, events: seq<Event>, j: nat)
    | Returned(byContext: bool, err: bool)

  /** What a process did beyond reading; `listed` is the pods of the listing in which the flip found its reason. */
  datatype Effect =
    | FlipStarted
    | FlipStored(version: nat)
    | DeletedReplica(replica: Meta, parentUID: string, listed: seq<Meta>)
    | DeletedPod(pod: Meta, parentUID: string)

  /** `err` is whether the outer error variable is set; `depl` is the Deployment last read or written. */
  datatype Cli = Cli(
    cfg: Config,
    driver: DriverFields,
    pc: Pc,
    err: bool,
    depl: Option<Stored>,
    log: Log,
    effects: seq<Effect>)

  datatype Outcome =
    | ContextDone
    | Proceed(file: Option<string>)       // `file` is what reading the config file would give now
    | CallFails
    | CallIsLost(newUID: string)          // the server did it, the caller sees an error
    | CallSucceeds(newUID: string)
    | ListReplies(items: seq<Meta>)
    | EventsReply(events: seq<Event>)

  datatype Moved = Moved(cli: Cli, server: Server)

  predicate IsMountFailure(e: Event) {
    e.reason == "FailedMount" && Contains(e.message, "is not a socket file")
  }

  /** After a successful Get or Create: ready, or look into the replica sets. */
  function HasRead(c: Cli, depl: Stored): Cli {
    var c := c.(depl := Some(depl), err := false);
    if depl.ready >= Int32(c.driver.minReplicas) then c.(pc := Returned(false, false)) else c.(pc := AtListReplicas)
  }

  /** The filter of getReplicaSets: what the Deployment owns of all that was listed. */
  function ChildrenOf(items: seq<Meta>, parentUID: string): (r: seq<Meta>)
    ensures forall i :: 0 <= i < |r| ==> IsChildOf(r[i], parentUID) && r[i] in items
    ensures forall m :: m in r <==> m in items && IsChildOf(m, parentUID)
  {
    if items == [] then []
    else
      var front, last := items[..|items| - 1], items[|items| - 1];
      assert items == front + [last];
      ChildrenOf(front, parentUID) + if IsChildOf(last, parentUID) then [last] else []
  }

  function NextPod(p: PodLoop): Pc {
    AtPod(p.(i := p.i + 1))
  }

  /**
   * Handling of one event of a pod: the callback flips the runtime on the mount failure, unless the user chose it.
   * `flip` is what initialising the driver again would give.
   */
  function HandleEvent(c: Cli, p: PodLoop, e: Event, rest: seq<Event>, flip: InitResult): Cli
    requires p.i < |p.pods|
  {
    var v := Visit(c.log, e, p.pods[p.i].name, p.pods[p.i].uid);
    var c := c.(log := v.log);
    if !v.callback || !IsMountFailure(e) then c.(pc := AtEvent(p, rest))
    else if c.driver.userSpecifiedRuntime then c.(pc := NextPod(p))
    else StartFlip(c, p, rest, flip)
  }

  /** The flip, up to the Update; `r` is the outcome of initialising the driver again. */
  function StartFlip(c: Cli, p: PodLoop, rest: seq<Event>, r: InitResult): Cli {
    c.(cfg := Flipped(c.cfg), driver := r.fields, effects := c.effects + [FlipStarted],
       pc := if r.ok then AtUpdate(p, rest) else NextPod(p))
  }

  /** The events of a replica set; their callback does nothing. */
  function ReplicaBatch(replica: Meta, events: seq<Event>): Batch {
    Batch(events, replica.name, replica.uid, _ => false)
  }

  predicate CanUpdate(c: Cli, server: Server) {
    c.depl.Some? && server.depl.Some? && server.depl.value.version == c.depl.value.version && c.driver.deployment.Some?
  }

  /** One step of process `id`, or None when it cannot happen. */
  function CliNext(c: Cli, id: nat, server: Server, o: Outcome): Option<Moved> {
    if c.pc.AtCreate? then CreateNext(c, id, server, o)
    else if c.pc.AtUpdate? then UpdateNext(c, id, server, o)
    else
      var next := if c.pc.AtTop? then TopNext(c, o) else if c.pc.AtGet? then GetNext(c, server, o) else LocalNext(c, o);
      if next.None? then None else Some(Moved(next.value, server))
  }

  function TopNext(c: Cli, o: Outcome): Option<Cli> {
    if o.ContextDone? then Some(c.(pc := Returned(true, c.err)))
    else if o.Proceed? then Some(c.(pc := AtGet))
    else None
  }

  function GetNext(c: Cli, server: Server, o: Outcome): Option<Cli> {
    if o.CallFails? then Some(c.(pc := AtTop, err := true))
    else if !o.CallSucceeds? then None
    else if server.depl.None? then Some(c.(pc := AtCreate, err := true))
    else Some(HasRead(c, server.depl.value))
  }

  function CreateNext(c: Cli, id: nat, server: Server, o: Outcome): Option<Moved> {
    if o.CallFails? then Some(Moved(c.(pc := AtTop, err := true), server))
    else if server.depl.Some? || c.driver.deployment.None? || !(o.CallIsLost? || o.CallSucceeds?) then None
    else
      var created := CreateDeployment(server, id, o.newUID, c.driver.deployment.value);
      Some(Moved(if o.CallIsLost? then c.(pc := AtTop, err := true) else HasRead(c, created.depl.value), created))
  }

  function UpdateNext(c: Cli, id: nat, server: Server, o: Outcome): Option<Moved>
    requires c.pc.AtUpdate?
  {
    if o.CallFails? then Some(Moved(c.(pc := NextPod(c.pc.pod)), server))
    else if !CanUpdate(c, server) || !(o.CallIsLost? || o.CallSucceeds?) then None
    else
      var updated := UpdateDeployment(server, id, c.driver.deployment.value);
      if o.CallIsLost? then Some(Moved(c.(pc := NextPod(c.pc.pod)), updated))
      else
        Some(Moved(
          c.(depl := updated.depl, effects := c.effects + [FlipStored(updated.depl.value.version)],
             pc := AtDeleteReplica(c.pc.pod, c.pc.events)),
          updated))
  }

  /** The steps that leave the Deployment alone. */
  function LocalNext(c: Cli, o: Outcome): Option<Cli> {
    if c.pc.AtEvent? then EventNext(c, o)
    else if InDeletion(c.pc) then DeleteNext(c, o)
    else if c.pc.Returned? then ReturnNext(c, o)
    else InspectNext(c, o)
  }

  /**
   * Boot may call Bootstrap again, with the same driver: createBuilder then starts over with fresh variables, while
   * what a flip left in the driver stays.
   */
  function ReturnNext(c: Cli, o: Outcome): Option<Cli> {
    if o.Proceed? then Some(c.(pc := AtTop, err := false, depl := None, log := EMPTY_LOG)) else None
  }

  predicate InDeletion(pc: Pc) {
    pc.AtDeleteReplica? || pc.AtDeletePod?
  }

  /** The steps that list replica sets, their events, and pods. */
  function InspectNext(c: Cli, o: Outcome): Option<Cli> {
    match c.pc
    case AtListReplicas =>
      if o.CallFails? || c.depl.None? then Some(c.(pc := AtTop, err := true))
      else if o.ListReplies? then Some(c.(pc := AtReplica(ChildrenOf(o.items, c.depl.value.uid))))
      else None
    case AtReplica(rest) =>
      if rest == [] then if o.Proceed? then Some(c.(pc := AtTop)) else None
      else if o.CallFails? then Some(c.(pc := AtTop, err := true))
      else if o.EventsReply? then
        Some(c.(log := VisitAll(c.log, ReplicaBatch(rest[0], o.events)).log, pc := AtListPods(rest[0], rest[1..])))
      else None
    case AtListPods(replica, rest) =>
      if o.CallFails? then Some(c.(pc := AtReplica(rest)))
      else if o.ListReplies? then Some(c.(pc := AtPod(PodLoop(replica, o.items, 0, rest, []))))
      else None
    case AtPod(p) =>
      if p.i >= |p.pods| then if o.Proceed? then Some(c.(pc := AtReplica(p.rest))) else None
      else if !IsChildOf(p.pods[p.i], p.replica.uid) then if o.Proceed? then Some(c.(pc := NextPod(p))) else None
      else if o.CallFails? then Some(c.(pc := AtReplica(p.rest)))
      else if o.EventsReply? then Some(c.(pc := AtEvent(p.(answer := o.events), o.events)))
      else None
    case _ => None
  }

  /** One iteration over the events of a pod. */
  function EventNext(c: Cli, o: Outcome): Option<Cli>
    requires c.pc.AtEvent?
  {
    var p, events := c.pc.pod, c.pc.events;
    if !o.Proceed? || p.i >= |p.pods| then None
    else if events == [] then Some(c.(pc := NextPod(p)))
    else Some(HandleEvent(c, p, events[0], events[1..], Init(c.driver, Flipped(c.cfg), o.file)))
  }

  /** The forced deletions after a stored flip; a failed one is only logged. */
  function DeleteNext(c: Cli, o: Outcome): Option<Cli>
    requires InDeletion(c.pc)
  {
    var p, events := c.pc.pod, c.pc.events;
    var called := o.CallFails? || o.CallSucceeds?;
    if c.pc.AtDeleteReplica? then
      if c.depl.None? || !called then None
      else
        var effect := DeletedReplica(p.replica, c.depl.value.uid, p.pods);
        Some(c.(effects := c.effects + [effect], pc := AtDeletePod(p, events, 0)))
    else
      var j := c.pc.j;
      if j >= |p.pods| then if o.Proceed? then Some(c.(pc := AtEvent(p, events))) else None
      else if !IsChildOf(p.pods[j], p.replica.uid) then
        if o.Proceed? then Some(c.(pc := AtDeletePod(p, events, j + 1))) else None
      else if called then
        Some(c.(effects := c.effects + [DeletedPod(p.pods[j], p.replica.uid)], pc := AtDeletePod(p, events, j + 1)))
      else None
  }

  // ----- all processes and the server

  datatype State = State(clis: seq<Cli>, server: Server)

  datatype Action = StatusChange(ready: int) | Step(cli: nat, outcome: Outcome)

  function Next(s: State, a: Action): Option<State> {
    match a
    case StatusChange(ready) =>
      if s.server.depl.None? then None else Some(s.(server := ChangeStatus(s.server, ready)))
    case Step(i, o) =>
      if i >= |s.clis| then None
      else
        match CliNext(s.clis[i], i, s.server, o)
        case None => None
        case Some(m) => Some(State(s.clis[i := m.cli], m.server))
  }

  function Run(s: State, actions: seq<Action>): Option<State> {
    if actions == [] then Some(s)
    else
      match Run(s, actions[..|actions| - 1])
      case None => None
      case Some(t) => Next(t, actions[|actions| - 1])
  }

  /** A driver that its factory has just made. */
  ghost predicate IsNewDriver(cfg: Config, d: DriverFields) {
    AllAccepted(cfg.opts) && exists namespace, file :: Init(NewFields(namespace), cfg, file) == InitResult(d, true)
  }

  ghost predicate IsNewCli(c: Cli) {
    IsNewDriver(c.cfg, c.driver) && c.pc == AtTop && !c.err && c.depl == None && c.log == EMPTY_LOG && c.effects == []
  }

  /** Processes that have not started, and a Deployment that may or may not be there already. */
  ghost predicate Initial(s: State) {
    && s.server.writes == []
    && (s.server.depl.Some? ==> s.server.depl.value.version < s.server.nextVersion)
    && forall i :: 0 <= i < |s.clis| ==> IsNewCli(s.clis[i])
  }

  // ----- what the server keeps

  function LastVersion(start: Server, writes: seq<Write>): int {
    if writes != [] then writes[|writes| - 1].version
    else if start.depl.Some? then start.depl.value.version
    else -1
  }

  function LastSpec(start: Server, writes: seq<Write>): Option<Deployment> {
    if writes != [] then Some(writes[|writes| - 1].spec)
    else if start.depl.Some? then Some(start.depl.value.spec)
    else None
  }

  /** One creation at most, the first write; every update replaces a version that no earlier update replaced. */
  ghost predicate WritesInv(start: Server, writes: seq<Write>) {
    forall k :: 0 <= k < |writes| ==> WriteInv(start, writes, k)
  }

  ghost predicate WriteInv(start: Server, writes: seq<Write>, k: nat)
    requires k < |writes|
  {
    var w := writes[k];
    && (w.op.Created? <==> k == 0 && start.depl.None?)
    && (w.op.Updated? ==>
          && LastVersion(start, writes[..k]) <= w.op.base <= w.version && RuntimeOf(w.spec, "containerd")
          && (w.op.base == w.version <==> LastSpec(start, writes[..k]) == Some(w.spec)))
  }

  ghost predicate ServerInv(start: Server, server: Server) {
    && WritesInv(start, server.writes)
    && (server.depl.None? <==> server.writes == [] && start.depl.None?)
    && (server.depl.Some? ==> LastVersion(start, server.writes) <= server.depl.value.version < server.nextVersion)
    && (server.writes != [] ==> server.writes[|server.writes| - 1].spec == server.depl.value.spec)
    && (server.writes == [] && server.depl.Some? ==> server.depl.value.spec == start.depl.value.spec)
  }

  /** The server's object only moves on: same UID, higher versions, and nothing changes under a version. */
  ghost predicate Follows(server: Server, later: Server) {
    && server.writes <= later.writes
    && (server.depl.Some? ==>
          && later.depl.Some? && later.depl.value.uid == server.depl.value.uid
          && (later.depl == server.depl || later.depl.value.version > server.depl.value.version)
          && (RuntimeOf(server.depl.value.spec, "containerd") ==> RuntimeOf(later.depl.value.spec, "containerd")))
  }

  // ----- what a process keeps

  /**
   * Flip once, store it, delete the one replica set, then its pods: the only order, and each only after the one
   * before.
   */
  ghost predicate EffectsInv(effects: seq<Effect>) {
    && (|effects| > 0 ==> effects[0].FlipStarted?)
    && (|effects| > 1 ==> effects[1].FlipStored?)
    && (|effects| > 2 ==> effects[2].DeletedReplica? && IsChildOf(effects[2].replica, effects[2].parentUID))
    && (forall k :: 3 <= k < |effects| ==>
          && effects[k].DeletedPod? && effects[k].parentUID == effects[2].replica.uid
          && IsChildOf(effects[k].pod, effects[k].parentUID))
  }

  ghost predicate FlipIsStored(effects: seq<Effect>, id: nat, server: Server) {
    |effects| > 1 && effects[1].FlipStored? ==>
      exists k :: 0 <= k < |server.writes| && server.writes[k].op.Updated?
        && server.writes[k].cli == id && server.writes[k].version == effects[1].version
  }

  ghost predicate DeletesOwnReplica(effects: seq<Effect>, server: Server) {
    |effects| > 2 && effects[2].DeletedReplica? ==> server.depl.Some? && effects[2].parentUID == server.depl.value.uid
  }

  /** Everything listed below the Deployment was owned by it when listed. */
  predicate Owned(replicas: seq<Meta>, depl: Option<Stored>) {
    depl.Some? && forall i :: 0 <= i < |replicas| ==> IsChildOf(replicas[i], depl.value.uid)
  }

  predicate LoopInv(p: PodLoop, depl: Option<Stored>) {
    p.i <= |p.pods| && Owned([p.replica] + p.rest, depl)
  }

  ghost predicate PcInv(c: Cli) {
    match c.pc
    case AtListReplicas => c.depl.Some?
    case AtReplica(rest) => Owned(rest, c.depl)
    case AtListPods(replica, rest) => Owned([replica] + rest, c.depl)
    case AtPod(p) => LoopInv(p, c.depl)
    case AtEvent(p, _) => LoopInv(p, c.depl) && p.i < |p.pods|
    case AtUpdate(p, _) =>
      && LoopInv(p, c.depl) && p.i < |p.pods| && |c.effects| == 1
      && c.driver.deployment.Some? && RuntimeOf(c.driver.deployment.value, "containerd")
    case AtDeleteReplica(p, _) => LoopInv(p, c.depl) && p.i < |p.pods| && |c.effects| == 2
    case AtDeletePod(p, _, _) =>
      && LoopInv(p, c.depl) && p.i < |p.pods|
      && |c.effects| > 2 && c.effects[2].DeletedReplica? && c.effects[2].replica == p.replica
    case Returned(byContext, err) =>
      !byContext ==> !err && c.depl.Some? && c.depl.value.ready >= Int32(c.driver.minReplicas)
    case _ => true
  }

  /** The driver of a process: as made, until its one flip; a driver whose user chose the runtime stays as made. */
  ghost predicate DriverInv(c0: Cli, c: Cli) {
    && c0.driver.deployment.Some? && c.driver.deployment.Some?
    && c.driver.userSpecifiedConfig == c0.driver.userSpecifiedConfig
    && (c.effects == [] ==> c.cfg == c0.cfg && c.driver == c0.driver)
    && (c.effects != [] ==> c.driver.userSpecifiedRuntime && !c0.driver.userSpecifiedRuntime)
    && (c.driver.deployment != c0.driver.deployment ==>
         SameIdentity(c0.driver.deployment.value, c.driver.deployment.value))
  }

  ghost predicate LocalInv(c0: Cli, c: Cli) {
    DriverInv(c0, c) && EffectsInv(c.effects) && PcInv(c) && LogInv(c.log)
  }

  /** A process's copy is the server's object, or an older version of it. */
  ghost predicate SnapshotInv(c: Cli, server: Server) {
    c.depl.Some? ==>
      && server.depl.Some? && c.depl.value.uid == server.depl.value.uid
      && (c.depl == server.depl || c.depl.value.version < server.depl.value.version)
  }

  ghost predicate CliInv(c0: Cli, c: Cli, id: nat, server: Server) {
    && LocalInv(c0, c) && SnapshotInv(c, server)
    && FlipIsStored(c.effects, id, server) && DeletesOwnReplica(c.effects, server)
  }

  ghost predicate Inv(start: State, s: State) {
    && ServerInv(start.server, s.server) && |s.clis| == |start.clis|
    && forall i :: 0 <= i < |s.clis| ==> CliInv(start.clis[i], s.clis[i], i, s.server)
  }

  // ----- steps of the server

  lemma WritesInvAfterAppend(start: Server, writes: seq<Write>, w: Write)
    requires WritesInv(start, writes)
    requires WriteInv(start, writes + [w], |writes|)
    ensures WritesInv(start, writes + [w])
  {
    forall k | 0 <= k < |writes|
      ensures WriteInv(start, writes + [w], k)
    {
      assert WriteInv(start, writes, k);
      assert (writes + [w])[..k] == writes[..k];
    }
  }

  lemma CreateKeepsInv(start: Server, server: Server, id: nat, uid: string, spec: Deployment)
    requires ServerInv(start, server) && server.depl.None?
    ensures ServerInv(start, CreateDeployment(server, id, uid, spec))
    ensures Follows(server, CreateDeployment(server, id, uid, spec))
  {
    hide Init;
    WritesInvAfterAppend(start, server.writes, Write(id, Created, server.nextVersion, spec));
  }

  lemma UpdateKeepsInv(start: Server, server: Server, id: nat, spec: Deployment)
    requires ServerInv(start, server) && server.depl.Some? && RuntimeOf(spec, "containerd")
    ensures ServerInv(start, UpdateDeployment(server, id, spec))
    ensures Follows(server, UpdateDeployment(server, id, spec))
  {
    hide Init;
    var w := UpdateDeployment(server, id, spec).writes[|server.writes|];
    assert LastSpec(start, server.writes) == Some(server.depl.value.spec);
    assert (server.writes + [w])[..|server.writes|] == server.writes;
    WritesInvAfterAppend(start, server.writes, w);
  }

  lemma StatusKeepsInv(start: Server, server: Server, ready: int)
    requires ServerInv(start, server) && server.depl.Some?
    ensures ServerInv(start, ChangeStatus(server, ready)) && Follows(server, ChangeStatus(server, ready))
  {
    hide Init;
  }

  // ----- steps of a process

  /** What a flip leaves in a driver that its factory made. */
  predicate FlippedFields(c0: Cli, r: InitResult) {
    && c0.driver.deployment.Some? && r.fields.deployment.Some? && r.fields.userSpecifiedRuntime
    && r.fields.userSpecifiedConfig == c0.driver.userSpecifiedConfig
    && (r.fields.deployment != c0.driver.deployment ==>
         SameIdentity(c0.driver.deployment.value, r.fields.deployment.value))
    && (r.ok ==> RuntimeOf(r.fields.deployment.value, "containerd"))
  }

  lemma FlipOfNewDriver(c0: Cli, file: Option<string>)
    requires IsNewCli(c0)
    ensures FlippedFields(c0, Init(c0.driver, Flipped(c0.cfg), file))
  {
    hide Init, DeploymentFor;
    var namespace, f :| Init(NewFields(namespace), c0.cfg, f) == InitResult(c0.driver, true);
    assert Initialised(c0.driver, c0.cfg);
    UserConfigIsFixed(c0.cfg, namespace, f, c0.driver, file);
    FlipSetsUserSpecified(c0.driver, c0.cfg, file);
    FlipKeepsIdentity(c0.driver, c0.cfg, file);
  }

  /** What the reading and deleting steps leave alone. */
  ghost predicate SameStoredFlip(c: Cli, next: Cli) {
    && (next.depl == c.depl || next.depl == None)
    && c.effects <= next.effects && (|next.effects| > 1 ==> |c.effects| > 1)
    && (|next.effects| > 2 && |c.effects| <= 2 && next.effects[2].DeletedReplica? ==>
          c.depl.Some? && next.effects[2].parentUID == c.depl.value.uid)
  }

  /** A flip starts only in a driver that is still as its factory made it, so at most once. */
  lemma StartFlipKeepsInv(c0: Cli, c: Cli, p: PodLoop, rest: seq<Event>, r: InitResult)
    requires LocalInv(c0, c) && c.pc.AtEvent? && c.pc.pod == p && !c.driver.userSpecifiedRuntime
    requires FlippedFields(c0, r)
    ensures LocalInv(c0, StartFlip(c, p, rest, r)) && SameStoredFlip(c, StartFlip(c, p, rest, r))
  {
    hide Init;
  }

  lemma ReportKeepsInv(c0: Cli, c: Cli, log: Log, pc: Pc)
    requires LocalInv(c0, c) && c.pc.AtEvent? && LogInv(log)
    requires (pc.AtEvent? && pc.pod == c.pc.pod) || pc == NextPod(c.pc.pod)
    ensures LocalInv(c0, c.(log := log, pc := pc)) && SameStoredFlip(c, c.(log := log, pc := pc))
  {
    hide Init;
  }

  lemma HandleEventKeepsInv(c0: Cli, c: Cli, p: PodLoop, events: seq<Event>, flip: InitResult)
    requires LocalInv(c0, c) && c.pc == AtEvent(p, events) && events != [] && p.i < |p.pods|
    requires !c.driver.userSpecifiedRuntime ==> FlippedFields(c0, flip)
    ensures LocalInv(c0, HandleEvent(c, p, events[0], events[1..], flip))
    ensures SameStoredFlip(c, HandleEvent(c, p, events[0], events[1..], flip))
  {
    hide Init;
    var log := Visit(c.log, events[0], p.pods[p.i].name, p.pods[p.i].uid).log;
    VisitKeepsLogInv(c.log, events[0], p.pods[p.i].name, p.pods[p.i].uid);
    ReportKeepsInv(c0, c, log, AtEvent(p, events[1..]));
    ReportKeepsInv(c0, c, log, NextPod(p));
    if !c.driver.userSpecifiedRuntime {
      StartFlipKeepsInv(c0, c.(log := log, pc := AtEvent(p, events[1..])), p, events[1..], flip);
    }
  }

  lemma ReplicaKeepsInv(c0: Cli, c: Cli, o: Outcome)
    requires LocalInv(c0, c) && InspectNext(c, o).Some? && (c.pc.AtListReplicas? || c.pc.AtReplica?)
    ensures LocalInv(c0, InspectNext(c, o).value) && SameStoredFlip(c, InspectNext(c, o).value)
  {
    hide Init;
    if c.pc.AtReplica? && c.pc.rest != [] && o.EventsReply? {
      VisitAllKeepsLogInv(c.log, ReplicaBatch(c.pc.rest[0], o.events));
      assert [c.pc.rest[0]] + c.pc.rest[1..] == c.pc.rest;
    }
  }

  lemma PodKeepsInv(c0: Cli, c: Cli, o: Outcome)
    requires LocalInv(c0, c) && InspectNext(c, o).Some? && (c.pc.AtListPods? || c.pc.AtPod?)
    ensures LocalInv(c0, InspectNext(c, o).value) && SameStoredFlip(c, InspectNext(c, o).value)
  {
    hide Init;
    if c.pc.AtListPods? {
      assert c.pc.rest == ([c.pc.replica] + c.pc.rest)[1..];
    } else {
      assert c.pc.pod.rest == ([c.pc.pod.replica] + c.pc.pod.rest)[1..];
    }
  }

  lemma EventKeepsInv(c0: Cli, c: Cli, o: Outcome)
    requires IsNewCli(c0)
    requires LocalInv(c0, c) && c.pc.AtEvent? && EventNext(c, o).Some?
    ensures LocalInv(c0, EventNext(c, o).value) && SameStoredFlip(c, EventNext(c, o).value)
  {
    hide Init;
    if c.pc.events != [] {
      FlipOfNewDriver(c0, o.file);
      HandleEventKeepsInv(c0, c, c.pc.pod, c.pc.events, Init(c.driver, Flipped(c.cfg), o.file));
    } else {
      ReportKeepsInv(c0, c, c.log, NextPod(c.pc.pod));
      assert c.(log := c.log, pc := NextPod(c.pc.pod)) == c.(pc := NextPod(c.pc.pod));
    }
  }

  /** Deletions reach the flipped replica set and its pods, and nothing else. */
  lemma DeleteKeepsInv(c0: Cli, c: Cli, o: Outcome)
    requires LocalInv(c0, c) && InDeletion(c.pc) && DeleteNext(c, o).Some?
    ensures LocalInv(c0, DeleteNext(c, o).value) && SameStoredFlip(c, DeleteNext(c, o).value)
  {
    hide Init;
    assert ([c.pc.pod.replica] + c.pc.pod.rest)[0] == c.pc.pod.replica;
  }

  // ----- a step of one process, seen by it and by the others

  lemma FollowsKeepsOthers(c0: Cli, c: Cli, id: nat, server: Server, later: Server)
    requires CliInv(c0, c, id, server) && Follows(server, later)
    ensures CliInv(c0, c, id, later)
  {
    hide Init;
    if |c.effects| > 1 && c.effects[1].FlipStored? {
      var k :| 0 <= k < |server.writes| && server.writes[k].op.Updated?
        && server.writes[k].cli == id && server.writes[k].version == c.effects[1].version;
      assert later.writes[k] == server.writes[k];
    }
  }

  lemma CreateStepKeepsInv(c0: Cli, c: Cli, id: nat, start: Server, server: Server, o: Outcome)
    requires CliInv(c0, c, id, server) && ServerInv(start, server)
    requires c.pc.AtCreate? && CreateNext(c, id, server, o).Some?
    ensures
      var m := CreateNext(c, id, server, o).value;
      CliInv(c0, m.cli, id, m.server) && ServerInv(start, m.server) && Follows(server, m.server)
  {
    hide Init;
    if !o.CallFails? {
      CreateKeepsInv(start, server, id, o.newUID, c.driver.deployment.value);
      FollowsKeepsOthers(c0, c, id, server, CreateNext(c, id, server, o).value.server);
    }
  }

  lemma UpdateStepKeepsInv(c0: Cli, c: Cli, id: nat, start: Server, server: Server, o: Outcome)
    requires CliInv(c0, c, id, server) && ServerInv(start, server)
    requires c.pc.AtUpdate? && UpdateNext(c, id, server, o).Some?
    ensures
      var m := UpdateNext(c, id, server, o).value;
      CliInv(c0, m.cli, id, m.server) && ServerInv(start, m.server) && Follows(server, m.server)
  {
    hide Init;
    var m := UpdateNext(c, id, server, o).value;
    if !o.CallFails? {
      UpdateKeepsInv(start, server, id, c.driver.deployment.value);
      FollowsKeepsOthers(c0, c, id, server, m.server);
      assert m.server.writes[|server.writes|].cli == id;
    }
  }

  lemma TopKeepsInv(c0: Cli, c: Cli, o: Outcome)
    requires LocalInv(c0, c) && c.pc.AtTop? && TopNext(c, o).Some?
    ensures LocalInv(c0, TopNext(c, o).value) && SameStoredFlip(c, TopNext(c, o).value)
  {
    hide Init;
  }

  lemma GetKeepsInv(c0: Cli, c: Cli, id: nat, server: Server, o: Outcome)
    requires CliInv(c0, c, id, server) && c.pc.AtGet? && GetNext(c, server, o).Some?
    ensures CliInv(c0, GetNext(c, server, o).value, id, server)
  {
    hide Init;
  }

  /** A new call of createBuilder: what the driver did in the calls before stays on record. */
  lemma ReturnKeepsInv(c0: Cli, c: Cli, o: Outcome)
    requires LocalInv(c0, c) && c.pc.Returned? && ReturnNext(c, o).Some?
    ensures LocalInv(c0, ReturnNext(c, o).value) && SameStoredFlip(c, ReturnNext(c, o).value)
  {
    hide Init;
  }

  lemma LocalNextKeepsInv(c0: Cli, c: Cli, o: Outcome)
    requires IsNewCli(c0) && LocalInv(c0, c)
    requires !c.pc.AtTop? && !c.pc.AtGet? && !c.pc.AtCreate? && !c.pc.AtUpdate?
    requires LocalNext(c, o).Some?
    ensures LocalInv(c0, LocalNext(c, o).value) && SameStoredFlip(c, LocalNext(c, o).value)
  {
    hide Init, LocalInv, SameStoredFlip, EventNext, DeleteNext, ReturnNext;
    if c.pc.AtEvent? {
      EventKeepsInv(c0, c, o);
    } else if InDeletion(c.pc) {
      DeleteKeepsInv(c0, c, o);
    } else if c.pc.AtListReplicas? || c.pc.AtReplica? {
      ReplicaKeepsInv(c0, c, o);
    } else if c.pc.AtListPods? || c.pc.AtPod? {
      PodKeepsInv(c0, c, o);
    } else if c.pc.Returned? {
      ReturnKeepsInv(c0, c, o);
    }
  }

  lemma SameStoredFlipKeepsInv(c0: Cli, c: Cli, next: Cli, id: nat, server: Server)
    requires CliInv(c0, c, id, server) && LocalInv(c0, next) && SameStoredFlip(c, next)
    ensures CliInv(c0, next, id, server)
  {
    hide Init;
    assert |c.effects| > 1 ==> next.effects[1] == c.effects[1];
    assert |c.effects| > 2 ==> next.effects[2] == c.effects[2];
  }

  lemma MoverKeepsInv(c0: Cli, c: Cli, id: nat, start: Server, server: Server, o: Outcome)
    requires IsNewCli(c0) && CliInv(c0, c, id, server) && ServerInv(start, server)
    requires CliNext(c, id, server, o).Some?
    ensures
      var m := CliNext(c, id, server, o).value;
      CliInv(c0, m.cli, id, m.server) && ServerInv(start, m.server) && Follows(server, m.server)
  {
    hide Init, LocalInv, SameStoredFlip, CreateNext, UpdateNext, TopNext, GetNext, LocalNext, ServerInv;
    if c.pc.AtCreate? {
      CreateStepKeepsInv(c0, c, id, start, server, o);
    } else if c.pc.AtUpdate? {
      UpdateStepKeepsInv(c0, c, id, start, server, o);
    } else if c.pc.AtTop? {
      TopKeepsInv(c0, c, o);
      SameStoredFlipKeepsInv(c0, c, TopNext(c, o).value, id, server);
    } else if c.pc.AtGet? {
      GetKeepsInv(c0, c, id, server, o);
    } else {
      LocalNextKeepsInv(c0, c, o);
      SameStoredFlipKeepsInv(c0, c, LocalNext(c, o).value, id, server);
    }
  }

  lemma StepKeepsInv(start: State, s: State, i: nat, o: Outcome)
    requires Initial(start) && Inv(start, s) && Next(s, Step(i, o)).Some?
    ensures Inv(start, Next(s, Step(i, o)).value)
    ensures Follows(s.server, Next(s, Step(i, o)).value.server)
  {
    hide Init, CliNext, LocalInv;
    var m := CliNext(s.clis[i], i, s.server, o).value;
    MoverKeepsInv(start.clis[i], s.clis[i], i, start.server, s.server, o);
    OthersKeepInv(start, s, i, m);
  }

  lemma OthersKeepInv(start: State, s: State, i: nat, m: Moved)
    requires Inv(start, s) && i < |s.clis|
    requires CliInv(start.clis[i], m.cli, i, m.server) && ServerInv(start.server, m.server)
    requires Follows(s.server, m.server)
    ensures Inv(start, State(s.clis[i := m.cli], m.server))
  {
    hide Init;
    forall k | 0 <= k < |s.clis| && k != i
      ensures CliInv(start.clis[k], s.clis[k], k, m.server)
    {
      FollowsKeepsOthers(start.clis[k], s.clis[k], k, s.server, m.server);
    }
  }

  lemma NextKeepsInv(start: State, s: State, a: Action)
    requires Initial(start) && Inv(start, s) && Next(s, a).Some?
    ensures Inv(start, Next(s, a).value) && Follows(s.server, Next(s, a).value.server)
  {
    hide Init, CliNext, LocalInv;
    match a
    case StatusChange(ready) =>
      StatusKeepsInv(start.server, s.server, ready);
      forall k | 0 <= k < |s.clis|
        ensures CliInv(start.clis[k], s.clis[k], k, Next(s, a).value.server)
      {
        FollowsKeepsOthers(start.clis[k], s.clis[k], k, s.server, Next(s, a).value.server);
      }
    case Step(i, o) =>
      StepKeepsInv(start, s, i, o);
  }

  lemma InitialInv(start: State)
    requires Initial(start)
    ensures Inv(start, start)
  {
    hide Init;
    forall i | 0 <= i < |start.clis|
      ensures CliInv(start.clis[i], start.clis[i], i, start.server)
    {
      var c := start.clis[i];
      var namespace, file :| Init(NewFields(namespace), c.cfg, file) == InitResult(c.driver, true);
      NewDriverFields(c.cfg, namespace, file);
    }
  }

  lemma {:induction false} RunKeepsInv(start: State, actions: seq<Action>)
    requires Initial(start) && Run(start, actions).Some?
    ensures Inv(start, Run(start, actions).value)
  {
    hide Init;
    if actions == [] {
      InitialInv(start);
    } else {
      var last := |actions| - 1;
      RunKeepsInv(start, actions[..last]);
      NextKeepsInv(start, Run(start, actions[..last]).value, actions[last]);
    }
  }

  // ----- the theorems: `s` is the state that some run of `actions` ends in

  /** No two updates replace the same version, but for those that change nothing and so leave the version. */
  ghost predicate UpdatesNeverShareABase(start: Server, writes: seq<Write>) {
    && (forall j, k :: 0 <= j < k < |writes| && writes[j].op.Updated? && writes[k].op.Updated? ==>
          writes[j].op.base < writes[k].op.base || writes[j].version == writes[j].op.base == writes[k].op.base)
    && (forall k :: 0 <= k < |writes| && writes[k].op.Updated? ==>
          (writes[k].version == writes[k].op.base <==> LastSpec(start, writes[..k]) == Some(writes[k].spec)))
  }

  lemma {:induction false} VersionsGrow(start: Server, writes: seq<Write>, j: nat, k: nat)
    requires WritesInv(start, writes) && j < k < |writes|
    ensures writes[k].op.Updated? && writes[j].version <= writes[k].op.base
    decreases k
  {
    assert WriteInv(start, writes, k) && WriteInv(start, writes, k - 1);
    assert writes[..k][k - 1] == writes[k - 1];
    if j < k - 1 {
      VersionsGrow(start, writes, j, k - 1);
    }
  }

  /**
   * At most one Create is ever stored, and none onto an existing Deployment; no two updates replaced the same
   * version, unless the first of them changed nothing.
   */
  lemma CompareAndSwapIsSafe(start: State, actions: seq<Action>, s: State)
    requires Initial(start) && Run(start, actions) == Some(s)
    ensures
      var writes := s.server.writes;
      && (forall k :: 0 <= k < |writes| ==> (writes[k].op.Created? <==> k == 0 && start.server.depl.None?))
      && UpdatesNeverShareABase(start.server, writes)
      && (s.server.depl.Some? && start.server.depl.None? ==> writes != [])
      && (writes != [] ==> s.server.depl.Some? && s.server.depl.value.spec == writes[|writes| - 1].spec)
  {
    hide Init;
    RunKeepsInv(start, actions);
    WritesAreSafe(start.server, s.server);
  }

  lemma WritesAreSafe(start: Server, server: Server)
    requires ServerInv(start, server)
    ensures forall k :: 0 <= k < |server.writes| ==> (server.writes[k].op.Created? <==> k == 0 && start.depl.None?)
    ensures UpdatesNeverShareABase(start, server.writes)
  {
    hide Init;
    forall k | 0 <= k < |server.writes|
      ensures server.writes[k].op.Created? <==> k == 0 && start.depl.None?
      ensures server.writes[k].op.Updated? ==>
        (server.writes[k].version == server.writes[k].op.base
         <==> LastSpec(start, server.writes[..k]) == Some(server.writes[k].spec))
    {
      assert WriteInv(start, server.writes, k);
    }
    forall j, k | 0 <= j < k < |server.writes| && server.writes[j].op.Updated? && server.writes[k].op.Updated?
      ensures server.writes[j].op.base < server.writes[k].op.base
        || server.writes[j].version == server.writes[j].op.base == server.writes[k].op.base
    {
      assert WriteInv(start, server.writes, j);
      VersionsGrow(start, server.writes, j, k);
    }
  }

  /** An update is stored only onto the very object that its process last read, unchanged. */
  lemma UpdateReplacesWhatWasRead(start: State, actions: seq<Action>, s: State, i: nat, o: Outcome, t: State)
    requires Initial(start) && Run(start, actions) == Some(s) && Next(s, Step(i, o)) == Some(t)
    requires i < |s.clis| && s.clis[i].pc.AtUpdate? && t.server != s.server
    ensures s.clis[i].depl == s.server.depl && s.server.depl.Some? && t.server.depl.Some?
    ensures
      var next := t.server.depl.value;
      && t.server.writes == s.server.writes + [Write(i, Updated(s.clis[i].depl.value.version), next.version, next.spec)]
      && RuntimeOf(next.spec, "containerd")
  {
    hide Init;
    RunKeepsInv(start, actions);
    StoredUpdate(start.clis[i], s.clis[i], i, s.server, o);
  }

  lemma StoredUpdate(c0: Cli, c: Cli, id: nat, server: Server, o: Outcome)
    requires CliInv(c0, c, id, server) && c.pc.AtUpdate? && UpdateNext(c, id, server, o).Some?
    requires UpdateNext(c, id, server, o).value.server != server
    ensures c.depl == server.depl && server.depl.Some?
    ensures
      var later := UpdateNext(c, id, server, o).value.server;
      && later.depl.Some? && RuntimeOf(later.depl.value.spec, "containerd")
      && later.writes == server.writes
           + [Write(id, Updated(c.depl.value.version), later.depl.value.version, later.depl.value.spec)]
  {
    hide Init;
  }

  /** Later in the same run: same UID, no lower version, and containerd if it was containerd. */
  ghost predicate NeverGoesBack(server: Server, later: Server) {
    server.depl.Some? ==>
      && later.depl.Some? && later.depl.value.uid == server.depl.value.uid
      && later.depl.value.version >= server.depl.value.version
      && (RuntimeOf(server.depl.value.spec, "containerd") ==> RuntimeOf(later.depl.value.spec, "containerd"))
  }

  /** Once the stored Deployment runs containerd it does so for good, whatever runtimes the other processes want. */
  lemma RuntimeNeverGoesBack(start: State, before: seq<Action>, after: seq<Action>, s: State, t: State)
    requires Initial(start) && Run(start, before) == Some(s) && Run(start, before + after) == Some(t)
    ensures NeverGoesBack(s.server, t.server)
    decreases |after|
  {
    hide Init;
    if after == [] {
      assert before + after == before;
    } else {
      var last := |after| - 1;
      var front := before + after[..last];
      assert (before + after)[..|before + after| - 1] == front;
      var u := Run(start, front).value;
      RuntimeNeverGoesBack(start, before, after[..last], s, u);
      RunKeepsInv(start, front);
      NextKeepsInv(start, u, after[last]);
    }
  }

  /**
   * A process flips at most once, and never a runtime that its user chose; forced deletions come only after its own
   * stored update, and reach one replica set owned by the Deployment that it read, and pods owned by that replica set.
   */
  lemma FlipAndCleanupAreSafe(start: State, actions: seq<Action>, s: State, i: nat)
    requires Initial(start) && Run(start, actions) == Some(s) && i < |s.clis|
    ensures i < |start.clis|
    ensures
      var effects := s.clis[i].effects;
      && EffectsInv(effects) && FlipIsStored(effects, i, s.server)
      && (start.clis[i].driver.userSpecifiedRuntime ==> effects == [])
      && (|effects| > 2 ==> s.server.depl.Some? && effects[2].parentUID == s.server.depl.value.uid)
  {
    hide Init;
    RunKeepsInv(start, actions);
    assert CliInv(start.clis[i], s.clis[i], i, s.server);
  }

  /**
   * Over its whole run a process flips once at most, deletes one replica set at most, and deletes nothing before
   * its flip is stored.
   */
  lemma EffectsOccurOnce(start: State, actions: seq<Action>, s: State, i: nat)
    requires Initial(start) && Run(start, actions) == Some(s) && i < |s.clis|
    ensures
      var effects := s.clis[i].effects;
      && (forall j, k :: 0 <= j < k < |effects| ==> !(effects[j].FlipStarted? && effects[k].FlipStarted?))
      && (forall j, k :: 0 <= j < k < |effects| ==> !(effects[j].DeletedReplica? && effects[k].DeletedReplica?))
      && (forall k :: 0 <= k < |effects| && (effects[k].DeletedReplica? || effects[k].DeletedPod?) ==>
            k > 1 && effects[1].FlipStored?)
  {
    hide Init;
    FlipAndCleanupAreSafe(start, actions, s, i);
    OrderedEffectsOccurOnce(s.clis[i].effects);
  }

  lemma OrderedEffectsOccurOnce(effects: seq<Effect>)
    requires EffectsInv(effects)
    ensures forall j, k :: 0 <= j < k < |effects| ==> !(effects[j].FlipStarted? && effects[k].FlipStarted?)
    ensures forall j, k :: 0 <= j < k < |effects| ==> !(effects[j].DeletedReplica? && effects[k].DeletedReplica?)
    ensures forall k :: 0 <= k < |effects| && (effects[k].DeletedReplica? || effects[k].DeletedPod?) ==>
      k > 1 && effects[1].FlipStored?
  {
    assert forall k :: 3 <= k < |effects| ==> effects[k].DeletedPod?;
  }

  /**
   * Over all rounds of a call every message is logged once, and only a process's own identity is ever written for
   * it.
   */
  lemma ReportsAndIdentity(start: State, actions: seq<Action>, s: State, i: nat)
    requires Initial(start) && Run(start, actions) == Some(s) && i < |s.clis|
    ensures i < |start.clis|
    ensures LogInv(s.clis[i].log)
    ensures
      var was, now := start.clis[i].driver.deployment, s.clis[i].driver.deployment;
      was.Some? && now.Some? && (now != was ==> SameIdentity(was.value, now.value))
  {
    hide Init;
    RunKeepsInv(start, actions);
    assert CliInv(start.clis[i], s.clis[i], i, s.server);
  }

  /** Leaving the loop other than by the context means that enough replicas were seen ready, and no error. */
  lemma ReturnMeansReady(start: State, actions: seq<Action>, s: State, i: nat)
    requires Initial(start) && Run(start, actions) == Some(s) && i < |s.clis|
    requires s.clis[i].pc.Returned? && !s.clis[i].pc.byContext
    ensures !s.clis[i].pc.err && s.clis[i].depl.Some?
    ensures s.clis[i].depl.value.ready >= Int32(s.clis[i].driver.minReplicas)
  {
    hide Init;
    RunKeepsInv(start, actions);
    assert CliInv(start.clis[i], s.clis[i], i, s.server);
  }
}
