/**
 * A whole bootstrap (`wait` in driver/kubernetes/driver.go): each process first runs createConfigMap, and createBuilder
 * only once that has returned nil. Boot may call it again with the same driver. This joins the two protocols.
 */
module WaitProtocol {
  import opened Text
  import C = ConfigMapProtocol
  import B = BuilderProtocol

  /**
   * Process i is config.clis[i] while it is in createConfigMap, and builder.clis[i] from then on. `began` is how many
   * ConfigMap writes there were when its present call of `wait` began.
   */
  datatype State = State(config: C.State, builder: B.State, began: seq<nat>)

  datatype Action =
    | ConfigStep(configAction: C.Action)
    | BuilderStep(builderAction: B.Action)
    | Again(cli: nat, contents: string)   // `contents` is the driver's ConfigMap by then: a flip may have changed it

  ghost predicate Initial(s: State) {
    && C.Initial(s.config) && B.Initial(s.builder) && |s.config.clis| == |s.builder.clis| == |s.began|
    && (forall i :: 0 <= i < |s.began| ==> s.began[i] == 0)
    && forall i :: 0 <= i < |s.config.clis| ==>
         s.config.clis[i].userConfig == s.builder.clis[i].driver.userSpecifiedConfig
  }

  /** createConfigMap has returned nil, and createBuilder has not returned since. */
  predicate InCreateBuilder(s: State, i: nat) {
    && i < |s.config.clis| && i < |s.builder.clis|
    && s.config.clis[i].pc == C.Returned(false, false) && !s.builder.clis[i].pc.Returned?
  }

  /** `wait` has returned: with an error of createConfigMap, or with whatever createBuilder returned. */
  predicate WaitReturned(s: State, i: nat) {
    && i < |s.config.clis| && i < |s.builder.clis| && i < |s.began| && s.config.clis[i].pc.Returned?
    && (s.config.clis[i].pc.err || s.builder.clis[i].pc.Returned?)
  }

  function Next(s: State, a: Action): Option<State> {
    match a
    case ConfigStep(ca) =>
      (match C.Next(s.config, ca)
       case None => None
       case Some(config) => Some(s.(config := config)))
    case BuilderStep(ba) =>
      if ba.Step? && !InCreateBuilder(s, ba.cli) then None
      else
        (match B.Next(s.builder, ba)
         case None => None
         case Some(builder) => Some(s.(builder := builder)))
    case Again(i, contents) =>
      if !WaitReturned(s, i) then None
      else
        var c := s.config.clis[i].(pc := C.AtTop, err := true, contents := contents);
        var builder := if s.builder.clis[i].pc.Returned? then B.Next(s.builder, AgainStep(i)) else Some(s.builder);
        if builder.None? then None
        else
          Some(State(s.config.(clis := s.config.clis[i := c]), builder.value, s.began[i := |s.config.writes|]))
  }

  /** The step of the builder protocol with which a new call begins. */
  function AgainStep(i: nat): B.Action {
    B.Step(i, B.Proceed(None))
  }

  function Run(s: State, actions: seq<Action>): Option<State> {
    if actions == [] then Some(s)
    else
      match Run(s, actions[..|actions| - 1])
      case None => None
      case Some(t) => Next(t, actions[|actions| - 1])
  }

  // ----- the builder's part of a run is a run

  lemma {:induction false} BuilderPartIsARun(start: State, actions: seq<Action>, s: State) returns (part: seq<B.Action>)
    requires Run(start, actions) == Some(s)
    ensures B.Run(start.builder, part) == Some(s.builder)
    decreases |actions|
  {
    hide B.Next, C.Next;
    part := [];
    if actions != [] {
      var before, a := actions[..|actions| - 1], actions[|actions| - 1];
      var t := Run(start, before).value;
      part := BuilderPartIsARun(start, before, t);
      if a.BuilderStep? {
        BuilderRunOneMore(start.builder, part, a.builderAction);
        part := part + [a.builderAction];
      } else if a.Again? && t.builder.clis[a.cli].pc.Returned? {
        BuilderRunOneMore(start.builder, part, AgainStep(a.cli));
        part := part + [AgainStep(a.cli)];
      }
    }
  }

  lemma BuilderRunOneMore(start: B.State, actions: seq<B.Action>, a: B.Action)
    requires B.Run(start, actions).Some?
    ensures B.Run(start, actions + [a]) == B.Next(B.Run(start, actions).value, a)
  {
    hide B.Next;
    assert (actions + [a])[..|actions|] == actions;
  }

  // ----- the ConfigMap comes first

  /** A process whose loop is over without an error has seen or stored the object; only a user's config is updated. */
  predicate ConfigInv(config: C.State) {
    forall i :: 0 <= i < |config.clis| ==>
      && (IsDone(config.clis[i]) ==> config.stored.Some?)
      && (config.clis[i].pc.Returned? ==> config.clis[i].pc.err == config.clis[i].err)
      && (config.clis[i].pc.AtUpdate? ==> config.clis[i].userConfig && config.stored.Some?)
  }

  /** Whose config is the user's does not change. */
  predicate SameUsers(config: C.State, later: C.State) {
    && |later.clis| == |config.clis|
    && forall i :: 0 <= i < |config.clis| ==> later.clis[i].userConfig == config.clis[i].userConfig
  }

  /** The process stored its own config after the first n writes. */
  ghost predicate WroteSince(config: C.State, i: nat, n: nat)
    requires i < |config.clis|
  {
    exists k :: n <= k < |config.writes|
      && config.writes[k].cli == i && config.writes[k].contents == config.clis[i].contents
  }

  /** A process with a user's config whose loop is over without an error has stored it since its call began. */
  ghost predicate BeganInv(config: C.State, began: seq<nat>) {
    && |began| == |config.clis|
    && forall i :: 0 <= i < |began| ==>
         && began[i] <= |config.writes|
         && (IsDone(config.clis[i]) && config.clis[i].userConfig ==> WroteSince(config, i, began[i]))
  }

  /** The loop is over without an error, or about to be. */
  predicate IsDone(c: C.Cli) {
    (c.pc.AtTop? || c.pc.Returned?) && !c.err
  }

  ghost predicate WaitInv(start: State, s: State) {
    && ConfigInv(s.config) && SameUsers(start.config, s.config) && BeganInv(s.config, s.began)
    && (s.builder.server.writes != [] ==> s.config.stored.Some?)
  }

  lemma ConfigStepKeepsInv(config: C.State, a: C.Action, t: C.State)
    requires ConfigInv(config) && C.Next(config, a) == Some(t)
    ensures ConfigInv(t) && SameUsers(config, t) && (config.stored.Some? ==> t.stored.Some?)
    ensures config.stored.Some? && t.stored != config.stored ==>
      config.clis[a.cli].userConfig && t.stored == Some(config.clis[a.cli].contents)
  {
    C.NextShape(config, a, t);
  }

  lemma WrittenStaysWritten(config: C.State, t: C.State, i: nat, n: nat)
    requires i < |config.clis| && i < |t.clis| && WroteSince(config, i, n)
    requires config.writes <= t.writes && t.clis[i].contents == config.clis[i].contents
    ensures WroteSince(t, i, n)
  {
    var k :| n <= k < |config.writes| && config.writes[k].cli == i
      && config.writes[k].contents == config.clis[i].contents;
    assert t.writes[k] == config.writes[k];
  }

  lemma ConfigStepKeepsBegan(config: C.State, a: C.Action, t: C.State, began: seq<nat>)
    requires ConfigInv(config) && BeganInv(config, began) && C.Next(config, a) == Some(t)
    ensures BeganInv(t, began)
  {
    C.NextShape(config, a, t);
    forall i | 0 <= i < |began| && IsDone(t.clis[i]) && t.clis[i].userConfig
      ensures WroteSince(t, i, began[i])
    {
      if C.WriteOf(config, a).Some? && i == a.cli {
        assert t.writes[|config.writes|].cli == i;
      } else {
        WrittenStaysWritten(config, t, i, began[i]);
      }
    }
  }

  lemma AgainKeepsBegan(s: State, i: nat, c: C.Cli)
    requires BeganInv(s.config, s.began) && i < |s.began| && c.pc == C.AtTop && c.err
    ensures BeganInv(s.config.(clis := s.config.clis[i := c]), s.began[i := |s.config.writes|])
  {
    var t := s.config.(clis := s.config.clis[i := c]);
    forall k | 0 <= k < |s.began| && k != i && IsDone(t.clis[k]) && t.clis[k].userConfig
      ensures WroteSince(t, k, s.began[k])
    {
      WrittenStaysWritten(s.config, t, k, s.began[k]);
    }
  }

  lemma NextKeepsWaitInv(start: State, s: State, a: Action, t: State)
    requires WaitInv(start, s) && Next(s, a) == Some(t)
    ensures WaitInv(start, t) && (s.config.stored.Some? ==> t.config.stored.Some?)
  {
    hide C.Next, B.CliNext, B.ChangeStatus;
    match a
    case ConfigStep(ca) =>
      ConfigStepKeepsInv(s.config, ca, t.config);
      ConfigStepKeepsBegan(s.config, ca, t.config, s.began);
    case BuilderStep(ba) =>
      if !ba.Step? {
        StatusKeepsWrites(s.builder, ba, t.builder);
      }
    case Again(i, contents) =>
      AgainKeepsBegan(s, i, t.config.clis[i]);
      if s.builder.clis[i].pc.Returned? {
        AgainKeepsWrites(s.builder, i, t.builder);
      }
  }

  lemma StatusKeepsWrites(s: B.State, a: B.Action, t: B.State)
    requires B.Next(s, a) == Some(t) && !a.Step?
    ensures t.server.writes == s.server.writes
  {
  }

  lemma AgainKeepsWrites(s: B.State, i: nat, t: B.State)
    requires i < |s.clis| && s.clis[i].pc.Returned? && B.Next(s, AgainStep(i)) == Some(t)
    ensures t.server == s.server
  {
    hide B.CreateNext, B.UpdateNext, B.EventNext, B.DeleteNext, B.InspectNext;
  }

  lemma {:induction false} RunKeepsWaitInv(start: State, actions: seq<Action>, s: State)
    requires Initial(start) && Run(start, actions) == Some(s)
    ensures WaitInv(start, s)
    decreases |actions|
  {
    hide Next, B.IsNewCli;
    if actions != [] {
      var before, a := actions[..|actions| - 1], actions[|actions| - 1];
      var t := Run(start, before).value;
      RunKeepsWaitInv(start, before, t);
      NextKeepsWaitInv(start, t, a, s);
    }
  }

  /**
   * In every run, repeated calls included: no call of createBuilder reaches the server, and no Deployment is ever
   * created or updated, before the ConfigMap exists.
   */
  lemma ConfigMapComesFirst(start: State, actions: seq<Action>, s: State, a: Action, t: State)
    requires Initial(start) && Run(start, actions) == Some(s) && Next(s, a) == Some(t)
    ensures s.builder.server.writes != [] ==> s.config.stored.Some?
    ensures a.BuilderStep? && a.builderAction.Step? ==> s.config.stored.Some?
    ensures t.builder.server.writes != s.builder.server.writes ==> s.config.stored.Some? && t.config == s.config
  {
    hide C.Next, B.CliNext, B.IsNewCli;
    RunKeepsWaitInv(start, actions, s);
    if a.Again? && s.builder.clis[a.cli].pc.Returned? {
      AgainKeepsWrites(s.builder, a.cli, t.builder);
    }
  }

  /**
   * Repeated calls included, an existing ConfigMap is overwritten only by a process with a user's config, and with
   * that.
   */
  lemma DefaultNeverOverwrites(start: State, actions: seq<Action>, s: State, a: Action, t: State)
    requires Initial(start) && Run(start, actions) == Some(s) && Next(s, a) == Some(t)
    ensures s.config.stored.Some? ==> t.config.stored.Some?
    ensures s.config.stored.Some? && t.config.stored != s.config.stored ==>
      && a.ConfigStep? && a.configAction.cli < |s.config.clis| == |start.config.clis|
      && start.config.clis[a.configAction.cli].userConfig
      && t.config.stored == Some(s.config.clis[a.configAction.cli].contents)
  {
    hide C.Next, B.Next, B.IsNewCli;
    RunKeepsWaitInv(start, actions, s);
    if a.ConfigStep? {
      ConfigStepKeepsInv(s.config, a.configAction, t.config);
      C.NextShape(s.config, a.configAction, t.config);
    }
  }

  /**
   * Of each call of a repeated bootstrap: createConfigMap returns nil only if the ConfigMap exists, and in a process
   * with a user's config only after its own contents were stored in that same call.
   */
  lemma EachCallStoresTheUsersConfig(start: State, actions: seq<Action>, s: State, i: nat)
    requires Initial(start) && Run(start, actions) == Some(s) && i < |s.config.clis|
    requires s.config.clis[i].pc.Returned? && !s.config.clis[i].pc.err
    ensures s.config.stored.Some? && i < |s.began| && i < |start.config.clis|
    ensures start.config.clis[i].userConfig ==> WroteSince(s.config, i, s.began[i])
  {
    hide B.IsNewCli;
    RunKeepsWaitInv(start, actions, s);
  }

  /** The ConfigMap's part and the driver agree, in every run, on whose config it is: no flip changes that. */
  lemma UserConfigIsTheDrivers(start: State, actions: seq<Action>, s: State, i: nat)
    requires Initial(start) && Run(start, actions) == Some(s) && i < |s.config.clis|
    ensures i < |s.builder.clis| && s.config.clis[i].userConfig == s.builder.clis[i].driver.userSpecifiedConfig
  {
    hide B.IsNewCli, B.Next, C.Next;
    RunKeepsWaitInv(start, actions, s);
    var part := BuilderPartIsARun(start, actions, s);
    B.RunKeepsInv(start.builder, part);
    assert B.CliInv(start.builder.clis[i], s.builder.clis[i], i, s.builder.server);
  }
}
