/**
 * Any number of command line processes creating one ConfigMap (createConfigMap in driver/kubernetes/creation.go).
 * Every API call is one step, and may fail; a write may also be stored although its caller sees an error.
 * Nobody deletes the object meanwhile.
 */
module ConfigMapProtocol {
  import opened Text

  /** Where a process is in the loop. */
  datatype Pc = AtTop | AtGet | AtCreate | AtUpdate | Returned(byContext: bool, err: bool)

  /** `err` is whether the loop's error variable is set. */
  datatype Cli = Cli(userConfig: bool, contents: string, pc: Pc, err: bool)

  datatype Kind = Created | Updated

  /** A write that the server stored. */
  datatype Write = Write(cli: nat, kind: Kind, contents: string)

  datatype State = State(clis: seq<Cli>, stored: Option<string>, writes: seq<Write>)

  datatype Outcome =
    | ContextDone
    | Proceed
    | CallFails
    | CallIsLost     // the server did it, the caller sees an error
    | CallSucceeds

  datatype Action = Action(cli: nat, outcome: Outcome)

  ghost predicate Initial(s: State) {
    s.writes == [] && forall i :: 0 <= i < |s.clis| ==> s.clis[i].pc == AtTop && s.clis[i].err
  }

  function Move(s: State, i: nat, pc: Pc, err: bool): State
    requires i < |s.clis|
  {
    s.(clis := s.clis[i := s.clis[i].(pc := pc, err := err)])
  }

  function Store(s: State, i: nat, kind: Kind): State
    requires i < |s.clis|
  {
    s.(stored := Some(s.clis[i].contents), writes := s.writes + [Write(i, kind, s.clis[i].contents)])
  }

  /** The state after one step of process a.cli, or None when the step cannot happen. */
  function Next(s: State, a: Action): Option<State> {
    if a.cli >= |s.clis| then None
    else
      var i, c := a.cli, s.clis[a.cli];
      match (c.pc, a.outcome)
      case (AtTop, ContextDone) =>
        // the loop condition is tested before the context
        if c.err then Some(Move(s, i, Returned(true, true), true)) else None
      case (AtTop, Proceed) =>
        Some(Move(s, i, if c.err then AtGet else Returned(false, false), c.err))
      case (AtGet, CallFails) => Some(Move(s, i, AtTop, true))
      case (AtGet, CallSucceeds) =>
        if s.stored.None? then Some(Move(s, i, AtCreate, true))
        else if c.userConfig then Some(Move(s, i, AtUpdate, false))
        else Some(Move(s, i, AtTop, false))
      case (AtCreate, CallFails) => Some(Move(s, i, AtTop, true))
      case (AtCreate, CallIsLost) =>
        if s.stored.None? then Some(Move(Store(s, i, Created), i, AtTop, true)) else None
      case (AtCreate, CallSucceeds) =>
        if s.stored.None? then Some(Move(Store(s, i, Created), i, AtTop, false)) else None
      case (AtUpdate, CallFails) => Some(Move(s, i, AtTop, true))
      case (AtUpdate, CallIsLost) =>
        if s.stored.Some? then Some(Move(Store(s, i, Updated), i, AtTop, true)) else None
      case (AtUpdate, CallSucceeds) =>
        if s.stored.Some? then Some(Move(Store(s, i, Updated), i, AtTop, false)) else None
      case _ => None
  }

  function Run(s: State, actions: seq<Action>): Option<State> {
    if actions == [] then Some(s)
    else
      match Run(s, actions[..|actions| - 1])
      case None => None
      case Some(t) => Next(t, actions[|actions| - 1])
  }

  // ----- safety

  ghost predicate HasWritten(s: State, i: nat) {
    exists k :: 0 <= k < |s.writes| && s.writes[k].cli == i
  }

  /** Stored writes: at most one creation, the first; everything else is an update by a process with a user's config. */
  ghost predicate WritesInv(start: State, s: State) {
    && s.stored == (if s.writes == [] then start.stored else Some(s.writes[|s.writes| - 1].contents))
    && (forall k :: 0 <= k < |s.writes| ==>
          && s.writes[k].cli < |s.clis| && s.writes[k].contents == s.clis[s.writes[k].cli].contents
          && (s.writes[k].kind.Created? <==> k == 0 && start.stored.None?)
          && (s.writes[k].kind.Updated? ==> s.clis[s.writes[k].cli].userConfig))
  }

  /** What one process has done when it is where it is. */
  ghost predicate CliInv(s: State, i: nat)
    requires i < |s.clis|
  {
    var c := s.clis[i];
    && (c.pc.AtUpdate? ==> c.userConfig && s.stored.Some?)
    && (c.pc.Returned? ==> (c.pc.byContext <==> c.pc.err))
    && ((c.pc.AtTop? && !c.err) || (c.pc.Returned? && !c.pc.err) ==>
          s.stored.Some? && (c.userConfig ==> HasWritten(s, i)))
  }

  ghost predicate SameSettings(start: State, s: State) {
    && |start.clis| == |s.clis|
    && forall i :: 0 <= i < |s.clis| ==>
         s.clis[i].userConfig == start.clis[i].userConfig && s.clis[i].contents == start.clis[i].contents
  }

  ghost predicate Inv(start: State, s: State) {
    && SameSettings(start, s) && WritesInv(start, s)
    && forall i :: 0 <= i < |s.clis| ==> CliInv(s, i)
  }

  /** The write of a step, if it makes one. */
  function WriteOf(s: State, a: Action): Option<Kind> {
    if a.cli >= |s.clis| || !(a.outcome.CallIsLost? || a.outcome.CallSucceeds?) then None
    else if s.clis[a.cli].pc.AtCreate? then Some(Created)
    else if s.clis[a.cli].pc.AtUpdate? then Some(Updated)
    else None
  }

  lemma NextShape(s: State, a: Action, t: State)
    requires Next(s, a) == Some(t)
    ensures a.cli < |s.clis| == |t.clis|
    ensures t.clis == s.clis[a.cli := s.clis[a.cli].(pc := t.clis[a.cli].pc, err := t.clis[a.cli].err)]
    ensures WriteOf(s, a) == None ==> t.stored == s.stored && t.writes == s.writes
    ensures WriteOf(s, a).Some? ==>
      && (WriteOf(s, a) == Some(Created) <==> s.stored.None?)
      && t.stored == Some(s.clis[a.cli].contents)
      && t.writes == s.writes + [Write(a.cli, WriteOf(s, a).value, s.clis[a.cli].contents)]
  {
  }

  lemma NextKeepsWrites(start: State, s: State, a: Action, t: State)
    requires Inv(start, s) && Next(s, a) == Some(t)
    ensures SameSettings(start, t) && WritesInv(start, t)
    ensures s.stored.Some? ==> t.stored.Some?
    ensures forall i :: 0 <= i < |s.clis| && HasWritten(s, i) ==> HasWritten(t, i)
    ensures WriteOf(s, a).Some? ==> HasWritten(t, a.cli)
  {
    NextShape(s, a, t);
    assert CliInv(s, a.cli);
    if WriteOf(s, a).Some? {
      assert t.writes[|s.writes|].cli == a.cli;
      assert s.stored.None? ==> s.writes == [];
    }
    forall i | 0 <= i < |s.clis| && HasWritten(s, i)
      ensures HasWritten(t, i)
    {
      var k :| 0 <= k < |s.writes| && s.writes[k].cli == i;
      assert t.writes[k].cli == i;
    }
  }

  lemma MoverKeepsInv(start: State, s: State, a: Action, t: State)
    requires Inv(start, s) && Next(s, a) == Some(t)
    ensures a.cli < |t.clis| && CliInv(t, a.cli)
  {
    NextKeepsWrites(start, s, a, t);
    assert CliInv(s, a.cli);
  }

  lemma NextKeepsInv(start: State, s: State, a: Action, t: State)
    requires Inv(start, s) && Next(s, a) == Some(t)
    ensures Inv(start, t)
    ensures s.stored.Some? ==> t.stored.Some?
  {
    NextShape(s, a, t);
    NextKeepsWrites(start, s, a, t);
    MoverKeepsInv(start, s, a, t);
    forall i | 0 <= i < |t.clis| && i != a.cli
      ensures CliInv(t, i)
    {
      assert CliInv(s, i);
    }
  }

  lemma {:induction false} RunKeepsInv(start: State, actions: seq<Action>)
    requires Initial(start) && Run(start, actions).Some?
    ensures Inv(start, Run(start, actions).value)
  {
    if actions != [] {
      var last := |actions| - 1;
      RunKeepsInv(start, actions[..last]);
      NextKeepsInv(start, Run(start, actions[..last]).value, actions[last], Run(start, actions).value);
    }
  }

  /**
   * For every interleaving: the object is created at most once, and only processes with a user's config overwrite
   * it.
   */
  lemma OnlyUserConfigsOverwrite(start: State, actions: seq<Action>)
    requires Initial(start) && Run(start, actions).Some?
    ensures
      var s := Run(start, actions).value;
      && |s.clis| == |start.clis|
      && (forall k :: 0 <= k < |s.writes| ==> s.writes[k].cli < |s.clis|)
      && (forall k :: 0 <= k < |s.writes| ==> s.writes[k].contents == start.clis[s.writes[k].cli].contents)
      && (forall k :: 0 <= k < |s.writes| ==> (s.writes[k].kind.Created? <==> k == 0 && start.stored.None?))
      && (forall k :: 0 <= k < |s.writes| ==> s.writes[k].kind.Updated? ==> start.clis[s.writes[k].cli].userConfig)
      && s.stored == if s.writes == [] then start.stored else Some(s.writes[|s.writes| - 1].contents)
  {
    RunKeepsInv(start, actions);
  }

  /** What a finished process can tell: its exit, its error, and whether its own config was ever stored. */
  lemma ReturnIsTruthful(start: State, actions: seq<Action>, i: nat)
    requires Initial(start) && Run(start, actions).Some?
    requires i < |start.clis| && i < |Run(start, actions).value.clis| && Run(start, actions).value.clis[i].pc.Returned?
    ensures
      var s := Run(start, actions).value;
      var pc := s.clis[i].pc;
      && (pc.byContext <==> pc.err)
      && (!pc.err ==> s.stored.Some?)
      && (!pc.err && start.clis[i].userConfig ==>
            exists k :: 0 <= k < |s.writes| && s.writes[k].cli == i && s.writes[k].contents == start.clis[i].contents)
  {
    RunKeepsInv(start, actions);
    var s := Run(start, actions).value;
    assert CliInv(s, i);
    if HasWritten(s, i) {
      var k :| 0 <= k < |s.writes| && s.writes[k].cli == i;
      assert s.writes[k].contents == start.clis[i].contents;
    }
  }

  /** The steps of a call that nobody disturbs, and whose calls all succeed. */
  function UndisturbedSteps(s: State, i: nat): seq<Action>
    requires i < |s.clis|
  {
    if s.stored.None? || s.clis[i].userConfig then
      [Action(i, Proceed), Action(i, CallSucceeds), Action(i, CallSucceeds), Action(i, Proceed)]
    else [Action(i, Proceed), Action(i, CallSucceeds), Action(i, Proceed)]
  }

  /**
   * Such a call returns without an error. It creates the object if there is none, updates one with a user's config, and
   * leaves one alone otherwise.
   */
  lemma UndisturbedCall(s: State, i: nat) returns (t: State)
    requires i < |s.clis| && s.clis[i].pc == AtTop && s.clis[i].err
    ensures Run(s, UndisturbedSteps(s, i)) == Some(t)
    ensures t.clis == s.clis[i := s.clis[i].(pc := Returned(false, false), err := false)]
    ensures
      var c := s.clis[i];
      if s.stored.None? then t.stored == Some(c.contents) && t.writes == s.writes + [Write(i, Created, c.contents)]
      else if c.userConfig then t.stored == Some(c.contents) && t.writes == s.writes + [Write(i, Updated, c.contents)]
      else t.stored == s.stored && t.writes == s.writes
  {
    var c := s.clis[i];
    var steps := UndisturbedSteps(s, i);
    assert steps[..0] == [] && steps[..1][..0] == [] && steps[..2][..1] == steps[..1] && steps[..3][..2] == steps[..2];
    assert Run(s, steps[..1]) == Next(s, steps[0]);
    assert Run(s, steps[..2]) == Next(Run(s, steps[..1]).value, steps[1]);
    assert Run(s, steps[..3]) == Next(Run(s, steps[..2]).value, steps[2]);
    if |steps| == 3 {
      assert steps[..3] == steps;
    }
    t := Run(s, steps).value;
    assert t.clis == s.clis[i := c.(pc := Returned(false, false), err := false)];
  }

  /** One step changes an existing object only as an Update, by a process with a user's config and to that config. */
  lemma StepOverwritesOnlyWithUserConfig(start: State, actions: seq<Action>, a: Action)
    requires Initial(start) && Run(start, actions).Some? && Next(Run(start, actions).value, a).Some?
    ensures
      var s, t := Run(start, actions).value, Next(Run(start, actions).value, a).value;
      && (t.stored.None? ==> s.stored.None?)
      && (s.stored.Some? && t.stored != s.stored ==>
            a.cli < |start.clis| && start.clis[a.cli].userConfig && t.stored == Some(start.clis[a.cli].contents))
  {
    RunKeepsInv(start, actions);
    var s, t := Run(start, actions).value, Next(Run(start, actions).value, a).value;
    NextShape(s, a, t);
    assert CliInv(s, a.cli);
  }
}
