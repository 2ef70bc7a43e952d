/**
 * When a bootstrapping process flips the container runtime (createBuilder in driver/kubernetes/creation.go), and that
 * it can.
 */
module FlipDecision {
  import opened Text
  import opened Manifest
  import opened Factory
  import opened EventLog
  import opened BuilderProtocol

  /**
   * A flip starts exactly at an event about the pod in hand, of a kind other than Normal and with a message that was
   * not reported before, that says that a mount failed because something is not a socket file; and only if the runtime
   * was not chosen by the user.
   */
  lemma FlipStartsExactlyOnMountFailure(start: State, actions: seq<Action>, s: State, i: nat, o: Outcome, t: State)
    requires Initial(start) && Run(start, actions) == Some(s) && Next(s, Step(i, o)) == Some(t)
    ensures i < |s.clis| && i < |t.clis|
    ensures t.clis[i].effects == s.clis[i].effects + [FlipStarted] <==>
      var c := s.clis[i];
      && c.pc.AtEvent? && c.pc.events != [] && o.Proceed? && c.pc.pod.i < |c.pc.pod.pods|
      && var e, pod := c.pc.events[0], c.pc.pod.pods[c.pc.pod.i];
      && e.involved == pod.uid && e.kind != "Normal"
      && (e.kind + " \t" + pod.name + " \t" + e.reason + " \t" + e.message + "\n") !in c.log.reported
      && e.reason == "FailedMount"
      && (exists k :: 0 <= k <= |e.message| && "is not a socket file" <= e.message[k..])
      && !c.driver.userSpecifiedRuntime
  {
    hide Init;
    RunKeepsInv(start, actions);
    assert CliInv(start.clis[i], s.clis[i], i, s.server);
    StepFlipsExactly(s.clis[i], i, s.server, o);
    if s.clis[i].pc.AtEvent? && s.clis[i].pc.events != [] {
      ContainsIsSomewhere(s.clis[i].pc.events[0].message, "is not a socket file");
    }
  }

  predicate IsReason(c: Cli, o: Outcome) {
    && c.pc.AtEvent? && c.pc.events != [] && o.Proceed? && c.pc.pod.i < |c.pc.pod.pods|
    && var e, pod := c.pc.events[0], c.pc.pod.pods[c.pc.pod.i];
    && e.involved == pod.uid && e.kind != "Normal"
    && Render(e, pod.name) !in c.log.reported && e.reason == "FailedMount"
    && Contains(e.message, "is not a socket file") && !c.driver.userSpecifiedRuntime
  }

  lemma StepFlipsExactly(c: Cli, id: nat, server: Server, o: Outcome)
    requires CliNext(c, id, server, o).Some?
    ensures CliNext(c, id, server, o).value.cli.effects == c.effects + [FlipStarted] <==> IsReason(c, o)
  {
    hide Init;
    if c.pc.AtEvent? {
      EventFlipsExactly(c, o);
    } else {
      NoOtherStepFlips(c, id, server, o);
    }
  }

  lemma EventFlipsExactly(c: Cli, o: Outcome)
    requires c.pc.AtEvent? && EventNext(c, o).Some?
    ensures EventNext(c, o).value.effects == c.effects + [FlipStarted] <==> IsReason(c, o)
  {
    hide Init, Contains, Render;
  }

  lemma NoOtherStepFlips(c: Cli, id: nat, server: Server, o: Outcome)
    requires CliNext(c, id, server, o).Some? && !c.pc.AtEvent?
    ensures CliNext(c, id, server, o).value.cli.effects != c.effects + [FlipStarted]
  {
    hide Init, ChildrenOf, VisitAll, IsChildOf, CreateDeployment, EventNext;
    var next := CliNext(c, id, server, o).value.cli.effects;
    assert |next| > |c.effects| ==> !next[|c.effects|].FlipStarted?;
    assert (c.effects + [FlipStarted])[|c.effects|].FlipStarted?;
  }
}
