/** Event reporting during the bootstrap: the closure `logEvents` of createBuilder (driver/kubernetes/creation.go). */
module EventLog {

  /** A Kubernetes event; `involved` is the UID of the object it is about. */
  datatype Event = Event(kind: string, reason: string, message: string, involved: string)

  function Render(e: Event, resource: string): string {
    e.kind + " \t" + resource + " \t" + e.reason + " \t" + e.message + "\n"
  }

  /** A call of the callback: the message as reported, and the event. */
  datatype Call = Call(msg: string, event: Event)

  /**
   * `reported` is the map reportedEvents; `logged` and `calls` record what was written and which events were handed
   * on.
   */
  datatype Log = Log(reported: set<string>, logged: seq<string>, calls: seq<Call>)

  const EMPTY_LOG := Log({}, [], [])

  /** The outcome of one iteration: the log, and whether the callback runs. */
  datatype Visited = Visited(log: Log, callback: bool)

  function Visit(log: Log, e: Event, resource: string, originUID: string): Visited {
    var msg := Render(e, resource);
    if e.involved != originUID || msg in log.reported then Visited(log, false)
    else
      var next := log.(reported := log.reported + {msg}, logged := log.logged + [msg]);
      if e.kind == "Normal" then Visited(next, false) else Visited(next.(calls := next.calls + [Call(msg, e)]), true)
  }

  /** A batch of events; `fails` says for which events the callback returns an error. */
  datatype Batch = Batch(events: seq<Event>, resource: string, originUID: string, fails: Event -> bool)

  datatype BatchResult = BatchResult(log: Log, ok: bool)

  function VisitAll(log: Log, b: Batch): BatchResult
    decreases |b.events|
  {
    if b.events == [] then BatchResult(log, true)
    else
      var v := Visit(log, b.events[0], b.resource, b.originUID);
      if v.callback && b.fails(b.events[0]) then BatchResult(v.log, false)
      else VisitAll(v.log, b.(events := b.events[1..]))
  }

  /** All polling rounds of a run. */
  function VisitRounds(log: Log, rounds: seq<Batch>): Log
    decreases rounds
  {
    if rounds == [] then log else VisitRounds(VisitAll(log, rounds[0]).log, rounds[1..])
  }

  class EventLogger {
    var reported: set<string>
    var logged: seq<string>
    var calls: seq<Call>

    function Value(): Log
      reads this
    {
      Log(reported, logged, calls)
    }

    constructor ()
      ensures Value() == EMPTY_LOG
    {
      reported, logged, calls := {}, [], [];
    }

    method LogEvents(b: Batch) returns (ok: bool)
      modifies this
      ensures BatchResult(Value(), ok) == VisitAll(old(Value()), b)
    {
      for i := 0 to |b.events|
        invariant VisitAll(Value(), b.(events := b.events[i..])) == VisitAll(old(Value()), b)
      {
        var event := b.events[i];
        assert b.events[i..][0] == event && b.events[i..][1..] == b.events[i + 1..];
        if event.involved != b.originUID {
          continue;
        }
        var msg := Render(event, b.resource);
        if msg in reported {
          continue;
        }
        reported := reported + {msg};
        logged := logged + [msg];
        if event.kind == "Normal" {
          continue;
        }
        calls := calls + [Call(msg, event)];
        if b.fails(event) {
          return false;
        }
      }
      return true;
    }
  }

  /** Every message is logged once, and handed on at most once, and never for a Normal event. */
  ghost predicate LogInv(log: Log) {
    && (forall i, j :: 0 <= i < j < |log.logged| ==> log.logged[i] != log.logged[j])
    && (forall m :: m in log.logged <==> m in log.reported)
    && (forall i, j :: 0 <= i < j < |log.calls| ==> log.calls[i].msg != log.calls[j].msg)
    && (forall i :: 0 <= i < |log.calls| ==> log.calls[i].msg in log.reported && log.calls[i].event.kind != "Normal")
  }

  lemma VisitKeepsLogInv(log: Log, e: Event, resource: string, originUID: string)
    requires LogInv(log)
    ensures LogInv(Visit(log, e, resource, originUID).log)
    ensures log.reported <= Visit(log, e, resource, originUID).log.reported
    ensures e.involved == originUID ==> Render(e, resource) in Visit(log, e, resource, originUID).log.reported
  {
    var msg := Render(e, resource);
    if e.involved == originUID && msg !in log.reported {
      var next := log.logged + [msg];
      assert msg !in log.logged;
      assert forall m :: m in next <==> m in log.logged || m == msg;
    }
  }

  /** The message of some event of the batch that is about the batch's own object. */
  predicate Matches(b: Batch, msg: string) {
    exists i :: 0 <= i < |b.events| && b.events[i].involved == b.originUID && Render(b.events[i], b.resource) == msg
  }

  /** A batch reports nothing but messages of its matching events, and all of these if it completes. */
  lemma {:induction false} BatchReportsItsEvents(log: Log, b: Batch)
    ensures
      var r := VisitAll(log, b);
      && (forall m :: m in r.log.reported ==> m in log.reported || Matches(b, m))
      && (r.ok ==> forall m :: m in r.log.reported <==> m in log.reported || Matches(b, m))
    decreases |b.events|
  {
    if b.events != [] {
      var e, rest := b.events[0], b.(events := b.events[1..]);
      var v := Visit(log, e, b.resource, b.originUID);
      BatchReportsItsEvents(v.log, rest);
      forall m
        ensures Matches(b, m) <==> (e.involved == b.originUID && Render(e, b.resource) == m) || Matches(rest, m)
      {
        MatchesOneMore(b, m);
      }
    }
  }

  lemma MatchesOneMore(b: Batch, m: string)
    requires b.events != []
    ensures
      var e, rest := b.events[0], b.(events := b.events[1..]);
      Matches(b, m) <==> (e.involved == b.originUID && Render(e, b.resource) == m) || Matches(rest, m)
  {
    var rest := b.(events := b.events[1..]);
    if Matches(rest, m) {
      var i :| 0 <= i < |rest.events| && rest.events[i].involved == b.originUID
        && Render(rest.events[i], b.resource) == m;
      assert b.events[i + 1] == rest.events[i];
    }
    if Matches(b, m) {
      var i :| 0 <= i < |b.events| && b.events[i].involved == b.originUID && Render(b.events[i], b.resource) == m;
      assert i > 0 ==> rest.events[i - 1] == b.events[i];
    }
  }

  /** Reporting stays clean, and a batch that completes leaves every matching event reported. */
  lemma {:induction false} VisitAllKeepsLogInv(log: Log, b: Batch)
    requires LogInv(log)
    ensures
      var r := VisitAll(log, b);
      && LogInv(r.log) && log.reported <= r.log.reported
      && (r.ok ==> forall e :: e in b.events && e.involved == b.originUID ==> Render(e, b.resource) in r.log.reported)
    decreases |b.events|
  {
    if b.events != [] {
      var v := Visit(log, b.events[0], b.resource, b.originUID);
      VisitKeepsLogInv(log, b.events[0], b.resource, b.originUID);
      VisitAllKeepsLogInv(v.log, b.(events := b.events[1..]));
      assert forall e :: e in b.events ==> e == b.events[0] || e in b.events[1..];
    }
  }

  /** A batch completes if no callback fails. */
  lemma {:induction false} CompletesWithoutCallback(log: Log, b: Batch)
    requires forall e :: !b.fails(e)
    ensures VisitAll(log, b).ok
    decreases |b.events|
  {
    if b.events != [] {
      CompletesWithoutCallback(
        Visit(log, b.events[0], b.resource, b.originUID).log, b.(events := b.events[1..]));
    }
  }

  /** Over any polling rounds: no message is logged twice, or handed to a callback twice. */
  lemma {:induction false} RoundsReportOnce(log: Log, rounds: seq<Batch>)
    requires LogInv(log)
    ensures LogInv(VisitRounds(log, rounds)) && log.reported <= VisitRounds(log, rounds).reported
    decreases |rounds|
  {
    if rounds != [] {
      VisitAllKeepsLogInv(log, rounds[0]);
      RoundsReportOnce(VisitAll(log, rounds[0]).log, rounds[1..]);
    }
  }
}
