/** The retry loop that brings a builder up (driver/driver.go). */
module Boot {
  import opened Text

  datatype Status = Inactive | Starting | Running | Stopping | Stopped

  /**
   * What the driver would answer in one iteration: Info (None is an error), whether Bootstrap returns nil, and Clients.
   * Bootstrap may return nil although no builder is ready, when its own wait ran into the context's end.
   */
  datatype Iteration<C> = Iteration(info: Option<Status>, bootstrapNil: bool, clients: Option<C>)

  datatype Outcome<C> = Booted(clients: C) | InfoFailed | TimedOut(err: bool)

  /**
   * `iterations` are the answers until the context is done. Success is exactly the result of the first Clients call
   * that succeeds, made after Info said Running or Bootstrap returned nil in that same iteration, with no Info error
   * before it; the first Info error ends the loop too; and if neither comes, the context ends it, always with an error.
   */
  method Boot<C>(iterations: seq<Iteration<C>>) returns (outcome: Outcome<C>)
    ensures forall k ::
      && 0 <= k < |iterations|
      && iterations[k].clients.Some?
      && (iterations[k].info == Some(Running) || (iterations[k].info.Some? && iterations[k].bootstrapNil))
      && (forall j :: 0 <= j < k ==>
            && iterations[j].info.Some?
            && ((iterations[j].info != Some(Running) && !iterations[j].bootstrapNil) || iterations[j].clients.None?))
      ==> outcome == Booted(iterations[k].clients.value)
    ensures outcome.Booted? ==> exists k ::
      && 0 <= k < |iterations|
      && iterations[k].clients == Some(outcome.clients)
      && (iterations[k].info == Some(Running) || (iterations[k].info.Some? && iterations[k].bootstrapNil))
      && forall j :: 0 <= j < k ==>
           && iterations[j].info.Some?
           && ((iterations[j].info != Some(Running) && !iterations[j].bootstrapNil) || iterations[j].clients.None?)
    ensures outcome.InfoFailed? <==> exists k ::
      && 0 <= k < |iterations|
      && iterations[k].info.None?
      && forall j :: 0 <= j < k ==>
           && iterations[j].info.Some?
           && ((iterations[j].info != Some(Running) && !iterations[j].bootstrapNil) || iterations[j].clients.None?)
    ensures outcome.TimedOut? <==> forall j :: 0 <= j < |iterations| ==>
      && iterations[j].info.Some?
      && ((iterations[j].info != Some(Running) && !iterations[j].bootstrapNil) || iterations[j].clients.None?)
    ensures outcome.TimedOut? ==> outcome.err
  {
    var err := true;
    var results: Option<C> := None;
    var i := 0;
    while err
      invariant i <= |iterations|
      invariant forall j :: 0 <= j < (if err then i else i - 1) ==>
        && iterations[j].info.Some?
        && ((iterations[j].info != Some(Running) && !iterations[j].bootstrapNil) || iterations[j].clients.None?)
      invariant !err ==> i > 0 && iterations[i - 1].clients == results && results.Some?
      invariant !err ==> iterations[i - 1].info.Some?
      invariant !err ==> iterations[i - 1].info == Some(Running) || iterations[i - 1].bootstrapNil
      decreases err, |iterations| - i
    {
      if i == |iterations| {
        return TimedOut(err);
      }
      var it := iterations[i];
      if it.info.None? {
        return InfoFailed;
      }
      i := i + 1;
      if !it.info.value.Running? {
        err := !it.bootstrapNil;
        if err {
          continue;
        }
      }
      results := it.clients;
      err := results.None?;
    }
    return Booted(results.value);
  }
}
