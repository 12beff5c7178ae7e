/** The canary strategy: the new containers' share of traffic grows in steps. */
module CanaryStrategy {
  import opened Rollout
  import opened Machine
  import opened Platform
  import opened SharedSteps

  /** Every run is a path of the control flow from its start, whatever fails; it
      succeeds exactly when the path reaches its end. */
  method Execute(w: Platform, d: Deployment) returns (r: Outcome)
    requires d.strategy.Canary? && d.config.Validated()
    modifies w
    ensures w.start == old(w.Now()) && !r.Undone?
    ensures if r.Ok? then AtPoint(w, d, Start, Done) else CutShort(w, d, Start)
  {
    hide Path, Follow, Edge, LooseEdge, Replay, Short, SplitUpstream;
    w.NextRun();
    Begin(d, Start);
    StartEdges(d);
    var ds := DeploymentState(d.service, InProgress, "canary", 0, Ids(d.olds), Ids(d.news), "", "", "");
    assert ds == FreshState(d);
    var ok := w.Save(ds);
    Along(d, Start, w.log, Start, HealthyFrom(d, 0));
    if !ok { return Failure; }

    ok := WaitAllHealthy(w, d);
    if !ok { return Failure; }

    var weight := d.config.canaryStart;
    while weight < 100
      invariant 1 <= weight <= 100 && w.start == old(w.Now())
      invariant AtPoint(w, d, Start, ShiftFrom(d, weight))
      invariant ds == WeightState(d, ds.weight)
      decreases 100 - weight
    {
      ShiftEdges(d, weight);
      Unfinished(ShiftFrom(d, weight));
      ok := w.MayGoOn();
      if !ok { return Failure; }

      var upstream := SplitWeightUpstream(d, weight);
      ok := ApplyConfig(w, upstream);
      Along(d, Start, w.log, Shift(weight), RecordShift(weight));
      if !ok { return Failure; }

      ds := ds.(weight := weight);
      assert ds == WeightState(d, weight);
      ok := w.Save(ds);
      Along(d, Start, w.log, RecordShift(weight), Observe(weight));
      if !ok { return Failure; }

      ok := w.Wait(d.config.interval);
      Along(d, Start, w.log, Observe(weight), ShiftFrom(d, weight + d.config.canaryStep));
      if !ok { return Failure; }

      weight := weight + d.config.canaryStep;
      if weight > 100 {
        weight := 100;
      }
    }

    ok := PromoteAndDrain(w, d, d.config.affinity);
    if !ok { return Failure; }

    ds := ds.(status := Idle, weight := 100, stable := Ids(d.news), canary := []);
    assert ds == FinishedState(d);
    ok := w.Save(ds);
    Along(d, Start, w.log, Finish, Done);
    if !ok { return Failure; }
    return Ok;
  }
}
