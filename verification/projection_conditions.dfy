/** Exactly when the guarantees that a reclaim can break hold.

    A run keeps a guarantee when it cannot be lost without another reclaim: every run that is the
    same up to some point and makes no reclaim from there has it in every state. */
module ProjectionConditions {
  import opened Options
  import opened ProjectionRows
  import opened SegmentLog
  import opened ProjectionProtocol
  import opened ProjectionLedger
  import opened ProjectionSafety
  import opened ProjectionTheorems

  predicate IsReclaim(step: Step) {
    step.Local? && step.act.Reclaim?
  }

  /** A run that is the given one for k steps and makes no reclaim afterwards. */
  ghost predicate Fork(cfg: Config, states: seq<Sys>, steps: seq<Step>, k: nat, fork: seq<Sys>, forkSteps: seq<Step>) {
    && k <= |steps| < |states| && k <= |forkSteps| && Run(cfg, fork, forkSteps)
    && fork[..k + 1] == states[..k + 1] && forkSteps[..k] == steps[..k]
    && forall i :: k <= i < |forkSteps| ==> !IsReclaim(forkSteps[i])
  }

  /** The run itself, stopped after k steps. */
  lemma ForkHere(cfg: Config, states: seq<Sys>, steps: seq<Step>, k: nat)
    requires Run(cfg, states, steps) && k <= |steps|
    ensures Fork(cfg, states, steps, k, states[..k + 1], steps[..k])
  {
    forall i | 0 <= i < k ensures Took(cfg, states[..k + 1][i], steps[..k][i], states[..k + 1][i + 1]) {
      assert Took(cfg, states[i], steps[i], states[i + 1]);
    }
  }

  lemma ForkMore(cfg: Config, states: seq<Sys>, steps: seq<Step>, k: nat, fork: seq<Sys>, forkSteps: seq<Step>,
      step: Step, sys: Sys)
    requires Fork(cfg, states, steps, k, fork, forkSteps) && !IsReclaim(step)
    requires Took(cfg, fork[|forkSteps|], step, sys)
    ensures Fork(cfg, states, steps, k, fork + [sys], forkSteps + [step])
  {
    var fork', steps' := fork + [sys], forkSteps + [step];
    forall i | 0 <= i < |steps'| ensures Took(cfg, fork'[i], steps'[i], fork'[i + 1]) {
      if i < |forkSteps| {
        assert Took(cfg, fork[i], forkSteps[i], fork[i + 1]);
      }
    }
    assert fork'[..k + 1] == fork[..k + 1] && steps'[..k] == forkSteps[..k];
  }

  lemma ForkIsClean(g: Guarantee, cfg: Config, states: seq<Sys>, steps: seq<Step>, k: nat,
      fork: seq<Sys>, forkSteps: seq<Step>)
    requires Run(cfg, states, steps) && CleanRun(g, cfg, states, steps)
    requires Fork(cfg, states, steps, k, fork, forkSteps)
    ensures CleanRun(g, cfg, fork, forkSteps)
  {
    forall i | 0 <= i < |forkSteps| && ValidSys(cfg, fork[i]) ensures CleanStep(g, cfg, fork[i], forkSteps[i]) {
      if i < k {
        assert fork[..k + 1][i] == states[..k + 1][i] && forkSteps[..k][i] == steps[..k][i];
      }
    }
  }

  /** One more event, read up to the head, and the holder's commit of what the read returned. */
  function CommitNext(b: Sys, s: nat, r: nat): Act
    requires s < |b.segs| && r < |b.segs[s].workers| && b.segs[s].workers[r].pc.Batch?
  {
    if b.segs[s].workers[r].pc.events == [] then CommitEmpty else CommitBatch
  }

  /** The holder between two batches, having parked nothing: it goes on from its checkpoint. */
  ghost predicate Ready(cfg: Config, sys: Sys, s: nat, r: nat) {
    && ValidSys(cfg, sys) && s < |sys.segs| && r < |cfg.runners|
    && var seg := sys.segs[s];
       && Owned(seg.row, seg.workers[r].lease) && seg.workers[r].parked == {}
       && seg.workers[r].pc == Head(seg.row.cp) && seg.row.cp.position <= |sys.log|
  }

  /** The fork in which it does: an event is appended, read, and committed with all it was read with. */
  lemma GoOn(cfg: Config, states: seq<Sys>, steps: seq<Step>, k: nat, s: nat, r: nat, e: Event)
      returns (fork: seq<Sys>, forkSteps: seq<Step>)
    requires Run(cfg, states, steps) && k <= |steps| && Ready(cfg, states[k], s, r)
    ensures Fork(cfg, states, steps, k, fork, forkSteps) && |fork| == k + 4
    ensures |fork[k + 3].segs| == |states[k].segs|
    ensures var log, seg, seg' := states[k].log + [e], states[k].segs[s], fork[k + 3].segs[s];
            && fork[k + 3].log == log
            && seg'.row.cp == NewCheckpoint(cfg.runners[r], seg.row.cp, |log|) && seg'.row.letters == seg.row.letters
            && seg'.hist.committers == seg.hist.committers + {cfg.runners[r].types}
            && seg'.hist.applied == seg.hist.applied +
                 MatchSeq(cfg.rt, log, s, cfg.runners[r].types, seg.row.cp.position, |log|)
  {
    var b0 := states[k];
    ForkHere(cfg, states, steps, k);
    fork, forkSteps := states[..k + 1], steps[..k];
    var b1 := Do(cfg, b0, Append([e]));
    ForkMore(cfg, states, steps, k, fork, forkSteps, Append([e]), b1);
    fork, forkSteps := fork + [b1], forkSteps + [Append([e])];
    var read := Local(s, r, Read(|b1.log|));
    var b2 := Do(cfg, b1, read);
    ForkMore(cfg, states, steps, k, fork, forkSteps, read, b2);
    fork, forkSteps := fork + [b2], forkSteps + [read];
    var commit := Local(s, r, CommitNext(b2, s, r));
    var b3 := Do(cfg, b2, commit);
    ForkMore(cfg, states, steps, k, fork, forkSteps, commit, b3);
    fork, forkSteps := fork + [b3], forkSteps + [commit];
  }

  /** A reclaim leaves the holder ready, whatever it found. */
  lemma ReclaimReadies(cfg: Config, states: seq<Sys>, steps: seq<Step>, i: nat)
    requires Run(cfg, states, steps) && i < |steps| && IsReclaim(steps[i])
    ensures Ready(cfg, states[i + 1], steps[i].s, steps[i].r)
    ensures states[i + 1].segs[steps[i].s].row.cp == states[i].segs[steps[i].s].row.cp
    ensures states[i + 1].segs[steps[i].s].row.letters == states[i].segs[steps[i].s].row.letters
    ensures states[i + 1].log == states[i].log
  {
    assert Took(cfg, states[i], steps[i], states[i + 1]);
    var s, r := steps[i].s, steps[i].r;
    NoConditions(cfg, states, steps, i);
    assert SegInv(ALWAYS, cfg, states[i].log, s, states[i].segs[s]);
    assert WorkerInv(ALWAYS, cfg, states[i].log, s, states[i].segs[s], r);
    assert LeaseGranted(states[i].segs[s], r);
  }

  // Honest checkpoints

  ghost predicate AllHonest(cfg: Config, states: seq<Sys>) {
    forall n, s :: 0 <= n < |states| && 0 <= s < |states[n].segs| ==>
      HonestSegment(cfg, states[n].log, s, states[n].segs[s])
  }

  ghost predicate StaysHonest(cfg: Config, states: seq<Sys>, steps: seq<Step>) {
    forall k: nat, fork: seq<Sys>, forkSteps: seq<Step> :: Fork(cfg, states, steps, k, fork, forkSteps) ==>
      AllHonest(cfg, fork)
  }

  lemma DirtyLosesHonesty(cfg: Config, states: seq<Sys>, steps: seq<Step>, i: nat)
    requires Run(cfg, states, steps) && StaysHonest(cfg, states, steps) && i < |steps| && ValidSys(cfg, states[i])
    ensures CleanStep(EXACT, cfg, states[i], steps[i])
  {
    assert Took(cfg, states[i], steps[i], states[i + 1]);
    if IsReclaim(steps[i]) {
      var s, r := steps[i].s, steps[i].r;
      ReclaimReadies(cfg, states, steps, i);
      ForkHere(cfg, states, steps, i + 1);
      var here := states[..i + 2];
      assert here[i + 1] == states[i + 1];
      assert HonestSegment(cfg, here[i + 1].log, s, here[i + 1].segs[s]);
      var fork, forkSteps := GoOn(cfg, states, steps, i + 1, s, r, Event("", "", 0));
      assert HonestSegment(cfg, fork[i + 4].log, s, fork[i + 4].segs[s]);
      var before, after := states[i + 1].segs[s], fork[i + 4].segs[s];
      assert before.row.cp.position > 0 ==> before.row.cp.fingerprint.value in after.hist.committers;
    }
  }

  /** A run keeps its checkpoints honest if and only if every reclaim in it kept its claim, or found
      nothing processed or the runner's own event types. */
  lemma HonestIff(cfg: Config, states: seq<Sys>, steps: seq<Step>)
    requires Run(cfg, states, steps)
    ensures StaysHonest(cfg, states, steps) <==> CleanRun(EXACT, cfg, states, steps)
  {
    if StaysHonest(cfg, states, steps) {
      forall i | 0 <= i < |steps| && ValidSys(cfg, states[i]) ensures CleanStep(EXACT, cfg, states[i], steps[i]) {
        DirtyLosesHonesty(cfg, states, steps, i);
      }
    }
    if CleanRun(EXACT, cfg, states, steps) {
      forall k: nat, fork: seq<Sys>, forkSteps: seq<Step> | Fork(cfg, states, steps, k, fork, forkSteps)
        ensures AllHonest(cfg, fork)
      {
        ForkIsClean(EXACT, cfg, states, steps, k, fork, forkSteps);
        forall n, s | 0 <= n < |fork| && 0 <= s < |fork[n].segs|
          ensures HonestSegment(cfg, fork[n].log, s, fork[n].segs[s])
        {
          HonestCheckpoint(cfg, fork, forkSteps, n, s);
        }
      }
    }
  }

  // Streams in order

  ghost predicate AllInOrder(cfg: Config, states: seq<Sys>) {
    forall n, s, stream :: 0 <= n < |states| && 0 <= s < |states[n].segs| ==>
      StreamInOrder(cfg, states[n].log, s, states[n].segs[s], stream)
  }

  ghost predicate StaysInOrder(cfg: Config, states: seq<Sys>, steps: seq<Step>) {
    forall k: nat, fork: seq<Sys>, forkSteps: seq<Step> :: Fork(cfg, states, steps, k, fork, forkSteps) ==>
      AllInOrder(cfg, fork)
  }

  /** With one set of event types a reclaim never finds another's. */
  lemma OneDeploymentNeedsParked(cfg: Config, types: set<string>, states: seq<Sys>, steps: seq<Step>)
    requires OneDeployment(cfg, types) && Run(cfg, states, steps) && CleanRun(PARKED, cfg, states, steps)
    ensures CleanRun(IN_ORDER, cfg, states, steps)
  {
    forall i | 0 <= i < |steps| && ValidSys(cfg, states[i]) ensures CleanStep(IN_ORDER, cfg, states[i], steps[i]) {
      assert CleanStep(PARKED, cfg, states[i], steps[i]);
      OneDeploymentIsClean(cfg, types, states, steps, i);
      if IsReclaim(steps[i]) && steps[i].s < |states[i].segs| {
        assert SegInv(EXACT, cfg, states[i].log, steps[i].s, states[i].segs[steps[i].s]);
      }
    }
  }

  /** A list that ascends and has a prefix with its last element in it is that prefix. */
  lemma PrefixWithLast(a: seq<nat>, b: seq<nat>, last: nat)
    requires Ascending(b) && a <= b && last in a && forall p :: p in b ==> p <= last
    ensures a == b
  {
    var i :| 0 <= i < |a| && a[i] == last;
    assert b[i] == last;
    var end := b[|b| - 1];
    assert end in b && end <= b[i];
    assert |b| - 1 <= i;
  }

  /** In order, with the last event of a stream applied, every event of it is. */
  lemma InOrderHasAll(cfg: Config, types: set<string>, log: Log, s: nat, seg: Segment, d: nat)
    requires seg.row.cp.position > 0 && seg.row.cp.fingerprint == Some(types) && |log| in seg.hist.applied
    requires Matches(cfg.rt, log, s, types, d) && Matches(cfg.rt, log, s, types, |log|)
    requires log[|log| - 1].stream == log[d - 1].stream && StreamInOrder(cfg, log, s, seg, log[d - 1].stream)
    ensures d in seg.hist.applied
  {
    var stream, all := log[d - 1].stream, MatchSeq(cfg.rt, log, s, types, 0, |log|);
    MatchSeqProps(cfg.rt, log, s, types, 0, |log|);
    OfStreamMembers(log, seg.hist.applied, stream);
    OfStreamMembers(log, all, stream);
    assert StreamAscending(log, all);
    OfStreamAscending(log, all, stream);
    PrefixWithLast(OfStream(log, seg.hist.applied, stream), OfStream(log, all, stream), |log|);
    assert d in OfStream(log, all, stream);
  }

  /** Going on with a dead letter unknown: a copy of its event is applied ahead of it. */
  lemma CopySkipsAhead(cfg: Config, types: set<string>, log: Log, s: nat, seg: Segment, log': Log, seg': Segment)
      returns (stream: string)
    requires SegInv(EXACT, cfg, log, s, seg) && OneDeployment(cfg, types) && seg.row.letters != []
    requires var d := seg.row.letters[0];
             && 1 <= d.position <= |log| && log' == log + [log[d.position - 1]]
             && seg'.row.cp.position == |log'| && seg'.row.cp.fingerprint == Some(types)
             && seg'.hist.applied == seg.hist.applied + MatchSeq(cfg.rt, log', s, types, seg.row.cp.position, |log'|)
    ensures !StreamInOrder(cfg, log', s, seg', stream)
  {
    var d, last := seg.row.letters[0].position, |log'|;
    stream := log[d - 1].stream;
    assert d in Positions(seg.row.letters) && d !in seg.hist.applied && d <= seg.row.cp.position;
    assert seg.row.cp.fingerprint == Some(types) && Matches(cfg.rt, log, s, types, d);
    assert Matches(cfg.rt, log', s, types, d) && Matches(cfg.rt, log', s, types, last);
    MatchSeqProps(cfg.rt, log', s, types, seg.row.cp.position, last);
    if StreamInOrder(cfg, log', s, seg', stream) {
      InOrderHasAll(cfg, types, log', s, seg', d);
    }
  }

  lemma DirtyLosesOrder(cfg: Config, types: set<string>, states: seq<Sys>, steps: seq<Step>, i: nat)
    requires OneDeployment(cfg, types) && Run(cfg, states, steps) && StaysInOrder(cfg, states, steps)
    requires i < |steps| && ValidSys(cfg, states[i])
    ensures CleanStep(PARKED, cfg, states[i], steps[i])
  {
    assert Took(cfg, states[i], steps[i], states[i + 1]);
    if IsReclaim(steps[i]) && states[i].segs[steps[i].s].row.letters != [] {
      var s, r := steps[i].s, steps[i].r;
      ReclaimReadies(cfg, states, steps, i);
      OneDeploymentIsClean(cfg, types, states, steps, i + 1);
      var b := states[i + 1];
      var seg := b.segs[s];
      assert SegInv(EXACT, cfg, b.log, s, seg);
      var d := seg.row.letters[0].position;
      assert d in Positions(seg.row.letters);
      var fork, forkSteps := GoOn(cfg, states, steps, i + 1, s, r, b.log[d - 1]);
      var stream := CopySkipsAhead(cfg, types, b.log, s, seg, fork[i + 4].log, fork[i + 4].segs[s]);
    }
  }

  /** With one set of event types, a run keeps every stream in order if and only if every reclaim in
      it kept its claim or found no dead letters. */
  lemma InOrderIff(cfg: Config, types: set<string>, states: seq<Sys>, steps: seq<Step>)
    requires OneDeployment(cfg, types) && Run(cfg, states, steps)
    ensures StaysInOrder(cfg, states, steps) <==> CleanRun(PARKED, cfg, states, steps)
  {
    if StaysInOrder(cfg, states, steps) {
      forall i | 0 <= i < |steps| && ValidSys(cfg, states[i]) ensures CleanStep(PARKED, cfg, states[i], steps[i]) {
        DirtyLosesOrder(cfg, types, states, steps, i);
      }
    }
    if CleanRun(PARKED, cfg, states, steps) {
      forall k: nat, fork: seq<Sys>, forkSteps: seq<Step> | Fork(cfg, states, steps, k, fork, forkSteps)
        ensures AllInOrder(cfg, fork)
      {
        ForkIsClean(PARKED, cfg, states, steps, k, fork, forkSteps);
        OneDeploymentNeedsParked(cfg, types, fork, forkSteps);
        forall n, s, stream | 0 <= n < |fork| && 0 <= s < |fork[n].segs|
          ensures StreamInOrder(cfg, fork[n].log, s, fork[n].segs[s], stream)
        {
          ParkedNeverSkipsAhead(cfg, fork, forkSteps, n, s, stream);
        }
      }
    }
  }
}
