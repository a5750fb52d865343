/** What the projection protocol promises, over whole runs. */
module ProjectionTheorems {
  import opened Numbers
  import opened Options
  import opened ProjectionRows
  import opened SegmentLog
  import opened ProjectionProtocol
  import opened ProjectionLedger
  import opened ProjectionSafety

  const ALWAYS := Guarantee(false, false)
  const EXACT := Guarantee(true, false)
  const IN_ORDER := Guarantee(true, true)

  lemma NoConditions(cfg: Config, states: seq<Sys>, steps: seq<Step>, n: nat)
    requires Run(cfg, states, steps) && n < |states|
    ensures Inv(ALWAYS, cfg, states[n])
  {
    forall i | 0 <= i < n
      ensures Took(cfg, states[i], steps[i], states[i + 1]) && CleanStep(ALWAYS, cfg, states[i], steps[i])
    {
    }
    RunInv(ALWAYS, cfg, states, steps, n);
  }

  lemma CleanRunInv(g: Guarantee, cfg: Config, states: seq<Sys>, steps: seq<Step>, n: nat)
    requires Run(cfg, states, steps) && n < |states| && CleanRun(g, cfg, states, steps)
    ensures Inv(g, cfg, states[n])
  {
    forall i | 0 <= i < n
      ensures Took(cfg, states[i], steps[i], states[i + 1]) && CleanStep(g, cfg, states[i], steps[i])
    {
      assert Took(cfg, states[i], steps[i], states[i + 1]);
    }
    RunInv(g, cfg, states, steps, n);
  }

  // Exactly once

  /** All instances handle the same event types. */
  predicate OneDeployment(cfg: Config, types: set<string>) {
    forall r :: 0 <= r < |cfg.runners| ==> cfg.runners[r].types == types
  }

  lemma {:induction false} OneDeploymentIsClean(cfg: Config, types: set<string>, states: seq<Sys>, steps: seq<Step>,
      n: nat)
    requires OneDeployment(cfg, types) && Run(cfg, states, steps) && n < |states|
    ensures Inv(EXACT, cfg, states[n])
  {
    if n == 0 {
      InitialInv(EXACT, cfg, states[0]);
    } else {
      OneDeploymentIsClean(cfg, types, states, steps, n - 1);
      assert Took(cfg, states[n - 1], steps[n - 1], states[n]);
      var step := steps[n - 1];
      if step.Local? { assert SegInv(EXACT, cfg, states[n - 1].log, step.s, states[n - 1].segs[step.s]); }
      StepKeeps(EXACT, cfg, states[n - 1], step);
    }
  }

  /** With one set of event types deployed, in every state of every run: the events applied since
      the last reset and the dead letters are the segment's matching events up to the stored
      checkpoint, each counted exactly once. */
  lemma ExactlyOnceAlways(cfg: Config, types: set<string>, states: seq<Sys>, steps: seq<Step>, n: nat, s: nat)
    requires OneDeployment(cfg, types) && Run(cfg, states, steps) && n < |states| && s < |states[n].segs|
    ensures var seg := states[n].segs[s];
            multiset(seg.hist.applied) + multiset(Positions(seg.row.letters))
            == multiset(ToSet(MatchSeq(cfg.rt, states[n].log, s, types, 0, seg.row.cp.position)))
  {
    OneDeploymentIsClean(cfg, types, states, steps, n);
    var seg := states[n].segs[s];
    assert SegInv(EXACT, cfg, states[n].log, s, seg);
    if seg.row.cp.position == 0 {
      NoLettersAtZero(EXACT, cfg.rt, states[n].log, s, seg.row, seg.hist);
    } else {
      assert Deployed(cfg, seg.row.cp);
      ExactlyOnce(EXACT, cfg.rt, states[n].log, s, seg.row, seg.hist);
    }
  }

  /** The checkpoint tells the truth: every commit since the last reset came from a runner with the
      stored event types, and applied events and dead letters are what matches these, each once. */
  ghost predicate HonestSegment(cfg: Config, log: Log, s: nat, seg: Segment) {
    if seg.row.cp.position == 0 then seg.hist.applied == [] && seg.row.letters == [] && seg.hist.committers == {}
    else
      && seg.row.cp.fingerprint.Some? && seg.hist.committers == {seg.row.cp.fingerprint.value}
      && multiset(seg.hist.applied) + multiset(Positions(seg.row.letters))
         == multiset(ToSet(MatchSeq(cfg.rt, log, s, seg.row.cp.fingerprint.value, 0, seg.row.cp.position)))
  }

  /** Across deployments the same holds for the stored event types, and every commit since the
      last reset came from a runner with exactly those: as long as reclaims are clean. */
  lemma HonestCheckpoint(cfg: Config, states: seq<Sys>, steps: seq<Step>, n: nat, s: nat)
    requires Run(cfg, states, steps) && CleanRun(EXACT, cfg, states, steps) && n < |states| && s < |states[n].segs|
    ensures HonestSegment(cfg, states[n].log, s, states[n].segs[s])
  {
    CleanRunInv(EXACT, cfg, states, steps, n);
    var seg := states[n].segs[s];
    assert SegInv(EXACT, cfg, states[n].log, s, seg);
    if seg.row.cp.position == 0 {
      NoLettersAtZero(EXACT, cfg.rt, states[n].log, s, seg.row, seg.hist);
    } else {
      ExactlyOnce(EXACT, cfg.rt, states[n].log, s, seg.row, seg.hist);
    }
  }

  /** What is applied of a stream is a log-order prefix of the segment's events of it. */
  ghost predicate StreamInOrder(cfg: Config, log: Log, s: nat, seg: Segment, stream: string) {
    seg.row.cp.position > 0 ==>
      && seg.row.cp.fingerprint.Some?
      && (forall p :: p in seg.hist.applied ==> 1 <= p <= |log|)
      && (forall p :: p in MatchSeq(cfg.rt, log, s, seg.row.cp.fingerprint.value, 0, |log|) ==> 1 <= p <= |log|)
      && OfStream(log, seg.hist.applied, stream)
         <= OfStream(log, MatchSeq(cfg.rt, log, s, seg.row.cp.fingerprint.value, 0, |log|), stream)
  }

  /** A parked stream never skips ahead. */
  lemma ParkedNeverSkipsAhead(cfg: Config, states: seq<Sys>, steps: seq<Step>, n: nat, s: nat, stream: string)
    requires Run(cfg, states, steps) && CleanRun(IN_ORDER, cfg, states, steps) && n < |states| && s < |states[n].segs|
    ensures StreamInOrder(cfg, states[n].log, s, states[n].segs[s], stream)
  {
    CleanRunInv(IN_ORDER, cfg, states, steps, n);
    var seg := states[n].segs[s];
    assert SegInv(IN_ORDER, cfg, states[n].log, s, seg);
    if seg.row.cp.position > 0 {
      AppliedPrefix(IN_ORDER, cfg.rt, states[n].log, s, seg.row, seg.hist, stream);
    }
  }

  // Fencing

  /** What only ever grows on a segment: epochs, grants, the replay boundary, the history. */
  ghost predicate Grown(seg: Segment, seg': Segment) {
    && seg.row.epoch <= seg'.row.epoch
    && (forall e :: e in seg.hist.grants ==> e in seg'.hist.grants && seg'.hist.grants[e] == seg.hist.grants[e])
    && seg.row.cp.replayUntil <= seg'.row.cp.replayUntil
    && seg.hist.ever <= seg'.hist.ever
  }

  /** The holder carries the stored replay boundary through a batch. */
  lemma CarriesBoundary(cfg: Config, log: Log, s: nat, seg: Segment, r: nat)
    requires SegInv(ALWAYS, cfg, log, s, seg) && r < |cfg.runners| && Owned(seg.row, seg.workers[r].lease)
    ensures var pc := seg.workers[r].pc;
            pc.Head? || pc.Replaying? || pc.Batch? || pc.OneByOne? ==> pc.cp.replayUntil == seg.row.cp.replayUntil
  {
    assert WorkerInv(ALWAYS, cfg, log, s, seg, r);
  }

  lemma LocalGrows(cfg: Config, log: Log, s: nat, now: nat, seg: Segment, r: nat, act: Act)
    requires SegInv(ALWAYS, cfg, log, s, seg) && r < |cfg.runners| && Enabled(cfg, log, now, seg, r, act)
    ensures Grown(seg, Next(cfg, log, s, now, seg, r, act))
  {
    if Owned(seg.row, seg.workers[r].lease) {
      CarriesBoundary(cfg, log, s, seg, r);
    }
    assert Fenced(seg);
    var seg' := Next(cfg, log, s, now, seg, r, act);
    match act {
      case Claim(_) => assert Grown(seg, seg');
      case Reclaim => assert Grown(seg, seg');
      case Release => assert Grown(seg, seg');
      case SkipParked => assert Grown(seg, seg');
      case SkipFailed => assert Grown(seg, seg');
      case FinishSlow => assert Grown(seg, seg');
      case _ => assert Grown(seg, seg');
    }
  }

  lemma StepOnSegment(cfg: Config, sys: Sys, step: Step, s: nat)
    requires Inv(ALWAYS, cfg, sys) && Can(cfg, sys, step) && s < |sys.segs|
    ensures Grown(sys.segs[s], Do(cfg, sys, step).segs[s])
  {
    assert SegInv(ALWAYS, cfg, sys.log, s, sys.segs[s]);
    if step.Local? && step.s == s {
      LocalGrows(cfg, sys.log, s, sys.now, sys.segs[s], step.r, step.act);
    }
  }

  /** Epochs, grants, replay boundaries and history only ever grow along a run. */
  lemma {:induction false} Grows(cfg: Config, states: seq<Sys>, steps: seq<Step>, i: nat, j: nat, s: nat)
    requires Run(cfg, states, steps) && i <= j < |states| && s < |states[i].segs|
    ensures s < |states[j].segs|
    ensures Grown(states[i].segs[s], states[j].segs[s])
    decreases j
  {
    if i < j {
      Grows(cfg, states, steps, i, j - 1, s);
      assert Took(cfg, states[j - 1], steps[j - 1], states[j]);
      NoConditions(cfg, states, steps, j - 1);
      StepOnSegment(cfg, states[j - 1], steps[j - 1], s);
    }
  }

  /** Step i of the run takes segment s over. */
  ghost predicate TakesOver(states: seq<Sys>, steps: seq<Step>, i: nat, s: nat)
    requires i < |steps| && |states| == |steps| + 1
  {
    s < |states[i].segs| && s < |states[i + 1].segs| && states[i].segs[s].row.epoch != states[i + 1].segs[s].row.epoch
  }

  /** Every takeover raises the epoch, so each (segment, epoch) is granted to one owner, once. */
  lemma TakeoversRaiseEpoch(cfg: Config, states: seq<Sys>, steps: seq<Step>, i: nat, j: nat, s: nat)
    requires Run(cfg, states, steps) && i < j < |steps| && TakesOver(states, steps, i, s) &&
             TakesOver(states, steps, j, s)
    ensures states[i + 1].segs[s].row.epoch < states[j + 1].segs[s].row.epoch
  {
    assert Took(cfg, states[i], steps[i], states[i + 1]);
    assert Took(cfg, states[j], steps[j], states[j + 1]);
    NoConditions(cfg, states, steps, j);
    Grows(cfg, states, steps, i + 1, j, s);
    StepOnSegment(cfg, states[j], steps[j], s);
  }

  /** The holder's local checkpoint is the stored one whenever it is between two batches, in
      every run; nobody else's lease is current. */
  lemma HolderIsCurrent(cfg: Config, states: seq<Sys>, steps: seq<Step>, n: nat, s: nat, r: nat)
    requires Run(cfg, states, steps) && n < |states| && s < |states[n].segs| && r < |states[n].segs[s].workers|
    requires Owned(states[n].segs[s].row, states[n].segs[s].workers[r].lease)
    ensures var seg := states[n].segs[s];
            && (seg.workers[r].pc.Head? ==> seg.workers[r].pc.cp == seg.row.cp)
            && (forall q :: 0 <= q < |seg.workers| && q != r ==> !Owned(seg.row, seg.workers[q].lease))
            && seg.row.epoch in seg.hist.grants && seg.hist.grants[seg.row.epoch] == r
  {
    NoConditions(cfg, states, steps, n);
    var seg := states[n].segs[s];
    assert SegInv(ALWAYS, cfg, states[n].log, s, seg);
    assert WorkerInv(ALWAYS, cfg, states[n].log, s, seg, r);
    assert LeaseGranted(seg, r);
    forall q | 0 <= q < |seg.workers| ensures seg.workers[q].lease.owner == q {
      assert LeaseGranted(seg, q);
    }
  }

  // IsReplaying

  /** The positions whose handling a worker's step commits. */
  function Handled(seg: Segment, r: nat, act: Act): seq<nat>
    requires r < |seg.workers|
  {
    var pc := seg.workers[r].pc;
    match act
    case CommitBatch => if pc.Batch? then pc.events else []
    case ApplyOne => if pc.OneByOne? && pc.i < |pc.events| then [pc.events[pc.i]] else []
    case ReplayOne => if pc.Replaying? && pc.todo != [] then [pc.todo[0]] else []
    case _ => []
  }

  /** Step i of the run commits the handling of position p on segment s. */
  ghost predicate Handles(cfg: Config, states: seq<Sys>, steps: seq<Step>, i: nat, s: nat, p: nat)
    requires i < |steps| && |states| == |steps| + 1
  {
    ValidSys(cfg, states[i]) && Can(cfg, states[i], steps[i]) &&
    steps[i].Local? && steps[i].s == s && p in Handled(states[i].segs[s], steps[i].r, steps[i].act)
  }

  /** IsReplaying, as the handler of position p sees it: the boundary its worker carries. */
  predicate IsReplaying(seg: Segment, r: nat, p: nat)
    requires r < |seg.workers|
  {
    var pc := seg.workers[r].pc;
    (pc.Batch? || pc.OneByOne? || pc.Replaying?) && p <= pc.cp.replayUntil
  }

  /** One commit: what it handles joins the history, and an event seen before sees IsReplaying. */
  lemma HandlingIsTruthful(cfg: Config, sys: Sys, step: Step, p: nat)
    requires Inv(ALWAYS, cfg, sys) && Can(cfg, sys, step) && step.Local?
    requires p in Handled(sys.segs[step.s], step.r, step.act)
    ensures var seg, seg' := sys.segs[step.s], Do(cfg, sys, step).segs[step.s];
            && p in seg'.hist.ever
            && (p in seg.hist.ever ==> IsReplaying(seg, step.r, p))
            && (IsReplaying(seg, step.r, p) <==> p <= Max(seg.hist.declared, seg.hist.reached))
  {
    var seg := sys.segs[step.s];
    var w := seg.workers[step.r];
    assert SegInv(ALWAYS, cfg, sys.log, step.s, seg);
    assert WorkerInv(ALWAYS, cfg, sys.log, step.s, seg, step.r);
    match step.act {
      case CommitBatch =>
      case ApplyOne => AtEventPage(ALWAYS, cfg, sys.log, step.s, seg, step.r);
        assert Current(w.pc) in [Current(w.pc)];
      case ReplayOne =>
        assert w.pc.todo[0] in w.pc.todo;
        assert p in Positions(seg.row.letters);
    }
  }

  /** In every run, an event whose handling is committed again sees IsReplaying the second time,
      however many resets, takeovers and dead-letter replays lie in between. */
  lemma IsReplayingIsTruthful(cfg: Config, states: seq<Sys>, steps: seq<Step>, i: nat, j: nat, s: nat, p: nat)
    requires Run(cfg, states, steps) && i < j < |steps|
    requires Handles(cfg, states, steps, i, s, p) && Handles(cfg, states, steps, j, s, p)
    ensures IsReplaying(states[j].segs[s], steps[j].r, p)
  {
    assert Took(cfg, states[i], steps[i], states[i + 1]);
    NoConditions(cfg, states, steps, i);
    HandlingIsTruthful(cfg, states[i], steps[i], p);
    Grows(cfg, states, steps, i + 1, j, s);
    assert Took(cfg, states[j], steps[j], states[j + 1]);
    NoConditions(cfg, states, steps, j);
    HandlingIsTruthful(cfg, states[j], steps[j], p);
  }

  // When the guarantees hold: exactly in runs whose reclaims are clean

  const PARKED := Guarantee(false, true)

  /** Between two batches the holder of a segment knows its parked streams. */
  ghost predicate ParkedKnown(cfg: Config, sys: Sys) {
    forall s, r :: 0 <= s < |sys.segs| && 0 <= r < |sys.segs[s].workers| ==> KnowsParked(sys.segs[s], r)
  }

  ghost predicate KnowsParked(seg: Segment, r: nat)
    requires r < |seg.workers|
  {
    Owned(seg.row, seg.workers[r].lease) && seg.workers[r].pc.Head? ==>
      seg.workers[r].parked == Streams(seg.row.letters)
  }

  /** Between two batches the holder of a segment handles the event types its checkpoint was written for. */
  ghost predicate TypesKnown(cfg: Config, sys: Sys) {
    forall s, r :: 0 <= s < |sys.segs| && 0 <= r < |sys.segs[s].workers| && r < |cfg.runners| ==>
      KnowsTypes(cfg, sys.segs[s], r)
  }

  ghost predicate KnowsTypes(cfg: Config, seg: Segment, r: nat)
    requires r < |seg.workers| && r < |cfg.runners|
  {
    Owned(seg.row, seg.workers[r].lease) && seg.workers[r].pc.Head? ==> OwnTypes(cfg.runners[r], seg.row.cp)
  }

  /** A reclaim that took the segment over anew is what breaks either, at once. */
  lemma DirtyReclaimBreaks(cfg: Config, sys: Sys, s: nat, r: nat)
    requires Inv(ALWAYS, cfg, sys) && s < |sys.segs| && r < |cfg.runners| && Can(cfg, sys, Local(s, r, Reclaim))
    ensures !Clean(PARKED, cfg, sys.segs[s], r, Reclaim) ==> !ParkedKnown(cfg, Do(cfg, sys, Local(s, r, Reclaim)))
    ensures !Clean(EXACT, cfg, sys.segs[s], r, Reclaim) ==> !TypesKnown(cfg, Do(cfg, sys, Local(s, r, Reclaim)))
  {
    var seg := sys.segs[s];
    var seg' := Do(cfg, sys, Local(s, r, Reclaim)).segs[s];
    assert SegInv(ALWAYS, cfg, sys.log, s, seg);
    assert WorkerInv(ALWAYS, cfg, sys.log, s, seg, r);
    assert LeaseGranted(seg, r);
    assert seg'.workers[r].parked == {} && Owned(seg'.row, seg'.workers[r].lease);
    assert seg.row.letters != [] ==> seg.row.letters[0].stream in Streams(seg.row.letters);
    assert !Clean(PARKED, cfg, seg, r, Reclaim) ==> !KnowsParked(seg', r);
    assert !Clean(EXACT, cfg, seg, r, Reclaim) ==> !KnowsTypes(cfg, seg', r);
  }

  lemma InvKnows(g: Guarantee, cfg: Config, sys: Sys)
    requires Inv(g, cfg, sys)
    ensures g.inOrder ==> ParkedKnown(cfg, sys)
    ensures g.exact ==> TypesKnown(cfg, sys)
  {
    forall s, r | 0 <= s < |sys.segs| && 0 <= r < |sys.segs[s].workers|
      ensures g.inOrder ==> KnowsParked(sys.segs[s], r)
      ensures g.exact ==> r < |cfg.runners| && KnowsTypes(cfg, sys.segs[s], r)
    {
      assert SegInv(g, cfg, sys.log, s, sys.segs[s]);
      assert WorkerInv(g, cfg, sys.log, s, sys.segs[s], r);
    }
  }

  lemma DirtyStepBreaks(cfg: Config, states: seq<Sys>, steps: seq<Step>, i: nat)
    requires Run(cfg, states, steps) && i < |steps|
    ensures ParkedKnown(cfg, states[i + 1]) ==> ValidSys(cfg, states[i]) && CleanStep(PARKED, cfg, states[i], steps[i])
    ensures TypesKnown(cfg, states[i + 1]) ==> ValidSys(cfg, states[i]) && CleanStep(EXACT, cfg, states[i], steps[i])
  {
    assert Took(cfg, states[i], steps[i], states[i + 1]);
    NoConditions(cfg, states, steps, i);
    var step := steps[i];
    if step.Local? && step.act.Reclaim? {
      DirtyReclaimBreaks(cfg, states[i], step.s, step.r);
    }
  }

  /** The parked streams are known in every state of a run if and only if every reclaim in it
      either refreshed its claim or found no dead letters. */
  lemma ParkedKnownIff(cfg: Config, states: seq<Sys>, steps: seq<Step>)
    requires Run(cfg, states, steps)
    ensures (forall n :: 0 <= n < |states| ==> ParkedKnown(cfg, states[n])) <==> CleanRun(PARKED, cfg, states, steps)
  {
    if forall n :: 0 <= n < |states| ==> ParkedKnown(cfg, states[n]) {
      forall i | 0 <= i < |steps| ensures ValidSys(cfg, states[i]) && CleanStep(PARKED, cfg, states[i], steps[i]) {
        DirtyStepBreaks(cfg, states, steps, i);
      }
    }
    if CleanRun(PARKED, cfg, states, steps) {
      forall n | 0 <= n < |states| ensures ParkedKnown(cfg, states[n]) {
        CleanRunInv(PARKED, cfg, states, steps, n);
        InvKnows(PARKED, cfg, states[n]);
      }
    }
  }

  /** The holder's event types are the stored ones in every state of a run if and only if every
      reclaim in it either refreshed its claim or found nothing processed or its own event types. */
  lemma TypesKnownIff(cfg: Config, states: seq<Sys>, steps: seq<Step>)
    requires Run(cfg, states, steps)
    ensures (forall n :: 0 <= n < |states| ==> TypesKnown(cfg, states[n])) <==> CleanRun(EXACT, cfg, states, steps)
  {
    if forall n :: 0 <= n < |states| ==> TypesKnown(cfg, states[n]) {
      forall i | 0 <= i < |steps| ensures ValidSys(cfg, states[i]) && CleanStep(EXACT, cfg, states[i], steps[i]) {
        DirtyStepBreaks(cfg, states, steps, i);
      }
    }
    if CleanRun(EXACT, cfg, states, steps) {
      forall n | 0 <= n < |states| ensures TypesKnown(cfg, states[n]) {
        CleanRunInv(EXACT, cfg, states, steps, n);
        InvKnows(EXACT, cfg, states[n]);
      }
    }
  }
}
