/** What holds in every run of the command bus. */
module CommandBusTheorems {
  import opened Sequences
  import opened CommandBus
  import opened Sums

  /** No command is sent once the workers may exit, and no wait group grows once the bus is stopped. */
  lemma NoSendAfterDrain(c: Config, states: seq<Bus>, acts: seq<Act>, n: nat)
    requires Runs(c, states, acts) && n < |acts| && acts[n].OfCall?
    ensures (acts[n].call.Send? || acts[n].call.HandOff?) ==> !states[n].drained
    ensures (acts[n].call.AddWg? || acts[n].call.AddSends?) ==> !states[n].stopped
  {
    RunInv(c, states, acts, n);
    if acts[n].call.Send? || acts[n].call.HandOff? {
      SendInOpenLine(c, states[n], acts[n].d, acts[n].call);
    } else {
      CallLocks(c, states[n], acts[n].d, acts[n].call);
    }
  }

  /** Each shard answers the commands sent to it once each, in the order they were sent: those sent
      are those answered, then the one its worker holds, then those in its queue. */
  lemma OneAnswerEachInOrder(c: Config, states: seq<Bus>, acts: seq<Act>, n: nat, s: nat)
    requires Runs(c, states, acts) && n <= |acts| && s < c.Shards()
    ensures var b := states[n];
            && Shaped(c, b)
            && b.sent[s] == b.answered[s] + InHand(b.workers[s]) + b.queues[s]
            && (forall i, j :: 0 <= i < j < |b.sent[s]| ==> b.sent[s][i] != b.sent[s][j])
            && (forall d: nat :: d in b.sent[s] <==> d < |b.calls| && c.ShardOf(d) == s && b.calls[d].queued)
            && (forall d: nat :: d in b.answered[s] <==> d < |b.calls| && c.ShardOf(d) == s && b.calls[d].reply)
  {
    RunInv(c, states, acts, n);
    assert InOrder(c, states[n], s);
  }

  predicate SameAggregate(c: Config, d: nat, e: nat) {
    d < |c.aggregates| && e < |c.aggregates| && c.aggregates[d] == c.aggregates[e]
  }

  /** Commands of one aggregate are handled one at a time, in the order they were sent: once a later
      one is in a worker's hands, the earlier one has its answer. */
  lemma AggregateInOrder(c: Config, states: seq<Bus>, acts: seq<Act>, n: nat, i: nat, j: nat, s: nat, t: nat)
    requires Runs(c, states, acts) && n <= |acts| && Shaped(c, states[n]) && s < c.Shards() && t < c.Shards()
    requires i < j < |states[n].sent[s]|
    requires var later := states[n].sent[s][j];
             later < |c.aggregates| && (InHand(states[n].workers[t]) == [later] || states[n].calls[later].reply)
    ensures var earlier := states[n].sent[s][i];
            && earlier < |states[n].calls| && states[n].calls[earlier].reply
            && forall u :: 0 <= u < c.Shards() ==> InHand(states[n].workers[u]) != [earlier]
    ensures forall d: nat :: SameAggregate(c, d, states[n].sent[s][j]) && states[n].calls[d].queued ==>
              d in states[n].sent[s]
  {
    RunInv(c, states, acts, n);
    var b := states[n];
    assert InOrder(c, b, s) && InOrder(c, b, t);
    var later, earlier := b.sent[s][j], b.sent[s][i];
    if InHand(b.workers[t]) == [later] {
      HeldLine(c, t, b.calls, b.sent[t], b.answered[t], b.workers[t], b.queues[t]);
    }
    assert later in b.sent[s] && c.ShardOf(later) == s;
    EarlierIsAnswered(b.sent[s], b.answered[s], InHand(b.workers[s]), b.queues[s], i, j);
    assert earlier in b.answered[s];
    forall u | 0 <= u < c.Shards() ensures InHand(b.workers[u]) != [earlier] {
      assert InOrder(c, b, u);
      if InHand(b.workers[u]) != [] {
        HeldLine(c, u, b.calls, b.sent[u], b.answered[u], b.workers[u], b.queues[u]);
      }
    }
  }

  lemma EarlierIsAnswered(sent: seq<nat>, answered: seq<nat>, held: seq<nat>, queue: seq<nat>, i: nat, j: nat)
    requires sent == answered + held + queue && |held| <= 1 && Distinct(sent) && i < j < |sent|
    requires held == [sent[j]] || sent[j] in answered
    ensures i < |answered| && sent[i] == answered[i]
  {
    if held == [sent[j]] {
      assert sent[|answered|] == held[0];
    } else {
      var k: nat :| k < |answered| && answered[k] == sent[j];
      assert sent[k] == sent[j];
    }
  }

  /** Stopped, drained and the end of a Stop are for good. */
  lemma {:induction false} ForGood(c: Config, states: seq<Bus>, acts: seq<Act>, n: nat, m: nat)
    requires Runs(c, states, acts) && n <= m <= |acts|
    ensures states[n].stopped ==> states[m].stopped
    ensures states[n].drained ==> states[m].drained
    ensures |states[m].stops| == |states[n].stops|
    ensures forall k :: 0 <= k < |states[n].stops| && states[n].stops[k].Done? ==> states[m].stops[k].Done?
    decreases m
  {
    if n < m {
      ForGood(c, states, acts, n, m - 1);
    }
  }

  lemma ExitedStays(c: Config, b: Bus, act: Act, s: nat)
    requires Gates(c, b) && Lines(c, b) && Enabled(c, b, act) && s < c.Shards() && b.workers[s].Exited?
    ensures Next(c, b, act).workers[s].Exited? && Next(c, b, act).sent[s] == b.sent[s]
  {
    if act.OfCall? && (act.call.Send? || act.call.HandOff?) {
      SendInOpenLine(c, b, act.d, act.call);
    }
  }

  lemma {:induction false} StaysExited(c: Config, states: seq<Bus>, acts: seq<Act>, n: nat, m: nat, s: nat)
    requires Runs(c, states, acts) && n <= m <= |acts| && s < c.Shards()
    requires Shaped(c, states[n]) && states[n].workers[s].Exited?
    ensures Gates(c, states[m]) && Lines(c, states[m])
    ensures states[m].workers[s].Exited? && states[m].sent[s] == states[n].sent[s]
    decreases m
  {
    if n < m {
      StaysExited(c, states, acts, n, m - 1, s);
      ExitedStays(c, states[m - 1], acts[m - 1], s);
      StepKeeps(c, states[m - 1], acts[m - 1]);
    } else {
      RunInv(c, states, acts, m);
    }
  }

  /** A worker exits with its queue empty and everything sent to its shard answered, and nothing is
      sent to that shard afterwards. */
  lemma ExitIsFinal(c: Config, states: seq<Bus>, acts: seq<Act>, n: nat, m: nat, s: nat)
    requires Runs(c, states, acts) && n <= m <= |acts| && s < c.Shards()
    requires Shaped(c, states[n]) && states[n].workers[s].Exited?
    ensures Shaped(c, states[m])
    ensures states[m].workers[s].Exited? && states[m].queues[s] == []
    ensures states[m].sent[s] == states[m].answered[s] == states[n].sent[s]
  {
    StaysExited(c, states, acts, n, m, s);
    assert InOrder(c, states[m], s);
  }

  /** A Dispatch that is under way: past its check of stopCh and not yet returned. */
  predicate InFlight(call: Dispatch) {
    !call.pc.Calling? && !call.pc.Entered? && !call.pc.Checked? && !call.pc.Returned?
  }

  /** When a Stop returns no Dispatch is in flight, then or ever after. */
  lemma StopWaitsForDispatches(c: Config, states: seq<Bus>, acts: seq<Act>, n: nat, m: nat, k: nat)
    requires Runs(c, states, acts) && n <= m <= |acts|
    requires k < |states[n].stops| && states[n].stops[k].Done?
    ensures forall d :: 0 <= d < |states[m].calls| ==> !InFlight(states[m].calls[d]) && !states[m].calls[d].pc.Checked?
  {
    ForGood(c, states, acts, n, m);
    RunInv(c, states, acts, m);
    assert StopOk(states[m], states[m].stops[k]);
    SumZero(states[m].calls, InWg());
  }

  /** A command refused as closed was never sent, so never handled; one that returned a result had its answer. */
  lemma OutcomesAreTrue(c: Config, states: seq<Bus>, acts: seq<Act>, n: nat, d: nat)
    requires Runs(c, states, acts) && n <= |acts| && d < |states[n].calls| && states[n].calls[d].pc.Returned?
    ensures states[n].calls[d].pc.outcome == Closed ==>
              && Shaped(c, states[n])
              && (forall s :: 0 <= s < c.Shards() ==> d !in states[n].sent[s] && InHand(states[n].workers[s]) != [d])
    ensures states[n].calls[d].pc.outcome == Answered ==> Shaped(c, states[n]) && d in states[n].answered[c.ShardOf(d)]
  {
    RunInv(c, states, acts, n);
    var b := states[n];
    assert CallOk(b.calls[d]) && InOrder(c, b, c.ShardOf(d));
    forall s | 0 <= s < c.Shards() && b.calls[d].pc.outcome == Closed
      ensures d !in b.sent[s] && InHand(b.workers[s]) != [d]
    {
      assert InOrder(c, b, s);
      if InHand(b.workers[s]) != [] {
        HeldLine(c, s, b.calls, b.sent[s], b.answered[s], b.workers[s], b.queues[s]);
      }
    }
  }

  // Progress

  function CallRank(): Dispatch -> int {
    (call: Dispatch) =>
      (if call.ended then 0 else 1) +
      match call.pc
      case Calling => 30
      case Entered => 29
      case Checked => 28
      case CountedWg => 27
      case Registered => 26
      case Sending => 25
      case GivingUp(_) => 10
      case Sent => 10
      case Waiting => 9
      case Returning(_) => 8
      case Returned(_) => 0
  }

  function WorkerRank(): Worker -> int {
    (worker: Worker) =>
      match worker
      case Got(_) => 4
      case Running(_) => 3
      case Ready => 2
      case Draining => 1
      case Exited => 0
  }

  function StopRank(): Stop -> int {
    (stop: Stop) =>
      match stop
      case Asked => 6
      case HasLock => 5
      case Shut => 4
      case AwaitSends => 3
      case NoSends => 2
      case AwaitCalls => 1
      case Done => 0
  }

  function QueueRank(): seq<nat> -> int {
    (queue: seq<nat>) => 5 * |queue|
  }

  /** How many steps are left at most. */
  function Rank(b: Bus): nat {
    SumAtLeast(b.calls, CallRank());
    SumAtLeast(b.workers, WorkerRank());
    SumAtLeast(b.stops, StopRank());
    SumAtLeast(b.queues, QueueRank());
    Sum(b.calls, CallRank()) + Sum(b.workers, WorkerRank()) + Sum(b.stops, StopRank()) + Sum(b.queues, QueueRank())
  }

  lemma CallRankFalls(c: Config, b: Bus, d: nat, act: CallAct)
    requires Shaped(c, b) && d < |b.calls| && CallEnabled(c, b, d, act)
    ensures Rank(CallNext(c, b, d, act)) < Rank(b)
  {
    var b' := CallNext(c, b, d, act);
    var s := c.ShardOf(d);
    assert b'.calls == b.calls[d := b'.calls[d]];
    assert b'.queues == b.queues[s := b'.queues[s]] && b'.workers == b.workers[s := b'.workers[s]];
    SumUpdate(b.calls, CallRank(), d, b'.calls[d]);
    SumUpdate(b.queues, QueueRank(), s, b'.queues[s]);
    SumUpdate(b.workers, WorkerRank(), s, b'.workers[s]);
  }

  lemma AnswerRankFalls(c: Config, b: Bus, s: nat, act: WorkerAct)
    requires Shaped(c, b) && s < |b.workers| && WorkerEnabled(c, b, s, act) && Answers(act)
    ensures Rank(WorkerNext(c, b, s, act)) < Rank(b)
  {
    var d := b.workers[s].d;
    SumUpdate(b.calls, CallRank(), d, b.calls[d].(reply := true));
    SumUpdate(b.workers, WorkerRank(), s, Ready);
  }

  lemma WorkerRankFalls(c: Config, b: Bus, s: nat, act: WorkerAct)
    requires Shaped(c, b) && s < |b.workers| && WorkerEnabled(c, b, s, act) && !Answers(act)
    ensures Rank(WorkerNext(c, b, s, act)) < Rank(b)
  {
    var b' := WorkerNext(c, b, s, act);
    SumUpdate(b.workers, WorkerRank(), s, b'.workers[s]);
    if act.Take? {
      SumUpdate(b.queues, QueueRank(), s, b.queues[s][1..]);
    }
  }

  lemma StopRankFalls(b: Bus, k: nat, act: StopAct)
    requires k < |b.stops| && StopEnabled(b, k, act)
    ensures Rank(StopNext(b, k, act)) < Rank(b)
  {
    SumUpdate(b.stops, StopRank(), k, StopNext(b, k, act).stops[k]);
  }

  lemma RankFalls(c: Config, b: Bus, act: Act)
    requires Shaped(c, b) && Enabled(c, b, act)
    ensures Rank(Next(c, b, act)) < Rank(b)
  {
    match act
    case OfCall(d, call) => CallRankFalls(c, b, d, call);
    case OfWorker(s, worker) =>
      if Answers(worker) { AnswerRankFalls(c, b, s, worker); } else { WorkerRankFalls(c, b, s, worker); }
    case OfStop(k, stop) => StopRankFalls(b, k, stop);
  }

  lemma {:induction false} RunsEnd(c: Config, states: seq<Bus>, acts: seq<Act>, n: nat)
    requires Runs(c, states, acts) && n <= |acts|
    ensures n + Rank(states[n]) <= Rank(states[0])
  {
    if n > 0 {
      RunsEnd(c, states, acts, n - 1);
      RankFalls(c, states[n - 1], acts[n - 1]);
    }
  }

  /** A step of the bus or of a call under way: not a new Dispatch, not the end of a context. */
  ghost predicate Moves(c: Config, b: Bus, act: Act)
    requires Shaped(c, b)
  {
    Enabled(c, b, act) && (act.OfCall? ==> !act.call.Enter? && !act.call.End?)
  }

  ghost predicate Stuck(c: Config, b: Bus)
    requires Shaped(c, b)
  {
    forall act :: !Moves(c, b, act)
  }

  lemma StuckWorker(c: Config, b: Bus, s: nat)
    requires Gates(c, b) && Lines(c, b) && Stuck(c, b) && s < c.Shards()
    ensures b.queues[s] == [] && b.sent[s] == b.answered[s]
    ensures if b.drained then b.workers[s].Exited? else b.workers[s].Ready?
  {
    assert InOrder(c, b, s);
    if b.workers[s].Got? || b.workers[s].Running? {
      HeldLine(c, s, b.calls, b.sent[s], b.answered[s], b.workers[s], b.queues[s]);
      var act := if b.workers[s].Running? then Answer else if b.calls[b.workers[s].d].ended then SkipEnded else Run;
      assert Moves(c, b, OfWorker(s, act));
    } else {
      assert !Moves(c, b, OfWorker(s, Take)) && !Moves(c, b, OfWorker(s, Exit)) && !Moves(c, b, OfWorker(s, SeeDrain));
    }
  }

  lemma StuckCall(c: Config, b: Bus, d: nat)
    requires Gates(c, b) && Lines(c, b) && Stuck(c, b) && d < |b.calls|
    ensures b.calls[d].pc.Calling? || b.calls[d].pc.Returned?
  {
    var s := c.ShardOf(d);
    StuckWorker(c, b, s);
    assert InOrder(c, b, s) && CallOk(b.calls[d]);
    assert !Moves(c, b, OfCall(d, Check)) && !Moves(c, b, OfCall(d, AddWg)) && !Moves(c, b, OfCall(d, AddSends));
    assert !Moves(c, b, OfCall(d, Unlock)) && !Moves(c, b, OfCall(d, SendsDone)) && !Moves(c, b, OfCall(d, WgDone));
    assert !Moves(c, b, OfCall(d, HandOff)) && !Moves(c, b, OfCall(d, SeeStop)) && !Moves(c, b, OfCall(d, Receive));
  }

  lemma StuckStop(c: Config, b: Bus, k: nat)
    requires Gates(c, b) && Lines(c, b) && Stuck(c, b) && k < |b.stops|
    ensures b.stops[k].Done?
  {
    forall d | 0 <= d < |b.calls| ensures b.calls[d].pc.Calling? || b.calls[d].pc.Returned? {
      StuckCall(c, b, d);
    }
    SumZero(b.calls, InWg());
    SumZero(b.calls, InSends());
    forall j | 0 <= j < |b.stops| ensures !Writes(b.stops[j]) {
      assert !Moves(c, b, OfStop(j, Shutdown)) && !Moves(c, b, OfStop(j, Release));
    }
    assert !Moves(c, b, OfStop(k, Lock)) && !Moves(c, b, OfStop(k, SeeNoSends));
    assert !Moves(c, b, OfStop(k, CloseDrain)) && !Moves(c, b, OfStop(k, SeeNoCalls));
  }

  /** The bus never deadlocks and every run ends: a run is no longer than its first state's rank, and
      when it can go no further, without new dispatches, every call made has returned, every command
      sent has its answer, every Stop has returned, and if there was one every worker has exited. */
  lemma EveryStopReturns(c: Config, states: seq<Bus>, acts: seq<Act>)
    requires Runs(c, states, acts) && Shaped(c, states[|acts|])
    ensures |acts| <= Rank(states[0])
    ensures Stuck(c, states[|acts|]) ==>
              var b := states[|acts|];
              && (forall d :: 0 <= d < |b.calls| ==> b.calls[d].pc.Calling? || b.calls[d].pc.Returned?)
              && (forall s :: 0 <= s < c.Shards() ==> b.sent[s] == b.answered[s])
              && (forall k :: 0 <= k < |b.stops| ==> b.stops[k].Done?)
              && (|b.stops| > 0 ==> forall s :: 0 <= s < c.Shards() ==> b.workers[s].Exited?)
  {
    RunsEnd(c, states, acts, |acts|);
    RunInv(c, states, acts, |acts|);
    var b := states[|acts|];
    if Stuck(c, b) {
      forall d | 0 <= d < |b.calls| ensures b.calls[d].pc.Calling? || b.calls[d].pc.Returned? {
        StuckCall(c, b, d);
      }
      forall k | 0 <= k < |b.stops| ensures b.stops[k].Done? {
        StuckStop(c, b, k);
      }
      assert |b.stops| > 0 ==> StopOk(b, b.stops[0]);
      forall s | 0 <= s < c.Shards() ensures b.sent[s] == b.answered[s] && (b.drained ==> b.workers[s].Exited?) {
        StuckWorker(c, b, s);
      }
    }
  }
}
