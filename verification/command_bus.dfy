/** command_bus.go: dispatchers, one worker per shard, and Stop, one atomic action at a time. */
module CommandBus {
  import opened Sequences
  import opened Sums

  /** The bus and the commands to dispatch, with the aggregate of each. */
  datatype Config = Config(bufferSize: nat, shardCount: int, hash: string -> nat, aggregates: seq<string>)
  {
    function Shards(): (n: nat)
      ensures n > 0
    {
      if shardCount <= 0 then 1 else shardCount
    }

    function ShardOf(d: nat): (s: nat)
      requires d < |aggregates|
      ensures s < Shards()
    {
      hash(aggregates[d]) % Shards()
    }
  }

  datatype Outcome = Closed | Cancelled | Answered

  /** Where a Dispatch is. From Entered to Registered it holds the read lock. */
  datatype Pc =
    | Calling | Entered | Checked | CountedWg | Registered
    | Sending | Sent | GivingUp(outcome: Outcome) | Waiting | Returning(outcome: Outcome) | Returned(outcome: Outcome)

  /** A Dispatch: ended is its context's end, queued whether its command was sent, reply the result
      in its response channel. */
  datatype Dispatch = Dispatch(pc: Pc, ended: bool, queued: bool, reply: bool)

  datatype Worker = Ready | Draining | Got(d: nat) | Running(d: nat) | Exited

  /** Where a Stop is. At HasLock and Shut it holds the write lock. */
  datatype Stop = Asked | HasLock | Shut | AwaitSends | NoSends | AwaitCalls | Done

  /** wg and sends are the two wait groups; sent and answered are, shard by shard, the commands sent
      and the results given, in order. */
  datatype Bus = Bus(
    stopped: bool, drained: bool, wg: int, sends: int,
    calls: seq<Dispatch>, queues: seq<seq<nat>>, workers: seq<Worker>, stops: seq<Stop>,
    sent: seq<seq<nat>>, answered: seq<seq<nat>>)

  datatype CallAct =
    | Enter | Check | AddWg | AddSends | Unlock | Send | HandOff | SeeStop | SeeEnd | SendsDone | Receive | EndWait
    | WgDone | End

  datatype WorkerAct = Take | SeeDrain | Exit | SkipEnded | NoHandler | Run | Answer

  datatype StopAct = Lock | Shutdown | Release | SeeNoSends | CloseDrain | SeeNoCalls

  datatype Act = OfCall(d: nat, call: CallAct) | OfWorker(s: nat, worker: WorkerAct) | OfStop(k: nat, stop: StopAct)

  predicate Reads(c: Dispatch) {
    c.pc.Entered? || c.pc.Checked? || c.pc.CountedWg? || c.pc.Registered?
  }

  predicate Writes(k: Stop) {
    k.HasLock? || k.Shut?
  }

  predicate Shaped(c: Config, b: Bus) {
    && |b.calls| == |c.aggregates|
    && |b.queues| == |b.workers| == |b.sent| == |b.answered| == c.Shards()
  }

  predicate CallEnabled(c: Config, b: Bus, d: nat, act: CallAct)
    requires Shaped(c, b) && d < |b.calls|
  {
    var call := b.calls[d];
    var s := c.ShardOf(d);
    match act
    case Enter => call.pc.Calling? && forall k :: 0 <= k < |b.stops| ==> !Writes(b.stops[k])
    case Check => call.pc.Entered?
    case AddWg => call.pc.Checked?
    case AddSends => call.pc.CountedWg?
    case Unlock => call.pc.Registered?
    case Send => call.pc.Sending? && |b.queues[s]| < c.bufferSize
    case HandOff => call.pc.Sending? && b.queues[s] == [] && b.workers[s].Ready?
    case SeeStop => call.pc.Sending? && b.stopped
    case SeeEnd => call.pc.Sending? && call.ended
    case SendsDone => call.pc.Sent? || call.pc.GivingUp?
    case Receive => call.pc.Waiting? && call.reply
    case EndWait => call.pc.Waiting? && call.ended
    case WgDone => call.pc.Returning?
    case End => !call.ended
  }

  predicate WorkerEnabled(c: Config, b: Bus, s: nat, act: WorkerAct)
    requires Shaped(c, b) && s < |b.workers|
  {
    var worker := b.workers[s];
    match act
    case Take => (worker.Ready? || worker.Draining?) && b.queues[s] != []
    case SeeDrain => worker.Ready? && b.drained
    case Exit => worker.Draining? && b.queues[s] == []
    case SkipEnded => worker.Got? && worker.d < |b.calls| && b.calls[worker.d].ended
    case NoHandler => worker.Got? && worker.d < |b.calls| && !b.calls[worker.d].ended
    case Run => worker.Got? && worker.d < |b.calls| && !b.calls[worker.d].ended
    case Answer => worker.Running? && worker.d < |b.calls|
  }

  predicate StopEnabled(b: Bus, k: nat, act: StopAct)
    requires k < |b.stops|
  {
    match act
    case Lock =>
      && b.stops[k].Asked? && (forall d :: 0 <= d < |b.calls| ==> !Reads(b.calls[d]))
      && forall j :: 0 <= j < |b.stops| ==> !Writes(b.stops[j])
    case Shutdown => b.stops[k].HasLock?
    case Release => b.stops[k].Shut?
    case SeeNoSends => b.stops[k].AwaitSends? && b.sends == 0
    case CloseDrain => b.stops[k].NoSends?
    case SeeNoCalls => b.stops[k].AwaitCalls? && b.wg == 0
  }

  predicate Enabled(c: Config, b: Bus, act: Act)
    requires Shaped(c, b)
  {
    match act
    case OfCall(d, call) => d < |b.calls| && CallEnabled(c, b, d, call)
    case OfWorker(s, worker) => s < |b.workers| && WorkerEnabled(c, b, s, worker)
    case OfStop(k, stop) => k < |b.stops| && StopEnabled(b, k, stop)
  }

  /** A Dispatch moves on; the command joins its shard's history when it is sent. */
  function CallNext(c: Config, b: Bus, d: nat, act: CallAct): Bus
    requires Shaped(c, b) && d < |b.calls| && CallEnabled(c, b, d, act)
  {
    var call := b.calls[d];
    var s := c.ShardOf(d);
    match act
    case Enter => At(b, d, Entered)
    case Check => At(b, d, if b.stopped then Returned(Closed) else Checked)
    case AddWg => At(b, d, CountedWg).(wg := b.wg + 1)
    case AddSends => At(b, d, Registered).(sends := b.sends + 1)
    case Unlock => At(b, d, Sending)
    case Send => SentNow(c, b, d).(queues := b.queues[s := b.queues[s] + [d]])
    case HandOff => SentNow(c, b, d).(workers := b.workers[s := Got(d)])
    case SeeStop => At(b, d, GivingUp(Closed))
    case SeeEnd => At(b, d, GivingUp(Cancelled))
    case SendsDone => At(b, d, if call.pc.Sent? then Waiting else Returning(call.pc.outcome)).(sends := b.sends - 1)
    case Receive => At(b, d, Returning(Answered))
    case EndWait => At(b, d, Returning(Cancelled))
    case WgDone => At(b, d, Returned(call.pc.outcome)).(wg := b.wg - 1)
    case End => b.(calls := b.calls[d := call.(ended := true)])
  }

  function At(b: Bus, d: nat, pc: Pc): Bus
    requires d < |b.calls|
  {
    b.(calls := b.calls[d := b.calls[d].(pc := pc)])
  }

  function SentNow(c: Config, b: Bus, d: nat): Bus
    requires Shaped(c, b) && d < |b.calls|
  {
    var s := c.ShardOf(d);
    b.(calls := b.calls[d := b.calls[d].(pc := Sent, queued := true)], sent := b.sent[s := b.sent[s] + [d]])
  }

  function WorkerNext(c: Config, b: Bus, s: nat, act: WorkerAct): Bus
    requires Shaped(c, b) && s < |b.workers| && WorkerEnabled(c, b, s, act)
  {
    match act
    case Take => b.(workers := b.workers[s := Got(b.queues[s][0])], queues := b.queues[s := b.queues[s][1..]])
    case SeeDrain => b.(workers := b.workers[s := Draining])
    case Exit => b.(workers := b.workers[s := Exited])
    case Run => b.(workers := b.workers[s := Running(b.workers[s].d)])
    case _ =>
      var d := b.workers[s].d;
      b.(workers := b.workers[s := Ready], calls := b.calls[d := b.calls[d].(reply := true)],
         answered := b.answered[s := b.answered[s] + [d]])
  }

  function StopNext(b: Bus, k: nat, act: StopAct): Bus
    requires k < |b.stops|
  {
    match act
    case Lock => b.(stops := b.stops[k := HasLock])
    case Shutdown => b.(stops := b.stops[k := Shut], stopped := true)
    case Release => b.(stops := b.stops[k := AwaitSends])
    case SeeNoSends => b.(stops := b.stops[k := NoSends])
    case CloseDrain => b.(stops := b.stops[k := AwaitCalls], drained := true)
    case SeeNoCalls => b.(stops := b.stops[k := Done])
  }

  function Next(c: Config, b: Bus, act: Act): Bus
    requires Shaped(c, b) && Enabled(c, b, act)
  {
    match act
    case OfCall(d, call) => CallNext(c, b, d, call)
    case OfWorker(s, worker) => WorkerNext(c, b, s, worker)
    case OfStop(k, stop) => StopNext(b, k, stop)
  }

  ghost predicate Initial(c: Config, b: Bus) {
    && Shaped(c, b) && !b.stopped && !b.drained && b.wg == b.sends == 0
    && (forall d :: 0 <= d < |b.calls| ==> b.calls[d].pc == Calling && !b.calls[d].queued && !b.calls[d].reply)
    && (forall s :: 0 <= s < c.Shards() ==> b.queues[s] == b.sent[s] == b.answered[s] == [] && b.workers[s] == Ready)
    && forall k :: 0 <= k < |b.stops| ==> b.stops[k] == Asked
  }

  ghost predicate Runs(c: Config, states: seq<Bus>, acts: seq<Act>) {
    && |states| == |acts| + 1 && Initial(c, states[0])
    && forall i :: 0 <= i < |acts| ==>
         Shaped(c, states[i]) && Enabled(c, states[i], acts[i]) && states[i + 1] == Next(c, states[i], acts[i])
  }

  function InWg(): Dispatch -> int {
    (c: Dispatch) => if c.pc.Calling? || c.pc.Entered? || c.pc.Checked? || c.pc.Returned? then 0 else 1
  }

  function InSends(): Dispatch -> int {
    (c: Dispatch) => if c.pc.Registered? || c.pc.Sending? || c.pc.Sent? || c.pc.GivingUp? then 1 else 0
  }

  // The invariant: locks, counters and channels

  ghost predicate Counted(b: Bus) {
    b.wg == Sum(b.calls, InWg()) && b.sends == Sum(b.calls, InSends())
  }

  /** One lock, and no Dispatch past the check once the bus is stopped. */
  ghost predicate Locked(b: Bus) {
    && (forall d, k :: 0 <= d < |b.calls| && 0 <= k < |b.stops| && Reads(b.calls[d]) ==> !Writes(b.stops[k]))
    && (b.stopped ==> forall d :: 0 <= d < |b.calls| ==> !Adds(b.calls[d]))
  }

  /** Between the check of stopCh and the end of the read lock. */
  predicate Adds(call: Dispatch) {
    call.pc.Checked? || call.pc.CountedWg? || call.pc.Registered?
  }

  ghost predicate Gates(c: Config, b: Bus) {
    && Shaped(c, b) && Counted(b) && Locked(b)
    && (forall k :: 0 <= k < |b.stops| ==> StopOk(b, b.stops[k]))
    && (b.drained ==> b.stopped && b.sends == 0)
    && forall s :: 0 <= s < |b.workers| && (b.workers[s].Draining? || b.workers[s].Exited?) ==> b.drained
  }

  predicate StopOk(b: Bus, k: Stop) {
    && (!k.Asked? && !k.HasLock? ==> b.stopped)
    && (k.NoSends? || k.AwaitCalls? || k.Done? ==> b.sends == 0)
    && (k.AwaitCalls? || k.Done? ==> b.drained)
    && (k.Done? ==> b.wg == 0)
  }

  /** A counted Dispatch keeps its wait group above 0. */
  lemma CountsIn(b: Bus, d: nat)
    requires Counted(b) && d < |b.calls|
    ensures b.wg >= InWg()(b.calls[d]) && b.sends >= InSends()(b.calls[d])
  {
    SumAtLeast(b.calls, InWg());
    SumAtLeast(b.calls, InSends());
  }

  lemma CallCounts(c: Config, b: Bus, d: nat, act: CallAct)
    requires Shaped(c, b) && Counted(b) && d < |b.calls| && CallEnabled(c, b, d, act)
    ensures Counted(CallNext(c, b, d, act))
  {
    var call' := CallNext(c, b, d, act).calls[d];
    assert CallNext(c, b, d, act).calls == b.calls[d := call'];
    SumUpdate(b.calls, InWg(), d, call');
    SumUpdate(b.calls, InSends(), d, call');
  }

  /** What a Dispatch may hold after a step: the read lock only if no Stop holds the write lock. */
  lemma CallLocks(c: Config, b: Bus, d: nat, act: CallAct)
    requires Shaped(c, b) && Locked(b) && d < |b.calls| && CallEnabled(c, b, d, act)
    ensures var call' := CallNext(c, b, d, act).calls[d];
            && (Reads(call') ==> forall k :: 0 <= k < |b.stops| ==> !Writes(b.stops[k]))
            && (b.stopped ==> !Adds(call'))
    ensures b.stopped ==> !act.AddWg? && !act.AddSends?
  {
    var call := b.calls[d];
    assert b.stopped ==> !Adds(call);
    if !act.Enter? {
      assert Reads(CallNext(c, b, d, act).calls[d]) ==> Reads(call);
    }
  }

  /** Nothing is added to a wait group once stopCh is closed. */
  lemma CallGates(c: Config, b: Bus, d: nat, act: CallAct)
    requires Gates(c, b) && d < |b.calls| && CallEnabled(c, b, d, act)
    ensures Gates(c, CallNext(c, b, d, act))
  {
    CallCounts(c, b, d, act);
    CallLocks(c, b, d, act);
    assert CallNext(c, b, d, act).calls == b.calls[d := CallNext(c, b, d, act).calls[d]];
    CountsIn(b, d);
    CountsIn(CallNext(c, b, d, act), d);
  }

  lemma WorkerGates(c: Config, b: Bus, s: nat, act: WorkerAct)
    requires Gates(c, b) && s < |b.workers| && WorkerEnabled(c, b, s, act)
    ensures Gates(c, WorkerNext(c, b, s, act))
  {
    if act.SkipEnded? || act.NoHandler? || act.Answer? {
      var d := b.workers[s].d;
      SumUpdate(b.calls, InWg(), d, b.calls[d].(reply := true));
      SumUpdate(b.calls, InSends(), d, b.calls[d].(reply := true));
    }
  }

  lemma StopGates(c: Config, b: Bus, k: nat, act: StopAct)
    requires Gates(c, b) && k < |b.stops| && StopEnabled(b, k, act)
    ensures Gates(c, StopNext(b, k, act))
  {}

  // The invariant: queues

  function InHand(w: Worker): seq<nat> {
    if w.Got? || w.Running? then [w.d] else []
  }

  /** Of a shard: what was sent is what was answered, then what the worker holds, then the queue. */
  ghost predicate Line(c: Config, s: nat, calls: seq<Dispatch>, sent: seq<nat>, answered: seq<nat>, worker: Worker,
      queue: seq<nat>)
    requires |calls| == |c.aggregates|
  {
    && sent == answered + InHand(worker) + queue
    && Distinct(sent)
    && (forall d: nat :: d in sent <==> d < |calls| && c.ShardOf(d) == s && calls[d].queued)
    && (forall d: nat :: d in answered <==> d < |calls| && c.ShardOf(d) == s && calls[d].reply)
    && (worker.Exited? ==> queue == [])
  }

  ghost predicate InOrder(c: Config, b: Bus, s: nat)
    requires Shaped(c, b) && s < c.Shards()
  {
    Line(c, s, b.calls, b.sent[s], b.answered[s], b.workers[s], b.queues[s])
  }

  predicate CallOk(call: Dispatch) {
    match call.pc
    case Sent => call.queued
    case Waiting => call.queued
    case GivingUp(outcome) => !call.queued && outcome != Answered
    case Returning(outcome) => Fits(call, outcome)
    case Returned(outcome) => Fits(call, outcome)
    case _ => !call.queued
  }

  predicate Fits(call: Dispatch, outcome: Outcome) {
    match outcome
    case Closed => !call.queued
    case Cancelled => true
    case Answered => call.queued && call.reply
  }

  ghost predicate Lines(c: Config, b: Bus) {
    && Shaped(c, b)
    && (forall s :: 0 <= s < c.Shards() ==> InOrder(c, b, s))
    && forall d :: 0 <= d < |b.calls| ==> CallOk(b.calls[d])
  }

  lemma SameLine(c: Config, s: nat, calls: seq<Dispatch>, calls': seq<Dispatch>,
                 sent: seq<nat>, answered: seq<nat>, worker: Worker, queue: seq<nat>)
    requires |calls| == |calls'| == |c.aggregates| && Line(c, s, calls, sent, answered, worker, queue)
    requires forall d: nat :: d < |calls| && c.ShardOf(d) == s ==>
               calls'[d].queued == calls[d].queued && calls'[d].reply == calls[d].reply
    ensures Line(c, s, calls', sent, answered, worker, queue)
  {}

  /** Sending: the command ends its shard's history, and is held by the worker or ends the queue. */
  lemma SentLine(c: Config, s: nat, d: nat, calls: seq<Dispatch>, sent: seq<nat>, answered: seq<nat>,
                 worker: Worker, queue: seq<nat>, worker': Worker, queue': seq<nat>)
    requires |calls| == |c.aggregates| && Line(c, s, calls, sent, answered, worker, queue)
    requires d < |calls| && c.ShardOf(d) == s && !calls[d].queued && !worker.Exited?
    requires || (worker' == worker && queue' == queue + [d])
             || (worker == Ready && queue == queue' == [] && worker' == Got(d))
    ensures Line(c, s, calls[d := calls[d].(pc := Sent, queued := true)], sent + [d], answered, worker', queue')
  {
    assert d !in sent;
    assert sent + [d] == answered + InHand(worker') + queue';
    assert forall x :: x in sent + [d] <==> x in sent || x == d;
  }

  /** A worker that exited has no sender left. */
  lemma SendInOpenLine(c: Config, b: Bus, d: nat, act: CallAct)
    requires Gates(c, b) && d < |b.calls| && (act.Send? || act.HandOff?) && CallEnabled(c, b, d, act)
    ensures !b.drained && !b.workers[c.ShardOf(d)].Exited?
  {
    CountsIn(b, d);
  }

  lemma CallLine(c: Config, b: Bus, d: nat, act: CallAct, s: nat)
    requires Gates(c, b) && Lines(c, b) && d < |b.calls| && CallEnabled(c, b, d, act) && s < c.Shards()
    ensures InOrder(c, CallNext(c, b, d, act), s)
  {
    assert InOrder(c, b, s) && CallOk(b.calls[d]);
    var b' := CallNext(c, b, d, act);
    if (act.Send? || act.HandOff?) && s == c.ShardOf(d) {
      SendInOpenLine(c, b, d, act);
      SentLine(c, s, d, b.calls, b.sent[s], b.answered[s], b.workers[s], b.queues[s], b'.workers[s], b'.queues[s]);
    } else {
      SameLine(c, s, b.calls, b'.calls, b.sent[s], b.answered[s], b.workers[s], b.queues[s]);
    }
  }

  lemma CallLines(c: Config, b: Bus, d: nat, act: CallAct)
    requires Gates(c, b) && Lines(c, b) && d < |b.calls| && CallEnabled(c, b, d, act)
    ensures Lines(c, CallNext(c, b, d, act))
  {
    forall s | 0 <= s < c.Shards() ensures InOrder(c, CallNext(c, b, d, act), s) {
      CallLine(c, b, d, act, s);
    }
    CallStaysOk(c, b, d, act);
  }

  lemma CallStaysOk(c: Config, b: Bus, d: nat, act: CallAct)
    requires Shaped(c, b) && d < |b.calls| && CallOk(b.calls[d]) && CallEnabled(c, b, d, act)
    ensures CallOk(CallNext(c, b, d, act).calls[d])
  {}

  /** What a worker holds was sent to its shard and has no answer yet. */
  lemma HeldLine(c: Config, s: nat, calls: seq<Dispatch>, sent: seq<nat>, answered: seq<nat>, worker: Worker,
      queue: seq<nat>)
    requires |calls| == |c.aggregates| && Line(c, s, calls, sent, answered, worker, queue) &&
             (worker.Got? || worker.Running?)
    ensures worker.d < |calls| && c.ShardOf(worker.d) == s && calls[worker.d].queued && !calls[worker.d].reply
  {
    assert sent[|answered|] == worker.d;
    assert worker.d in sent;
    assert forall i :: 0 <= i < |answered| ==> sent[i] == answered[i];
  }

  lemma AnsweredLine(c: Config, s: nat, calls: seq<Dispatch>, sent: seq<nat>, answered: seq<nat>, worker: Worker,
      queue: seq<nat>)
    requires |calls| == |c.aggregates| && Line(c, s, calls, sent, answered, worker, queue) &&
             (worker.Got? || worker.Running?)
    ensures worker.d < |calls|
    ensures Line(c, s, calls[worker.d := calls[worker.d].(reply := true)], sent, answered + [worker.d], Ready, queue)
  {
    HeldLine(c, s, calls, sent, answered, worker, queue);
  }

  predicate Answers(act: WorkerAct) {
    act.SkipEnded? || act.NoHandler? || act.Answer?
  }

  lemma WorkerLine(c: Config, b: Bus, s: nat, act: WorkerAct, t: nat)
    requires Lines(c, b) && s < |b.workers| && WorkerEnabled(c, b, s, act) && t < c.Shards()
    ensures InOrder(c, WorkerNext(c, b, s, act), t)
  {
    assert InOrder(c, b, t) && InOrder(c, b, s);
    var b' := WorkerNext(c, b, s, act);
    if s != t {
      if Answers(act) {
        HeldLine(c, s, b.calls, b.sent[s], b.answered[s], b.workers[s], b.queues[s]);
      }
      SameLine(c, t, b.calls, b'.calls, b.sent[t], b.answered[t], b.workers[t], b.queues[t]);
    } else if Answers(act) {
      AnsweredLine(c, s, b.calls, b.sent[s], b.answered[s], b.workers[s], b.queues[s]);
    } else if act.Take? {
      assert b.queues[s] == [b.queues[s][0]] + b.queues[s][1..];
    }
  }

  lemma WorkerLines(c: Config, b: Bus, s: nat, act: WorkerAct)
    requires Lines(c, b) && s < |b.workers| && WorkerEnabled(c, b, s, act)
    ensures Lines(c, WorkerNext(c, b, s, act))
  {
    forall t | 0 <= t < c.Shards() ensures InOrder(c, WorkerNext(c, b, s, act), t) {
      WorkerLine(c, b, s, act, t);
    }
    if Answers(act) {
      assert CallOk(b.calls[b.workers[s].d]);
    }
  }

  lemma StopLines(c: Config, b: Bus, k: nat, act: StopAct)
    requires Lines(c, b) && k < |b.stops| && StopEnabled(b, k, act)
    ensures Lines(c, StopNext(b, k, act))
  {
    forall s | 0 <= s < c.Shards() ensures InOrder(c, StopNext(b, k, act), s) {
      assert InOrder(c, b, s);
    }
  }

  lemma StepKeeps(c: Config, b: Bus, act: Act)
    requires Gates(c, b) && Lines(c, b) && Enabled(c, b, act)
    ensures Gates(c, Next(c, b, act)) && Lines(c, Next(c, b, act))
  {
    match act
    case OfCall(d, call) => CallGates(c, b, d, call); CallLines(c, b, d, call);
    case OfWorker(s, worker) => WorkerGates(c, b, s, worker); WorkerLines(c, b, s, worker);
    case OfStop(k, stop) => StopGates(c, b, k, stop); StopLines(c, b, k, stop);
  }

  lemma InitialOk(c: Config, b: Bus)
    requires Initial(c, b)
    ensures Gates(c, b) && Lines(c, b)
  {
    SumZero(b.calls, InWg());
    SumZero(b.calls, InSends());
    forall s | 0 <= s < c.Shards() ensures InOrder(c, b, s) {
      assert b.queues[s] == [];
    }
  }

  lemma {:induction false} RunInv(c: Config, states: seq<Bus>, acts: seq<Act>, n: nat)
    requires Runs(c, states, acts) && n <= |acts|
    ensures Gates(c, states[n]) && Lines(c, states[n])
  {
    if n == 0 {
      InitialOk(c, states[0]);
    } else {
      RunInv(c, states, acts, n - 1);
      StepKeeps(c, states[n - 1], acts[n - 1]);
    }
  }
}
