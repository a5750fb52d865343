/** Many calls of command handlers, and other writers, interleaved on one store. */
module Serializability {
  import opened Options
  import opened EventLog
  import opened CommandHandling

  datatype Pc = Loading | Saving | Stopped(ok: bool)

  /** A call under way: what its closure keeps, and the drafts it is about to save. */
  datatype Worker<S> = Worker(pc: Pc, loadState: StreamState, state: S, lastVersion: nat, drafts: seq<Draft>)

  /** What took effect, in order: a call that succeeded, or another writer's save. */
  datatype Commit = Served(w: nat) | Wrote(write: Write)

  datatype Sys<S> = Sys(log: seq<Record>, workers: seq<Worker<S>>, done: seq<Commit>)

  /** One store call: a load or a save of a handler, or a write of somebody else. The backoff
      decides whether a conflict is tried again. */
  datatype Act = DoLoad(w: nat) | DoSave(w: nat, again: bool) | Foreign(write: Write)

  function FoldOn<S>(call: Call<S>, state: S, events: seq<Record>): S {
    if events == [] then state
    else call.evolve(FoldOn(call, state, events[..|events| - 1]), events[|events| - 1])
  }

  predicate Enabled<S>(s: Sys<S>, act: Act) {
    match act
    case DoLoad(w) => w < |s.workers| && s.workers[w].pc == Loading
    case DoSave(w, _) => w < |s.workers| && s.workers[w].pc == Saving
    case Foreign(_) => true
  }

  function AfterLoad<S>(call: Call<S>, log: seq<Record>, worker: Worker<S>): Worker<S> {
    match Load(log, call.stream, worker.loadState)
    case Err(_) => worker.(pc := Stopped(false))
    case Ok(events) =>
      var lastVersion := if events == [] then worker.lastVersion else events[|events| - 1].version;
      var loadState := if events == [] then worker.loadState else Revision(lastVersion);
      var state := FoldOn(call, worker.state, events);
      match call.decide(state)
      case Violation => Worker(Stopped(false), loadState, state, lastVersion, [])
      case Events(drafts) =>
        Worker(if drafts == [] then Stopped(true) else Saving, loadState, state, lastVersion, drafts)
  }

  function Next<S>(calls: seq<Call<S>>, s: Sys<S>, act: Act): Sys<S>
    requires |calls| == |s.workers| && Enabled(s, act)
  {
    match act
    case DoLoad(w) =>
      var worker := AfterLoad(calls[w], s.log, s.workers[w]);
      Sys(s.log, s.workers[w := worker], if worker.pc == Stopped(true) then s.done + [Served(w)] else s.done)
    case DoSave(w, again) =>
      var worker := s.workers[w];
      if worker.drafts == [] then s
      else
        var error := calls[w].SaveError(worker.drafts, worker.lastVersion, |StreamOf(s.log, calls[w].stream)|);
        if error.None? then
          Sys(calls[w].Appended(s.log, worker.drafts), s.workers[w := worker.(pc := Stopped(true))],
            s.done + [Served(w)])
        else if again && error.value.RevisionConflict? && calls[w].Converges() then
          s.(workers := s.workers[w := worker.(pc := Loading)])
        else s.(workers := s.workers[w := worker.(pc := Stopped(false))])
    case Foreign(write) => Sys(Written(s.log, write), s.workers, s.done + [Wrote(write)])
  }

  ghost predicate Initial<S>(calls: seq<Call<S>>, s: Sys<S>) {
    && Numbered(s.log) && s.done == [] && |s.workers| == |calls|
    && forall w :: 0 <= w < |calls| ==> s.workers[w] == Worker(Loading, calls[w].FirstLoad(), calls[w].initial, 0, [])
  }

  ghost predicate Run<S>(calls: seq<Call<S>>, states: seq<Sys<S>>, acts: seq<Act>) {
    && |states| == |acts| + 1 && Initial(calls, states[0])
    && (forall i :: 0 <= i < |states| ==> |states[i].workers| == |calls|)
    && forall i :: 0 <= i < |acts| ==> Enabled(states[i], acts[i]) && states[i + 1] == Next(calls, states[i], acts[i])
  }

  /** A pinned Revision(n) was decided on n events. */
  predicate PinIsCurrent<S>(calls: seq<Call<S>>, s: Sys<S>, act: Act)
    requires |calls| == |s.workers|
  {
    act.DoSave? && act.w < |calls| && calls[act.w].expected.Revision? ==>
      s.workers[act.w].lastVersion == calls[act.w].expected.n
  }

  /** The log after the commits made one at a time, each call with nobody else around; None when
      one of these calls would not have succeeded. */
  function Replay<S>(calls: seq<Call<S>>, log: seq<Record>, done: seq<Commit>): Option<seq<Record>> {
    if done == [] then Some(log)
    else
      var n := |done| - 1;
      match Replay(calls, log, done[..n])
      case None => None
      case Some(mid) =>
        match done[n]
        case Wrote(write) => Some(Written(mid, write))
        case Served(w) => if w < |calls| && calls[w].Alone(mid).0 then Some(calls[w].Alone(mid).1) else None
  }

  // The invariant

  ghost predicate WorkerOk<S>(log: seq<Record>, call: Call<S>, worker: Worker<S>) {
    !worker.pc.Stopped? ==>
      && Kept(log, call, worker.loadState, worker.state, worker.lastVersion)
      && (worker.pc == Saving ==>
            worker.drafts != [] && call.decide(worker.state) == Events(worker.drafts) &&
            (call.expected.StreamExists? ==> worker.lastVersion > 0))
  }

  function Times(done: seq<Commit>, w: nat): nat {
    if done == [] then 0
    else Times(done[..|done| - 1], w) + if done[|done| - 1] == Served(w) then 1 else 0
  }

  ghost predicate Inv<S>(calls: seq<Call<S>>, s: Sys<S>) {
    && Numbered(s.log) && |s.workers| == |calls|
    && (forall w :: 0 <= w < |calls| ==> WorkerOk(s.log, calls[w], s.workers[w]))
    && (forall w :: 0 <= w < |calls| ==> Times(s.done, w) == if s.workers[w].pc == Stopped(true) then 1 else 0)
  }

  ghost predicate Serial<S>(calls: seq<Call<S>>, log: seq<Record>, s: Sys<S>) {
    Replay(calls, log, s.done) == Some(s.log)
  }

  lemma {:induction false} FoldOnFrom<S>(call: Call<S>, stream: seq<Record>, k: nat)
    requires k <= |stream|
    ensures FoldOn(call, call.Fold(stream[..k]), stream[k..]) == call.Fold(stream)
    decreases |stream| - k
  {
    var n := |stream| - 1;
    if k == |stream| {
      assert stream[..k] == stream;
    } else {
      FoldOnShort(call, stream, k, |stream|);
      assert stream[k..|stream|] == stream[k..] && stream[..|stream|] == stream;
    }
  }

  lemma {:induction false} FoldOnShort<S>(call: Call<S>, stream: seq<Record>, k: nat, m: nat)
    requires k <= m <= |stream|
    ensures FoldOn(call, call.Fold(stream[..k]), stream[k..m]) == call.Fold(stream[..m])
    decreases m
  {
    if k < m {
      FoldOnShort(call, stream, k, m - 1);
      assert stream[k..m][..m - k - 1] == stream[k..m - 1] && stream[..m][..m - 1] == stream[..m - 1];
    }
  }

  /** What a load leaves in the closure, whatever was kept from before: the fold of the whole stream. */
  lemma LoadCatchesUp<S>(call: Call<S>, log: seq<Record>, worker: Worker<S>)
    requires Numbered(log) && worker.pc == Loading && WorkerOk(log, call, worker)
    ensures Load(log, call.stream, worker.loadState).Ok? <==> Load(log, call.stream, call.FirstLoad()).Ok?
    ensures Load(log, call.stream, worker.loadState).Ok? ==>
              var worker' := AfterLoad(call, log, worker);
              && worker'.state == call.Fold(StreamOf(log, call.stream))
              && Kept(log, call, worker'.loadState, worker'.state, worker'.lastVersion)
              && worker'.lastVersion == |StreamOf(log, call.stream)|
  {
    var stream := StreamOf(log, call.stream);
    var load := Load(log, call.stream, worker.loadState);
    if load.Ok? {
      assert load.value == stream[worker.lastVersion..];
      FoldOnFrom(call, stream, worker.lastVersion);
      assert load.value != [] ==> load.value[|load.value| - 1] == stream[|stream| - 1];
      assert stream[..|stream|] == stream;
    }
  }

  lemma LoadIsFull<S>(call: Call<S>, log: seq<Record>, worker: Worker<S>)
    requires Numbered(log) && worker.pc == Loading && WorkerOk(log, call, worker)
    ensures var worker' := AfterLoad(call, log, worker);
            && WorkerOk(log, call, worker')
            && (worker'.pc == Stopped(true) ==> call.Alone(log) == (true, log))
            && (worker'.pc == Saving ==> worker'.lastVersion == |StreamOf(log, call.stream)|)
  {
    LoadCatchesUp(call, log, worker);
  }

  /** An accepted save of a call that saw the whole stream is the call made alone. */
  lemma SaveIsAlone<S>(call: Call<S>, log: seq<Record>, worker: Worker<S>)
    requires worker.pc == Saving && WorkerOk(log, call, worker)
    requires call.expected.Revision? ==> worker.lastVersion == call.expected.n
    requires call.SaveError(worker.drafts, worker.lastVersion, |StreamOf(log, call.stream)|).None?
    ensures call.Alone(log) == (true, call.Appended(log, worker.drafts))
  {
    var stream := StreamOf(log, call.stream);
    assert worker.lastVersion == |stream|;
    assert stream[..|stream|] == stream;
  }

  lemma WorkersKept<S>(calls: seq<Call<S>>, log: seq<Record>, more: seq<Record>, w: nat, worker: Worker<S>)
    requires w < |calls| && WorkerOk(log, calls[w], worker)
    ensures WorkerOk(log + more, calls[w], worker)
  {
    StreamOfAppend(log, more, calls[w].stream);
    if !worker.pc.Stopped? {
      assert StreamOf(log + more, calls[w].stream)[..worker.lastVersion] ==
               StreamOf(log, calls[w].stream)[..worker.lastVersion];
    }
  }

  lemma ReplayOne<S>(calls: seq<Call<S>>, log: seq<Record>, done: seq<Commit>, commit: Commit)
    ensures Replay(calls, log, done + [commit]) ==
              match Replay(calls, log, done)
              case None => None
              case Some(mid) =>
                match commit
                case Wrote(write) => Some(Written(mid, write))
                case Served(w) => if w < |calls| && calls[w].Alone(mid).0 then Some(calls[w].Alone(mid).1) else None
    ensures forall w :: Times(done + [commit], w) == Times(done, w) + if commit == Served(w) then 1 else 0
  {
    assert (done + [commit])[..|done|] == done;
  }

  lemma LoadKeeps<S>(calls: seq<Call<S>>, log: seq<Record>, s: Sys<S>, w: nat)
    requires Inv(calls, s) && Enabled(s, DoLoad(w))
    ensures Inv(calls, Next(calls, s, DoLoad(w)))
    ensures Serial(calls, log, s) ==> Serial(calls, log, Next(calls, s, DoLoad(w)))
  {
    LoadIsFull(calls[w], s.log, s.workers[w]);
    ReplayOne(calls, log, s.done, Served(w));
  }

  lemma WrittenNumbered(log: seq<Record>, write: Write)
    requires Numbered(log)
    ensures Numbered(Written(log, write)) && log <= Written(log, write)
  {
    if write.batch != [] && BatchError(write.batch).None? {
      AppendNumbered(log, write.batch);
    }
  }

  lemma ForeignKeeps<S>(calls: seq<Call<S>>, log: seq<Record>, s: Sys<S>, write: Write)
    requires Inv(calls, s)
    ensures Inv(calls, Next(calls, s, Foreign(write)))
    ensures Serial(calls, log, s) ==> Serial(calls, log, Next(calls, s, Foreign(write)))
  {
    WrittenNumbered(s.log, write);
    ReplayOne(calls, log, s.done, Wrote(write));
    var log' := Written(s.log, write);
    assert log' == s.log + log'[|s.log|..];
    forall w | 0 <= w < |calls| ensures WorkerOk(log', calls[w], s.workers[w]) {
      WorkersKept(calls, s.log, log'[|s.log|..], w, s.workers[w]);
    }
  }

  lemma SaveKeeps<S>(calls: seq<Call<S>>, log: seq<Record>, s: Sys<S>, w: nat, again: bool)
    requires Inv(calls, s) && Enabled(s, DoSave(w, again))
    ensures Inv(calls, Next(calls, s, DoSave(w, again)))
    ensures Serial(calls, log, s) && PinIsCurrent(calls, s, DoSave(w, again)) ==>
              Serial(calls, log, Next(calls, s, DoSave(w, again)))
  {
    var worker := s.workers[w];
    var call := calls[w];
    var s' := Next(calls, s, DoSave(w, again));
    if call.SaveError(worker.drafts, worker.lastVersion, |StreamOf(s.log, call.stream)|).None? {
      if PinIsCurrent(calls, s, DoSave(w, again)) {
        SaveIsAlone(call, s.log, worker);
      }
      ReplayOne(calls, log, s.done, Served(w));
      AppendNumbered(s.log, call.Wrap(worker.drafts));
      var more := Stamp(call.Wrap(worker.drafts), |StreamOf(s.log, call.stream)|, |s.log|);
      forall x | 0 <= x < |calls| ensures WorkerOk(s'.log, calls[x], s'.workers[x]) {
        WorkersKept(calls, s.log, more, x, s.workers[x]);
      }
    }
  }

  lemma StepKeeps<S>(calls: seq<Call<S>>, log: seq<Record>, s: Sys<S>, act: Act)
    requires Inv(calls, s) && Enabled(s, act)
    ensures Inv(calls, Next(calls, s, act))
    ensures Serial(calls, log, s) && PinIsCurrent(calls, s, act) ==> Serial(calls, log, Next(calls, s, act))
  {
    match act
    case DoLoad(w) => LoadKeeps(calls, log, s, w);
    case DoSave(w, again) => SaveKeeps(calls, log, s, w, again);
    case Foreign(write) => ForeignKeeps(calls, log, s, write);
  }

  lemma {:induction false} RunInv<S>(calls: seq<Call<S>>, states: seq<Sys<S>>, acts: seq<Act>, n: nat)
    requires Run(calls, states, acts) && n <= |acts|
    ensures Inv(calls, states[n])
  {
    if n == 0 {
      forall w | 0 <= w < |calls| ensures WorkerOk(states[0].log, calls[w], states[0].workers[w]) {
        assert StreamOf(states[0].log, calls[w].stream)[..0] == [];
      }
    } else {
      RunInv(calls, states, acts, n - 1);
      StepKeeps(calls, [], states[n - 1], acts[n - 1]);
    }
  }

  // Every run

  /** Every run is serial: the log is the one the calls that succeeded and the other writes leave
      when made one at a time, in the order they took effect; each call that succeeded is there
      once, the others are not. For a call that pins a Revision(n) this takes that it loaded n events. */
  lemma {:induction false} RunsAreSerial<S>(calls: seq<Call<S>>, states: seq<Sys<S>>, acts: seq<Act>, n: nat)
    requires Run(calls, states, acts) && n <= |acts|
    requires forall i :: 0 <= i < n ==> PinIsCurrent(calls, states[i], acts[i])
    ensures Replay(calls, states[0].log, states[n].done) == Some(states[n].log)
    ensures forall w :: 0 <= w < |calls| ==>
              Times(states[n].done, w) == if states[n].workers[w].pc == Stopped(true) then 1 else 0
  {
    RunInv(calls, states, acts, n);
    if n > 0 {
      RunsAreSerial(calls, states, acts, n - 1);
      RunInv(calls, states, acts, n - 1);
      StepKeeps(calls, states[0].log, states[n - 1], acts[n - 1]);
    }
  }

  /** In every run the fold a call carries across its retries is a full fold of what it has read,
      and a save that is not pinned appends what decide says of the whole stream at that moment. */
  lemma SavesDecideOnTheWholeStream<S>(calls: seq<Call<S>>, states: seq<Sys<S>>, acts: seq<Act>, n: nat, w: nat)
    requires Run(calls, states, acts) && n < |acts| && w < |calls|
    ensures var worker := states[n].workers[w];
            !worker.pc.Stopped? ==>
              && worker.lastVersion <= |StreamOf(states[n].log, calls[w].stream)|
              && worker.state == calls[w].Fold(StreamOf(states[n].log, calls[w].stream)[..worker.lastVersion])
    ensures acts[n].DoSave? && acts[n].w == w && states[n + 1].log != states[n].log && !calls[w].expected.Revision? ==>
              var stream := StreamOf(states[n].log, calls[w].stream);
              var decision := calls[w].decide(calls[w].Fold(stream));
              && decision.Events? && decision.drafts != []
              && states[n + 1].log == states[n].log + Stamp(calls[w].Wrap(decision.drafts), |stream|, |states[n].log|)
  {
    RunInv(calls, states, acts, n);
    assert WorkerOk(states[n].log, calls[w], states[n].workers[w]);
    if acts[n].DoSave? && acts[n].w == w && states[n + 1].log != states[n].log && !calls[w].expected.Revision? {
      SaveIsAlone(calls[w], states[n].log, states[n].workers[w]);
    }
  }

  /** A save that is not pinned and goes through saw the whole stream. */
  lemma PersistIsAlone<S>(call: Call<S>, seen: seq<Record>, log: seq<Record>)
    requires seen <= log && !call.expected.Revision? && Load(seen, call.stream, call.FirstLoad()).Ok?
    requires call.decide(call.Fold(StreamOf(seen, call.stream))).Events?
    requires call.decide(call.Fold(StreamOf(seen, call.stream))).drafts != []
    ensures var version := |StreamOf(seen, call.stream)|;
            var drafts := call.decide(call.Fold(StreamOf(seen, call.stream))).drafts;
            var (out, log') := PersistOnce(call, log, drafts, version);
            out.Done? ==> call.Alone(log) == (true, log')
  {
    StreamGrows(seen, log, call.stream);
    var before, stream := StreamOf(seen, call.stream), StreamOf(log, call.stream);
    if |before| == |stream| { assert before == stream; }
  }

  lemma TryIsAlone<S>(call: Call<S>, log: seq<Record>, attempt: Attempt) returns (mid: seq<Record>)
    requires !call.expected.Revision? && TryOnce(call, log, attempt).0.Done?
    ensures log <= mid && call.Alone(mid) == (true, TryOnce(call, log, attempt).1)
  {
    var loaded := Others(log, attempt.first);
    OthersAppend(log, attempt.first);
    mid := loaded;
    if call.decide(call.Fold(StreamOf(loaded, call.stream))).drafts != [] {
      mid := Others(loaded, attempt.between);
      OthersAppend(loaded, attempt.between);
      PersistIsAlone(call, loaded, mid);
    }
  }

  lemma TryGrows<S>(call: Call<S>, log: seq<Record>, attempt: Attempt)
    ensures log <= TryOnce(call, log, attempt).1
  {
    OthersAppend(log, attempt.first);
    OthersAppend(Others(log, attempt.first), attempt.between);
  }

  /** The handler that runs to its end against whatever others write takes effect at one point of
      the log: there, alone, it would have succeeded and left the same log. */
  lemma {:induction false} HandleIsSerial<S>(call: Call<S>, log: seq<Record>, script: seq<Attempt>)
    requires script != [] && FromScratch(call, log, script).0.Done? && !call.expected.Revision?
    ensures exists mid :: log <= mid && call.Alone(mid) == (true, FromScratch(call, log, script).1)
    decreases |script|
  {
    TryGrows(call, log, script[0]);
    var (out, log') := TryOnce(call, log, script[0]);
    if Retried(call, out) && |script| > 1 {
      HandleIsSerial(call, log', script[1..]);
      var mid :| log' <= mid && call.Alone(mid) == (true, FromScratch(call, log', script[1..]).1);
      assert log <= mid;
    } else {
      var mid := TryIsAlone(call, log, script[0]);
    }
  }

  // A pinned revision

  /** A call pinned to Revision(n) that decided drafts after reading k events of a stream that now
      has n, so that its save goes through. */
  ghost predicate PinnedSave(call: Call<nat>, log: seq<Record>, n: nat, k: nat, drafts: seq<Draft>) {
    var stream := StreamOf(log, call.stream);
    && call.expected == Revision(n) && |stream| == n && k <= n && drafts != []
    && call.decide(call.Fold(stream[..k])) == Events(drafts)
    && call.SaveError(drafts, k, n).None?
  }

  function Count(): (nat, Record) -> nat { (s, r) => s + 1 }

  function Report(): nat -> Decision { s => Events([Draft("counted", s, true)]) }

  /** Counts its stream's events and saves the count, if the stream is at n. */
  function CountCall(stream: string, n: nat): Call<nat> {
    Call(stream, Revision(n), 0, Count(), Report(), "")
  }

  lemma {:induction false} CountsAll(stream: string, n: nat, events: seq<Record>)
    ensures CountCall(stream, n).Fold(events) == |events|
  {
    if events != [] {
      CountsAll(stream, n, events[..|events| - 1]);
    }
  }

  /** A pinned Revision(n) is checked at the save only. Of a stream at n, every call that read k of
      its events saves what it would have saved alone if and only if k is n. */
  lemma PinnedSaveIsSerialIff(log: seq<Record>, id: string, n: nat, k: nat)
    requires |StreamOf(log, id)| == n && k <= n
    ensures (forall call: Call<nat>, drafts :: call.stream == id && PinnedSave(call, log, n, k, drafts) ==>
               call.Alone(log) == (true, call.Appended(log, drafts))) <==> k == n
  {
    var stream := StreamOf(log, id);
    assert stream[..n] == stream;
    if k < n {
      var call := CountCall(id, n);
      var drafts := [Draft("counted", k, true)];
      CountsAll(id, n, stream[..k]);
      CountsAll(id, n, stream);
      assert PinnedSave(call, log, n, k, drafts);
      var mine, alone := Stamp(call.Wrap(drafts), n, |log|), Stamp(call.Wrap([Draft("counted", n, true)]), n, |log|);
      assert mine[0].data == k && alone[0].data == n;
      assert call.Appended(log, drafts)[|log|] == mine[0];
      assert call.decide(call.Fold(stream)).drafts == [Draft("counted", n, true)];
      assert call.Alone(log).1[|log|] == alone[0];
    }
  }

  /** Somebody else's first event of the stream. */
  function Elses(): Write {
    Write([Envelope(1, "s", "other", 7, "", true)], Any)
  }

  lemma ElsesWritten()
    ensures Written([], Elses()) == [EventLog.Record("s", "other", 7, "", 1, 1)]
    ensures StreamOf(Written([], Elses()), "s") == Written([], Elses())
  {
    var log := Written([], Elses());
    assert StreamOf([], "s") == [] && log == Stamp(Elses().batch, 0, 0);
    assert log[..0] == [];
    assert StreamOf(log, "s") == StreamOf(log[..0], "s") + [log[0]];
  }

  /** A run that gets there: a call pinned to Revision(1) loads the stream while it is empty, somebody
      else writes its first event, and the save goes through. Made one at a time, in the order they took
      effect, the two leave another log. */
  lemma PinnedRunIsNotSerial() returns (calls: seq<Call<nat>>, states: seq<Sys<nat>>, acts: seq<Act>)
    ensures calls == [CountCall("s", 1)] && acts == [DoLoad(0), Foreign(Elses()), DoSave(0, false)]
    ensures Run(calls, states, acts) && states[3].workers[0].pc == Stopped(true)
    ensures PinnedSave(calls[0], states[2].log, 1, 0, states[2].workers[0].drafts)
    ensures Replay(calls, states[0].log, states[3].done) != Some(states[3].log)
  {
    var call := CountCall("s", 1);
    calls, acts := [call], [DoLoad(0), Foreign(Elses()), DoSave(0, false)];
    var drafts := [Draft("counted", 0, true)];
    assert StreamOf([], "s") == [];
    ElsesWritten();
    var log := Written([], Elses());
    var s0 := Sys([], [Worker(Loading, Any, 0, 0, [])], []);
    var s1 := Sys([], [Worker(Saving, Any, 0, 0, drafts)], []);
    assert Next(calls, s0, acts[0]) == s1;
    var s2 := Sys(log, s1.workers, [Wrote(Elses())]);
    assert Next(calls, s1, acts[1]) == s2;
    assert call.SaveError(drafts, 0, 1).None?;
    var s3 := Sys(call.Appended(log, drafts), [Worker(Stopped(true), Any, 0, 0, drafts)], [Wrote(Elses()), Served(0)]);
    assert Next(calls, s2, acts[2]) == s3;
    states := [s0, s1, s2, s3];
    assert log[..0] == [];
    PinnedReplay(log, drafts);
  }

  /** Alone, the call would have counted the event. */
  lemma PinnedReplay(log: seq<Record>, drafts: seq<Draft>)
    requires log == Written([], Elses()) && drafts == [Draft("counted", 0, true)]
    ensures Replay([CountCall("s", 1)], [], [Wrote(Elses()), Served(0)]) !=
            Some(CountCall("s", 1).Appended(log, drafts))
  {
    var call := CountCall("s", 1);
    ElsesWritten();
    CountsAll("s", 1, log);
    ReplayOne([call], [], [], Wrote(Elses()));
    ReplayOne([call], [], [Wrote(Elses())], Served(0));
    assert [] + [Wrote(Elses())] == [Wrote(Elses())];
    assert [Wrote(Elses())] + [Served(0)] == [Wrote(Elses()), Served(0)];
    var mine, alone := Stamp(call.Wrap(drafts), 1, 1), Stamp(call.Wrap([Draft("counted", 1, true)]), 1, 1);
    assert mine[0].data == 0 && alone[0].data == 1;
    assert call.Appended(log, drafts)[1] == mine[0];
    assert call.Alone(log).0 ==> call.Alone(log).1[1] == alone[0];
  }
}
