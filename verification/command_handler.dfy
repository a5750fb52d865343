/** command_handler.go: the load-evolve-decide-save loop over a shared store. */
module CommandHandling {
  import opened Options
  import opened EventLog

  /** An event decide returns. */
  datatype Draft = Draft(name: string, data: int, encodable: bool)

  datatype Decision = Events(drafts: seq<Draft>) | Violation

  /** One call of a handler: its options, its functions, and its command inside decide. */
  datatype Call<!S> = Call(
    stream: string, expected: StreamState, initial: S, evolve: (S, Record) -> S, decide: S -> Decision, chain: string)
  {
    /** evolve over a stream, from the initial state. */
    function Fold(events: seq<Record>): S {
      if events == [] then initial
      else
        var n := |events| - 1;
        evolve(Fold(events[..n]), events[n])
    }

    /** Any and StreamExists converge on what was loaded. */
    predicate Converges() {
      expected.Any? || expected.StreamExists?
    }

    /** A pinned Revision only gates the save. */
    function FirstLoad(): StreamState {
      if expected.Revision? then Any else expected
    }

    function SaveState(lastVersion: nat): StreamState {
      if Converges() then Revision(lastVersion) else expected
    }

    function Wrap(drafts: seq<Draft>): (batch: seq<Envelope>)
      ensures |batch| == |drafts|
      ensures batch != [] ==> batch[0].stream == stream
    {
      seq(|drafts|, i requires 0 <= i < |drafts| =>
        Envelope(1, stream, drafts[i].name, drafts[i].data, chain, drafts[i].encodable))
    }

    /** Why saving drafts on a stream with count events fails. */
    function SaveError(drafts: seq<Draft>, lastVersion: nat, count: nat): Option<Error>
      requires drafts != []
    {
      var batch := Wrap(drafts);
      if BatchError(batch).Some? then BatchError(batch) else RevisionError(SaveState(lastVersion), count)
    }

    /** The log once drafts are saved. */
    function Appended(log: seq<Record>, drafts: seq<Draft>): seq<Record> {
      log + Stamp(Wrap(drafts), |StreamOf(log, stream)|, |log|)
    }

    /** The call made with nobody else around: does it succeed, and with which log? */
    function Alone(log: seq<Record>): (bool, seq<Record>) {
      var events := StreamOf(log, stream);
      var decision := decide(Fold(events));
      if Load(log, stream, FirstLoad()).Err? || decision.Violation? then (false, log)
      else if decision.drafts == [] then (true, log)
      else if SaveError(decision.drafts, |events|, |events|).Some? then (false, log)
      else (true, Appended(log, decision.drafts))
    }
  }

  lemma StreamGrows(log: seq<Record>, log': seq<Record>, id: string)
    requires log <= log'
    ensures StreamOf(log, id) <= StreamOf(log', id)
  {
    assert log' == log + log'[|log|..];
    StreamOfAppend(log, log'[|log|..], id);
  }

  // The retry loop, refined to one that starts over

  datatype Failure = LoadFailed(why: Error) | RuleViolated | Conflict(why: Error) | SaveFailed(why: Error)

  datatype Outcome = Done(result: AppendResult) | Failed(failure: Failure, next: nat)

  /** A save somebody else asks for. */
  datatype Write = Write(batch: seq<Envelope>, state: StreamState)

  /** What others write before the load and before the save of one attempt. */
  datatype Attempt = Attempt(first: seq<Write>, between: seq<Write>)

  /** The log after one write, which may be refused. */
  function Written(log: seq<Record>, w: Write): seq<Record> {
    if w.batch == [] || BatchError(w.batch).Some? then log
    else
      var count := |StreamOf(log, w.batch[0].stream)|;
      if RevisionError(w.state, count).Some? then log else log + Stamp(w.batch, count, |log|)
  }

  function Others(log: seq<Record>, writes: seq<Write>): seq<Record> {
    if writes == [] then log
    else Written(Others(log, writes[..|writes| - 1]), writes[|writes| - 1])
  }

  lemma {:induction false} OthersAppend(log: seq<Record>, writes: seq<Write>)
    ensures log <= Others(log, writes)
  {
    if writes != [] {
      OthersAppend(log, writes[..|writes| - 1]);
    }
  }

  /** The save of drafts decided on version events. */
  function PersistOnce<S>(call: Call<S>, log: seq<Record>, drafts: seq<Draft>, version: nat): (Outcome, seq<Record>)
    requires drafts != []
  {
    var count := |StreamOf(log, call.stream)|;
    var error := call.SaveError(drafts, version, count);
    if error.None? then
      var saved := call.Appended(log, drafts);
      (Done(AppendResult(call.stream, count + |drafts|, |saved|)), saved)
    else if error.value.RevisionConflict? then (Failed(Conflict(error.value), count), log)
    else (Failed(SaveFailed(error.value), 0), log)
  }

  /** One attempt that reads and folds the whole stream. */
  function TryOnce<S>(call: Call<S>, log: seq<Record>, attempt: Attempt): (Outcome, seq<Record>) {
    var loaded := Others(log, attempt.first);
    var events := StreamOf(loaded, call.stream);
    var version := |events|;
    var load := Load(loaded, call.stream, call.FirstLoad());
    var decision := call.decide(call.Fold(events));
    if load.Err? then (Failed(LoadFailed(load.error), 0), loaded)
    else if decision.Violation? then (Failed(RuleViolated, version), loaded)
    else if decision.drafts == [] then (Done(AppendResult(call.stream, version, 0)), loaded)
    else PersistOnce(call, Others(loaded, attempt.between), decision.drafts, version)
  }

  predicate Retried<S>(call: Call<S>, out: Outcome) {
    call.Converges() && out.Failed? && out.failure.Conflict?
  }

  /** The handler that starts over on every attempt. */
  function FromScratch<S>(call: Call<S>, log: seq<Record>, script: seq<Attempt>): (Outcome, seq<Record>)
    requires script != []
    decreases |script|
  {
    var (out, log') := TryOnce(call, log, script[0]);
    if Retried(call, out) && |script| > 1 then FromScratch(call, log', script[1..]) else (out, log')
  }

  /** Others' saves, one after another. */
  method Interfere(store: EventStore, writes: seq<Write>)
    requires store.Valid()
    modifies store
    ensures store.Valid() && store.global == Others(old(store.global), writes)
  {
    for i := 0 to |writes|
      invariant store.Valid() && store.global == Others(old(store.global), writes[..i])
    {
      assert writes[..i + 1][..i] == writes[..i];
      var _ := store.Save(writes[i].batch, writes[i].state);
    }
    assert writes[..|writes|] == writes;
  }

  /** What the closure keeps between attempts. */
  ghost predicate Kept<S>(log: seq<Record>, call: Call<S>, loadState: StreamState, state: S, lastVersion: nat) {
    var stream := StreamOf(log, call.stream);
    && lastVersion <= |stream|
    && loadState == (if lastVersion == 0 then call.FirstLoad() else Revision(lastVersion))
    && state == call.Fold(stream[..lastVersion])
    && (lastVersion > 0 ==> !call.FirstLoad().NoStream?)
  }

  lemma KeptGrows<S>(log: seq<Record>, writes: seq<Write>, call: Call<S>, loadState: StreamState, state: S,
      lastVersion: nat)
    requires Kept(log, call, loadState, state, lastVersion)
    ensures Kept(Others(log, writes), call, loadState, state, lastVersion)
  {
    OthersAppend(log, writes);
    StreamGrows(log, Others(log, writes), call.stream);
    assert StreamOf(log, call.stream)[..lastVersion] == StreamOf(Others(log, writes), call.stream)[..lastVersion];
  }

  ghost predicate CaughtUp<S>(log: seq<Record>, call: Call<S>, state: S, lastVersion: nat) {
    lastVersion == |StreamOf(log, call.stream)| && state == call.Fold(StreamOf(log, call.stream))
  }

  /** Loads the stream from loadState and folds what is new into state. */
  method LoadAndEvolve<S>(store: EventStore, call: Call<S>, loadState: StreamState, state: S, lastVersion: nat)
      returns (error: Option<Error>, loadState': StreamState, state': S, lastVersion': nat)
    requires store.Valid() && Kept(store.global, call, loadState, state, lastVersion)
    ensures var load := Load(store.global, call.stream, call.FirstLoad());
            error == if load.Err? then Some(load.error) else None
    ensures error.Some? ==> lastVersion' == 0
    ensures error.None? ==> Kept(store.global, call, loadState', state', lastVersion')
    ensures error.None? ==> CaughtUp(store.global, call, state', lastVersion')
  {
    error, loadState', state', lastVersion' := None, loadState, state, lastVersion;
    var loaded := store.LoadStreamFrom(call.stream, loadState);
    if loaded.Err? {
      return Some(loaded.error), loadState, state, lastVersion;
    }
    ghost var stream := StreamOf(store.global, call.stream);
    assert loaded.value == stream[lastVersion..];
    assert forall k :: 0 <= k < |stream| ==> stream[k].version == k + 1;
    loadState', state', lastVersion' := Evolve(call, stream, loaded.value, loadState, state, lastVersion);
  }

  /** Folds events, the rest of a stream from lastVersion on, into state. */
  method Evolve<S>(call: Call<S>, ghost stream: seq<Record>, events: seq<Record>,
                   loadState: StreamState, state: S, lastVersion: nat)
      returns (loadState': StreamState, state': S, lastVersion': nat)
    requires lastVersion <= |stream| && events == stream[lastVersion..]
    requires forall k :: 0 <= k < |stream| ==> stream[k].version == k + 1
    requires loadState == if lastVersion == 0 then call.FirstLoad() else Revision(lastVersion)
    requires state == call.Fold(stream[..lastVersion])
    ensures lastVersion' == |stream| && state' == call.Fold(stream) == call.Fold(stream[..|stream|])
    ensures loadState' == if lastVersion' == 0 then call.FirstLoad() else Revision(lastVersion')
  {
    loadState', state', lastVersion' := loadState, state, lastVersion;
    for i := 0 to |events|
      invariant lastVersion' == lastVersion + i
      invariant loadState' == if lastVersion' == 0 then call.FirstLoad() else Revision(lastVersion')
      invariant state' == call.Fold(stream[..lastVersion'])
    {
      var event := events[i];
      assert event == stream[lastVersion'];
      assert stream[..lastVersion' + 1][..lastVersion'] == stream[..lastVersion'];
      loadState' := Revision(event.version);
      lastVersion' := event.version;
      state' := call.evolve(state', event);
    }
    assert stream[..|stream|] == stream;
  }

  /** One attempt of the handler. */
  method Try<S>(store: EventStore, call: Call<S>, attempt: Attempt, loadState: StreamState, state: S, lastVersion: nat)
      returns (out: Outcome, loadState': StreamState, state': S, lastVersion': nat)
    requires store.Valid() && Kept(store.global, call, loadState, state, lastVersion)
    modifies store
    ensures store.Valid()
    ensures (out, store.global) == TryOnce(call, old(store.global), attempt)
    ensures Retried(call, out) ==> Kept(store.global, call, loadState', state', lastVersion')
  {
    Interfere(store, attempt.first);
    KeptGrows(old(store.global), attempt.first, call, loadState, state, lastVersion);
    var error;
    error, loadState', state', lastVersion' := LoadAndEvolve(store, call, loadState, state, lastVersion);
    if error.Some? {
      out := Failed(LoadFailed(error.value), lastVersion');
      return;
    }
    var decision := call.decide(state');
    if decision.Violation? {
      out := Failed(RuleViolated, lastVersion');
      return;
    }
    if decision.drafts == [] {
      out := Done(AppendResult(call.stream, lastVersion', 0));
      return;
    }
    KeptGrows(store.global, attempt.between, call, loadState', state', lastVersion');
    out := Persist(store, call, attempt.between, decision.drafts, lastVersion');
  }

  /** The save of an attempt, against the version loaded or the caller's. */
  method Persist<S>(store: EventStore, call: Call<S>, between: seq<Write>, drafts: seq<Draft>, lastVersion: nat)
      returns (out: Outcome)
    requires store.Valid() && drafts != []
    modifies store
    ensures store.Valid()
    ensures (out, store.global) == PersistOnce(call, Others(old(store.global), between), drafts, lastVersion)
  {
    Interfere(store, between);
    var saved := store.Save(call.Wrap(drafts), call.SaveState(lastVersion));
    if saved.Ok? {
      out := Done(saved.value);
    } else if saved.error.RevisionConflict? {
      out := Failed(Conflict(saved.error), saved.error.actual);
    } else {
      out := Failed(SaveFailed(saved.error), 0);
    }
  }

  /** The handler: the retry loop keeps its fold, and reads only what is new. Its outcome and the
      log it leaves are those of the handler that starts over on every attempt. */
  method Handle<S>(store: EventStore, call: Call<S>, script: seq<Attempt>) returns (out: Outcome)
    requires store.Valid() && script != []
    modifies store
    ensures store.Valid()
    ensures (out, store.global) == FromScratch(call, old(store.global), script)
  {
    var state := call.initial;
    var loadState := call.FirstLoad();
    var lastVersion := 0;
    assert StreamOf(store.global, call.stream)[..0] == [];
    out, loadState, state, lastVersion := Try(store, call, script[0], loadState, state, lastVersion);
    var attempt := 0;
    while Retried(call, out) && attempt + 1 < |script|
      invariant store.Valid() && attempt < |script|
      invariant Retried(call, out) ==> Kept(store.global, call, loadState, state, lastVersion)
      invariant FromScratch(call, old(store.global), script) ==
                if Retried(call, out) && attempt + 1 < |script|
                     then FromScratch(call, store.global, script[attempt + 1..])
                else (out, store.global)
    {
      attempt := attempt + 1;
      assert attempt + 1 < |script| ==> script[attempt..][1..] == script[attempt + 1..];
      out, loadState, state, lastVersion := Try(store, call, script[attempt], loadState, state, lastVersion);
    }
  }
}
