/** The projection protocol: several runners compete for the segments of one projection
    through a store with epoch-fenced claims.

    A step is one store call, one read of the log, or a choice the runner makes between two
    of them. Handlers may succeed or fail at every attempt, calls may fail at any point, claims
    expire by the clock, and a runner may crash at any point. A Commit is one unit of work:
    what the handler wrote, the checkpoint and the dead letters land together or not at all. */
module ProjectionProtocol {
  import opened Numbers
  import opened Options
  import opened ProjectionRows
  import opened SegmentLog

  datatype Policy = StallOnError | SkipWhenLive | SkipAlways

  /** One deployed instance: its Definition, as far as the protocol depends on it. */
  datatype Runner = Runner(version: nat, types: set<string>, hasReset: bool, policy: Policy, ttl: nat)

  /** Instances are numbered; the number is the instance's owner name. */
  datatype Config = Config(rt: Routing, runners: seq<Runner>)

  /** What NewRunner insists on. */
  predicate ValidConfig(cfg: Config) {
    cfg.rt.segments >= 1 &&
    forall r :: 0 <= r < |cfg.runners| ==>
      cfg.runners[r].types != {} && (cfg.runners[r].version > 0 ==> cfg.runners[r].hasReset)
  }

  /** Where the loop of one segment stands on one instance, with its local variables. */
  datatype Pc =
    | Competing                                                             // not processing: claims next
    | SteppingAside                                                         // claimed; a newer version owns it
    | Loading(cp: Checkpoint)                                               // claimed; parked streams not loaded
    | Resetting                                                             // about to call Store.Reset
    | Wiped                                                                 // Reset returned; memory not caught up
    | Reclaiming                                                            // about to claim again after the reset
    | Head(cp: Checkpoint)                                                  // between two batches
    | Replaying(cp: Checkpoint, stream: string, todo: seq<nat>)             // applying a parked stream's dead letters
    | Batch(cp: Checkpoint, events: seq<nat>, next: nat, live: bool)        // a page was read
    | OneByOne(cp: Checkpoint, events: seq<nat>, next: nat, live: bool, i: nat) // events[..i] are committed

  /** lease is what the last Claim granted. A rebuild elsewhere on the instance may retire the
      copy in memory at any moment, while a call that read it earlier still carries it: store
      calls below use the granted lease, may fail at any point, and a claim may carry the retired one. */
  datatype Worker = Worker(lease: Lease, parked: set<string>, pc: Pc)

  /** What happened to a segment; nothing here is visible to the runners.
      applied: positions whose handling was committed since the last reset, in commit order.
      ever: positions whose handling was ever committed, resets notwithstanding.
      committers: the event-type sets of the runners that committed since the last reset.
      grants: every claim granted under a new epoch.
      declared: the head of the log the segment was declared with.
      reached: the highest position a reset rewound the segment from. */
  datatype History = History(applied: seq<nat>, ever: set<nat>, committers: set<set<string>>, grants: map<nat, Owner>,
                             declared: nat, reached: nat)

  datatype Segment = Segment(row: Row, hist: History, workers: seq<Worker>)

  datatype Act =
    | Claim(retired: bool) | Release | Publish | Fail | Crash
    | LoadParked | AskRebuild | CatchUpMemory | Reclaim
    | StartReplay(stream: string) | ReplayOne | ReplayFails | ReplayDone
    | Read(next: nat) | CommitBatch | GoSlow | CommitEmpty | NothingNew
    | SkipParked | ApplyOne | SkipFailed | FinishSlow

  function ToSet(ps: seq<nat>): set<nat> { set p | p in ps }

  function NewCheckpoint(rn: Runner, cp: Checkpoint, position: nat): Checkpoint {
    Checkpoint(position, rn.version, cp.replayUntil, Some(rn.types))
  }

  predicate ShouldSkip(policy: Policy, live: bool, replaying: bool) {
    match policy
    case StallOnError => false
    case SkipWhenLive => live && !replaying
    case SkipAlways => true
  }

  /** What work does with the checkpoint a claim returned, once the parked streams are loaded. */
  function Resume(cfg: Config, rn: Runner, cp: Checkpoint): Pc {
    var upgraded := cp.version < rn.version;
    var typesChanged := cp.fingerprint.Some? && cp.fingerprint != Some(rn.types);
    if cp.position == 0 then Head(cp)
    else if upgraded || (typesChanged && rn.hasReset && cfg.rt.segments == 1) then Resetting
    else if typesChanged then Competing // stalls with ErrEventTypesChanged
    else Head(cp)
  }

  /** The dead letters of stream, by position. */
  function LettersOf(letters: seq<DeadLetter>, stream: string): (ps: seq<nat>)
    ensures forall p :: p in ps <==> exists d :: d in letters && d.stream == stream && d.position == p
  {
    if letters == [] then []
    else
      assert forall d :: d in letters <==> d == letters[0] || d in letters[1..];
      (if letters[0].stream == stream then [letters[0].position] else []) + LettersOf(letters[1..], stream)
  }

  predicate ValidAct(cfg: Config, log: Log, seg: Segment, r: nat) {
    r < |cfg.runners| && |seg.workers| == |cfg.runners|
  }

  /** The event an event-by-event commit is at. */
  function Current(pc: Pc): nat
    requires pc.OneByOne? && pc.i < |pc.events|
  {
    pc.events[pc.i]
  }

  predicate Enabled(cfg: Config, log: Log, now: nat, seg: Segment, r: nat, act: Act)
    requires ValidAct(cfg, log, seg, r)
  {
    var rn, w, row := cfg.runners[r], seg.workers[r], seg.row;
    var mine := Owned(row, w.lease);
    match act
    case Claim(retired) => w.pc.Competing? && CanClaim(row, if retired then Lease(r, 0) else w.lease, now)
    case Release => true
    case Publish => mine
    case Fail => true
    case Crash => true
    case LoadParked => w.pc.Loading?
    case AskRebuild => w.pc.Head? && rn.hasReset
    case CatchUpMemory => w.pc.Wiped?
    case Reclaim => w.pc.Reclaiming? && CanClaim(row, w.lease, now)
    case StartReplay(stream) => w.pc.Head?
    case ReplayOne => w.pc.Replaying? && w.pc.todo != [] && mine
    case ReplayFails => w.pc.Replaying? && w.pc.todo != []
    case ReplayDone => w.pc.Replaying? && w.pc.todo == []
    case Read(next) => w.pc.Head? && w.pc.cp.position <= next <= |log| && (next < |log| ==> next > w.pc.cp.position)
    case CommitBatch =>
      w.pc.Batch? && w.pc.events != [] && mine &&
      forall p :: p in w.pc.events && 1 <= p <= |log| ==> log[p - 1].stream !in w.parked
    case GoSlow => w.pc.Batch? && w.pc.events != []
    case CommitEmpty => w.pc.Batch? && w.pc.events == [] && w.pc.next > w.pc.cp.position && mine
    case NothingNew => w.pc.Batch? && w.pc.events == [] && w.pc.next <= w.pc.cp.position && mine
    case SkipParked => AtEvent(log, w) && mine && log[Current(w.pc) - 1].stream in w.parked
    case ApplyOne => AtEvent(log, w) && mine && log[Current(w.pc) - 1].stream !in w.parked
    case SkipFailed =>
      AtEvent(log, w) && mine && log[Current(w.pc) - 1].stream !in w.parked &&
      ShouldSkip(rn.policy, w.pc.live, Current(w.pc) <= w.pc.cp.replayUntil)
    case FinishSlow =>
      w.pc.OneByOne? && w.pc.i == |w.pc.events| > 0 && (w.pc.next > w.pc.events[|w.pc.events| - 1] ==> mine)
  }

  predicate AtEvent(log: Log, w: Worker) {
    w.pc.OneByOne? && w.pc.i < |w.pc.events| && 1 <= Current(w.pc) <= |log|
  }

  function Goto(seg: Segment, r: nat, pc: Pc): Segment
    requires r < |seg.workers|
  {
    seg.(workers := seg.workers[r := seg.workers[r].(pc := pc)])
  }

  /** A store Commit by runner r: cp, the dead letters and the handled events, in one unit of work. */
  function CommitTo(seg: Segment, rn: Runner, cp: Checkpoint, letters: seq<DeadLetter>, handled: seq<nat>,
      now: nat): Segment {
    seg.(row := CommitRow(seg.row, cp, letters, now),
         hist := seg.hist.(applied := seg.hist.applied + handled, ever := seg.hist.ever + ToSet(handled),
                           committers := seg.hist.committers + {rn.types}))
  }

  /** A granted claim; a takeover is recorded with its epoch. */
  function Granted(cfg: Config, seg: Segment, r: nat, l: Lease, now: nat): Segment
    requires r < |cfg.runners| && |seg.workers| == |cfg.runners|
  {
    var row := ClaimRow(seg.row, l, cfg.runners[r].ttl, now);
    seg.(row := row,
         hist := if Owned(seg.row, l) then seg.hist else seg.hist.(grants := seg.hist.grants[row.epoch := r]),
         workers := seg.workers[r := seg.workers[r].(lease := Lease(r, row.epoch))])
  }

  function Next(cfg: Config, log: Log, s: nat, now: nat, seg: Segment, r: nat, act: Act): Segment
    requires ValidAct(cfg, log, seg, r) && Enabled(cfg, log, now, seg, r, act)
  {
    var rn, w, row := cfg.runners[r], seg.workers[r], seg.row;
    match act
    case Claim(retired) =>
      var g := Granted(cfg, seg, r, if retired then Lease(r, 0) else w.lease, now);
      Goto(g, r, if row.cp.version > rn.version then SteppingAside else Loading(row.cp))
    case Release =>
      Goto(if Owned(row, w.lease) then seg.(row := ReleaseRow(row)) else seg, r, Competing)
    case Publish => seg.(row := RefreshRow(row, now))
    case Fail => Goto(seg, r, Competing)
    case Crash => seg.(workers := seg.workers[r := Worker(Lease(r, 0), {}, Competing)])
    case LoadParked =>
      var parked := if w.pc.cp.position == 0 then {} else Streams(row.letters);
      seg.(workers := seg.workers[r := w.(parked := parked, pc := Resume(cfg, rn, w.pc.cp))])
    case AskRebuild => Goto(seg, r, Resetting)
    case CatchUpMemory => seg.(workers := seg.workers[r := w.(parked := {}, pc := Reclaiming)])
    case Reclaim => Goto(Granted(cfg, seg, r, w.lease, now), r, Head(row.cp))
    case StartReplay(stream) => Goto(seg, r, Replaying(w.pc.cp, stream, LettersOf(row.letters, stream)))
    case ReplayOne =>
      var p := w.pc.todo[0];
      Goto(CommitTo(seg, rn, w.pc.cp, DeleteLetters(row.letters, p), [p], now), r, w.pc.(todo := w.pc.todo[1..]))
    case ReplayFails => Goto(seg, r, Head(w.pc.cp))
    case ReplayDone => seg.(workers := seg.workers[r := w.(parked := w.parked - {w.pc.stream}, pc := Head(w.pc.cp))])
    case Read(next) =>
      Goto(seg, r, Batch(w.pc.cp, MatchSeq(cfg.rt, log, s, rn.types, w.pc.cp.position, next), next, next == |log|))
    case CommitBatch =>
      var cp := NewCheckpoint(rn, w.pc.cp, w.pc.next);
      Goto(CommitTo(seg, rn, cp, row.letters, w.pc.events, now), r, Head(cp))
    case GoSlow => Goto(seg, r, OneByOne(w.pc.cp, w.pc.events, w.pc.next, w.pc.live, 0))
    case CommitEmpty =>
      var cp := NewCheckpoint(rn, w.pc.cp, w.pc.next);
      Goto(CommitTo(seg, rn, cp, row.letters, [], now), r, Head(cp))
    case NothingNew => Goto(seg.(row := RefreshRow(row, now)), r, Head(w.pc.cp))
    case SkipParked => Skip(cfg, log, now, seg, r, StreamParked)
    case ApplyOne =>
      var cp := NewCheckpoint(rn, w.pc.cp, Current(w.pc));
      Goto(CommitTo(seg, rn, cp, row.letters, [Current(w.pc)], now), r, w.pc.(i := w.pc.i + 1))
    case SkipFailed => Skip(cfg, log, now, seg, r, HandlerFailed)
    case FinishSlow =>
      var cp := NewCheckpoint(rn, w.pc.cp, w.pc.next);
      if w.pc.next > w.pc.events[|w.pc.events| - 1] then Goto(CommitTo(seg, rn, cp, row.letters, [], now), r, Head(cp))
      else Goto(seg, r, Head(cp))
  }

  /** Records the event as a dead letter, moves past it, and leaves its stream parked. */
  function Skip(cfg: Config, log: Log, now: nat, seg: Segment, r: nat, cause: Cause): Segment
    requires ValidAct(cfg, log, seg, r) && AtEvent(log, seg.workers[r])
  {
    var rn, w := cfg.runners[r], seg.workers[r];
    var p := Current(w.pc);
    var stream := log[p - 1].stream;
    var letters := InsertLetter(seg.row.letters, DeadLetter(p, stream, cause));
    var g := CommitTo(seg, rn, NewCheckpoint(rn, w.pc.cp, p), letters, [], now);
    g.(workers := g.workers[r := w.(parked := w.parked + {stream}, pc := w.pc.(i := w.pc.i + 1))])
  }

  /** What Store.Reset does to a segment; own marks the one it was called under, by runner r. */
  function Wipe(cfg: Config, seg: Segment, r: nat, own: bool, now: nat): Segment
    requires r < |cfg.runners| && |seg.workers| == |cfg.runners|
  {
    var g := seg.(row := WipeRow(seg.row, cfg.runners[r].version, own, now),
                  hist := seg.hist.(applied := [], committers := {},
                            reached := Max(seg.hist.reached, seg.row.cp.position)));
    if own then Goto(g, r, Wiped) else g
  }

  // The whole projection

  datatype Sys = Sys(log: Log, now: nat, segs: seq<Segment>)

  datatype Step = Local(s: nat, r: nat, act: Act) | Reset(s: nat, r: nat) | Append(events: Log) | Tick(d: nat)

  predicate ValidSys(cfg: Config, sys: Sys) {
    |sys.segs| == cfg.rt.segments && forall s :: 0 <= s < |sys.segs| ==> |sys.segs[s].workers| == |cfg.runners|
  }

  predicate Can(cfg: Config, sys: Sys, step: Step)
    requires ValidSys(cfg, sys)
  {
    match step
    case Local(s, r, act) => s < |sys.segs| && r < |cfg.runners| && Enabled(cfg, sys.log, sys.now, sys.segs[s], r, act)
    case Reset(s, r) =>
      s < |sys.segs| && r < |cfg.runners| && cfg.runners[r].hasReset &&
      sys.segs[s].workers[r].pc.Resetting? && Owned(sys.segs[s].row, sys.segs[s].workers[r].lease)
    case Append(events) => true
    case Tick(d) => true
  }

  function Do(cfg: Config, sys: Sys, step: Step): (sys': Sys)
    requires ValidSys(cfg, sys) && Can(cfg, sys, step)
    ensures ValidSys(cfg, sys')
  {
    match step
    case Local(s, r, act) => sys.(segs := sys.segs[s := Next(cfg, sys.log, s, sys.now, sys.segs[s], r, act)])
    case Reset(s, r) =>
      sys.(segs := seq(|sys.segs|, i requires 0 <= i < |sys.segs| => Wipe(cfg, sys.segs[i], r, i == s, sys.now)))
    case Append(events) => sys.(log := sys.log + events)
    case Tick(d) => sys.(now := sys.now + d)
  }

  /** Every segment was just declared, with the head of the log as its replay boundary. */
  predicate Initial(cfg: Config, sys: Sys) {
    ValidSys(cfg, sys) &&
    forall s :: 0 <= s < |sys.segs| ==> Fresh(sys.log, sys.segs[s])
  }

  predicate Fresh(log: Log, seg: Segment) {
    && seg.row.cp == Checkpoint(0, 0, seg.hist.declared, None) && seg.hist.declared <= |log|
    && seg.row.owner == None && seg.row.epoch == 0 && seg.row.letters == []
    && seg.hist == History([], {}, {}, map[], seg.hist.declared, 0)
    && forall r :: 0 <= r < |seg.workers| ==> seg.workers[r] == Worker(Lease(r, 0), {}, Competing)
  }

  /** A run: the states before, between and after its steps. */
  ghost predicate Run(cfg: Config, states: seq<Sys>, steps: seq<Step>) {
    && |states| == |steps| + 1
    && Initial(cfg, states[0])
    && forall i :: 0 <= i < |steps| ==> Took(cfg, states[i], steps[i], states[i + 1])
  }

  predicate Took(cfg: Config, sys: Sys, step: Step, sys': Sys) {
    ValidSys(cfg, sys) && Can(cfg, sys, step) && sys' == Do(cfg, sys, step)
  }
}
