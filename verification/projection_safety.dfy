/** Safety of the projection protocol over all runs. */
module ProjectionSafety {
  import opened Options
  import opened ProjectionRows
  import opened SegmentLog
  import opened ProjectionProtocol
  import opened ProjectionLedger

  // The invariant of one segment

  /** Epochs are granted once each; the current claim is the latest grant. */
  ghost predicate Fenced(seg: Segment) {
    && (forall e :: e in seg.hist.grants ==> 1 <= e <= seg.row.epoch)
    && (seg.row.owner.Some? ==>
         seg.row.epoch in seg.hist.grants && seg.hist.grants[seg.row.epoch] == seg.row.owner.value)
    && forall r :: 0 <= r < |seg.workers| ==> LeaseGranted(seg, r)
  }

  ghost predicate LeaseGranted(seg: Segment, r: nat)
    requires r < |seg.workers|
  {
    var l := seg.workers[r].lease;
    l.owner == r && (l.epoch > 0 ==> l.epoch in seg.hist.grants && seg.hist.grants[l.epoch] == r)
  }

  /** What a worker's locals say about the log, whoever holds the segment. */
  ghost predicate Sound(cfg: Config, log: Log, s: nat, r: nat, w: Worker)
    requires r < |cfg.runners|
  {
    match w.pc
    case Reclaiming => w.parked == {}
    case Batch(cp, events, next, live) =>
      cp.position <= next <= |log| && IsPage(cfg.rt, log, s, cfg.runners[r].types, cp.position, next, events)
    case OneByOne(cp, events, next, live, i) =>
      cp.position <= next <= |log| && IsPage(cfg.rt, log, s, cfg.runners[r].types, cp.position, next, events) &&
      i <= |events| && events != []
    case _ => true
  }

  /** What the holder of the segment believes: its checkpoint is the stored one, its parked
      streams are those with dead letters, and the stored event types are its own. */
  ghost predicate Agrees(g: Guarantee, rn: Runner, row: Row, w: Worker) {
    match w.pc
    case Competing => true
    case SteppingAside => true
    case Loading(cp) => cp == row.cp
    case Resetting => true
    case Wiped => row.cp.position == 0 && row.letters == []
    case Reclaiming => row.cp.position == 0 && row.letters == []
    case Head(cp) => AtWork(g, rn, row, w, cp)
    case Replaying(cp, stream, todo) =>
      && cp == row.cp && (g.exact ==> OwnTypes(rn, cp)) && Ascending(todo) && Remaining(row, stream, todo)
      && (g.inOrder ==> w.parked + {stream} == Streams(row.letters) + {stream} && Streams(row.letters) <= w.parked)
    case Batch(cp, events, next, live) => AtWork(g, rn, row, w, cp)
    case OneByOne(cp, events, next, live, i) =>
      && i <= |events|
      && row.cp == (if i == 0 then cp else NewCheckpoint(rn, cp, events[i - 1]))
      && (g.inOrder ==> w.parked == Streams(row.letters)) && (g.exact ==> OwnTypes(rn, cp))
  }

  ghost predicate AtWork(g: Guarantee, rn: Runner, row: Row, w: Worker, cp: Checkpoint) {
    cp == row.cp && (g.inOrder ==> w.parked == Streams(row.letters)) && (g.exact ==> OwnTypes(rn, cp))
  }

  ghost predicate OwnTypes(rn: Runner, cp: Checkpoint) {
    cp.position > 0 ==> cp.fingerprint == Some(rn.types)
  }

  ghost predicate Remaining(row: Row, stream: string, todo: seq<nat>) {
    forall p :: p in todo <==> exists d :: d in row.letters && d.stream == stream && d.position == p
  }

  ghost predicate WorkerInv(g: Guarantee, cfg: Config, log: Log, s: nat, seg: Segment, r: nat)
    requires r < |cfg.runners| == |seg.workers|
  {
    && Sound(cfg, log, s, r, seg.workers[r])
    && (Owned(seg.row, seg.workers[r].lease) ==> Agrees(g, cfg.runners[r], seg.row, seg.workers[r]))
  }

  /** A stored fingerprint is some runner's. */
  ghost predicate Deployed(cfg: Config, cp: Checkpoint) {
    cp.fingerprint.Some? ==> exists r :: 0 <= r < |cfg.runners| && cp.fingerprint == Some(cfg.runners[r].types)
  }

  ghost predicate SegInv(g: Guarantee, cfg: Config, log: Log, s: nat, seg: Segment) {
    && |seg.workers| == |cfg.runners|
    && Ledger(g, cfg.rt, log, s, seg.row, seg.hist)
    && Fenced(seg) && Deployed(cfg, seg.row.cp)
    && forall r :: 0 <= r < |seg.workers| ==> WorkerInv(g, cfg, log, s, seg, r)
  }

  /** A claim made again after a reset is still the same claim, or else finds nothing the
      runner would have had to load or check: no dead letters, and its own event types. */
  predicate Clean(g: Guarantee, cfg: Config, seg: Segment, r: nat, act: Act)
    requires r < |cfg.runners| == |seg.workers|
  {
    act.Reclaim? ==>
      Owned(seg.row, seg.workers[r].lease) ||
      ((g.inOrder ==> seg.row.letters == []) &&
       (g.exact && seg.row.cp.position > 0 ==> seg.row.cp.fingerprint == Some(cfg.runners[r].types)))
  }

  // Framing: what a step must establish

  /** A step that only moves worker r. */
  lemma MovesWorker(g: Guarantee, cfg: Config, log: Log, s: nat, seg: Segment, r: nat, w: Worker)
    requires SegInv(g, cfg, log, s, seg) && r < |cfg.runners|
    requires w.lease == seg.workers[r].lease || w.lease == Lease(r, 0)
    requires Sound(cfg, log, s, r, w)
    requires Owned(seg.row, w.lease) ==> Agrees(g, cfg.runners[r], seg.row, w)
    ensures SegInv(g, cfg, log, s, seg.(workers := seg.workers[r := w]))
  {
    var seg' := seg.(workers := seg.workers[r := w]);
    forall q | 0 <= q < |seg'.workers| ensures LeaseGranted(seg', q) && WorkerInv(g, cfg, log, s, seg', q) {
      assert LeaseGranted(seg, q) && WorkerInv(g, cfg, log, s, seg, q);
    }
  }

  /** A step the holder r takes: the row changes, the claim does not. */
  lemma HolderWrites(g: Guarantee, cfg: Config, log: Log, s: nat, seg: Segment, r: nat, row: Row, h: History, w: Worker)
    requires SegInv(g, cfg, log, s, seg) && r < |cfg.runners| && Owned(seg.row, seg.workers[r].lease)
    requires row.owner == seg.row.owner && row.epoch == seg.row.epoch && h.grants == seg.hist.grants
    requires w.lease == seg.workers[r].lease && Deployed(cfg, row.cp)
    requires Ledger(g, cfg.rt, log, s, row, h) && Sound(cfg, log, s, r, w) && Agrees(g, cfg.runners[r], row, w)
    ensures SegInv(g, cfg, log, s, Segment(row, h, seg.workers[r := w]))
  {
    var seg' := Segment(row, h, seg.workers[r := w]);
    assert LeaseGranted(seg, r);
    forall q | 0 <= q < |seg'.workers| ensures LeaseGranted(seg', q) && WorkerInv(g, cfg, log, s, seg', q) {
      assert LeaseGranted(seg, q) && WorkerInv(g, cfg, log, s, seg, q);
    }
  }

  /** A claim: everyone else's lease is stale from here on. */
  lemma ClaimWrites(g: Guarantee, cfg: Config, log: Log, s: nat, now: nat, seg: Segment, r: nat, l: Lease, w: Worker)
    requires SegInv(g, cfg, log, s, seg) && r < |cfg.runners|
    requires l == seg.workers[r].lease || l == Lease(r, 0)
    requires w.lease == Lease(r, ClaimRow(seg.row, l, cfg.runners[r].ttl, now).epoch)
    requires Sound(cfg, log, s, r, w) && Agrees(g, cfg.runners[r], ClaimRow(seg.row, l, cfg.runners[r].ttl, now), w)
    ensures SegInv(g, cfg, log, s, Granted(cfg, seg, r, l, now).(workers := seg.workers[r := w]))
  {
    var seg' := Granted(cfg, seg, r, l, now).(workers := seg.workers[r := w]);
    assert LeaseGranted(seg, r);
    forall q | 0 <= q < |seg'.workers| ensures LeaseGranted(seg', q) && WorkerInv(g, cfg, log, s, seg', q) {
      assert LeaseGranted(seg, q) && WorkerInv(g, cfg, log, s, seg, q);
    }
    assert Bounded(seg.row, seg.hist) && (g.exact ==> Accounted(cfg.rt, log, s, seg.row, seg.hist));
  }

  // One lemma per kind of step

  lemma ClaimKeeps(g: Guarantee, cfg: Config, log: Log, s: nat, now: nat, seg: Segment, r: nat, act: Act)
    requires SegInv(g, cfg, log, s, seg) && r < |cfg.runners| && (act.Claim? || act.Reclaim?)
    requires Enabled(cfg, log, now, seg, r, act) && Clean(g, cfg, seg, r, act)
    ensures SegInv(g, cfg, log, s, Next(cfg, log, s, now, seg, r, act))
  {
    assert WorkerInv(g, cfg, log, s, seg, r);
    var w := seg.workers[r];
    var l := if act == Claim(true) then Lease(r, 0) else w.lease;
    var row := ClaimRow(seg.row, l, cfg.runners[r].ttl, now);
    var seg' := Next(cfg, log, s, now, seg, r, act);
    var w' := w.(lease := Lease(r, row.epoch), pc := seg'.workers[r].pc);
    ClaimWrites(g, cfg, log, s, now, seg, r, l, w');
    assert seg'.workers == seg.workers[r := w'];
  }

  lemma ReleaseKeeps(g: Guarantee, cfg: Config, log: Log, s: nat, now: nat, seg: Segment, r: nat)
    requires SegInv(g, cfg, log, s, seg) && r < |cfg.runners|
    ensures SegInv(g, cfg, log, s, Next(cfg, log, s, now, seg, r, Release))
  {
    var w := seg.workers[r].(pc := Competing);
    if Owned(seg.row, w.lease) {
      var seg' := Next(cfg, log, s, now, seg, r, Release);
      assert Bounded(seg.row, seg.hist) && (g.exact ==> Accounted(cfg.rt, log, s, seg.row, seg.hist));
      forall q | 0 <= q < |seg'.workers| ensures LeaseGranted(seg', q) && WorkerInv(g, cfg, log, s, seg', q) {
        assert LeaseGranted(seg, q) && WorkerInv(g, cfg, log, s, seg, q);
      }
    } else {
      MovesWorker(g, cfg, log, s, seg, r, w);
    }
  }

  lemma RefreshKeeps(g: Guarantee, cfg: Config, log: Log, s: nat, now: nat, seg: Segment, r: nat, act: Act)
    requires SegInv(g, cfg, log, s, seg) && r < |cfg.runners| && (act.Publish? || act.NothingNew?)
    requires Enabled(cfg, log, now, seg, r, act)
    ensures SegInv(g, cfg, log, s, Next(cfg, log, s, now, seg, r, act))
  {
    assert WorkerInv(g, cfg, log, s, seg, r);
    var seg' := Next(cfg, log, s, now, seg, r, act);
    assert Bounded(seg.row, seg.hist) && (g.exact ==> Accounted(cfg.rt, log, s, seg.row, seg.hist));
    HolderWrites(g, cfg, log, s, seg, r, seg'.row, seg.hist, seg'.workers[r]);
    assert seg'.workers == seg.workers[r := seg'.workers[r]];
  }

  lemma LettersOfAscend(letters: seq<DeadLetter>, stream: string)
    requires Ordered(letters)
    ensures Ascending(LettersOf(letters, stream))
  {
    if letters != [] {
      LettersOfAscend(letters[1..], stream);
      var rest := LettersOf(letters[1..], stream);
      forall j | 0 <= j < |rest| ensures letters[0].position < rest[j] {
        assert rest[j] in rest;
      }
    }
  }

  /** Steps that touch nothing but the worker. */
  predicate Quiet(act: Act) {
    act.Fail? || act.Crash? || act.LoadParked? || act.AskRebuild? || act.CatchUpMemory? || act.StartReplay? ||
    act.ReplayFails? || act.ReplayDone? || act.Read? || act.GoSlow?
  }

  lemma QuietKeeps(g: Guarantee, cfg: Config, log: Log, s: nat, now: nat, seg: Segment, r: nat, act: Act)
    requires SegInv(g, cfg, log, s, seg) && r < |cfg.runners| && Quiet(act)
    requires Enabled(cfg, log, now, seg, r, act)
    ensures SegInv(g, cfg, log, s, Next(cfg, log, s, now, seg, r, act))
  {
    assert WorkerInv(g, cfg, log, s, seg, r) && LeaseGranted(seg, r);
    var rn, w := cfg.runners[r], seg.workers[r];
    var w' := Next(cfg, log, s, now, seg, r, act).workers[r];
    match act {
      case LoadParked => LoadParkedAgrees(g, cfg, log, s, seg, r);
      case StartReplay(stream) => LettersOfAscend(seg.row.letters, stream);
      case ReplayFails => assert w.pc.todo[0] in w.pc.todo;
      case ReplayDone => ReplayDoneAgrees(g, cfg, log, s, seg, r);
      case Read(next) => MatchSeqProps(cfg.rt, log, s, rn.types, w.pc.cp.position, next);
      case _ =>
    }
    MovesWorker(g, cfg, log, s, seg, r, w');
  }

  lemma LoadParkedAgrees(g: Guarantee, cfg: Config, log: Log, s: nat, seg: Segment, r: nat)
    requires SegInv(g, cfg, log, s, seg) && r < |cfg.runners| && seg.workers[r].pc.Loading?
    ensures Owned(seg.row, seg.workers[r].lease) ==>
              Agrees(g, cfg.runners[r], seg.row, Next(cfg, log, s, 0, seg, r, LoadParked).workers[r])
  {
    assert WorkerInv(g, cfg, log, s, seg, r);
    if seg.row.cp.position == 0 {
      NoLettersAtZero(g, cfg.rt, log, s, seg.row, seg.hist);
    }
    assert g.exact ==> Honest(seg.row, seg.hist);
  }

  lemma NoLettersAtZero(g: Guarantee, rt: Routing, log: Log, s: nat, row: Row, h: History)
    requires Ledger(g, rt, log, s, row, h) && row.cp.position == 0
    ensures row.letters == [] && Streams(row.letters) == {} && h.applied == []
  {
    SomeLetter(row.letters);
    SomeMember(h.applied);
    assert Positions(row.letters) == {} && ToSet(h.applied) == {};
  }

  lemma SomeLetter(letters: seq<DeadLetter>)
    ensures letters != [] ==> Positions(letters) != {}
  {
    if letters != [] {
      assert letters[0].position in Positions(letters);
    }
  }

  lemma SomeMember(ps: seq<nat>)
    ensures ps != [] ==> ToSet(ps) != {}
  {
    if ps != [] {
      assert ps[0] in ToSet(ps);
    }
  }

  /** With none of its dead letters left, a stream is no longer parked. */
  lemma ReplayDoneAgrees(g: Guarantee, cfg: Config, log: Log, s: nat, seg: Segment, r: nat)
    requires SegInv(g, cfg, log, s, seg) && r < |cfg.runners|
    requires seg.workers[r].pc.Replaying? && seg.workers[r].pc.todo == []
    ensures Owned(seg.row, seg.workers[r].lease) ==>
              Agrees(g, cfg.runners[r], seg.row, Next(cfg, log, s, 0, seg, r, ReplayDone).workers[r])
  {
    assert WorkerInv(g, cfg, log, s, seg, r);
    var w := seg.workers[r];
    if g.inOrder && Owned(seg.row, w.lease) {
      assert forall d :: d in seg.row.letters ==> d.stream != w.pc.stream by {
        assert forall d :: d in seg.row.letters && d.stream == w.pc.stream ==> d.position in w.pc.todo;
      }
      assert w.parked - {w.pc.stream} == Streams(seg.row.letters);
    }
  }

  // Commits

  lemma BatchKeeps(g: Guarantee, cfg: Config, log: Log, s: nat, now: nat, seg: Segment, r: nat, act: Act)
    requires SegInv(g, cfg, log, s, seg) && r < |cfg.runners| && (act.CommitBatch? || act.CommitEmpty?)
    requires Enabled(cfg, log, now, seg, r, act)
    ensures SegInv(g, cfg, log, s, Next(cfg, log, s, now, seg, r, act))
  {
    assert WorkerInv(g, cfg, log, s, seg, r);
    var rn, w := cfg.runners[r], seg.workers[r];
    var cp := NewCheckpoint(rn, w.pc.cp, w.pc.next);
    if w.pc.events != [] {
      assert w.pc.events[0] in w.pc.events;
    }
    CommitEvents(g, cfg.rt, log, s, seg.row, seg.hist, cp, rn.types, w.pc.events);
    FinishCommit(g, cfg, log, s, now, seg, r, cp, seg.row.letters, w.pc.events, w.(pc := Head(cp)));
  }

  /** The ledger holds for the new contents, so the commit keeps the invariant. */
  lemma FinishCommit(g: Guarantee, cfg: Config, log: Log, s: nat, now: nat, seg: Segment, r: nat, cp: Checkpoint,
      letters: seq<DeadLetter>,
                     handled: seq<nat>, w: Worker)
    requires SegInv(g, cfg, log, s, seg) && r < |cfg.runners| && Owned(seg.row, seg.workers[r].lease)
    requires w.lease == seg.workers[r].lease && Sound(cfg, log, s, r, w)
    requires Ledger(g, cfg.rt, log, s, seg.row.(cp := cp, letters := letters),
               Committed(seg.hist, cfg.runners[r].types, handled))
    requires Agrees(g, cfg.runners[r], CommitRow(seg.row, cp, letters, now), w)
    requires cp == seg.row.cp || cp.fingerprint == Some(cfg.runners[r].types)
    ensures SegInv(g, cfg, log, s,
                   CommitTo(seg, cfg.runners[r], cp, letters, handled, now).(workers := seg.workers[r := w]))
  {
    var row := CommitRow(seg.row, cp, letters, now);
    var h := Committed(seg.hist, cfg.runners[r].types, handled);
    assert g.exact ==> Accounted(cfg.rt, log, s, seg.row.(cp := cp, letters := letters), h);
    HolderWrites(g, cfg, log, s, seg, r, row, h, w);
  }

  lemma ReplayKeeps(g: Guarantee, cfg: Config, log: Log, s: nat, now: nat, seg: Segment, r: nat)
    requires SegInv(g, cfg, log, s, seg) && r < |cfg.runners| && Enabled(cfg, log, now, seg, r, ReplayOne)
    ensures SegInv(g, cfg, log, s, Next(cfg, log, s, now, seg, r, ReplayOne))
  {
    assert WorkerInv(g, cfg, log, s, seg, r);
    var rn, w, row := cfg.runners[r], seg.workers[r], seg.row;
    var p := w.pc.todo[0];
    assert p in w.pc.todo;
    var d :| d in row.letters && d.stream == w.pc.stream && d.position == p;
    forall e | e in row.letters && e.stream == d.stream ensures p <= e.position {
      assert e.position in w.pc.todo;
    }
    assert d.position in Positions(row.letters);
    assert row.(cp := row.cp) == row;
    CommitReplay(g, cfg.rt, log, s, row, seg.hist, rn.types, d);
    ReplayAgrees(g, rn, row, now, w);
    FinishCommit(g, cfg, log, s, now, seg, r, w.pc.cp, DeleteLetters(row.letters, p), [p],
      w.(pc := w.pc.(todo := w.pc.todo[1..])));
  }

  /** Deleting a replayed letter leaves the others; its stream counts as parked until all are gone. */
  lemma ReplayAgrees(g: Guarantee, rn: Runner, row: Row, now: nat, w: Worker)
    requires w.pc.Replaying? && w.pc.todo != [] && Agrees(g, rn, row, w) && Ordered(row.letters)
    ensures Agrees(g, rn, CommitRow(row, w.pc.cp, DeleteLetters(row.letters, w.pc.todo[0]), now),
              w.(pc := w.pc.(todo := w.pc.todo[1..])))
  {
    var todo, stream, p := w.pc.todo, w.pc.stream, w.pc.todo[0];
    var letters := DeleteLetters(row.letters, p);
    assert p in todo;
    var d :| d in row.letters && d.stream == stream && d.position == p;
    assert forall q :: q in todo[1..] <==> q in todo && q != p;
    forall e | e in row.letters && e.position == p ensures e == d {
      LetterAt(row.letters, e, d);
    }
    assert forall e :: e in row.letters && e.stream != stream ==> e in letters;
    assert Streams(letters) + {stream} == Streams(row.letters) + {stream};
    forall q | q in todo[1..] ensures exists e :: e in letters && e.stream == stream && e.position == q {
      var e :| e in row.letters && e.stream == stream && e.position == q;
      assert e in letters;
    }
  }

  lemma LetterAt(letters: seq<DeadLetter>, d: DeadLetter, e: DeadLetter)
    requires Ordered(letters) && d in letters && e in letters && d.position == e.position
    ensures d == e
  {
    var i :| 0 <= i < |letters| && letters[i] == d;
    var j :| 0 <= j < |letters| && letters[j] == e;
    assert !(i < j) && !(j < i);
  }

  // Event by event

  /** Between the stored position and the event at hand, the segment handles nothing else. */
  lemma AtEventPage(g: Guarantee, cfg: Config, log: Log, s: nat, seg: Segment, r: nat)
    requires SegInv(g, cfg, log, s, seg) && r < |cfg.runners| && AtEvent(log, seg.workers[r]) &&
             Owned(seg.row, seg.workers[r].lease)
    ensures var rn, w := cfg.runners[r], seg.workers[r];
            var cp := NewCheckpoint(rn, w.pc.cp, Current(w.pc));
            CarriesOn(g, log, seg.row, cp, rn.types) &&
            IsPage(cfg.rt, log, s, rn.types, seg.row.cp.position, cp.position, [Current(w.pc)])
  {
    assert WorkerInv(g, cfg, log, s, seg, r);
    var w := seg.workers[r];
    var events, i := w.pc.events, w.pc.i;
    var p := Current(w.pc);
    assert p in events;
    if i > 0 { assert events[i - 1] in events; }
    forall q: nat | seg.row.cp.position < q <= p && Matches(cfg.rt, log, s, cfg.runners[r].types, q) ensures q == p {
      assert q in events;
    }
  }

  lemma ApplyOneKeeps(g: Guarantee, cfg: Config, log: Log, s: nat, now: nat, seg: Segment, r: nat)
    requires SegInv(g, cfg, log, s, seg) && r < |cfg.runners| && Enabled(cfg, log, now, seg, r, ApplyOne)
    ensures SegInv(g, cfg, log, s, Next(cfg, log, s, now, seg, r, ApplyOne))
  {
    assert WorkerInv(g, cfg, log, s, seg, r);
    AtEventPage(g, cfg, log, s, seg, r);
    var rn, w := cfg.runners[r], seg.workers[r];
    var p := Current(w.pc);
    var cp := NewCheckpoint(rn, w.pc.cp, p);
    CommitEvents(g, cfg.rt, log, s, seg.row, seg.hist, cp, rn.types, [p]);
    FinishCommit(g, cfg, log, s, now, seg, r, cp, seg.row.letters, [p], w.(pc := w.pc.(i := w.pc.i + 1)));
  }

  lemma SkipKeeps(g: Guarantee, cfg: Config, log: Log, s: nat, now: nat, seg: Segment, r: nat, cause: Cause)
    requires SegInv(g, cfg, log, s, seg) && r < |cfg.runners| && AtEvent(log, seg.workers[r]) &&
             Owned(seg.row, seg.workers[r].lease)
    ensures SegInv(g, cfg, log, s, Skip(cfg, log, now, seg, r, cause))
  {
    assert WorkerInv(g, cfg, log, s, seg, r);
    AtEventPage(g, cfg, log, s, seg, r);
    var rn, w := cfg.runners[r], seg.workers[r];
    var p := Current(w.pc);
    var d := DeadLetter(p, log[p - 1].stream, cause);
    var cp := NewCheckpoint(rn, w.pc.cp, p);
    CommitLetter(g, cfg.rt, log, s, seg.row, seg.hist, cp, rn.types, d);
    InsertLetterSets(seg.row.letters, d);
    FinishCommit(g, cfg, log, s, now, seg, r, cp, InsertLetter(seg.row.letters, d), [],
                 w.(parked := w.parked + {d.stream}, pc := w.pc.(i := w.pc.i + 1)));
  }

  lemma FinishSlowKeeps(g: Guarantee, cfg: Config, log: Log, s: nat, now: nat, seg: Segment, r: nat)
    requires SegInv(g, cfg, log, s, seg) && r < |cfg.runners| && Enabled(cfg, log, now, seg, r, FinishSlow)
    ensures SegInv(g, cfg, log, s, Next(cfg, log, s, now, seg, r, FinishSlow))
  {
    assert WorkerInv(g, cfg, log, s, seg, r);
    var rn, w := cfg.runners[r], seg.workers[r];
    var cp := NewCheckpoint(rn, w.pc.cp, w.pc.next);
    var last := w.pc.events[|w.pc.events| - 1];
    assert last in w.pc.events;
    if w.pc.next > last {
      forall q | q in w.pc.events ensures q <= last {
        var k :| 0 <= k < |w.pc.events| && w.pc.events[k] == q;
      }
      assert IsPage(cfg.rt, log, s, rn.types, last, cp.position, []);
      CommitEvents(g, cfg.rt, log, s, seg.row, seg.hist, cp, rn.types, []);
      FinishCommit(g, cfg, log, s, now, seg, r, cp, seg.row.letters, [], w.(pc := Head(cp)));
    } else {
      MovesWorker(g, cfg, log, s, seg, r, w.(pc := Head(cp)));
    }
  }

  /** Every step a worker takes on its segment keeps the segment's invariant. */
  lemma LocalKeeps(g: Guarantee, cfg: Config, log: Log, s: nat, now: nat, seg: Segment, r: nat, act: Act)
    requires SegInv(g, cfg, log, s, seg) && r < |cfg.runners|
    requires Enabled(cfg, log, now, seg, r, act) && Clean(g, cfg, seg, r, act)
    ensures SegInv(g, cfg, log, s, Next(cfg, log, s, now, seg, r, act))
  {
    match act {
      case Claim(_) => ClaimKeeps(g, cfg, log, s, now, seg, r, act);
      case Reclaim => ClaimKeeps(g, cfg, log, s, now, seg, r, act);
      case Release => ReleaseKeeps(g, cfg, log, s, now, seg, r);
      case Publish => RefreshKeeps(g, cfg, log, s, now, seg, r, act);
      case NothingNew => RefreshKeeps(g, cfg, log, s, now, seg, r, act);
      case CommitBatch => BatchKeeps(g, cfg, log, s, now, seg, r, act);
      case CommitEmpty => BatchKeeps(g, cfg, log, s, now, seg, r, act);
      case ReplayOne => ReplayKeeps(g, cfg, log, s, now, seg, r);
      case SkipParked => SkipKeeps(g, cfg, log, s, now, seg, r, StreamParked);
      case SkipFailed => SkipKeeps(g, cfg, log, s, now, seg, r, HandlerFailed);
      case ApplyOne => ApplyOneKeeps(g, cfg, log, s, now, seg, r);
      case FinishSlow => FinishSlowKeeps(g, cfg, log, s, now, seg, r);
      case _ => QuietKeeps(g, cfg, log, s, now, seg, r, act);
    }
  }

  lemma WipeKeeps(g: Guarantee, cfg: Config, log: Log, s: nat, seg: Segment, r: nat, own: bool, now: nat)
    requires SegInv(g, cfg, log, s, seg) && r < |cfg.runners|
    requires own ==> Owned(seg.row, seg.workers[r].lease)
    ensures SegInv(g, cfg, log, s, Wipe(cfg, seg, r, own, now))
  {
    var seg' := Wipe(cfg, seg, r, own, now);
    WipeLedger(g, cfg.rt, log, s, seg.row, seg.hist, cfg.runners[r].version, own, now);
    assert LeaseGranted(seg, r);
    forall q | 0 <= q < |seg'.workers| ensures LeaseGranted(seg', q) && WorkerInv(g, cfg, log, s, seg', q) {
      assert LeaseGranted(seg, q) && WorkerInv(g, cfg, log, s, seg, q);
    }
  }

  lemma AppendKeeps(g: Guarantee, cfg: Config, log: Log, more: Log, s: nat, seg: Segment)
    requires SegInv(g, cfg, log, s, seg)
    ensures SegInv(g, cfg, log + more, s, seg)
  {
    AppendLedger(g, cfg.rt, log, more, s, seg.row, seg.hist);
    forall r | 0 <= r < |seg.workers| ensures WorkerInv(g, cfg, log + more, s, seg, r) {
      assert WorkerInv(g, cfg, log, s, seg, r);
      assert forall p: nat, t :: p <= |log| ==>
            (Matches(cfg.rt, log + more, s, t, p) <==> Matches(cfg.rt, log, s, t, p));
    }
  }

  // Runs

  ghost predicate Inv(g: Guarantee, cfg: Config, sys: Sys) {
    ValidSys(cfg, sys) && forall s :: 0 <= s < |sys.segs| ==> SegInv(g, cfg, sys.log, s, sys.segs[s])
  }

  predicate CleanStep(g: Guarantee, cfg: Config, sys: Sys, step: Step)
    requires ValidSys(cfg, sys)
  {
    step.Local? && step.s < |sys.segs| && step.r < |cfg.runners| ==> Clean(g, cfg, sys.segs[step.s], step.r, step.act)
  }

  lemma InitialInv(g: Guarantee, cfg: Config, sys: Sys)
    requires Initial(cfg, sys)
    ensures Inv(g, cfg, sys)
  {
    forall s | 0 <= s < |sys.segs| ensures SegInv(g, cfg, sys.log, s, sys.segs[s]) {
      var seg := sys.segs[s];
      assert Fresh(sys.log, seg);
      forall r | 0 <= r < |seg.workers| ensures LeaseGranted(seg, r) && WorkerInv(g, cfg, sys.log, s, seg, r) {
        assert seg.workers[r] == Worker(Lease(r, 0), {}, Competing);
      }
    }
  }

  lemma StepKeeps(g: Guarantee, cfg: Config, sys: Sys, step: Step)
    requires Inv(g, cfg, sys) && Can(cfg, sys, step) && CleanStep(g, cfg, sys, step)
    ensures Inv(g, cfg, Do(cfg, sys, step))
  {
    var sys' := Do(cfg, sys, step);
    forall s | 0 <= s < |sys'.segs| ensures SegInv(g, cfg, sys'.log, s, sys'.segs[s]) {
      assert SegInv(g, cfg, sys.log, s, sys.segs[s]);
      match step {
        case Local(t, r, act) =>
          if s == t { LocalKeeps(g, cfg, sys.log, s, sys.now, sys.segs[s], r, act); }
        case Reset(t, r) => WipeKeeps(g, cfg, sys.log, s, sys.segs[s], r, s == t, sys.now);
        case Append(events) => AppendKeeps(g, cfg, sys.log, events, s, sys.segs[s]);
        case Tick(_) =>
      }
    }
  }

  ghost predicate CleanRun(g: Guarantee, cfg: Config, states: seq<Sys>, steps: seq<Step>) {
    forall i :: 0 <= i < |steps| && i < |states| && ValidSys(cfg, states[i]) ==> CleanStep(g, cfg, states[i], steps[i])
  }

  /** The main invariant: it holds in every state of every run in which each reclaim is clean. */
  lemma {:induction false} RunInv(g: Guarantee, cfg: Config, states: seq<Sys>, steps: seq<Step>, n: nat)
    requires Run(cfg, states, steps) && n < |states|
    requires forall i :: 0 <= i < n ==>
               Took(cfg, states[i], steps[i], states[i + 1]) && CleanStep(g, cfg, states[i], steps[i])
    ensures Inv(g, cfg, states[n])
    decreases n
  {
    if n == 0 {
      InitialInv(g, cfg, states[0]);
    } else {
      RunInv(g, cfg, states, steps, n - 1);
      assert Took(cfg, states[n - 1], steps[n - 1], states[n]);
      StepKeeps(g, cfg, states[n - 1], steps[n - 1]);
    }
  }
}
