/** Two concrete runs in which a rebuild claims its segment again after another instance has had it,
    so that the checks a claim starts with are skipped and the guarantees that rest on them fail. */
module ProjectionCounterexamples {
  import opened Options
  import opened ProjectionRows
  import opened SegmentLog
  import opened ProjectionProtocol
  import opened ProjectionLedger

  const ONE: Routing := Routing(1, (e: Event) => 0)

  function At(log: Log, now: nat, row: Row, h: History, a: Worker, b: Worker): Sys {
    Sys(log, now, [Segment(row, h, [a, b])])
  }

  const A := Runner(0, {"t"}, true, SkipAlways, 1)
  const LOG: Log := [Event("x", "t", 0), Event("x", "t", 1)]
  const FIRST: Log := [Event("x", "t", 0)]

  /** A claims and resets; its claim expires before it claims again. */
  function Prelude(): seq<Step> {
    [Local(0, 0, Claim(false)), Local(0, 0, LoadParked), Local(0, 0, AskRebuild), Reset(0, 0),
     Local(0, 0, CatchUpMemory), Tick(2)]
  }

  function Start(log: Log): Sys {
    At(log, 0, Row(Checkpoint(0, 0, 0, None), None, 0, 0, 0, []), History([], {}, {}, map[], 0, 0),
       Worker(Lease(0, 0), {}, Competing), Worker(Lease(1, 0), {}, Competing))
  }

  function AfterPrelude(log: Log): Sys {
    At(log, 2, Row(Checkpoint(0, 0, 0, None), Some(0), 1, 0, 1, []), History([], {}, {}, map[1 := 0], 0, 0),
       Worker(Lease(0, 1), {}, Reclaiming), Worker(Lease(1, 0), {}, Competing))
  }

  /** states is the run that steps describe from sys. */
  ghost predicate Executes(cfg: Config, sys: Sys, steps: seq<Step>, states: seq<Sys>) {
    && |states| == |steps| + 1 && states[0] == sys
    && forall i :: 0 <= i < |steps| ==> Took(cfg, states[i], steps[i], states[i + 1])
  }

  /** The two halves of a script. */
  lemma Joined(cfg: Config, sys: Sys, steps: seq<Step>, n: nat, states: seq<Sys>, mid: Sys, more: seq<Sys>, end: Sys)
      returns (all: seq<Sys>)
    requires n <= |steps| && Executes(cfg, sys, steps[..n], states) && states[n] == mid
    requires Executes(cfg, mid, steps[n..], more) && more[|steps| - n] == end
    ensures Executes(cfg, sys, steps, all) && all[|steps|] == end
  {
    ExecutesThen(cfg, sys, steps[..n], states, steps[n..], more);
    assert steps[..n] + steps[n..] == steps;
    all := states + more[1..];
  }

  lemma ExecutesThen(cfg: Config, sys: Sys, first: seq<Step>, states: seq<Sys>, second: seq<Step>, more: seq<Sys>)
    requires Executes(cfg, sys, first, states) && Executes(cfg, states[|states| - 1], second, more)
    ensures Executes(cfg, sys, first + second, states + more[1..])
  {
    var steps, all := first + second, states + more[1..];
    forall i | 0 <= i < |steps| ensures Took(cfg, all[i], steps[i], all[i + 1]) {
      if i < |first| {
        assert Took(cfg, states[i], first[i], states[i + 1]);
      } else {
        assert Took(cfg, more[i - |first|], second[i - |first|], more[i - |first| + 1]);
      }
    }
  }

  function MidPrelude(log: Log): Sys {
    At(log, 0, Row(Checkpoint(0, 0, 0, None), Some(0), 1, 0, 1, []), History([], {}, {}, map[1 := 0], 0, 0),
       Worker(Lease(0, 1), {}, Resetting), Worker(Lease(1, 0), {}, Competing))
  }

  lemma PreludeClaims(cfg: Config, log: Log) returns (states: seq<Sys>)
    requires cfg.rt == ONE && |cfg.runners| == 2 && cfg.runners[0] == A
    ensures Executes(cfg, Start(log), Prelude()[..3], states) && states[|states| - 1] == MidPrelude(log)
  {
    var s0 := Start(log);
    var s1 := Do(cfg, s0, Local(0, 0, Claim(false)));
    var s2 := Do(cfg, s1, Local(0, 0, LoadParked));
    var s3 := Do(cfg, s2, Local(0, 0, AskRebuild));
    states := [s0, s1, s2, s3];
    assert s3.segs[0].workers == MidPrelude(log).segs[0].workers;
    assert s3.segs == [s3.segs[0]];
  }

  lemma PreludeResets(cfg: Config, log: Log) returns (states: seq<Sys>)
    requires cfg.rt == ONE && |cfg.runners| == 2 && cfg.runners[0] == A
    ensures Executes(cfg, MidPrelude(log), Prelude()[3..], states) && states[|states| - 1] == AfterPrelude(log)
  {
    var s3 := MidPrelude(log);
    var s4 := Do(cfg, s3, Reset(0, 0));
    var s5 := Do(cfg, s4, Local(0, 0, CatchUpMemory));
    var s6 := Do(cfg, s5, Tick(2));
    states := [s3, s4, s5, s6];
    assert s6.segs[0].workers == AfterPrelude(log).segs[0].workers;
    assert s6.segs == [s6.segs[0]];
  }

  lemma PreludeRuns(cfg: Config, log: Log) returns (states: seq<Sys>)
    requires cfg.rt == ONE && |cfg.runners| == 2 && cfg.runners[0] == A
    ensures Executes(cfg, Start(log), Prelude(), states) && states[|states| - 1] == AfterPrelude(log)
  {
    var a := PreludeClaims(cfg, log);
    var b := PreludeResets(cfg, log);
    ExecutesThen(cfg, Start(log), Prelude()[..3], a, Prelude()[3..], b);
    states := a + b[1..];
  }

  // Parked streams

  const SKIPPERS := Config(ONE, [A, A])

  /** B claims the segment, reads position 1, and goes event by event as its handler fails. */
  function ReadByB(): seq<Step> {
    [Local(0, 1, Claim(false)), Local(0, 1, LoadParked), Local(0, 1, Read(1)), Local(0, 1, GoSlow)]
  }

  function AfterRead(): Sys {
    At(LOG, 2, Row(Checkpoint(0, 0, 0, None), Some(1), 2, 2, 1, []), History([], {}, {}, map[1 := 0, 2 := 1], 0, 0),
       Worker(Lease(0, 1), {}, Reclaiming),
       Worker(Lease(1, 2), {}, OneByOne(Checkpoint(0, 0, 0, None), [1], 1, false, 0)))
  }

  lemma ReadRuns() returns (states: seq<Sys>)
    ensures Executes(SKIPPERS, AfterPrelude(LOG), ReadByB(), states) && states[|states| - 1] == AfterRead()
  {
    ShortPages();
    var cfg := SKIPPERS;
    var s0 := AfterPrelude(LOG);
    var s1 := Do(cfg, s0, Local(0, 1, Claim(false)));
    var s2 := Do(cfg, s1, Local(0, 1, LoadParked));
    var s3 := Do(cfg, s2, Local(0, 1, Read(1)));
    assert s3.segs[0].workers[1].pc == Batch(Checkpoint(0, 0, 0, None), [1], 1, false);
    var s4 := Do(cfg, s3, Local(0, 1, GoSlow));
    states := [s0, s1, s2, s3, s4];
    assert s4.segs[0].workers == AfterRead().segs[0].workers;
    assert s4.segs[0].hist == AfterRead().segs[0].hist;
    assert s4.segs == [s4.segs[0]];
    assert s4 == AfterRead();
  }

  /** B dead-letters the event and releases the segment. */
  function SkipByB(): seq<Step> {
    [Local(0, 1, SkipFailed), Local(0, 1, FinishSlow), Local(0, 1, Release)]
  }

  function AfterSkip(): Sys {
    At(LOG, 2, Row(Checkpoint(1, 0, 0, Some({"t"})), None, 2, 2, 1, [DeadLetter(1, "x", HandlerFailed)]),
       History([], {}, {{"t"}}, map[1 := 0, 2 := 1], 0, 0),
       Worker(Lease(0, 1), {}, Reclaiming), Worker(Lease(1, 2), {"x"}, Competing))
  }

  lemma ShortPages()
    ensures MatchSeq(ONE, LOG, 0, {"t"}, 0, 1) == [1] && MatchSeq(ONE, LOG, 0, {"t"}, 1, 2) == [2]
    ensures MatchSeq(ONE, LOG, 0, {"t"}, 0, 2) == [1, 2]
  {
    assert MatchSeq(ONE, LOG, 0, {"t"}, 0, 0) == [] == MatchSeq(ONE, LOG, 0, {"t"}, 1, 1);
    assert Matches(ONE, LOG, 0, {"t"}, 1) && Matches(ONE, LOG, 0, {"t"}, 2);
  }

  function MidSkip(): Sys {
    At(LOG, 2, Row(Checkpoint(1, 0, 0, Some({"t"})), Some(1), 2, 2, 1, [DeadLetter(1, "x", HandlerFailed)]),
       AfterSkip().segs[0].hist, Worker(Lease(0, 1), {}, Reclaiming),
       Worker(Lease(1, 2), {"x"}, OneByOne(Checkpoint(0, 0, 0, None), [1], 1, false, 1)))
  }

  lemma SkipFails() returns (states: seq<Sys>)
    ensures Executes(SKIPPERS, AfterRead(), SkipByB()[..1], states) && states[|states| - 1] == MidSkip()
  {
    var s1 := Do(SKIPPERS, AfterRead(), Local(0, 1, SkipFailed));
    states := [AfterRead(), s1];
    assert s1.segs[0].row.letters == MidSkip().segs[0].row.letters;
    assert s1.segs[0].workers[1].parked == {"x"};
    assert s1.segs[0].workers == MidSkip().segs[0].workers;
    assert s1.segs[0].hist == MidSkip().segs[0].hist;
    assert s1.segs == [s1.segs[0]];
  }

  lemma SkipEnds() returns (states: seq<Sys>)
    ensures Executes(SKIPPERS, MidSkip(), SkipByB()[1..], states) && states[|states| - 1] == AfterSkip()
  {
    var s1 := MidSkip();
    var s2 := Do(SKIPPERS, s1, Local(0, 1, FinishSlow));
    var s3 := Do(SKIPPERS, s2, Local(0, 1, Release));
    states := [s1, s2, s3];
    assert s3.segs[0].workers == AfterSkip().segs[0].workers;
    assert s3.segs == [s3.segs[0]];
  }

  lemma SkipRuns() returns (states: seq<Sys>)
    ensures Executes(SKIPPERS, AfterRead(), SkipByB(), states) && states[|states| - 1] == AfterSkip()
  {
    var a := SkipFails();
    var b := SkipEnds();
    states := Joined(SKIPPERS, AfterRead(), SkipByB(), 1, a, MidSkip(), b, AfterSkip());
  }

  /** A claims the segment again and applies the stream's second event ahead of its first. */
  function ResumeByA(): seq<Step> {
    [Local(0, 0, Reclaim), Local(0, 0, Read(2)), Local(0, 0, CommitBatch)]
  }

  lemma SkipAheadRuns() returns (states: seq<Sys>)
    ensures Executes(SKIPPERS, AfterSkip(), ResumeByA(), states)
    ensures states[3].log == LOG && |states[3].segs| == 1
    ensures states[3].segs[0].hist.applied == [2] &&
            states[3].segs[0].row.letters == [DeadLetter(1, "x", HandlerFailed)]
  {
    ShortPages();
    var cfg := SKIPPERS;
    var s0 := AfterSkip();
    var s1 := Do(cfg, s0, Local(0, 0, Reclaim));
    var s2 := Do(cfg, s1, Local(0, 0, Read(2)));
    assert s2.segs[0].workers[0].pc.events == [2];
    var s3 := Do(cfg, s2, Local(0, 0, CommitBatch));
    states := [s0, s1, s2, s3];
  }

  /** A run in which a stream's second event is applied while its first is a dead letter. */
  lemma SkipsAhead() returns (states: seq<Sys>, steps: seq<Step>, n: nat)
    ensures ValidConfig(SKIPPERS) && Run(SKIPPERS, states, steps) && n < |states| && |states[n].segs| == 1
    ensures states[n].segs[0].hist.applied == [2] && 1 in Positions(states[n].segs[0].row.letters)
    ensures |states[n].log| == 2 && states[n].log[0].stream == states[n].log[1].stream
  {
    var a := PreludeRuns(SKIPPERS, LOG);
    var b := ReadRuns();
    var c := SkipRuns();
    var d := SkipAheadRuns();
    ExecutesThen(SKIPPERS, Start(LOG), Prelude(), a, ReadByB(), b);
    var ab := a + b[1..];
    assert ab[|ab| - 1] == AfterRead();
    ExecutesThen(SKIPPERS, Start(LOG), Prelude() + ReadByB(), ab, SkipByB(), c);
    var abc := ab + c[1..];
    assert abc[|abc| - 1] == AfterSkip();
    ExecutesThen(SKIPPERS, Start(LOG), Prelude() + ReadByB() + SkipByB(), abc, ResumeByA(), d);
    steps, states := Prelude() + ReadByB() + SkipByB() + ResumeByA(), abc + d[1..];
    n := |states| - 1;
    assert states[n] == d[3];
    assert DeadLetter(1, "x", HandlerFailed) in states[n].segs[0].row.letters;
    StartIsInitial(SKIPPERS, LOG);
  }

  lemma StartIsInitial(cfg: Config, log: Log)
    requires cfg.rt == ONE && |cfg.runners| == 2
    ensures Initial(cfg, Start(log))
  {
  }

  // Event types

  const MIXED := Config(ONE, [A, Runner(0, {"u"}, true, SkipAlways, 1)])

  /** B, deployed with other event types, reads to the head, past position 1, and releases; then the
      stream's second event comes. */
  function ScanByB(): seq<Step> {
    [Local(0, 1, Claim(false)), Local(0, 1, LoadParked), Local(0, 1, Read(1)),
     Local(0, 1, CommitEmpty), Local(0, 1, Release), Append([LOG[1]])]
  }

  function AfterScan(): Sys {
    At(LOG, 2, Row(Checkpoint(1, 0, 0, Some({"u"})), None, 2, 2, 1, []),
       History([], {}, {{"u"}}, map[1 := 0, 2 := 1], 0, 0),
       Worker(Lease(0, 1), {}, Reclaiming), Worker(Lease(1, 2), {}, Competing))
  }

  function MidScan(): Sys {
    At(FIRST, 2, Row(Checkpoint(0, 0, 0, None), Some(1), 2, 2, 1, []), History([], {}, {}, map[1 := 0, 2 := 1], 0, 0),
       Worker(Lease(0, 1), {}, Reclaiming), Worker(Lease(1, 2), {}, Batch(Checkpoint(0, 0, 0, None), [], 1, true)))
  }

  lemma NothingForB()
    ensures MatchSeq(ONE, FIRST, 0, {"u"}, 0, 1) == []
  {
    assert MatchSeq(ONE, FIRST, 0, {"u"}, 0, 0) == [];
    assert !Matches(ONE, FIRST, 0, {"u"}, 1);
  }

  lemma ScanReads() returns (states: seq<Sys>)
    ensures Executes(MIXED, AfterPrelude(FIRST), ScanByB()[..3], states) && states[|states| - 1] == MidScan()
  {
    NothingForB();
    var s0 := AfterPrelude(FIRST);
    var s1 := Do(MIXED, s0, Local(0, 1, Claim(false)));
    var s2 := Do(MIXED, s1, Local(0, 1, LoadParked));
    var s3 := Do(MIXED, s2, Local(0, 1, Read(1)));
    assert s3.segs[0].workers[1].pc == Batch(Checkpoint(0, 0, 0, None), MatchSeq(ONE, FIRST, 0, {"u"}, 0, 1), 1, true);
    states := [s0, s1, s2, s3];
    assert s3.segs[0].workers == MidScan().segs[0].workers;
    assert s3.segs[0].hist == MidScan().segs[0].hist;
    assert s3.segs == [s3.segs[0]];
  }

  lemma ScanEnds() returns (states: seq<Sys>)
    ensures Executes(MIXED, MidScan(), ScanByB()[3..], states) && states[|states| - 1] == AfterScan()
  {
    var s3 := MidScan();
    var s4 := Do(MIXED, s3, Local(0, 1, CommitEmpty));
    var s5 := Do(MIXED, s4, Local(0, 1, Release));
    var s6 := Do(MIXED, s5, Append([LOG[1]]));
    states := [s3, s4, s5, s6];
    assert FIRST + [LOG[1]] == LOG;
    assert s6.segs[0].workers == AfterScan().segs[0].workers;
    assert s6.segs[0].hist == AfterScan().segs[0].hist;
    assert s6.segs == [s6.segs[0]];
  }

  lemma ScanRuns() returns (states: seq<Sys>)
    ensures Executes(MIXED, AfterPrelude(FIRST), ScanByB(), states) && states[|states| - 1] == AfterScan()
  {
    var a := ScanReads();
    var b := ScanEnds();
    ExecutesThen(MIXED, AfterPrelude(FIRST), ScanByB()[..3], a, ScanByB()[3..], b);
    states := a + b[1..];
  }

  lemma MixedRuns() returns (states: seq<Sys>)
    ensures Executes(MIXED, AfterScan(), ResumeByA(), states)
    ensures states[3].log == LOG && |states[3].segs| == 1
    ensures states[3].segs[0].hist.applied == [2] && states[3].segs[0].row.letters == []
    ensures states[3].segs[0].row.cp == Checkpoint(2, 0, 0, Some({"t"})) &&
            states[3].segs[0].hist.committers == {{"t"}, {"u"}}
  {
    ShortPages();
    var cfg := MIXED;
    var s0 := AfterScan();
    var s1 := Do(cfg, s0, Local(0, 0, Reclaim));
    var s2 := Do(cfg, s1, Local(0, 0, Read(2)));
    assert s2.segs[0].workers[0].pc.events == [2];
    var s3 := Do(cfg, s2, Local(0, 0, CommitBatch));
    states := [s0, s1, s2, s3];
  }

  /** A run whose checkpoint claims the runner's own event types but whose first event was scanned
      past under others: it is in neither the read model nor the dead letters. */
  lemma LosesAnEvent() returns (states: seq<Sys>, steps: seq<Step>, n: nat)
    ensures ValidConfig(MIXED) && Run(MIXED, states, steps) && n < |states| && |states[n].segs| == 1
    ensures var seg := states[n].segs[0];
            && seg.row.cp.position == 2 && seg.row.cp.fingerprint == Some({"t"})
            && seg.hist.committers == {{"t"}, {"u"}}
            && 1 in MatchSeq(ONE, states[n].log, 0, {"t"}, 0, 2) && 1 !in seg.hist.applied && seg.row.letters == []
  {
    var a := PreludeRuns(MIXED, FIRST);
    var b := ScanRuns();
    var c := MixedRuns();
    ExecutesThen(MIXED, Start(FIRST), Prelude(), a, ScanByB(), b);
    var ab := a + b[1..];
    assert ab[|ab| - 1] == AfterScan();
    ExecutesThen(MIXED, Start(FIRST), Prelude() + ScanByB(), ab, ResumeByA(), c);
    steps, states := Prelude() + ScanByB() + ResumeByA(), ab + c[1..];
    n := |states| - 1;
    assert states[n] == c[3];
    ShortPages();
    StartIsInitial(MIXED, FIRST);
  }
}
