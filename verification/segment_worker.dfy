/** projection/segment.go: how one instance applies a page of events, with a deterministic handler.

    A page is first tried in one unit of work; when the handler fails, or a parked stream occurs in
    it, event by event. The class runs both; the functions say what they compute; the lemmas show
    that the fast path changes nothing, and when the size of the pages does. */
module SegmentWorker {
  import opened Options
  import opened ProjectionRows
  import opened ProjectionProtocol

  datatype Envelope = Envelope(position: nat, stream: string, payload: int)

  /** The handler, given the read model, the event, and IsReplaying; None is a failure. */
  type Handler<!M> = (M, Envelope, bool) -> Option<M>

  datatype Definition<!M> = Definition(handle: Handler<M>, policy: Policy)

  /** What a segment has stored, and the streams it knows to be parked. */
  datatype World<M> = World(model: M, cp: Checkpoint, letters: seq<DeadLetter>, parked: set<string>)

  datatype Outcome<M> = Outcome(world: World<M>, stalled: bool)

  predicate Replayed(e: Envelope, cp: Checkpoint) {
    e.position <= cp.replayUntil
  }

  /** The handler run over a whole page in one unit of work. */
  function HandleAll<M>(def: Definition<M>, m: M, events: seq<Envelope>, cp: Checkpoint): Option<M> {
    if events == [] then Some(m)
    else match def.handle(m, events[0], Replayed(events[0], cp))
      case None => None
      case Some(m') => HandleAll(def, m', events[1..], cp)
  }

  /** One event committed on its own: applied, recorded as a dead letter, or stalled on. */
  function ApplyOneEvent<M>(def: Definition<M>, w: World<M>, e: Envelope, cp: Checkpoint, live: bool): Outcome<M> {
    var cp' := cp.(position := e.position);
    if e.stream in w.parked then
      Outcome(w.(cp := cp', letters := InsertLetter(w.letters, DeadLetter(e.position, e.stream, StreamParked))), false)
    else match def.handle(w.model, e, Replayed(e, cp))
      case Some(m) => Outcome(w.(model := m, cp := cp'), false)
      case None =>
        if ShouldSkip(def.policy, live, Replayed(e, cp)) then
          Outcome(w.(cp := cp', letters := InsertLetter(w.letters, DeadLetter(e.position, e.stream, HandlerFailed)),
                     parked := w.parked + {e.stream}), false)
        else Outcome(w, true)
  }

  /** Event by event, up to the first stall. */
  function EachEvent<M>(def: Definition<M>, w: World<M>, events: seq<Envelope>, cp: Checkpoint, live: bool): Outcome<M>
    decreases |events|
  {
    if events == [] then Outcome(w, false)
    else
      var n := |events| - 1;
      var before := EachEvent(def, w, events[..n], cp, live);
      if before.stalled then before else ApplyOneEvent(def, before.world, events[n], cp, live)
  }

  /** applyOneByOne: each event, then the rest of what the read scanned. */
  function Slow<M>(def: Definition<M>, w: World<M>, events: seq<Envelope>, cp: Checkpoint, live: bool): Outcome<M>
    requires events != []
  {
    var each := EachEvent(def, w, events, cp, live);
    if each.stalled || cp.position <= events[|events| - 1].position then each
    else Outcome(each.world.(cp := cp), false)
  }

  predicate TouchesParked(parked: set<string>, events: seq<Envelope>) {
    exists e :: e in events && e.stream in parked
  }

  /** applyBatch. */
  function Fast<M>(def: Definition<M>, w: World<M>, events: seq<Envelope>, cp: Checkpoint, live: bool): Outcome<M>
    requires events != []
  {
    if TouchesParked(w.parked, events) then Slow(def, w, events, cp, live)
    else match HandleAll(def, w.model, events, cp)
      case Some(m) => Outcome(w.(model := m, cp := cp), false)
      case None => Slow(def, w, events, cp, live)
  }

  // The fast path refines the slow one

  lemma {:induction false} HandleAllSplit<M>(def: Definition<M>, m: M, events: seq<Envelope>, cp: Checkpoint)
    requires events != []
    ensures var n := |events| - 1;
            HandleAll(def, m, events, cp) ==
            match HandleAll(def, m, events[..n], cp)
            case None => None
            case Some(m') => def.handle(m', events[n], Replayed(events[n], cp))
  {
    var n := |events| - 1;
    if n > 0 {
      match def.handle(m, events[0], Replayed(events[0], cp)) {
        case None =>
        case Some(m') =>
          HandleAllSplit(def, m', events[1..], cp);
          assert events[1..][..n - 1] == events[..n][1..];
      }
    }
  }

  /** When the whole page succeeds in one unit of work, so does each event on its own. */
  lemma {:induction false} EachSucceeds<M>(def: Definition<M>, w: World<M>, events: seq<Envelope>, cp: Checkpoint,
      live: bool)
    requires !TouchesParked(w.parked, events) && HandleAll(def, w.model, events, cp).Some?
    ensures EachEvent(def, w, events, cp, live)
         == Outcome(w.(model := HandleAll(def, w.model, events, cp).value,
                       cp := if events == [] then w.cp else cp.(position := events[|events| - 1].position)), false)
    decreases |events|
  {
    if events != [] {
      var n := |events| - 1;
      HandleAllSplit(def, w.model, events, cp);
      assert forall e :: e in events[..n] ==> e in events;
      EachSucceeds(def, w, events[..n], cp, live);
      assert events[n] in events;
    }
  }

  /** applyBatch ends exactly where applyOneByOne does, on every page a read can return: same read
      model, checkpoint, dead letters and parked streams, and the same stall part-way. */
  lemma FastRefinesSlow<M>(def: Definition<M>, w: World<M>, events: seq<Envelope>, cp: Checkpoint, live: bool)
    requires events != [] && events[|events| - 1].position <= cp.position
    ensures Fast(def, w, events, cp, live) == Slow(def, w, events, cp, live)
  {
    if !TouchesParked(w.parked, events) && HandleAll(def, w.model, events, cp).Some? {
      EachSucceeds(def, w, events, cp, live);
      if cp.position == events[|events| - 1].position {
        assert cp.(position := events[|events| - 1].position) == cp;
      }
    }
  }

  // The size of the pages

  lemma {:induction false} EachEventSplit<M>(def: Definition<M>, w: World<M>, a: seq<Envelope>, b: seq<Envelope>,
      cp: Checkpoint, live: bool)
    ensures EachEvent(def, w, a + b, cp, live)
         == var first := EachEvent(def, w, a, cp, live);
            if first.stalled then first else EachEvent(def, first.world, b, cp, live)
    decreases |b|
  {
    if b == [] {
      assert a + b == a;
    } else {
      var n := |b| - 1;
      assert (a + b)[..|a| + n] == a + b[..n];
      EachEventSplit(def, w, a, b[..n], cp, live);
    }
  }

  /** The position of the page's checkpoint does not reach the events. */
  lemma {:induction false} EachEventAnyEnd<M>(def: Definition<M>, w: World<M>, events: seq<Envelope>, cp: Checkpoint,
      end: nat, live: bool)
    ensures EachEvent(def, w, events, cp.(position := end), live) == EachEvent(def, w, events, cp, live)
    decreases |events|
  {
    if events != [] {
      EachEventAnyEnd(def, w, events[..|events| - 1], cp, end, live);
    }
  }

  /** Only the checkpoint differs when the starting checkpoint does. */
  lemma {:induction false} EachEventFrom<M>(def: Definition<M>, w: World<M>, from: Checkpoint, events: seq<Envelope>,
      cp: Checkpoint, live: bool)
    requires events != []
    ensures var a, b := EachEvent(def, w, events, cp, live), EachEvent(def, w.(cp := from), events, cp, live);
            a.stalled == b.stalled && a.world.(cp := b.world.cp) == b.world && (!a.stalled ==> a.world.cp == b.world.cp)
    decreases |events|
  {
    var n := |events| - 1;
    if n > 0 {
      EachEventFrom(def, w, from, events[..n], cp, live);
    } else {
      assert events[..n] == [];
    }
  }

  lemma InsertLonger(letters: seq<DeadLetter>, d: DeadLetter)
    ensures |InsertLetter(letters, d)| == |letters| + 1
  {}

  lemma {:induction false} LettersGrow<M>(def: Definition<M>, w: World<M>, events: seq<Envelope>, cp: Checkpoint,
                                          live: bool)
    ensures |w.letters| <= |EachEvent(def, w, events, cp, live).world.letters|
    decreases |events|
  {
    if events != [] {
      var n := |events| - 1;
      LettersGrow(def, w, events[..n], cp, live);
      var before := EachEvent(def, w, events[..n], cp, live).world;
      InsertLonger(before.letters, DeadLetter(events[n].position, events[n].stream, StreamParked));
      InsertLonger(before.letters, DeadLetter(events[n].position, events[n].stream, HandlerFailed));
    }
  }

  /** While not live, event i is reached and stalls, and it is not a replay. */
  predicate NewFailure<M>(def: Definition<M>, w: World<M>, events: seq<Envelope>, cp: Checkpoint, i: nat)
    requires i < |events|
  {
    var before := EachEvent(def, w, events[..i], cp, false);
    !before.stalled && ApplyOneEvent(def, before.world, events[i], cp, false).stalled && !Replayed(events[i], cp)
  }

  /** Whether it makes a difference for these events that one read is live and another is not: under
      SkipWhenLive, when the first event to fail is not a replay. */
  predicate LiveMatters<M>(def: Definition<M>, w: World<M>, events: seq<Envelope>, cp: Checkpoint, a: bool, b: bool) {
    def.policy.SkipWhenLive? && a != b && exists i :: 0 <= i < |events| && NewFailure(def, w, events, cp, i)
  }

  lemma {:induction false} LiveIsSame<M>(def: Definition<M>, w: World<M>, events: seq<Envelope>, cp: Checkpoint,
                                         a: bool, b: bool)
    requires !LiveMatters(def, w, events, cp, a, b)
    ensures EachEvent(def, w, events, cp, a) == EachEvent(def, w, events, cp, b)
    decreases |events|
  {
    if events != [] {
      var n := |events| - 1;
      forall i | 0 <= i < n ensures NewFailure(def, w, events[..n], cp, i) == NewFailure(def, w, events, cp, i) {
        assert events[..n][..i] == events[..i];
      }
      LiveIsSame(def, w, events[..n], cp, a, b);
      assert def.policy.SkipWhenLive? && a != b ==> !NewFailure(def, w, events, cp, n);
    }
  }

  /** A new failure stalls whatever follows it. */
  lemma FailureStalls<M>(def: Definition<M>, w: World<M>, events: seq<Envelope>, cp: Checkpoint, i: nat)
    requires i < |events|
    ensures NewFailure(def, w, events, cp, i) ==> EachEvent(def, w, events, cp, false).stalled
    ensures NewFailure(def, w, events, cp, i) ==>
              EachEvent(def, w, events, cp, false) == EachEvent(def, w, events[..i], cp, false).(stalled := true)
  {
    assert events[..i + 1][..i] == events[..i];
    if EachEvent(def, w, events[..i + 1], cp, false).stalled {
      StallStays(def, w, events, i + 1, cp, false);
    }
  }

  /** Up to a new failure both reads do the same. */
  lemma SameUntilFailure<M>(def: Definition<M>, w: World<M>, events: seq<Envelope>, cp: Checkpoint, i: nat)
    requires i < |events| && NewFailure(def, w, events, cp, i)
    ensures EachEvent(def, w, events[..i], cp, true) == EachEvent(def, w, events[..i], cp, false)
  {
    forall j | 0 <= j < i ensures !NewFailure(def, w, events[..i], cp, j) {
      FailureStalls(def, w, events[..i], cp, j);
    }
    LiveIsSame(def, w, events[..i], cp, true, false);
  }

  /** Where it does, the live read records a dead letter the other does not. */
  lemma LiveTellsApart<M>(def: Definition<M>, w: World<M>, events: seq<Envelope>, cp: Checkpoint)
    requires LiveMatters(def, w, events, cp, true, false)
    ensures EachEvent(def, w, events, cp, false).stalled
    ensures |EachEvent(def, w, events, cp, false).world.letters| < |EachEvent(def, w, events, cp, true).world.letters|
  {
    var i :| 0 <= i < |events| && NewFailure(def, w, events, cp, i);
    FailureStalls(def, w, events, cp, i);
    SameUntilFailure(def, w, events, cp, i);
    LiveGoesOn(def, w, events, cp, i);
  }

  /** The live read records the event the other stalls at, and goes on. */
  lemma LiveGoesOn<M>(def: Definition<M>, w: World<M>, events: seq<Envelope>, cp: Checkpoint, i: nat)
    requires def.policy.SkipWhenLive? && i < |events| && NewFailure(def, w, events, cp, i)
    requires EachEvent(def, w, events[..i], cp, true) == EachEvent(def, w, events[..i], cp, false)
    ensures |EachEvent(def, w, events[..i], cp, false).world.letters| <
            |EachEvent(def, w, events, cp, true).world.letters|
  {
    var next, rest := events[..i + 1], events[i + 1..];
    assert next[..i] == events[..i] && events == next + rest;
    var before := EachEvent(def, w, events[..i], cp, true).world;
    InsertLonger(before.letters, DeadLetter(events[i].position, events[i].stream, HandlerFailed));
    EachEventSplit(def, w, next, rest, cp, true);
    LettersGrow(def, EachEvent(def, w, next, cp, true).world, rest, cp, true);
  }

  /** Two pages, each read for itself: the second only if the first did not stall. */
  function TwoPages<M>(def: Definition<M>, w: World<M>, a: seq<Envelope>, b: seq<Envelope>, cp: Checkpoint, mid: nat,
                       liveA: bool, liveB: bool): Outcome<M>
    requires a != [] && b != []
  {
    var first := Fast(def, w, a, cp.(position := mid), liveA);
    if first.stalled then first else Fast(def, first.world, b, cp, liveB)
  }

  /** The same read model, dead letters and parked streams, the same stall, and without one the same checkpoint. */
  predicate SameEnd<M(==)>(x: Outcome<M>, y: Outcome<M>) {
    x.stalled == y.stalled && x.world.(cp := y.world.cp) == y.world && (!x.stalled ==> x.world.cp == y.world.cp)
  }

  /** The event-by-event ends of two pages and of one, but for the checkpoint. */
  lemma PagesAsEvents<M>(def: Definition<M>, w: World<M>, a: seq<Envelope>, b: seq<Envelope>, cp: Checkpoint, mid: nat,
      liveA: bool, liveB: bool, live: bool)
    requires a != [] && b != [] && a[|a| - 1].position <= mid && b[|b| - 1].position <= cp.position
    ensures var each := EachEvent(def, w, a, cp, liveA);
            var two := if each.stalled then each else EachEvent(def, each.world, b, cp, liveB);
            SameEnd(TwoPages(def, w, a, b, cp, mid, liveA, liveB), Trailing(two, cp))
    ensures var each := EachEvent(def, w, a, cp, live);
            var one := if each.stalled then each else EachEvent(def, each.world, b, cp, live);
            Fast(def, w, a + b, cp, live) == Trailing(one, cp)
  {
    var cpA := cp.(position := mid);
    FastRefinesSlow(def, w, a, cpA, liveA);
    FastRefinesSlow(def, w, a + b, cp, live);
    EachEventAnyEnd(def, w, a, cp, mid, liveA);
    EachEventSplit(def, w, a, b, cp, live);
    var each := EachEvent(def, w, a, cp, liveA);
    if !each.stalled {
      var first := Slow(def, w, a, cpA, liveA).world;
      FastRefinesSlow(def, first, b, cp, liveB);
      EachEventFrom(def, each.world, first.cp, b, cp, liveB);
      assert each.world.(cp := first.cp) == first;
      EndsAtLast(def, first, b, cp, liveB);
    }
    if !EachEvent(def, w, a, cp, live).stalled {
      EndsAtLast(def, EachEvent(def, w, a, cp, live).world, b, cp, live);
    }
  }

  /** What is left of a page once its events are through: the checkpoint moves to where it scanned. */
  function Trailing<M>(each: Outcome<M>, cp: Checkpoint): Outcome<M> {
    if each.stalled then each else Outcome(each.world.(cp := cp), false)
  }

  lemma EndsAtLast<M>(def: Definition<M>, w: World<M>, events: seq<Envelope>, cp: Checkpoint, live: bool)
    requires events != []
    ensures var each := EachEvent(def, w, events, cp, live);
            !each.stalled ==> each.world.cp == cp.(position := events[|events| - 1].position)
  {}

  /** Reading a stretch of the log as one page or as two, wherever the first page's scan ends, ends the
      same if and only if it does not matter for the first page's events that its read and the joined
      one differ in being live, nor, when they get there, for the second's. */
  lemma PagesMatterIff<M>(def: Definition<M>, w: World<M>, a: seq<Envelope>, b: seq<Envelope>, cp: Checkpoint, mid: nat,
      liveA: bool, liveB: bool, live: bool)
    requires a != [] && b != [] && a[|a| - 1].position <= mid && b[|b| - 1].position <= cp.position
    ensures SameEnd(TwoPages(def, w, a, b, cp, mid, liveA, liveB), Fast(def, w, a + b, cp, live)) <==>
            && !LiveMatters(def, w, a, cp, liveA, live)
            && var each := EachEvent(def, w, a, cp, live);
               each.stalled || !LiveMatters(def, each.world, b, cp, liveB, live)
  {
    PagesAsEvents(def, w, a, b, cp, mid, liveA, liveB, live);
    var eachA, each := EachEvent(def, w, a, cp, liveA), EachEvent(def, w, a, cp, live);
    if LiveMatters(def, w, a, cp, liveA, live) {
      LiveTellsApart(def, w, a, cp);
      LettersGrow(def, eachA.world, b, cp, liveB);
      LettersGrow(def, each.world, b, cp, live);
    } else {
      LiveIsSame(def, w, a, cp, liveA, live);
      if !each.stalled {
        if LiveMatters(def, each.world, b, cp, liveB, live) {
          LiveTellsApart(def, each.world, b, cp);
        } else {
          LiveIsSame(def, each.world, b, cp, liveB, live);
        }
      }
    }
  }

  /** Fails the event at position 1. */
  function FailsFirst(): Handler<int> {
    (m: int, e: Envelope, replaying: bool) => if e.position == 1 then None else Some(m + 1)
  }

  /** Under SkipWhenLive a page of one event that falls short of the head stalls where a page of two
      that reaches it goes on. */
  lemma SmallPagesStall()
    ensures var def := Definition(FailsFirst(), SkipWhenLive);
            var w, cp := World(0, Checkpoint(0, 0, 0, None), [], {}), Checkpoint(2, 0, 0, None);
            var a, b := [Envelope(1, "x", 0)], [Envelope(2, "y", 0)];
            && TwoPages(def, w, a, b, cp, 1, false, true).stalled
            && !Fast(def, w, a + b, cp, true).stalled
  {
    var def := Definition(FailsFirst(), SkipWhenLive);
    var w, cp := World(0, Checkpoint(0, 0, 0, None), [], {}), Checkpoint(2, 0, 0, None);
    var e := Envelope(1, "x", 0);
    assert [e][..0] == [];
    assert NewFailure(def, w, [e], cp, 0);
    PagesMatterIff(def, w, [e], [Envelope(2, "y", 0)], cp, 1, false, true, true);
    PagesAsEvents(def, w, [e], [Envelope(2, "y", 0)], cp, 1, false, true, true);
    assert EachEvent(def, w, [e], cp, false).stalled;
    var next := EachEvent(def, w, [e], cp, true);
    assert !next.stalled && next.world.parked == {"x"};
    assert [Envelope(2, "y", 0)][..0] == [];
  }

  /** When a stream stays parked its events only become dead letters: the read model never sees them. */
  lemma ParkedOnlyRecorded<M>(def: Definition<M>, w: World<M>, events: seq<Envelope>, cp: Checkpoint, live: bool)
    requires forall e :: e in events ==> e.stream in w.parked
    ensures var r := EachEvent(def, w, events, cp, live);
            !r.stalled && r.world.model == w.model && r.world.parked == w.parked &&
            forall d :: d in r.world.letters <==>
              d in w.letters || exists e :: e in events && d == DeadLetter(e.position, e.stream, StreamParked)
    decreases |events|
  {
    if events != [] {
      var n := |events| - 1;
      assert forall e :: e in events[..n] ==> e in events;
      ParkedOnlyRecorded(def, w, events[..n], cp, live);
      assert events[n] in events;
      assert events == events[..n] + [events[n]];
      InsertLetterMembers(EachEvent(def, w, events[..n], cp, live).world.letters,
        DeadLetter(events[n].position, events[n].stream, StreamParked));
    }
  }

  // The loops

  /** One segment's stored state and the runner's memory of it, changed by the calls of segment.go. */
  class Worker<!M> {
    const def: Definition<M>
    var model: M
    var cp: Checkpoint
    var letters: seq<DeadLetter>
    var parked: set<string>

    constructor (def: Definition<M>, w: World<M>)
      ensures this.def == def && State() == w
    {
      this.def := def;
      model, cp, letters, parked := w.model, w.cp, w.letters, w.parked;
    }

    function State(): World<M>
      reads this
    {
      World.World(model, cp, letters, parked)
    }

    /** Tries the whole page in one unit of work, and falls back to one event at a time. */
    method ApplyBatch(events: seq<Envelope>, batch: Checkpoint, live: bool) returns (stalled: bool)
      requires events != []
      modifies this
      ensures Outcome(State(), stalled) == Fast(def, old(State()), events, batch, live)
    {
      for i := 0 to |events|
        invariant State() == old(State())
        invariant forall k :: 0 <= k < i ==> events[k].stream !in parked
      {
        if events[i].stream in parked {
          assert events[i] in events;
          stalled := ApplyOneByOne(events, batch, live);
          return;
        }
      }
      var trial, failed := model, false;
      var i := 0;
      while i < |events| && !failed
        invariant 0 <= i <= |events| && State() == old(State())
        invariant if failed then HandleAll(def, model, events, batch).None?
                  else HandleAll(def, model, events, batch) == HandleAll(def, trial, events[i..], batch)
        decreases |events| - i, !failed
      {
        match def.handle(trial, events[i], Replayed(events[i], batch)) {
          case Some(m) =>
            trial, i := m, i + 1;
          case None =>
            failed := true;
        }
      }
      if failed {
        stalled := ApplyOneByOne(events, batch, live);
        return;
      }
      model, cp := trial, batch;
      stalled := false;
    }

    /** Commits each event on its own, then moves the checkpoint to where the read scanned. */
    method ApplyOneByOne(events: seq<Envelope>, batch: Checkpoint, live: bool) returns (stalled: bool)
      requires events != []
      modifies this
      ensures Outcome(State(), stalled) == Slow(def, old(State()), events, batch, live)
    {
      for i := 0 to |events|
        invariant Outcome(State(), false) == EachEvent(def, old(State()), events[..i], batch, live)
      {
        var e := events[i];
        assert events[..i + 1][..i] == events[..i];
        var at := batch.(position := e.position);
        if e.stream in parked {
          SkipEvent(e, StreamParked, at);
          continue;
        }
        match def.handle(model, e, Replayed(e, batch)) {
          case Some(m) =>
            model, cp := m, at;
          case None =>
            if !ShouldSkip(def.policy, live, Replayed(e, batch)) {
              StallStays(def, old(State()), events, i + 1, batch, live);
              return true;
            }
            SkipEvent(e, HandlerFailed, at);
            parked := parked + {e.stream};
        }
      }
      assert events[..|events|] == events;
      if batch.position > events[|events| - 1].position {
        cp := batch;
      }
      stalled := false;
    }

    method SkipEvent(e: Envelope, cause: Cause, at: Checkpoint)
      modifies `letters, `cp
      ensures letters == InsertLetter(old(letters), DeadLetter(e.position, e.stream, cause)) && cp == at
    {
      letters := InsertLetter(letters, DeadLetter(e.position, e.stream, cause));
      cp := at;
    }
  }

  lemma {:induction false} StallStays<M>(def: Definition<M>, w: World<M>, events: seq<Envelope>, i: nat,
      cp: Checkpoint, live: bool)
    requires i <= |events| && EachEvent(def, w, events[..i], cp, live).stalled
    ensures EachEvent(def, w, events, cp, live) == EachEvent(def, w, events[..i], cp, live)
  {
    EachEventSplit(def, w, events[..i], events[i..], cp, live);
    assert events == events[..i] + events[i..];
  }

  /** The source filters a page in the array that holds it; n of its elements are left, in order. */
  method OwnEvents<E(!new)>(page: array<E>, own: E -> bool) returns (n: nat)
    modifies page
    ensures n <= page.Length && page[..n] == Filter(old(page[..]), own)
  {
    n := 0;
    for i := 0 to page.Length
      invariant n <= i
      invariant page[..n] == Filter(old(page[..])[..i], own)
      invariant forall k :: i <= k < page.Length ==> page[k] == old(page[k])
    {
      ghost var was := old(page[..]);
      assert was[..i + 1][..i] == was[..i];
      if own(page[i]) {
        page[n] := page[i];
        n := n + 1;
      }
    }
    assert old(page[..])[..page.Length] == old(page[..]);
  }

  function Filter<E(!new)>(es: seq<E>, own: E -> bool): (r: seq<E>)
    ensures forall e :: e in r <==> e in es && own(e)
  {
    if es == [] then []
    else
      var n := |es| - 1;
      assert es == es[..n] + [es[n]];
      Filter(es[..n], own) + if own(es[n]) then [es[n]] else []
  }
}
