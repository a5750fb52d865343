/** The ledger of a segment: what its read model has applied and skipped, against the log. */
module ProjectionLedger {
  import opened Numbers
  import opened Options
  import opened Sequences
  import opened ProjectionRows
  import opened SegmentLog
  import opened ProjectionProtocol

  /** Which guarantees an invariant is about: those that need the holder's event types to be the
      stored ones, and those that need it to know the parked streams. The others hold in every run. */
  datatype Guarantee = Guarantee(exact: bool, inOrder: bool)

  /** Applied events and dead letters together are the matching events up to the checkpoint. */
  ghost predicate Accounted(rt: Routing, log: Log, s: nat, row: Row, h: History) {
    forall p: nat :: p in h.applied || p in Positions(row.letters) <==>
      p <= row.cp.position && row.cp.fingerprint.Some? && Matches(rt, log, s, row.cp.fingerprint.value, p)
  }

  ghost predicate Bounded(row: Row, h: History) {
    forall p: nat :: p in h.applied || p in Positions(row.letters) ==> 1 <= p <= row.cp.position
  }

  /** Nothing is applied twice, recorded twice, or both. */
  ghost predicate CountedOnce(row: Row, h: History) {
    && Distinct(h.applied)
    && Ordered(row.letters)
    && forall p :: p in h.applied ==> p !in Positions(row.letters)
  }

  /** A stream's events apply in log order, and none ahead of a skipped one. */
  ghost predicate NeverAhead(log: Log, row: Row, h: History) {
    && StreamAscending(log, h.applied)
    && (forall d :: d in row.letters ==> 1 <= d.position <= |log| && d.stream == log[d.position - 1].stream)
    && forall p, d :: p in h.applied && d in row.letters && 1 <= p <= |log| && log[p - 1].stream == d.stream ==>
         p < d.position
  }

  /** Every commit since the last reset came from one event-type set, the stored one. */
  ghost predicate Honest(row: Row, h: History) {
    if row.cp.position == 0 then h.committers == {}
    else row.cp.fingerprint.Some? && h.committers == {row.cp.fingerprint.value}
  }

  /** Whatever was ever applied counts as replayed, unless it still stands. */
  ghost predicate Truthful(row: Row, h: History) {
    && row.cp.replayUntil == Max(h.declared, h.reached)
    && forall p :: p in h.ever ==> p in h.applied || p <= row.cp.replayUntil
  }

  ghost predicate Ledger(g: Guarantee, rt: Routing, log: Log, s: nat, row: Row, h: History) {
    && row.cp.position <= |log|
    && Bounded(row, h)
    && CountedOnce(row, h)
    && Truthful(row, h)
    && (g.exact ==> Accounted(rt, log, s, row, h) && Honest(row, h))
    && (g.inOrder ==> NeverAhead(log, row, h))
  }

  function Committed(h: History, types: set<string>, handled: seq<nat>): History {
    h.(applied := h.applied + handled, ever := h.ever + ToSet(handled), committers := h.committers + {types})
  }

  /** events are exactly the positions in (lo, hi] the segment handles, in log order. */
  ghost predicate IsPage(rt: Routing, log: Log, s: nat, types: set<string>, lo: nat, hi: nat, events: seq<nat>) {
    Ascending(events) && forall p: nat :: p in events <==> lo < p <= hi && Matches(rt, log, s, types, p)
  }

  /** The checkpoint cp carries on from row under types. */
  ghost predicate CarriesOn(g: Guarantee, log: Log, row: Row, cp: Checkpoint, types: set<string>) {
    && row.cp.position <= cp.position <= |log| && cp.position > 0
    && cp.replayUntil == row.cp.replayUntil && (g.exact ==> cp.fingerprint == Some(types))
    && (g.exact && row.cp.position > 0 ==> row.cp.fingerprint == Some(types))
  }

  /** Applying a page of events no parked stream occurs in. */
  lemma CommitEvents(g: Guarantee, rt: Routing, log: Log, s: nat, row: Row, h: History, cp: Checkpoint,
      types: set<string>, events: seq<nat>)
    requires Ledger(g, rt, log, s, row, h) && CarriesOn(g, log, row, cp, types)
    requires IsPage(rt, log, s, types, row.cp.position, cp.position, events)
    requires g.inOrder ==> forall p :: p in events && 1 <= p <= |log| ==> log[p - 1].stream !in Streams(row.letters)
    ensures Ledger(g, rt, log, s, row.(cp := cp), Committed(h, types, events))
  {
    var row', h' := row.(cp := cp), Committed(h, types, events);
    forall i, j | 0 <= i < j < |h'.applied|
      ensures h'.applied[i] != h'.applied[j]
      ensures i < |h.applied| <= j ==> h'.applied[i] < h'.applied[j]
    {
      assert i < |h.applied| ==> h'.applied[i] == h.applied[i] && h.applied[i] in h.applied;
      assert j >= |h.applied| ==> h'.applied[j] == events[j - |h.applied|] && events[j - |h.applied|] in events;
    }
    forall i, j | 0 <= i < j < |h'.applied| && 1 <= h'.applied[i] <= |log| && 1 <= h'.applied[j] <= |log|
                  && log[h'.applied[i] - 1].stream == log[h'.applied[j] - 1].stream && g.inOrder
      ensures h'.applied[i] < h'.applied[j]
    {
      if j < |h.applied| {
        assert h.applied[i] == h'.applied[i] && h.applied[j] == h'.applied[j];
      } else if i >= |h.applied| {
        assert events[i - |h.applied|] == h'.applied[i] && events[j - |h.applied|] == h'.applied[j];
      }
    }
    assert forall d :: d in row.letters ==> d.stream in Streams(row.letters);
  }

  /** Recording the one event up to cp as a dead letter. */
  lemma CommitLetter(g: Guarantee, rt: Routing, log: Log, s: nat, row: Row, h: History, cp: Checkpoint,
      types: set<string>, d: DeadLetter)
    requires Ledger(g, rt, log, s, row, h) && CarriesOn(g, log, row, cp, types)
    requires IsPage(rt, log, s, types, row.cp.position, cp.position, [d.position])
    requires 1 <= d.position <= |log| && d.stream == log[d.position - 1].stream
    ensures Ledger(g, rt, log, s, row.(cp := cp, letters := InsertLetter(row.letters, d)), Committed(h, types, []))
  {
    var letters := InsertLetter(row.letters, d);
    assert d.position in [d.position];
    assert g.exact ==> Accounted(rt, log, s, row, h);
    assert d.position !in Positions(row.letters);
    InsertLetterMembers(row.letters, d);
    InsertLetterSets(row.letters, d);
    InsertLetterOrdered(row.letters, d);
    assert h.applied + [] == h.applied;
    assert Committed(h, types, []).ever == h.ever;
  }

  /** d is the stream's first dead letter. */
  ghost predicate FirstOfStream(letters: seq<DeadLetter>, d: DeadLetter) {
    d in letters && forall e :: e in letters && e.stream == d.stream ==> d.position <= e.position
  }

  lemma ExtendsAscending(log: Log, ps: seq<nat>, p: nat)
    requires StreamAscending(log, ps) && 1 <= p <= |log|
    requires forall q :: q in ps && 1 <= q <= |log| && log[q - 1].stream == log[p - 1].stream ==> q < p
    ensures StreamAscending(log, ps + [p])
  {
    assert forall i :: 0 <= i < |ps| ==> ps[i] in ps;
  }

  lemma ReplayInOrder(log: Log, row: Row, h: History, d: DeadLetter)
    requires NeverAhead(log, row, h) && FirstOfStream(row.letters, d)
    ensures NeverAhead(log, row.(letters := DeleteLetters(row.letters, d.position)),
              h.(applied := h.applied + [d.position]))
  {
    ExtendsAscending(log, h.applied, d.position);
    var letters := DeleteLetters(row.letters, d.position);
    assert forall e :: e in letters ==> e in row.letters && e.position != d.position;
  }

  lemma ReplayCountsOnce(row: Row, h: History, d: DeadLetter)
    requires CountedOnce(row, h) && d in row.letters
    ensures CountedOnce(row.(letters := DeleteLetters(row.letters, d.position)),
              h.(applied := h.applied + [d.position]))
    ensures Positions(DeleteLetters(row.letters, d.position)) == Positions(row.letters) - {d.position}
    ensures d.position in Positions(row.letters)
  {
    DeleteLettersOrdered(row.letters, d.position);
    DeleteLettersSets(row.letters, d.position);
    assert d.position in Positions(row.letters);
  }

  /** Applying a stream's first dead letter again, the checkpoint staying where it is. */
  lemma CommitReplay(g: Guarantee, rt: Routing, log: Log, s: nat, row: Row, h: History, types: set<string>,
      d: DeadLetter)
    requires Ledger(g, rt, log, s, row, h) && CarriesOn(g, log, row, row.cp, types)
    requires d in row.letters && (g.inOrder ==> FirstOfStream(row.letters, d))
    ensures Ledger(g, rt, log, s, row.(letters := DeleteLetters(row.letters, d.position)),
              Committed(h, types, [d.position]))
  {
    if g.inOrder { ReplayInOrder(log, row, h, d); }
    ReplayCountsOnce(row, h, d);
    var row', h' := row.(letters := DeleteLetters(row.letters, d.position)), Committed(h, types, [d.position]);
    assert h'.applied == h.applied + [d.position];
    assert g.exact ==> Accounted(rt, log, s, row', h');
    assert g.inOrder ==> NeverAhead(log, row', h');
  }

  /** A reset starts the ledger over and keeps what was ever applied below the replay boundary. */
  lemma WipeLedger(g: Guarantee, rt: Routing, log: Log, s: nat, row: Row, h: History, version: nat, keep: bool,
      now: nat)
    requires Ledger(g, rt, log, s, row, h)
    ensures Ledger(g, rt, log, s, WipeRow(row, version, keep, now),
                   h.(applied := [], committers := {}, reached := Max(h.reached, row.cp.position)))
  {
    assert Bounded(row, h);
  }

  lemma AppendLedger(g: Guarantee, rt: Routing, log: Log, more: Log, s: nat, row: Row, h: History)
    requires Ledger(g, rt, log, s, row, h)
    ensures Ledger(g, rt, log + more, s, row, h)
  {
    assert forall p: nat, t :: p <= |log| ==> (Matches(rt, log + more, s, t, p) <==> Matches(rt, log, s, t, p));
    assert forall p :: p in h.applied ==> p <= row.cp.position;
    assert forall i :: 0 <= i < |h.applied| ==> h.applied[i] in h.applied;
  }

  // What the ledger says

  /** Every matching event up to the checkpoint is counted exactly once, applied or dead-lettered. */
  lemma ExactlyOnce(g: Guarantee, rt: Routing, log: Log, s: nat, row: Row, h: History)
    requires g.exact && Ledger(g, rt, log, s, row, h) && row.cp.position > 0
    ensures multiset(h.applied) + multiset(Positions(row.letters))
         == multiset(ToSet(MatchSeq(rt, log, s, row.cp.fingerprint.value, 0, row.cp.position)))
  {
    var types := row.cp.fingerprint.value;
    MatchSeqProps(rt, log, s, types, 0, row.cp.position);
    DistinctMultiset(h.applied);
    assert ToSet(h.applied) + Positions(row.letters) == ToSet(MatchSeq(rt, log, s, types, 0, row.cp.position));
  }

  lemma {:induction false} DistinctMultiset(ps: seq<nat>)
    requires Distinct(ps)
    ensures multiset(ps) == multiset(ToSet(ps))
  {
    if ps != [] {
      var init, last := ps[..|ps| - 1], ps[|ps| - 1];
      DistinctMultiset(init);
      assert ps == init + [last];
      assert last !in init;
      assert ToSet(ps) == ToSet(init) + {last};
    }
  }

  /** The applied events of a stream are a prefix, in log order, of the stream's events the segment handles. */
  lemma AppliedPrefix(g: Guarantee, rt: Routing, log: Log, s: nat, row: Row, h: History, stream: string)
    requires g.exact && g.inOrder && Ledger(g, rt, log, s, row, h) && row.cp.position > 0
    ensures forall p :: p in h.applied ==> 1 <= p <= |log|
    ensures forall p :: p in MatchSeq(rt, log, s, row.cp.fingerprint.value, 0, |log|) ==> 1 <= p <= |log|
    ensures OfStream(log, h.applied, stream) <=
            OfStream(log, MatchSeq(rt, log, s, row.cp.fingerprint.value, 0, |log|), stream)
  {
    var types := row.cp.fingerprint.value;
    var all := MatchSeq(rt, log, s, types, 0, |log|);
    MatchSeqProps(rt, log, s, types, 0, |log|);
    assert Accounted(rt, log, s, row, h);
    OfStreamMembers(log, h.applied, stream);
    OfStreamMembers(log, all, stream);
    OfStreamAscending(log, h.applied, stream);
    assert StreamAscending(log, all);
    OfStreamAscending(log, all, stream);
    var a, b := OfStream(log, h.applied, stream), OfStream(log, all, stream);
    forall p, q | p in b && p !in a && q in a ensures q < p {
      if p <= row.cp.position {
        assert p in Positions(row.letters);
        var d :| d in row.letters && d.position == p;
      }
    }
    AscendingPrefix(a, b);
  }
}
