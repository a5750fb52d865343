/** Whole runs of one instance's claim scheduler, beside everybody else on the store. */
module ClaimRuns {
  import opened Options
  import opened LeaseAllocator
  import opened ClaimScheduling

  /** What the scheduler holds, the store's rows, and the segments whose batch runs. */
  datatype Sys = Sys(held: Holding, rows: Rows, running: set<int>)

  /** A Next with what came of it; a Done and a Drained of a running batch; calls of others. */
  datatype Act =
    | Next(batches: seq<Batch>, held: Holding, rows: Rows, at: nat)
    | Report(key: int, out: Outcome, now: nat, at: nat)
    | Drain(key: int, now: nat, at: nat)
    | Elsewhere(rows: Rows)

  function Keys(batches: seq<Batch>): set<int> {
    set i | 0 <= i < |batches| :: batches[i].key
  }

  /** A call the runner may make. No lease is lost: at a Next every held lease is live, at a Drained
      the segment's is current. The list answers with one group for a segment. */
  ghost predicate Enabled(c: Settings, s: Sys, act: Act) {
    match act
    case Next(batches, held, _, at) =>
      && AllOurs(s.rows, s.held, at) && NextOk(c, s.rows, s.held, held, batches, at)
      && forall i, j :: 0 <= i < j < |batches| ==> batches[i].key != batches[j].key
    case Report(key, _, now, at) => key in s.running && now <= at
    case Drain(key, now, at) => key in s.running && now <= at && (key in s.held ==> Current(s.rows, s.held[key].lease))
    case Elsewhere(_) => true
  }

  function Step(c: Settings, s: Sys, act: Act): Sys {
    match act
    case Next(batches, held, rows, _) => Sys(held, rows, s.running + Keys(batches))
    case Report(key, out, now, at) =>
      Sys(AfterDone(c, s.held, key, out, now), RowsAfterDone(c, s.held, s.rows, key, out, now, at), s.running)
    case Drain(key, now, at) =>
      Sys(AfterDrained(s.held, key), RowsAfterDrained(s.held, s.rows, key, now, at), s.running - {key})
    case Elsewhere(rows) => s.(rows := rows)
  }

  ghost predicate Run(c: Settings, states: seq<Sys>, acts: seq<Act>) {
    && c.Valid() && |states| == |acts| + 1 && states[0].held == map[] && states[0].running == {}
    && forall i :: 0 <= i < |acts| ==> Enabled(c, states[i], acts[i]) && states[i + 1] == Step(c, states[i], acts[i])
  }

  /** Busy segments are those whose batch runs, and no other holds a pause. */
  ghost predicate Inv(c: Settings, s: Sys) {
    && Shaped(c, s.held) && Settled(s.held)
    && forall k :: k in s.running <==> k in s.held && s.held[k].busy
  }

  lemma NextKeeps(c: Settings, s: Sys, act: Act)
    requires act.Next? && Inv(c, s) && Enabled(c, s, act)
    ensures Inv(c, Step(c, s, act))
    ensures forall i :: 0 <= i < |act.batches| ==> act.batches[i].key !in s.running
  {
    var held := act.held;
    forall k | k in held && !(k in s.held && held[k] == s.held[k]) && held[k].busy ensures k in Keys(act.batches) {
      assert !(held[k].deferUntil.None? && !held[k].busy);
      var i :| 0 <= i < |act.batches| && act.batches[i].key == k;
      assert act.batches[i].key in Keys(act.batches);
    }
    forall i | 0 <= i < |act.batches|
      ensures act.batches[i].key !in s.running && act.batches[i].key in held && held[act.batches[i].key].busy
    {
      assert Handed(s.rows, s.held, held, act.batches[i], act.at);
    }
    forall k | k in held && !held[k].busy ensures held[k].deferUntil.None? {
      assert forall i :: 0 <= i < |act.batches| ==> act.batches[i].key != k;
    }
  }

  lemma StepKeeps(c: Settings, s: Sys, act: Act)
    requires Inv(c, s) && Enabled(c, s, act)
    ensures Inv(c, Step(c, s, act))
  {
    if act.Next? {
      NextKeeps(c, s, act);
    }
  }

  // Every run

  /** While no lease is lost: it never holds more than maxSegments, a segment is busy exactly while its
      batch runs, and a segment that is not busy has no pause waiting. */
  lemma {:induction false} HoldsWhatItShould(c: Settings, states: seq<Sys>, acts: seq<Act>, n: nat)
    requires Run(c, states, acts) && n <= |acts|
    ensures Inv(c, states[n]) && |states[n].held| <= c.maxSegments
  {
    if n > 0 {
      HoldsWhatItShould(c, states, acts, n - 1);
      StepKeeps(c, states[n - 1], acts[n - 1]);
    }
  }

  /** A segment whose batch runs is not claimed for again, and no Next rotates it out, gives it back as
      idle or changes what is known of it. */
  lemma BusyIsLeftAlone(c: Settings, states: seq<Sys>, acts: seq<Act>, n: nat, k: int)
    requires Run(c, states, acts) && n < |acts| && acts[n].Next? && k in states[n].running
    ensures forall i :: 0 <= i < |acts[n].batches| ==> acts[n].batches[i].key != k
    ensures k in states[n].held && k in states[n + 1].held && states[n + 1].held[k] == states[n].held[k]
  {
    HoldsWhatItShould(c, states, acts, n);
    NextKeeps(c, states[n], acts[n]);
  }

  /** A batch is under way from n to m: it has not drained. */
  ghost predicate Undrained(acts: seq<Act>, n: nat, m: nat, k: int)
    requires n <= m <= |acts|
  {
    forall i :: n <= i < m ==> !(acts[i].Drain? && acts[i].key == k)
  }

  /** Until its batch drains, a segment keeps the end of the batch's item leases and the latest pause
      asked for. */
  lemma {:induction false} PauseIsKept(c: Settings, states: seq<Sys>, acts: seq<Act>, n: nat, m: nat, k: int)
    requires Run(c, states, acts) && n <= m <= |acts| && Undrained(acts, n, m, k) && k in states[n].running
    ensures k in states[n].held && k in states[m].held && k in states[m].running
    ensures states[m].held[k].leaseEnd == states[n].held[k].leaseEnd
    ensures states[n].held[k].deferUntil.Some? ==>
              states[m].held[k].deferUntil.Some? &&
              states[m].held[k].deferUntil.value >= states[n].held[k].deferUntil.value
    decreases m
  {
    HoldsWhatItShould(c, states, acts, n);
    if n < m {
      PauseIsKept(c, states, acts, n, m - 1, k);
      HoldsWhatItShould(c, states, acts, m - 1);
      HoldsWhatItShould(c, states, acts, m);
      if acts[m - 1].Next? {
        BusyIsLeftAlone(c, states, acts, m - 1, k);
      }
    }
  }

  /** A deferral loses nothing: once the batch drains, the segment is given back and the store has it
      paused at least until the time the deferral asked for and until the batch's item leases end. */
  lemma DeferralIsStored(c: Settings, states: seq<Sys>, acts: seq<Act>, h: nat, i: nat, j: nat, b: Batch)
    requires Run(c, states, acts) && h < i < j < |acts|
    requires acts[h].Next? && b in acts[h].batches && Undrained(acts, h + 1, j, b.key)
    requires acts[i].Report? && acts[i].key == b.key && acts[i].out.Deferred?
    requires acts[j].Drain? && acts[j].key == b.key
    ensures var id := Id(c.name, b.key);
            && b.key !in states[j + 1].held && b.key !in states[j + 1].running
            && PausedUntil(states[j + 1].rows, id, Until(c, acts[i].out, acts[i].now), acts[j].at)
            && PausedUntil(states[j + 1].rows, id, b.deadline, acts[j].at)
            && id in states[j + 1].rows && states[j + 1].rows[id].owner == 0
  {
    HoldsWhatItShould(c, states, acts, h);
    NextKeeps(c, states[h], acts[h]);
    var x :| 0 <= x < |acts[h].batches| && acts[h].batches[x] == b;
    assert Handed(states[h].rows, states[h].held, acts[h].held, acts[h].batches[x], acts[h].at);
    assert acts[h].batches[x].key in Keys(acts[h].batches);
    PauseIsKept(c, states, acts, h + 1, i, b.key);
    assert Undrained(acts, h + 1, i, b.key) && Undrained(acts, i + 1, j, b.key);
    PauseIsKept(c, states, acts, i + 1, j, b.key);
    HoldsWhatItShould(c, states, acts, j);
    DrainPauses(states[j].rows, states[j].held[b.key], acts[j].now, acts[j].at);
  }
}
