/** A lease claimed between a reset and the moment its rebuild retires the leases in memory. */
module RetiredLease {
  import opened Options
  import opened ProjectionRows
  import opened StatusAgreement
  import opened StatusWindow

  /** The store has this instance as the holder, under an epoch the instance no longer knows. */
  ghost predicate Retired(c: Config, b: Sys, s: nat) {
    && Shaped(c, b) && s < c.segments && b.mems[s].epoch == 0
    && (b.pcs[s].Idle? || b.pcs[s] == Asking(Lease(c.me, 0)))
    && b.rows[s].owner == Some(c.me) && b.rows[s].epoch > 0
  }

  /** A step on segment s falls within the claim the store has, and does not reset the projection. */
  predicate Within(step: Step, s: nat, row: Row) {
    match step
    case Mine(t, act) => !act.ResetStore? && (t == s && act.ClaimStore? ==> act.now <= row.heartbeat + row.ttl)
    case Elsewhere(t, other) => t == s && other.OtherClaim? ==> other.now <= row.heartbeat + row.ttl
  }

  /** Such a claim can be had again exactly when the row is free or its claim has run out. */
  lemma RetiredCanClaim(c: Config, row: Row, now: nat)
    requires row.owner.Some? ==> row.epoch > 0
    ensures CanClaim(row, Lease(c.me, 0), now) <==> row.owner.None? || now > row.heartbeat + row.ttl
  {}

  lemma RetiredStep(c: Config, b: Sys, step: Step, s: nat)
    requires Retired(c, b, s) && Enabled(c, b, step) && Within(step, s, b.rows[s])
    ensures Retired(c, Next(c, b, step), s) && Next(c, b, step).rows[s] == b.rows[s]
    ensures step.Mine? && step.s == s && step.act.ClaimStore? ==> Next(c, b, step).pcs[s] == Idle
  {
    if step.Mine? && step.s == s {
      RetiredTurn(c, b, s, step.act);
    } else if step.Mine? {
      OthersTurn(c, b, step.s, step.act, s);
    }
  }

  lemma RetiredTurn(c: Config, b: Sys, s: nat, act: Act)
    requires Retired(c, b, s) && Can(c, b, s, act) && Within(Mine(s, act), s, b.rows[s])
    ensures Retired(c, Do(c, b, s, act), s) && Do(c, b, s, act).rows[s] == b.rows[s]
    ensures act.ClaimStore? ==> Do(c, b, s, act).pcs[s] == Idle
  {
    if act.ClaimStore? {
      RetiredCanClaim(c, b.rows[s], act.now);
    }
  }

  lemma OthersTurn(c: Config, b: Sys, t: nat, act: Act, s: nat)
    requires Retired(c, b, s) && t < c.segments && t != s && Can(c, b, t, act) && !act.ResetStore?
    ensures Retired(c, Do(c, b, t, act), s) && Do(c, b, t, act).rows[s] == b.rows[s]
  {}

  /** Until the claim has run out, in every run, the segment is claimed by nobody, this instance
      included: each of its claims is refused, and the row stays as it is. */
  lemma {:induction false} RetiredLeaseWaits(c: Config, states: seq<Sys>, steps: seq<Step>, n: nat, m: nat, s: nat)
    requires Run(c, states, steps) && n <= m <= |steps| && Retired(c, states[n], s)
    requires forall i :: n <= i < m ==> Within(steps[i], s, states[n].rows[s])
    ensures Retired(c, states[m], s) && states[m].rows[s] == states[n].rows[s]
    ensures m > n && steps[m - 1].Mine? && steps[m - 1].s == s && steps[m - 1].act.ClaimStore? ==>
              states[m].pcs[s] == Idle
    decreases m
  {
    if n < m {
      RetiredLeaseWaits(c, states, steps, n, m - 1, s);
      RetiredStep(c, states[m - 1], steps[m - 1], s);
    }
  }

  /** Segment 0 is asked to rebuild, and resets the store. */
  function ResetIt(): seq<Step> {
    [Mine(0, Request), Mine(0, ReadLease), Mine(0, ResetStore(0))]
  }

  /** Its memory catches up; segment 1, which was claimed meanwhile, finds its lease retired. */
  function RetireIt(): seq<Step> {
    [Mine(0, ZeroMemory), Mine(1, Prepare(0)), Mine(1, PublishStore(0))]
  }

  lemma ResetRuns(c: Config, b: Sys) returns (states: seq<Sys>)
    requires Shaped(c, b) && c.segments >= 2 && b.pcs[0] == Working(0) && b.pcs[1] == Idle
    requires Owned(b.rows[0], LeaseOf(c, b, 0))
    ensures Path(c, b, ResetIt(), states) && |states| == 4 && Shaped(c, states[3])
    ensures states[3].pcs[0] == Wiped && states[3].pcs[1] == Idle && states[3].mems == b.mems
    ensures states[3].rows[1].owner.None? && states[3].rows[1].cp.position == 0 &&
            states[3].rows[1].cp.version == c.version
  {
    var b1 := Next(c, b, Mine(0, Request));
    var b2 := Next(c, b1, Mine(0, ReadLease));
    var b3 := Next(c, b2, Mine(0, ResetStore(0)));
    states := [b, b1, b2, b3];
  }

  lemma RetireRuns(c: Config, b: Sys) returns (states: seq<Sys>)
    requires Shaped(c, b) && c.segments >= 2 && b.pcs[0] == Wiped && b.pcs[1] == Working(0)
    requires b.rows[1].owner == Some(c.me) && b.rows[1].epoch > 0
    ensures Path(c, b, RetireIt(), states) && |states| == 4 && Retired(c, states[3], 1) && states[3].rows == b.rows
  {
    var b1 := Next(c, b, Mine(0, ZeroMemory));
    var b2 := Next(c, b1, Mine(1, Prepare(0)));
    var b3 := Next(c, b2, Mine(1, PublishStore(0)));
    states := [b, b1, b2, b3];
  }

  /** A run that gets there: a lease claimed after the reset is retired, at the cost of waiting its
      ttl out. */
  lemma SomeLeaseIsRetired(c: Config) returns (states: seq<Sys>, steps: seq<Step>)
    requires c.segments >= 2
    ensures steps == ClaimIt(0) + (ResetIt() + (ClaimIt(1) + RetireIt()))
    ensures Run(c, states, steps) && Retired(c, states[|steps|], 1)
    ensures states[|steps|].rows[1].heartbeat == 0 && states[|steps|].rows[1].ttl == 9
  {
    var claim0 := ClaimRuns(c, Start(c), 0);
    assert claim0[4].pcs[1] == Idle && Start(c).rows[0].cp.position == 0;
    var reset := ResetRuns(c, claim0[4]);
    var claim1 := ClaimRuns(c, reset[3], 1);
    var retire := RetireRuns(c, claim1[4]);
    PathThen(c, claim1[0], ClaimIt(1), claim1, RetireIt(), retire);
    var tail := claim1 + retire[1..];
    PathThen(c, reset[0], ResetIt(), reset, ClaimIt(1) + RetireIt(), tail);
    var rest := reset + tail[1..];
    PathThen(c, claim0[0], ClaimIt(0), claim0, ResetIt() + (ClaimIt(1) + RetireIt()), rest);
    states := claim0 + rest[1..];
    steps := ClaimIt(0) + (ResetIt() + (ClaimIt(1) + RetireIt()));
    assert states[|steps|] == retire[3];
  }
}
