/** projection/runner.go, segment.go and status.go: the lease and the position an instance keeps in
    memory for each segment, beside the store's rows, while its goroutines commit, claim and rebuild. */
module StatusAgreement {
  import opened Options
  import opened ProjectionRows

  /** This instance: its owner name, its Version, and how many segments there are. */
  datatype Config = Config(me: Owner, version: nat, segments: nat)

  datatype Mem = Mem(epoch: nat, position: nat)

  /** Where a segment's goroutine is, between two store calls or two turns under the runner's lock.
      From Resetting to Ended it is in rebuild, which its caller ends with rebuildTried. */
  datatype Pc =
    | Idle
    | Asking(l: Lease)
    | Granted(l: Lease, cp: Checkpoint)
    | Claimed(cp: Checkpoint)
    | Working(pos: nat)
    | Committing(l: Lease, pos: nat, next: nat)
    | Landed(l: Lease, next: nat)
    | Resetting
    | Wiping(l: Lease)
    | Wiped
    | Zeroed
    | Reasking(l: Lease)
    | Regranted(l: Lease, pos: nat)
    | Reclaimed(pos: nat)
    | Restating(l: Lease, pos: nat)
    | Ended(resume: Option<nat>)

  datatype Sys = Sys(rows: seq<Row>, mems: seq<Mem>, pcs: seq<Pc>, resetting: bool)

  /** The goroutine's own actions; an action with a clock is a store call. */
  datatype Act =
    | ReadLease
    | ClaimStore(ttl: nat, now: nat)
    | KeepLease
    | Begin(typesChanged: bool)
    | Prepare(next: nat)
    | CommitStore(row: Checkpoint, letters: seq<DeadLetter>, now: nat)
    | PublishStore(now: nat)
    | SetStatus
    | GiveUp
    | Stall
    | Request
    | ResetStore(now: nat)
    | ZeroMemory
    | RebuildTried

  /** Other instances: they claim, commit and release, but every rebuild is run here. */
  datatype Other = OtherClaim(l: Lease, ttl: nat, now: nat) | OtherCommit(cp: Checkpoint, letters: seq<DeadLetter>,
      now: nat) | OtherRelease

  datatype Step = Mine(s: nat, act: Act) | Elsewhere(s: nat, other: Other)

  function LeaseOf(c: Config, b: Sys, s: nat): Lease
    requires s < |b.mems|
  {
    Lease(c.me, b.mems[s].epoch)
  }

  predicate Rebuilding(pc: Pc) {
    pc.Resetting? || pc.Wiping? || pc.Wiped? || pc.Zeroed? || pc.Reasking? || pc.Regranted? || pc.Reclaimed? ||
    pc.Restating? || pc.Ended?
  }

  /** A claimed segment with something to wipe is rebuilt for a later Version, and for other event
      types when there is one segment. */
  predicate MustRebuild(c: Config, cp: Checkpoint, typesChanged: bool) {
    cp.position > 0 && (cp.version < c.version || (cp.version == c.version && typesChanged && c.segments == 1))
  }

  predicate Starts(c: Config, b: Sys, step: Step) {
    && step.Mine? && step.s < |b.pcs|
    && (|| step.act.Request?
        || (step.act.Begin? && b.pcs[step.s].Claimed? && MustRebuild(c, b.pcs[step.s].cp, step.act.typesChanged)))
  }

  predicate Can(c: Config, b: Sys, s: nat, act: Act)
    requires s < |b.pcs| == |b.rows| == |b.mems|
  {
    var pc, row := b.pcs[s], b.rows[s];
    match act
    case ReadLease => pc.Idle? || pc.Resetting? || pc.Zeroed? || pc.Reclaimed?
    case ClaimStore(_, _) => pc.Asking? || pc.Reasking?
    case KeepLease => pc.Granted? || pc.Regranted?
    case Begin(_) => pc.Claimed?
    case Prepare(next) => pc.Working? && next >= pc.pos
    case CommitStore(cp, _, _) => pc.Committing? && cp.position == pc.next && cp.version == c.version
    case PublishStore(_) => pc.Committing? && pc.next == pc.pos
    case SetStatus => pc.Landed? || pc.Restating?
    case GiveUp => pc.Working?
    case Stall => pc.Working? || pc.Committing?
    case Request => pc.Working? && s == 0
    case ResetStore(_) => pc.Wiping?
    case ZeroMemory => pc.Wiped?
    case RebuildTried => pc.Ended?
  }

  /** A reset under l: every segment rewound, all but this one released. */
  function WipeAll(c: Config, rows: seq<Row>, s: nat, now: nat): seq<Row> {
    seq(|rows|, i requires 0 <= i < |rows| => WipeRow(rows[i], c.version, i == s, now))
  }

  /** Position 0 everywhere, and no lease left but this segment's. */
  function Zero(mems: seq<Mem>, s: nat): seq<Mem> {
    seq(|mems|, i requires 0 <= i < |mems| => Mem(if i == s then mems[i].epoch else 0, 0))
  }

  function Goto(b: Sys, s: nat, pc: Pc): Sys
    requires s < |b.pcs|
  {
    b.(pcs := b.pcs[s := pc])
  }

  function Do(c: Config, b: Sys, s: nat, act: Act): Sys
    requires s < |b.pcs| == |b.rows| == |b.mems| && Can(c, b, s, act)
  {
    var pc, row, mem, l := b.pcs[s], b.rows[s], b.mems[s], LeaseOf(c, b, s);
    match act
    case ReadLease =>
      Goto(b, s, match pc case Idle => Asking(l) case Resetting => Wiping(l) case Zeroed => Reasking(l)
        case _ => Restating(l, pc.pos))
    case ClaimStore(ttl, now) =>
      if CanClaim(row, pc.l, now) then
        var row' := ClaimRow(row, pc.l, ttl, now);
        var granted := Lease(c.me, row'.epoch);
        var pc' := if pc.Asking? then Granted(granted, row.cp) else Regranted(granted, row.cp.position);
        Goto(b, s, pc').(rows := b.rows[s := row'])
      else Goto(b, s, if pc.Asking? then Idle else Ended(None))
    case KeepLease =>
      var pc' := if pc.Granted? then Claimed(pc.cp) else Reclaimed(pc.pos);
      Goto(b, s, pc').(mems := b.mems[s := mem.(epoch := pc.l.epoch)])
    case Begin(typesChanged) =>
      if pc.cp.version > c.version then Released(c, b, s)
      else if MustRebuild(c, pc.cp, typesChanged) then Goto(b, s, Resetting).(resetting := true)
      else if typesChanged && pc.cp.position > 0 then Goto(b, s, Idle)
      else Goto(b, s, Working(pc.cp.position))
    case Prepare(next) => Goto(b, s, Committing(l, pc.pos, next))
    case CommitStore(cp, letters, now) =>
      if Owned(row, pc.l) then Goto(b, s, Landed(pc.l, pc.next)).(rows := b.rows[s := CommitRow(row, cp, letters, now)])
      else Goto(b, s, Idle)
    case PublishStore(now) =>
      if Owned(row, pc.l) then Goto(b, s, Landed(pc.l, pc.next)).(rows := b.rows[s := RefreshRow(row, now)])
      else Goto(b, s, Idle)
    case SetStatus =>
      var position := if pc.Landed? then pc.next else pc.pos;
      Goto(b, s, if pc.Landed? then Working(position) else Ended(Some(position)))
        .(mems := b.mems[s := if pc.l == l then mem.(position := position) else mem])
    case GiveUp => Released(c, b, s)
    case Stall => Goto(b, s, Idle)
    case Request => Goto(b, s, Resetting).(resetting := true)
    case ResetStore(now) =>
      if Owned(row, pc.l) then Goto(b, s, Wiped).(rows := WipeAll(c, b.rows, s, now)) else Goto(b, s, Ended(None))
    case ZeroMemory => Goto(b, s, Zeroed).(mems := Zero(b.mems, s))
    case RebuildTried => Goto(b, s, if pc.resume.Some? then Working(pc.resume.value) else Idle).(resetting := false)
  }

  /** The segment is given back, if it is still held. */
  function Released(c: Config, b: Sys, s: nat): Sys
    requires s < |b.pcs| == |b.rows| == |b.mems|
  {
    var row := b.rows[s];
    Goto(b, s, Idle).(rows := b.rows[s := if Owned(row, LeaseOf(c, b, s)) then ReleaseRow(row) else row])
  }

  predicate OtherCan(c: Config, row: Row, other: Other) {
    match other
    case OtherClaim(l, _, now) => l.owner != c.me && CanClaim(row, l, now)
    case OtherCommit(cp, _, _) => row.owner.Some? && row.owner != Some(c.me) && cp.position >= row.cp.position
    case OtherRelease => row.owner != Some(c.me)
  }

  function OtherRow(row: Row, other: Other): Row {
    match other
    case OtherClaim(l, ttl, now) => ClaimRow(row, l, ttl, now)
    case OtherCommit(cp, letters, now) => CommitRow(row, cp, letters, now)
    case OtherRelease => ReleaseRow(row)
  }

  predicate Enabled(c: Config, b: Sys, step: Step)
    requires |b.pcs| == |b.rows| == |b.mems|
  {
    match step
    case Mine(s, act) => s < |b.pcs| && Can(c, b, s, act)
    case Elsewhere(s, other) => s < |b.rows| && OtherCan(c, b.rows[s], other)
  }

  function Next(c: Config, b: Sys, step: Step): Sys
    requires |b.pcs| == |b.rows| == |b.mems| && Enabled(c, b, step)
  {
    match step
    case Mine(s, act) => Do(c, b, s, act)
    case Elsewhere(s, other) => b.(rows := b.rows[s := OtherRow(b.rows[s], other)])
  }

  predicate Shaped(c: Config, b: Sys) {
    |b.rows| == |b.mems| == |b.pcs| == c.segments
  }

  /** The instance starts with nothing claimed; the store may hold anything. */
  ghost predicate Initial(c: Config, b: Sys) {
    && Shaped(c, b) && !b.resetting
    && forall s :: 0 <= s < c.segments ==>
         && b.mems[s] == Mem(0, 0) && b.pcs[s] == Idle
         && b.rows[s].owner != Some(c.me) && (b.rows[s].owner.Some? ==> b.rows[s].epoch > 0)
  }

  ghost predicate Run(c: Config, states: seq<Sys>, steps: seq<Step>) {
    && |states| == |steps| + 1 && Initial(c, states[0])
    && forall i :: 0 <= i < |steps| ==>
         Shaped(c, states[i]) && Enabled(c, states[i], steps[i]) && states[i + 1] == Next(c, states[i], steps[i])
  }

  /** No rebuild starts while another one of this instance is under way. */
  ghost predicate OneAtATime(c: Config, states: seq<Sys>, steps: seq<Step>)
    requires |states| == |steps| + 1
  {
    forall i, t :: 0 <= i < |steps| && Starts(c, states[i], steps[i]) && 0 <= t < |states[i].pcs| ==>
      !Rebuilding(states[i].pcs[t])
  }

  /** What WaitUntil relies on: outside the resetting window, no segment shows a position in memory
      that the store does not have. */
  ghost predicate Agrees(b: Sys) {
    !b.resetting ==> NoneAhead(b)
  }

  ghost predicate NoneAhead(b: Sys) {
    |b.rows| == |b.mems| && forall s :: 0 <= s < |b.mems| ==> b.mems[s].position <= b.rows[s].cp.position
  }

  // The invariant

  /** The lease a goroutine goes by: its own copy during a call, the one in memory otherwise. */
  function Going(c: Config, b: Sys, s: nat): Lease
    requires s < |b.pcs| == |b.mems|
  {
    match b.pcs[s]
    case Asking(l) => l
    case Granted(l, _) => l
    case Committing(l, _, _) => l
    case Landed(l, _) => l
    case Wiping(l) => l
    case Reasking(l) => l
    case Regranted(l, _) => l
    case Restating(l, _) => l
    case _ => LeaseOf(c, b, s)
  }

  /** The position it believes the store has. */
  function Believed(pc: Pc): Option<nat> {
    match pc
    case Granted(_, cp) => Some(cp.position)
    case Claimed(cp) => Some(cp.position)
    case Working(pos) => Some(pos)
    case Committing(_, pos, _) => Some(pos)
    case Landed(_, next) => Some(next)
    case Regranted(_, pos) => Some(pos)
    case Reclaimed(pos) => Some(pos)
    case Restating(_, pos) => Some(pos)
    case Ended(resume) => resume
    case _ => None
  }

  ghost predicate SegOk(c: Config, b: Sys, s: nat)
    requires Shaped(c, b) && s < c.segments
  {
    var pc, row, l := b.pcs[s], b.rows[s], Going(c, b, s);
    && l.owner == c.me && l.epoch <= row.epoch && b.mems[s].epoch <= row.epoch
    && (row.owner.Some? ==> row.epoch > 0)
    && (Owned(row, l) && Believed(pc).Some? ==> row.cp.position == Believed(pc).value)
    && (pc.Committing? ==> pc.pos <= pc.next)
    && (pc.Landed? || pc.Regranted? ==> pc.l.epoch > 0)
    && (pc.Committing? || pc.Landed? || pc.Restating? ==> b.mems[s].epoch == pc.l.epoch || b.mems[s].epoch == 0)
  }

  ghost predicate Window(b: Sys) {
    exists s :: 0 <= s < |b.pcs| && b.pcs[s].Wiped?
  }

  /** A status about to be written says nothing the store does not have. */
  predicate Behind(c: Config, b: Sys, s: nat)
    requires Shaped(c, b) && s < c.segments
  {
    var pc, row := b.pcs[s], b.rows[s];
    && b.mems[s].position <= row.cp.position
    && (pc.Landed? && pc.l == LeaseOf(c, b, s) ==> pc.next <= row.cp.position)
    && (pc.Regranted? || pc.Reclaimed? || pc.Restating? ==> pc.pos <= row.cp.position)
  }

  ghost predicate Inv(c: Config, b: Sys) {
    && Shaped(c, b)
    && (forall s :: 0 <= s < c.segments ==> SegOk(c, b, s))
    && OneRebuild(b)
    && (!Window(b) ==> forall s :: 0 <= s < c.segments ==> Behind(c, b, s))
  }

  /** A step that changes one segment only: its row, its memory, its goroutine. */
  ghost predicate Alone(b: Sys, b': Sys, s: nat) {
    && |b.rows| == |b'.rows| == |b.mems| == |b'.mems| == |b.pcs| == |b'.pcs| && s < |b.rows|
    && forall t :: 0 <= t < |b.rows| && t != s ==>
         b'.rows[t] == b.rows[t] && b'.mems[t] == b.mems[t] && b'.pcs[t] == b.pcs[t]
  }

  predicate Wide(act: Act) {
    act.ResetStore? || act.ZeroMemory?
  }

  predicate Calls(act: Act) {
    act.ClaimStore? || act.CommitStore? || act.PublishStore?
  }

  lemma CallSegOk(c: Config, b: Sys, s: nat, act: Act)
    requires Shaped(c, b) && s < c.segments && SegOk(c, b, s) && Can(c, b, s, act) && Calls(act)
    ensures SegOk(c, Do(c, b, s, act), s)
  {}

  lemma TurnSegOk(c: Config, b: Sys, s: nat, act: Act)
    requires Shaped(c, b) && s < c.segments && SegOk(c, b, s) && Can(c, b, s, act) && !Wide(act) && !Calls(act)
    ensures SegOk(c, Do(c, b, s, act), s)
  {
    if act.GiveUp? || act.Begin? {
      GiveBackSegOk(c, b, s, act);
    }
  }

  lemma GiveBackSegOk(c: Config, b: Sys, s: nat, act: Act)
    requires Shaped(c, b) && s < c.segments && SegOk(c, b, s) && Can(c, b, s, act) && (act.GiveUp? || act.Begin?)
    ensures SegOk(c, Do(c, b, s, act), s)
  {}

  lemma OwnSegOk(c: Config, b: Sys, s: nat, act: Act)
    requires Shaped(c, b) && s < c.segments && SegOk(c, b, s) && Can(c, b, s, act) && !Wide(act)
    ensures SegOk(c, Do(c, b, s, act), s)
  {
    if Calls(act) { CallSegOk(c, b, s, act); } else { TurnSegOk(c, b, s, act); }
  }

  /** What a step of its own leaves its status behind: the store only moves on under its lease. */
  lemma OwnBehind(c: Config, b: Sys, s: nat, act: Act)
    requires Shaped(c, b) && s < c.segments && SegOk(c, b, s) && Can(c, b, s, act) && !Wide(act)
    requires Behind(c, b, s)
    ensures Behind(c, Do(c, b, s, act), s)
  {}

  /** One rebuild at a time, and only in the window its caller marks. */
  ghost predicate OneRebuild(b: Sys) {
    && (forall s, t :: 0 <= s < |b.pcs| && 0 <= t < |b.pcs| && Rebuilding(b.pcs[s]) && Rebuilding(b.pcs[t]) ==> s == t)
    && (forall s :: 0 <= s < |b.pcs| && Rebuilding(b.pcs[s]) ==> b.resetting)
  }

  ghost predicate Unmarked(c: Config, b: Sys, step: Step) {
    Starts(c, b, step) ==> forall t :: 0 <= t < |b.pcs| ==> !Rebuilding(b.pcs[t])
  }

  lemma OwnRebuild(c: Config, b: Sys, s: nat, act: Act)
    requires Shaped(c, b) && s < c.segments && Can(c, b, s, act) && OneRebuild(b) && Unmarked(c, b, Mine(s, act))
    ensures OneRebuild(Do(c, b, s, act))
  {
    var b' := Do(c, b, s, act);
    assert forall t :: 0 <= t < |b.pcs| && t != s ==> b'.pcs[t] == b.pcs[t];
    if Rebuilding(b.pcs[s]) {
      assert forall t :: 0 <= t < |b.pcs| && t != s ==> !Rebuilding(b.pcs[t]);
    } else {
      assert b'.resetting == (b.resetting || Starts(c, b, Mine(s, act)));
    }
  }

  lemma MineAlone(c: Config, b: Sys, s: nat, act: Act)
    requires Shaped(c, b) && s < c.segments && Can(c, b, s, act) && !Wide(act)
    ensures Alone(b, Do(c, b, s, act), s) && !b.pcs[s].Wiped? && !Do(c, b, s, act).pcs[s].Wiped?
  {}

  lemma MineKeeps(c: Config, b: Sys, s: nat, act: Act)
    requires Inv(c, b) && s < c.segments && Can(c, b, s, act) && !Wide(act) && Unmarked(c, b, Mine(s, act))
    ensures Inv(c, Do(c, b, s, act))
  {
    OwnSegOk(c, b, s, act);
    OwnRebuild(c, b, s, act);
    MineAlone(c, b, s, act);
    if Behind(c, b, s) { OwnBehind(c, b, s, act); }
    AloneKeeps(c, b, Do(c, b, s, act), s);
  }

  lemma AloneKeeps(c: Config, b: Sys, b': Sys, s: nat)
    requires Inv(c, b) && Shaped(c, b') && s < c.segments && Alone(b, b', s) && !b.pcs[s].Wiped?
    requires SegOk(c, b', s) && OneRebuild(b') && (Behind(c, b, s) ==> Behind(c, b', s))
    ensures Inv(c, b')
  {
    forall t | 0 <= t < c.segments ensures SegOk(c, b', t) {
      assert SegOk(c, b, t);
    }
    WindowStays(b, b', s);
    if !Window(b') {
      forall t | 0 <= t < c.segments ensures Behind(c, b', t) {
        assert Behind(c, b, t);
      }
    }
  }

  lemma WindowStays(b: Sys, b': Sys, s: nat)
    requires Alone(b, b', s) && !b.pcs[s].Wiped?
    ensures Window(b) ==> Window(b')
  {
    if Window(b) {
      var t :| 0 <= t < |b.pcs| && b.pcs[t].Wiped?;
      assert b'.pcs[t].Wiped?;
    }
  }

  lemma ResetKeeps(c: Config, b: Sys, s: nat, now: nat)
    requires Inv(c, b) && s < c.segments && Can(c, b, s, ResetStore(now))
    ensures Inv(c, Do(c, b, s, ResetStore(now)))
  {
    var b' := Do(c, b, s, ResetStore(now));
    assert SegOk(c, b, s) && b.pcs[s].Wiping?;
    OwnRebuild(c, b, s, ResetStore(now));
    if Owned(b.rows[s], b.pcs[s].l) {
      assert b'.pcs[s].Wiped?;
      forall t | 0 <= t < c.segments ensures SegOk(c, b', t) {
        assert SegOk(c, b, t);
      }
    } else {
      AloneKeeps(c, b, b', s);
    }
  }

  /** Zeroing the memory ends the window: every status is back at 0, and what another goroutine still
      has to write was made under a lease no longer in memory. */
  lemma ZeroKeeps(c: Config, b: Sys, s: nat)
    requires Inv(c, b) && s < c.segments && Can(c, b, s, ZeroMemory)
    ensures Inv(c, Do(c, b, s, ZeroMemory))
  {
    var b' := Do(c, b, s, ZeroMemory);
    OwnRebuild(c, b, s, ZeroMemory);
    forall t | 0 <= t < c.segments ensures SegOk(c, b', t) && Behind(c, b', t) {
      assert SegOk(c, b, t);
    }
  }

  lemma OtherKeeps(c: Config, b: Sys, s: nat, other: Other)
    requires Inv(c, b) && s < c.segments && OtherCan(c, b.rows[s], other)
    ensures Inv(c, b.(rows := b.rows[s := OtherRow(b.rows[s], other)]))
  {
    var b' := b.(rows := b.rows[s := OtherRow(b.rows[s], other)]);
    assert b'.pcs == b.pcs && Window(b') == Window(b);
    forall t | 0 <= t < c.segments ensures SegOk(c, b', t) && (Behind(c, b, t) ==> Behind(c, b', t)) {
      assert SegOk(c, b, t);
    }
  }

  lemma StepKeeps(c: Config, b: Sys, step: Step)
    requires Inv(c, b) && Enabled(c, b, step)
    requires Unmarked(c, b, step)
    ensures Inv(c, Next(c, b, step))
  {
    match step
    case Elsewhere(s, other) => OtherKeeps(c, b, s, other);
    case Mine(s, act) =>
      match act {
        case ResetStore(now) => ResetKeeps(c, b, s, now);
        case ZeroMemory => ZeroKeeps(c, b, s);
        case _ => MineKeeps(c, b, s, act);
      }
  }

  lemma {:induction false} RunInv(c: Config, states: seq<Sys>, steps: seq<Step>, n: nat)
    requires Run(c, states, steps) && OneAtATime(c, states, steps) && n <= |steps|
    ensures Inv(c, states[n])
  {
    if n == 0 {
      assert forall s :: 0 <= s < c.segments ==> SegOk(c, states[0], s) && Behind(c, states[0], s);
    } else {
      RunInv(c, states, steps, n - 1);
      StepKeeps(c, states[n - 1], steps[n - 1]);
    }
  }

  // Every run

  /** With the rebuilds of this instance one at a time, no segment's position in memory is ahead of the
      store outside the resetting window, however the goroutines and the other instances interleave. */
  lemma MemoryNeverAhead(c: Config, states: seq<Sys>, steps: seq<Step>, n: nat)
    requires Run(c, states, steps) && OneAtATime(c, states, steps) && n <= |steps|
    ensures Agrees(states[n])
  {
    RunInv(c, states, steps, n);
    var b := states[n];
    if !b.resetting {
      assert forall s :: 0 <= s < c.segments ==> !Rebuilding(b.pcs[s]) && !b.pcs[s].Wiped?;
      forall s | 0 <= s < c.segments ensures b.mems[s].position <= b.rows[s].cp.position {
        assert Behind(c, b, s);
      }
    }
  }

  /** A lease in memory is one the store granted, and while it is the store's own the goroutine knows
      the stored position. */
  lemma HolderKnowsItsPosition(c: Config, states: seq<Sys>, steps: seq<Step>, n: nat, s: nat)
    requires Run(c, states, steps) && OneAtATime(c, states, steps) && n <= |steps| && s < c.segments
    requires Shaped(c, states[n]) && states[n].pcs[s].Working? && Owned(states[n].rows[s], LeaseOf(c, states[n], s))
    ensures states[n].pcs[s].pos == states[n].rows[s].cp.position
  {
    RunInv(c, states, steps, n);
    assert SegOk(c, states[n], s);
  }
}

/** The resetting flag is one bool: with two segments, two rebuilds of one instance can overlap, and
    the one that ends first clears it inside the other's window. */
module StatusWindow {
  import opened Options
  import opened ProjectionRows
  import opened StatusAgreement

  /** Memory and store agree outside the window in every run of the instance. */
  ghost predicate AlwaysAgrees(c: Config) {
    forall states: seq<Sys>, steps: seq<Step> :: Run(c, states, steps) ==>
      forall n :: 0 <= n < |states| ==> Agrees(states[n])
  }

  /** Where rebuilds can only be segment 0's. */
  predicate OnlyFirst(c: Config) {
    c.segments <= 1 || c.version == 0
  }

  lemma OnlyFirstStarts(c: Config, b: Sys, step: Step)
    requires OnlyFirst(c) && Shaped(c, b) && Enabled(c, b, step)
    requires forall s :: 0 <= s < c.segments && Rebuilding(b.pcs[s]) ==> s == 0
    ensures Starts(c, b, step) ==> step.s == 0 && forall t :: 0 <= t < c.segments ==> !Rebuilding(b.pcs[t])
    ensures Shaped(c, Next(c, b, step))
    ensures forall s :: 0 <= s < c.segments && Rebuilding(Next(c, b, step).pcs[s]) ==> s == 0
  {
    var b' := Next(c, b, step);
    if step.Mine? {
      assert forall t :: 0 <= t < c.segments && t != step.s ==> b'.pcs[t] == b.pcs[t];
      assert Rebuilding(b'.pcs[step.s]) ==> Rebuilding(b.pcs[step.s]) || Starts(c, b, step);
    }
  }

  lemma {:induction false} OnlyFirstRebuilds(c: Config, states: seq<Sys>, steps: seq<Step>, n: nat)
    requires OnlyFirst(c) && Run(c, states, steps) && n <= |steps|
    ensures Shaped(c, states[n]) && forall s :: 0 <= s < c.segments && Rebuilding(states[n].pcs[s]) ==> s == 0
  {
    if n > 0 {
      OnlyFirstRebuilds(c, states, steps, n - 1);
      OnlyFirstStarts(c, states[n - 1], steps[n - 1]);
    }
  }

  lemma OnlyFirstAgrees(c: Config)
    requires OnlyFirst(c)
    ensures AlwaysAgrees(c)
  {
    forall states: seq<Sys>, steps: seq<Step> | Run(c, states, steps)
      ensures forall n :: 0 <= n < |states| ==> Agrees(states[n])
    {
      forall i: nat, t: nat | i < |steps| && Starts(c, states[i], steps[i]) && t < |states[i].pcs|
        ensures !Rebuilding(states[i].pcs[t])
      {
        OnlyFirstRebuilds(c, states, steps, i);
        OnlyFirstStarts(c, states[i], steps[i]);
      }
      forall n: nat | n < |states| ensures Agrees(states[n]) {
        MemoryNeverAhead(c, states, steps, n);
      }
    }
  }

  // A run that goes wrong

  ghost predicate Path(c: Config, from: Sys, steps: seq<Step>, states: seq<Sys>) {
    && |states| == |steps| + 1 && states[0] == from
    && forall i :: 0 <= i < |steps| ==>
         Shaped(c, states[i]) && Enabled(c, states[i], steps[i]) && states[i + 1] == Next(c, states[i], steps[i])
  }

  lemma PathThen(c: Config, from: Sys, first: seq<Step>, states: seq<Sys>, second: seq<Step>, more: seq<Sys>)
    requires Path(c, from, first, states) && Path(c, states[|states| - 1], second, more)
    ensures Path(c, from, first + second, states + more[1..])
  {
    var steps, all := first + second, states + more[1..];
    forall i | 0 <= i < |steps|
      ensures Shaped(c, all[i]) && Enabled(c, all[i], steps[i]) && all[i + 1] == Next(c, all[i], steps[i])
    {
      if i >= |first| {
        assert all[i] == more[i - |first|] && steps[i] == second[i - |first|];
      }
    }
  }

  function Left(position: nat): Row {
    Row(Checkpoint(position, 0, 0, None), None, 0, 0, 0, [])
  }

  /** Segment 0 has seen nothing yet; segment 1 was left at position 5 by an older Version. */
  function Start(c: Config): (b: Sys)
    ensures Shaped(c, b)
    ensures forall i :: 0 <= i < c.segments ==>
              b.rows[i] == (if i == 1 then Left(5) else Left(0)) && b.mems[i] == Mem(0, 0) && b.pcs[i] == Idle
  {
    Sys(seq(c.segments, i => if i == 1 then Left(5) else Left(0)), seq(c.segments, _ => Mem(0, 0)),
      seq(c.segments, _ => Idle), false)
  }

  /** A segment is claimed, and its goroutine looks at the checkpoint. */
  function ClaimIt(s: nat): seq<Step> {
    [Mine(s, ReadLease), Mine(s, ClaimStore(9, 0)), Mine(s, KeepLease), Mine(s, Begin(false))]
  }

  lemma ClaimRuns(c: Config, b: Sys, s: nat) returns (states: seq<Sys>)
    requires Shaped(c, b) && s < c.segments && b.pcs[s] == Idle && b.rows[s].owner.None? &&
             b.rows[s].cp.version <= c.version
    ensures Path(c, b, ClaimIt(s), states) && |states| == 5 && Alone(b, states[4], s) && Shaped(c, states[4])
    ensures states[4].pcs[s] ==
            if MustRebuild(c, b.rows[s].cp, false) then Resetting else Working(b.rows[s].cp.position)
    ensures states[4].resetting == (b.resetting || MustRebuild(c, b.rows[s].cp, false))
    ensures Owned(states[4].rows[s], LeaseOf(c, states[4], s)) && states[4].rows[s].cp == b.rows[s].cp
    ensures states[4].rows[s].epoch > 0 && states[4].rows[s].heartbeat == 0 && states[4].rows[s].ttl == 9
    ensures states[4].mems[s].position == b.mems[s].position
  {
    var b1 := Next(c, b, Mine(s, ReadLease));
    var b2 := Next(c, b1, Mine(s, ClaimStore(9, 0)));
    var b3 := Next(c, b2, Mine(s, KeepLease));
    var b4 := Next(c, b3, Mine(s, Begin(false)));
    states := [b, b1, b2, b3, b4];
  }

  function CommitIt(c: Config, next: nat): seq<Step> {
    [Mine(0, Prepare(next)), Mine(0, CommitStore(Checkpoint(next, c.version, 0, None), [], 0)), Mine(0, SetStatus),
     Mine(0, Request)]
  }

  /** Segment 0 commits, its status follows, and a rebuild is asked for. */
  lemma CommitRuns(c: Config, b: Sys, next: nat) returns (states: seq<Sys>)
    requires Shaped(c, b) && c.segments > 0 && b.pcs[0] == Working(0) && Owned(b.rows[0], LeaseOf(c, b, 0))
    ensures Path(c, b, CommitIt(c, next), states) && |states| == 5 && Alone(b, states[4], 0) && Shaped(c, states[4])
    ensures states[4].pcs[0] == Resetting && states[4].mems[0].position == next
    ensures Owned(states[4].rows[0], LeaseOf(c, states[4], 0))
  {
    var b1 := Next(c, b, Mine(0, Prepare(next)));
    var b2 := Next(c, b1, Mine(0, CommitStore(Checkpoint(next, c.version, 0, None), [], 0)));
    var b3 := Next(c, b2, Mine(0, SetStatus));
    var b4 := Next(c, b3, Mine(0, Request));
    states := [b, b1, b2, b3, b4];
  }

  /** Segment 0 resets the store; segment 1's reset is refused, and its caller clears the flag. */
  function OverlapThem(): seq<Step> {
    [Mine(0, ReadLease), Mine(0, ResetStore(0)), Mine(1, ReadLease), Mine(1, ResetStore(0)), Mine(1, RebuildTried)]
  }

  lemma OverlapRuns(c: Config, b: Sys) returns (states: seq<Sys>)
    requires Shaped(c, b) && c.segments >= 2 && b.pcs[0] == b.pcs[1] == Resetting && Owned(b.rows[0], LeaseOf(c, b, 0))
    requires b.mems[0].position > 0
    ensures Path(c, b, OverlapThem(), states) && |states| == 6
    ensures Shaped(c, states[5]) && !Agrees(states[5])
  {
    var b1 := Next(c, b, Mine(0, ReadLease));
    var b2 := Next(c, b1, Mine(0, ResetStore(0)));
    var b3 := Next(c, b2, Mine(1, ReadLease));
    assert b3.rows[1].owner.None?;
    var b4 := Next(c, b3, Mine(1, ResetStore(0)));
    var b5 := Next(c, b4, Mine(1, RebuildTried));
    states := [b, b1, b2, b3, b4, b5];
    assert b5.mems[0].position > b5.rows[0].cp.position;
  }

  lemma SomeRunDisagrees(c: Config) returns (states: seq<Sys>, steps: seq<Step>)
    requires c.segments >= 2 && c.version > 0
    ensures Run(c, states, steps) && !Agrees(states[|steps|])
  {
    var claim1 := ClaimRuns(c, Start(c), 1);
    var claim0 := ClaimRuns(c, claim1[4], 0);
    var commit := CommitRuns(c, claim0[4], 7);
    var overlap := OverlapRuns(c, commit[4]);
    PathThen(c, commit[0], CommitIt(c, 7), commit, OverlapThem(), overlap);
    var tail := commit + overlap[1..];
    PathThen(c, claim0[0], ClaimIt(0), claim0, CommitIt(c, 7) + OverlapThem(), tail);
    var rest := claim0 + tail[1..];
    PathThen(c, claim1[0], ClaimIt(1), claim1, ClaimIt(0) + (CommitIt(c, 7) + OverlapThem()), rest);
    states := claim1 + rest[1..];
    steps := ClaimIt(1) + (ClaimIt(0) + (CommitIt(c, 7) + OverlapThem()));
    assert states[|steps|] == overlap[5];
  }

  /** Memory and store agree outside the resetting window in every run if and only if there is one
      segment, or the Version is 0, so that no two rebuilds of the instance can overlap. */
  lemma AgreesIff(c: Config)
    ensures AlwaysAgrees(c) <==> c.segments <= 1 || c.version == 0
  {
    if OnlyFirst(c) {
      OnlyFirstAgrees(c);
    } else {
      var states, steps := SomeRunDisagrees(c);
      assert !Agrees(states[|steps|]);
    }
  }
}
