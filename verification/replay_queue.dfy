/** projection/replay.go: replay requests, polled from the store and queued for the segments an
    instance processes, and the flag that says whether the next poll should read at all. */
module ReplayQueue {
  import opened Sequences

  datatype Replay = Replay(number: nat, stream: string, segment: nat)

  /** What the runner keeps under its mutex. parked are the segments noted to have parked streams. */
  datatype Memory = Memory(pending: map<nat, seq<Replay>>, queued: set<Replay>, poll: bool, active: set<nat>,
      parked: set<nat>)
  {
    function Queue(s: nat): seq<Replay> {
      if s in pending then pending[s] else []
    }

    /** Whether the regular poll reads the store. */
    predicate Wanted() {
      poll || exists s :: s in active && s in parked
    }

    function QueueOne(rp: Replay): Memory {
      if rp.segment in active && rp !in queued then
        this.(queued := queued + {rp}, pending := pending[rp.segment := Queue(rp.segment) + [rp]])
      else this
    }

    function QueueAll(found: seq<Replay>): Memory {
      if found == [] then this
      else QueueAll(found[..|found| - 1]).QueueOne(found[|found| - 1])
    }

    function Taken(s: nat): Memory {
      this.(pending := pending - {s})
    }

    function Dropped(reqs: seq<Replay>): Memory {
      this.(queued := queued - set rp | rp in reqs)
    }

    function Active(s: nat): Memory {
      this.(active := active + {s}, poll := true)
    }

    /** What is queued for a segment given up stays pending in the store only. */
    function Inactive(s: nat): Memory {
      this.(active := active - {s}, queued := queued - (set rp | rp in Queue(s)), pending := pending - {s})
    }

    function Noted(s: nat, some: bool): Memory {
      this.(parked := if some then parked + {s} else parked - {s})
    }
  }

  class Replays {
    var pending: map<nat, seq<Replay>>
    var queued: set<Replay>
    var poll: bool
    var active: set<nat>
    var parked: set<nat>

    ghost function View(): Memory
      reads this
    {
      Memory(pending, queued, poll, active, parked)
    }

    /** The second half of queueReplays: each request found is queued once, for a segment processed here. */
    method QueueFound(found: seq<Replay>)
      modifies this
      ensures View() == old(View()).QueueAll(found)
    {
      for i := 0 to |found|
        invariant View() == old(View()).QueueAll(found[..i])
      {
        var rp := found[i];
        assert found[..i + 1][..i] == found[..i];
        if rp.segment !in active || rp in queued {
          continue;
        }
        queued := queued + {rp};
        pending := pending[rp.segment := (if rp.segment in pending then pending[rp.segment] else []) + [rp]];
      }
      assert found[..|found|] == found;
    }

    method Take(s: nat) returns (reqs: seq<Replay>)
      modifies this
      ensures reqs == old(View()).Queue(s) && View() == old(View()).Taken(s)
    {
      reqs := if s in pending then pending[s] else [];
      pending := pending - {s};
    }

    method Drop(reqs: seq<Replay>)
      modifies this
      ensures View() == old(View()).Dropped(reqs)
    {
      for i := 0 to |reqs|
        invariant View() == old(View()).Dropped(reqs[..i])
      {
        assert reqs[..i + 1] == reqs[..i] + [reqs[i]];
        queued := queued - {reqs[i]};
      }
      assert reqs[..|reqs|] == reqs;
    }

    method SetActive(s: nat, on: bool)
      modifies this
      ensures View() == if on then old(View()).Active(s) else old(View()).Inactive(s)
    {
      if on {
        active, poll := active + {s}, true;
        return;
      }
      var reqs := Take(s);
      active := active - {s};
      Drop(reqs);
    }

    method ReplaysWanted(segments: nat) returns (wanted: bool)
      requires forall s :: s in active ==> s < segments
      ensures wanted == View().Wanted()
    {
      if poll {
        return true;
      }
      for s := 0 to segments
        invariant forall t: nat :: t < s ==> !(t in active && t in parked)
      {
        if s in active && s in parked {
          return true;
        }
      }
      wanted := false;
    }
  }

  // The goroutines

  /** The poller: it has cleared the flag, or read the pending requests. */
  datatype Poller = Resting | Cleared | Found(replays: seq<Replay>)

  /** A segment's goroutine: Fresh has not loaded the parked streams, Noting has saved a dead letter
      not noted yet, Serving replays its requests from i on, and Dropping set the flag and forgets them. */
  datatype Pc = Away | Fresh | Working | Noting | Serving(reqs: seq<Replay>, i: nat) | Dropping(reqs: seq<Replay>,
      lost: bool)

  /** The instance, and in the store the streams with dead letters, the requests pending and the
      number of the last one. */
  datatype Sys = Sys(mem: Memory, poller: Poller, pcs: seq<Pc>, letters: seq<set<string>>, open: set<Replay>, last: nat)

  datatype Act =
    | Request(stream: string)
    | Clear | Read(found: seq<Replay>) | ReadFails | Queue
    | Claim(s: nat) | Load(s: nat) | Save(s: nat, stream: string) | Note(s: nat) | Begin(s: nat)
    | Serve(s: nat, applied: bool, recorded: bool) | End(s: nat) | Forget(s: nat) | Lose(s: nat)
    | Elsewhere(s: nat, streams: set<string>, closed: set<Replay>)

  function Asked(b: Sys, stream: string, number: nat): set<Replay> {
    set s | 0 <= s < |b.letters| && stream in b.letters[s] :: Replay(number, stream, s)
  }

  /** Whether another instance may have the segment. */
  predicate Gone(pc: Pc) {
    pc.Away? || (pc.Dropping? && pc.lost)
  }

  ghost predicate Enabled(b: Sys, act: Act, fallible: bool) {
    |b.pcs| == |b.letters| &&
    match act
    case Request(_) => true
    case Clear => b.poller.Resting?
    case Read(found) => b.poller.Cleared? && forall rp :: rp in found <==> rp in b.open
    case ReadFails => b.poller.Cleared?
    case Queue => b.poller.Found?
    case Claim(s) => s < |b.pcs| && b.pcs[s].Away?
    case Load(s) => s < |b.pcs| && b.pcs[s].Fresh?
    case Save(s, _) => s < |b.pcs| && b.pcs[s].Working?
    case Note(s) => s < |b.pcs| && b.pcs[s].Noting?
    case Begin(s) => s < |b.pcs| && b.pcs[s].Working? && b.mem.Queue(s) != []
    case Serve(s, _, recorded) =>
      s < |b.pcs| && b.pcs[s].Serving? && b.pcs[s].i < |b.pcs[s].reqs| && (fallible || recorded)
    case End(s) => s < |b.pcs| && b.pcs[s].Serving? && b.pcs[s].i == |b.pcs[s].reqs|
    case Forget(s) => s < |b.pcs| && b.pcs[s].Dropping?
    case Lose(s) => s < |b.pcs| && !b.pcs[s].Away? && !b.pcs[s].Dropping?
    case Elsewhere(s, _, closed) => s < |b.pcs| && Gone(b.pcs[s]) && forall rp :: rp in closed ==> rp.segment == s
  }

  function Goto(b: Sys, s: nat, pc: Pc): Sys
    requires s < |b.pcs|
  {
    b.(pcs := b.pcs[s := pc])
  }

  function Next(b: Sys, act: Act, fallible: bool): Sys
    requires Enabled(b, act, fallible)
  {
    match act
    case Request(stream) => b.(open := b.open + Asked(b, stream, b.last + 1), last := b.last + 1)
    case Clear => b.(poller := Cleared, mem := b.mem.(poll := false))
    case Read(found) => b.(poller := Found(found))
    case ReadFails => b.(poller := Resting, mem := b.mem.(poll := true))
    case Queue => b.(poller := Resting, mem := b.mem.QueueAll(b.poller.replays))
    case Claim(s) => Goto(b, s, Fresh).(mem := b.mem.Active(s))
    case Load(s) => Goto(b, s, Working).(mem := b.mem.Noted(s, b.letters[s] != {}))
    case Save(s, stream) => Goto(b, s, Noting).(letters := b.letters[s := b.letters[s] + {stream}])
    case Note(s) => Goto(b, s, Working).(mem := b.mem.Noted(s, true))
    case Begin(s) => Goto(b, s, Serving(b.mem.Queue(s), 0)).(mem := b.mem.Taken(s))
    case Serve(s, applied, recorded) =>
      var pc := b.pcs[s];
      var rp := pc.reqs[pc.i];
      var left := if applied then b.letters[s] - {rp.stream} else b.letters[s];
      Sys(b.mem.Noted(s, left != {}), b.poller, b.pcs[s := pc.(i := pc.i + 1)], b.letters[s := left],
          if recorded then b.open - {rp} else b.open, b.last)
    case End(s) => Goto(b, s, Dropping(b.pcs[s].reqs, false)).(mem := b.mem.(poll := true))
    case Forget(s) =>
      var dropped := b.mem.Dropped(b.pcs[s].reqs);
      if b.pcs[s].lost then Goto(b, s, Away).(mem := dropped.Inactive(s)) else Goto(b, s, Working).(mem := dropped)
    case Lose(s) =>
      if b.pcs[s].Serving? then Goto(b, s, Dropping(b.pcs[s].reqs, true)).(mem := b.mem.(poll := true))
      else Goto(b, s, Away).(mem := b.mem.Inactive(s))
    case Elsewhere(s, streams, closed) => b.(letters := b.letters[s := streams], open := b.open - closed)
  }

  ghost predicate Initial(b: Sys) {
    && b.mem == Memory(map[], {}, false, {}, {}) && b.poller == Resting && |b.pcs| == |b.letters|
    && (forall s :: 0 <= s < |b.pcs| ==> b.pcs[s] == Away)
    && forall rp :: rp in b.open ==> rp.segment < |b.pcs| && rp.number <= b.last
  }

  /** fallible: a FinishReplay may fail for another reason than a lost claim. */
  ghost predicate Run(fallible: bool, states: seq<Sys>, acts: seq<Act>) {
    && |states| == |acts| + 1 && Initial(states[0])
    && forall i :: 0 <= i < |acts| ==>
         Enabled(states[i], acts[i], fallible) && states[i + 1] == Next(states[i], acts[i], fallible)
  }

  // Queued once

  function Held(pc: Pc): seq<Replay> {
    if pc.Serving? || pc.Dropping? then pc.reqs else []
  }

  /** Of a segment: what it holds and what waits for it are its own requests, each once, and queued. */
  ghost predicate Line(m: Memory, pc: Pc, s: nat) {
    && Distinct(Held(pc) + m.Queue(s))
    && (forall rp :: rp in Held(pc) || rp in m.Queue(s) <==> rp in m.queued && rp.segment == s)
    && (s in m.active <==> !pc.Away?) && (pc.Away? ==> m.Queue(s) == [])
    && (pc.Serving? ==> pc.i <= |pc.reqs|)
  }

  ghost predicate Lines(b: Sys) {
    && |b.pcs| == |b.letters|
    && (forall s :: 0 <= s < |b.pcs| ==> Line(b.mem, b.pcs[s], s))
    && (forall s :: s in b.mem.active ==> s < |b.pcs|)
  }

  lemma QueueOneLine(m: Memory, pc: Pc, s: nat, rp: Replay)
    requires Line(m, pc, s)
    ensures Line(m.QueueOne(rp), pc, s)
  {
    var m' := m.QueueOne(rp);
    if m' != m && rp.segment == s {
      var all := Held(pc) + m.Queue(s);
      assert rp !in Held(pc) && rp !in m.Queue(s);
      assert Held(pc) + m'.Queue(s) == all + [rp];
      assert forall i :: 0 <= i < |all| ==> all[i] in Held(pc) || all[i] in m.Queue(s);
    } else {
      assert m'.Queue(s) == m.Queue(s);
    }
  }

  lemma {:induction false} QueueAllLine(m: Memory, pc: Pc, s: nat, found: seq<Replay>)
    requires Line(m, pc, s)
    ensures Line(m.QueueAll(found), pc, s) && m.QueueAll(found).active == m.active
    ensures m.QueueAll(found).poll == m.poll && m.QueueAll(found).parked == m.parked &&
            m.queued <= m.QueueAll(found).queued
    ensures forall rp :: rp in found && rp.segment in m.active ==> rp in m.QueueAll(found).queued
  {
    if found != [] {
      var n := |found| - 1;
      QueueAllLine(m, pc, s, found[..n]);
      QueueOneLine(m.QueueAll(found[..n]), pc, s, found[n]);
      assert found == found[..n] + [found[n]];
    }
  }

  lemma DistinctParts(a: seq<Replay>, b: seq<Replay>)
    requires Distinct(a + b)
    ensures Distinct(b) && forall rp :: rp in b ==> rp !in a
  {
    assert forall i :: 0 <= i < |a| ==> (a + b)[i] == a[i];
    assert forall i :: 0 <= i < |b| ==> (a + b)[|a| + i] == b[i];
  }

  /** Dropping what a goroutine held leaves what waits. */
  lemma DropOwn(m: Memory, pc: Pc, s: nat)
    requires Line(m, pc, s) && !pc.Away?
    ensures Line(m.Dropped(Held(pc)), Working, s)
  {
    DistinctParts(Held(pc), m.Queue(s));
    assert m.Dropped(Held(pc)).Queue(s) == m.Queue(s) == Held(Working) + m.Queue(s);
  }

  lemma DropOther(m: Memory, pc: Pc, s: nat, reqs: seq<Replay>)
    requires Line(m, pc, s) && forall rp :: rp in reqs ==> rp.segment != s
    ensures Line(m.Dropped(reqs), pc, s)
  {}

  predicate Moves(act: Act) {
    act.Queue? || act.Claim? || act.Begin? || act.Forget? || act.Lose?
  }

  lemma SameLine(m: Memory, m': Memory, pc: Pc, pc': Pc, s: nat)
    requires Line(m, pc, s) && m'.pending == m.pending && m'.queued == m.queued && m'.active == m.active
    requires Held(pc') == Held(pc) && pc'.Away? == pc.Away? && (pc'.Serving? ==> pc'.i <= |pc'.reqs|)
    ensures Line(m', pc', s)
  {}

  /** Steps that queue, take or drop nothing. */
  lemma QuietLine(b: Sys, act: Act, fallible: bool, t: nat)
    requires Lines(b) && Enabled(b, act, fallible) && t < |b.pcs| && !Moves(act)
    ensures Line(Next(b, act, fallible).mem, Next(b, act, fallible).pcs[t], t)
  {
    SameLine(b.mem, Next(b, act, fallible).mem, b.pcs[t], Next(b, act, fallible).pcs[t], t);
  }

  lemma ClaimLine(b: Sys, s: nat, t: nat)
    requires Lines(b) && s < |b.pcs| && b.pcs[s].Away? && t < |b.pcs|
    ensures Line(b.mem.Active(s), if s == t then Fresh else b.pcs[t], t)
  {
    assert Line(b.mem, b.pcs[t], t);
  }

  /** Taking what waits moves it to the goroutine's hands. */
  lemma TakeLine(m: Memory, s: nat)
    requires Line(m, Working, s)
    ensures Line(m.Taken(s), Serving(m.Queue(s), 0), s)
  {
    assert m.Taken(s).Queue(s) == [];
    assert m.Queue(s) + [] == m.Queue(s) == [] + m.Queue(s);
  }

  lemma BeginLine(b: Sys, s: nat, t: nat)
    requires Lines(b) && s < |b.pcs| && b.pcs[s].Working? && t < |b.pcs|
    ensures Line(b.mem.Taken(s), if s == t then Serving(b.mem.Queue(s), 0) else b.pcs[t], t)
  {
    assert Line(b.mem, b.pcs[t], t);
    if s == t {
      TakeLine(b.mem, s);
    } else {
      assert b.mem.Taken(s).Queue(t) == b.mem.Queue(t);
    }
  }

  /** A segment given up leaves nothing queued. */
  lemma InactiveLine(m: Memory, pc: Pc, s: nat, t: nat, own: Pc)
    requires Line(m, pc, t) && Line(m, own, s) && Held(own) == [] && (s == t ==> own == pc)
    ensures Line(m.Inactive(s), if s == t then Away else pc, t)
  {
    assert forall rp :: rp in m.Queue(s) ==> rp.segment == s;
  }

  lemma ForgetLine(b: Sys, s: nat, t: nat, fallible: bool)
    requires Lines(b) && Enabled(b, Forget(s), fallible) && t < |b.pcs|
    ensures Line(Next(b, Forget(s), fallible).mem, Next(b, Forget(s), fallible).pcs[t], t)
  {
    var reqs := b.pcs[s].reqs;
    assert Line(b.mem, b.pcs[t], t) && Line(b.mem, b.pcs[s], s);
    DropOwn(b.mem, b.pcs[s], s);
    if s != t {
      DropOther(b.mem, b.pcs[t], t, reqs);
    }
    if b.pcs[s].lost {
      InactiveLine(b.mem.Dropped(reqs), if s == t then Working else b.pcs[t], s, t, Working);
    }
  }

  lemma LoseLine(b: Sys, s: nat, t: nat, fallible: bool)
    requires Lines(b) && Enabled(b, Lose(s), fallible) && t < |b.pcs|
    ensures Line(Next(b, Lose(s), fallible).mem, Next(b, Lose(s), fallible).pcs[t], t)
  {
    assert Line(b.mem, b.pcs[t], t) && Line(b.mem, b.pcs[s], s);
    if !b.pcs[s].Serving? {
      InactiveLine(b.mem, b.pcs[t], s, t, b.pcs[s]);
    }
  }

  lemma LineAfter(b: Sys, act: Act, fallible: bool, t: nat)
    requires Lines(b) && Enabled(b, act, fallible) && t < |b.pcs|
    ensures Line(Next(b, act, fallible).mem, Next(b, act, fallible).pcs[t], t)
  {
    match act {
      case Queue =>
        assert Line(b.mem, b.pcs[t], t);
        QueueAllLine(b.mem, b.pcs[t], t, b.poller.replays);
      case Claim(s) => ClaimLine(b, s, t);
      case Begin(s) => BeginLine(b, s, t);
      case Forget(s) => ForgetLine(b, s, t, fallible);
      case Lose(s) => LoseLine(b, s, t, fallible);
      case _ => QuietLine(b, act, fallible, t);
    }
  }

  lemma {:induction false} QueueAllActive(m: Memory, found: seq<Replay>)
    ensures m.QueueAll(found).active == m.active && m.QueueAll(found).parked == m.parked
    ensures m.QueueAll(found).poll == m.poll && m.queued <= m.QueueAll(found).queued
    ensures forall rp :: rp in found && rp.segment in m.active ==> rp in m.QueueAll(found).queued
    ensures forall rp :: rp in m.QueueAll(found).queued ==> rp in m.queued || rp in found
  {
    if found != [] {
      var n := |found| - 1;
      QueueAllActive(m, found[..n]);
      assert found == found[..n] + [found[n]];
    }
  }

  lemma LinesKept(b: Sys, act: Act, fallible: bool)
    requires Lines(b) && Enabled(b, act, fallible)
    ensures Lines(Next(b, act, fallible))
  {
    forall t | 0 <= t < |b.pcs| ensures Line(Next(b, act, fallible).mem, Next(b, act, fallible).pcs[t], t) {
      LineAfter(b, act, fallible, t);
    }
    if act.Queue? {
      QueueAllActive(b.mem, b.poller.replays);
    }
  }

  /** In every run a request is queued at most once: what a segment holds and what waits for it are
      its own requests, none twice, and nothing else is marked as queued. */
  lemma {:induction false} QueuedOnce(fallible: bool, states: seq<Sys>, acts: seq<Act>, n: nat)
    requires Run(fallible, states, acts) && n <= |acts|
    ensures Lines(states[n])
  {
    if n > 0 {
      QueuedOnce(fallible, states, acts, n - 1);
      LinesKept(states[n - 1], acts[n - 1], fallible);
    }
  }

  // None forgotten

  /** A goroutine that has loaded its parked streams has noted them. */
  predicate Knows(b: Sys, s: nat)
    requires s < |b.pcs| == |b.letters|
  {
    (b.pcs[s].Working? || b.pcs[s].Serving? || (b.pcs[s].Dropping? && !b.pcs[s].lost)) && b.letters[s] != {} ==>
      s in b.mem.parked
  }

  /** What a goroutine has served is no longer pending. */
  predicate Settled(b: Sys, s: nat)
    requires s < |b.pcs|
  {
    var pc := b.pcs[s];
    && (pc.Serving? ==> pc.i <= |pc.reqs| && forall j :: 0 <= j < pc.i ==> pc.reqs[j] !in b.open)
    && (pc.Dropping? && !pc.lost ==> forall j :: 0 <= j < |pc.reqs| ==> pc.reqs[j] !in b.open)
    && (forall j :: 0 <= j < |Held(pc)| ==> Held(pc)[j].number <= b.last)
  }

  /** A pending request of a segment processed here is queued, or about to be seen by a poll, or the
      next poll reads. */
  predicate Covered(b: Sys, rp: Replay)
    requires rp.segment < |b.pcs| == |b.letters|
  {
    var pc := b.pcs[rp.segment];
    || rp in b.mem.queued || b.mem.poll || b.poller.Cleared? || (b.poller.Found? && rp in b.poller.replays)
    || pc.Serving?
    || ((pc.Fresh? || pc.Noting?) && b.letters[rp.segment] != {})
    || ((pc.Working? || pc.Dropping?) && rp.segment in b.mem.parked)
  }

  /** Every pending request of a segment processed here stays in sight. */
  ghost predicate InSight(b: Sys) {
    |b.pcs| == |b.letters| &&
    forall rp :: rp in b.open && rp.segment < |b.pcs| && !Gone(b.pcs[rp.segment]) ==> Covered(b, rp)
  }

  /** What holds whether outcomes are always recorded or not. */
  ghost predicate Inv(b: Sys) {
    && Lines(b)
    && (forall s :: 0 <= s < |b.pcs| ==> Knows(b, s))
    && (forall rp :: rp in b.open ==> rp.segment < |b.pcs|)
  }

  /** What holds when they are: what was served is no longer pending, and no number comes twice. */
  ghost predicate Recorded(b: Sys) {
    && Lines(b)
    && (forall s :: 0 <= s < |b.pcs| ==> Settled(b, s))
    && (forall rp :: rp in b.open ==> rp.number <= b.last)
    && (forall rp :: rp in b.mem.queued ==> rp.number <= b.last)
    && (b.poller.Found? ==> forall rp :: rp in b.poller.replays ==> rp.number <= b.last)
  }

  /** What is noted changes only for the segment that acts. */
  lemma ParkedAfter(b: Sys, act: Act, fallible: bool, t: nat)
    requires Enabled(b, act, fallible) && t < |b.pcs|
    ensures !((act.Load? || act.Note? || act.Serve?) && act.s == t) ==>
              (t in Next(b, act, fallible).mem.parked <==> t in b.mem.parked)
  {
    if act.Queue? { QueueAllActive(b.mem, b.poller.replays); }
  }

  lemma KnowsKept(b: Sys, act: Act, fallible: bool, t: nat)
    requires Lines(b) && Enabled(b, act, fallible) && t < |b.pcs| && Knows(b, t)
    ensures Knows(Next(b, act, fallible), t)
  {
    ParkedAfter(b, act, fallible, t);
    var b' := Next(b, act, fallible);
    if b'.pcs[t] == b.pcs[t] {
      assert b'.letters[t] == b.letters[t] || Gone(b.pcs[t]);
    }
  }

  /** What becomes pending has a new number. */
  lemma OpenAfter(b: Sys, act: Act, fallible: bool)
    requires Enabled(b, act, fallible)
    ensures b.last <= Next(b, act, fallible).last
    ensures forall rp :: rp in Next(b, act, fallible).open ==> rp in b.open || rp.number > b.last
  {}

  lemma SettledStays(b: Sys, b': Sys, t: nat)
    requires t < |b.pcs| == |b'.pcs| && Settled(b, t) && b'.pcs[t] == b.pcs[t] && b.last <= b'.last
    requires forall rp :: rp in b'.open ==> rp in b.open || rp.number > b.last
    ensures Settled(b', t)
  {
    var pc := b.pcs[t];
    assert forall j :: 0 <= j < |Held(pc)| ==>
             Held(pc)[j].number <= b.last && (Held(pc)[j] in b'.open ==> Held(pc)[j] in b.open);
    assert pc.Serving? || pc.Dropping? ==> Held(pc) == pc.reqs;
  }

  lemma ServeSettles(b: Sys, t: nat, applied: bool)
    requires |b.letters| == |b.pcs| && t < |b.pcs| && Settled(b, t) && Enabled(b, Serve(t, applied, true), false)
    ensures Settled(Next(b, Serve(t, applied, true), false), t)
  {
    assert Held(b.pcs[t]) == b.pcs[t].reqs;
  }

  lemma BeginSettles(b: Sys, t: nat)
    requires Recorded(b) && Enabled(b, Begin(t), false)
    ensures Settled(Next(b, Begin(t), false), t)
  {
    assert Line(b.mem, b.pcs[t], t);
    forall j | 0 <= j < |b.mem.Queue(t)| ensures b.mem.Queue(t)[j].number <= b.last {
      assert b.mem.Queue(t)[j] in b.mem.queued;
    }
  }

  lemma EndSettles(b: Sys, t: nat)
    requires |b.letters| == |b.pcs| && t < |b.pcs| && Settled(b, t) && Enabled(b, End(t), false)
    ensures Settled(Next(b, End(t), false), t)
  {
    assert Held(Next(b, End(t), false).pcs[t]) == Held(b.pcs[t]) == b.pcs[t].reqs;
  }

  lemma LoseSettles(b: Sys, t: nat)
    requires |b.letters| == |b.pcs| && t < |b.pcs| && Settled(b, t) && Enabled(b, Lose(t), false)
    ensures Settled(Next(b, Lose(t), false), t)
  {
    var pc' := Next(b, Lose(t), false).pcs[t];
    assert Held(pc') == [] || Held(pc') == Held(b.pcs[t]);
  }

  lemma SettledMoves(b: Sys, act: Act, t: nat)
    requires Recorded(b) && Enabled(b, act, false) && t < |b.pcs| && Next(b, act, false).pcs[t] != b.pcs[t]
    ensures Settled(Next(b, act, false), t)
  {
    assert Settled(b, t);
    match act
    case Serve(_, applied, _) => ServeSettles(b, t, applied);
    case Begin(_) => BeginSettles(b, t);
    case End(_) => EndSettles(b, t);
    case Lose(_) => LoseSettles(b, t);
    case _ =>
  }

  lemma SettledKept(b: Sys, act: Act, t: nat)
    requires Recorded(b) && Enabled(b, act, false) && t < |b.pcs|
    ensures Settled(Next(b, act, false), t)
  {
    var b' := Next(b, act, false);
    if b'.pcs[t] == b.pcs[t] {
      OpenAfter(b, act, false);
      assert Settled(b, t);
      SettledStays(b, b', t);
    } else {
      SettledMoves(b, act, t);
    }
  }

  lemma NotAmong(reqs: seq<Replay>, open: set<Replay>, rp: Replay)
    requires rp in open && forall j :: 0 <= j < |reqs| ==> reqs[j] !in open
    ensures rp !in reqs
  {}

  lemma PollCovers(b: Sys, rp: Replay, fallible: bool)
    requires Inv(b) && InSight(b) && Enabled(b, Queue, fallible) && rp in b.open && !Gone(b.pcs[rp.segment])
    ensures Covered(Next(b, Queue, fallible), rp)
  {
    assert Covered(b, rp) && Line(b.mem, b.pcs[rp.segment], rp.segment);
    QueueAllActive(b.mem, b.poller.replays);
  }

  /** The goroutine is about to forget a request that is still pending, when the flag it set is already
      cleared, no poll under way has seen the request, and its segment has no dead letters noted. */
  ghost predicate LosesSight(b: Sys, act: Act) {
    act.Forget? && act.s < |b.pcs| && b.pcs[act.s].Dropping? && !b.pcs[act.s].lost &&
    !b.mem.poll && !b.poller.Cleared? && act.s !in b.mem.parked &&
    exists rp :: rp in b.pcs[act.s].reqs && rp in b.open && !(b.poller.Found? && rp in b.poller.replays)
  }

  lemma ForgetCovers(b: Sys, t: nat, rp: Replay, fallible: bool)
    requires Inv(b) && InSight(b) && Enabled(b, Forget(t), fallible) && rp in b.open && !Gone(b.pcs[rp.segment])
    requires !Gone(Next(b, Forget(t), fallible).pcs[rp.segment]) && !LosesSight(b, Forget(t))
    ensures Covered(Next(b, Forget(t), fallible), rp)
  {
    assert Covered(b, rp) && Line(b.mem, b.pcs[t], t);
  }

  lemma LoseCovers(b: Sys, t: nat, rp: Replay, fallible: bool)
    requires Inv(b) && InSight(b) && Enabled(b, Lose(t), fallible) && rp in b.open && !Gone(b.pcs[rp.segment])
    requires !Gone(Next(b, Lose(t), fallible).pcs[rp.segment])
    ensures Covered(Next(b, Lose(t), fallible), rp)
  {
    assert Covered(b, rp) && Line(b.mem, b.pcs[t], t);
  }

  lemma OtherTurnCovers(b: Sys, act: Act, rp: Replay, fallible: bool)
    requires Inv(b) && InSight(b) && Enabled(b, act, fallible) && rp in b.open && rp in Next(b, act, fallible).open
    requires !Gone(b.pcs[rp.segment]) && !act.Queue? && !act.Forget? && !act.Lose?
    ensures Covered(Next(b, act, fallible), rp)
  {
    assert Covered(b, rp) && Knows(b, rp.segment);
    ParkedAfter(b, act, fallible, rp.segment);
  }

  /** What the goroutines do covers a request to the end. */
  lemma TurnCovers(b: Sys, act: Act, rp: Replay, fallible: bool)
    requires Inv(b) && InSight(b) && Enabled(b, act, fallible) && !LosesSight(b, act)
    requires rp in b.open && rp in Next(b, act, fallible).open
    requires !Gone(b.pcs[rp.segment]) && !Gone(Next(b, act, fallible).pcs[rp.segment])
    ensures Covered(Next(b, act, fallible), rp)
  {
    match act
    case Queue => PollCovers(b, rp, fallible);
    case Forget(t) => ForgetCovers(b, t, rp, fallible);
    case Lose(t) => LoseCovers(b, t, rp, fallible);
    case _ => OtherTurnCovers(b, act, rp, fallible);
  }

  /** A new request is covered: its segment has dead letters, and the goroutine knows or will. */
  lemma RequestCovered(b: Sys, stream: string, rp: Replay, fallible: bool)
    requires Inv(b) && rp in Asked(b, stream, b.last + 1) && !Gone(b.pcs[rp.segment])
    ensures Covered(Next(b, Request(stream), fallible), rp)
  {
    assert Knows(b, rp.segment);
  }

  lemma InvKept(b: Sys, act: Act, fallible: bool)
    requires Inv(b) && Enabled(b, act, fallible)
    ensures Inv(Next(b, act, fallible))
  {
    LinesKept(b, act, fallible);
    forall s | 0 <= s < |b.pcs| ensures Knows(Next(b, act, fallible), s) {
      KnowsKept(b, act, fallible, s);
    }
  }

  lemma InSightKept(b: Sys, act: Act, fallible: bool)
    requires Inv(b) && InSight(b) && Enabled(b, act, fallible) && !LosesSight(b, act)
    ensures InSight(Next(b, act, fallible))
  {
    var b' := Next(b, act, fallible);
    InvKept(b, act, fallible);
    forall rp | rp in b'.open && !Gone(b'.pcs[rp.segment]) ensures Covered(b', rp) {
      if rp !in b.open {
        RequestCovered(b, act.stream, rp, fallible);
      } else if !Gone(b.pcs[rp.segment]) {
        TurnCovers(b, act, rp, fallible);
      }
    }
  }

  /** It is then out of sight at once. */
  lemma SightIsLost(b: Sys, act: Act, fallible: bool)
    requires Inv(b) && Enabled(b, act, fallible) && LosesSight(b, act)
    ensures !InSight(Next(b, act, fallible))
  {
    var rp :| rp in b.pcs[act.s].reqs && rp in b.open && !(b.poller.Found? && rp in b.poller.replays);
    assert Line(b.mem, b.pcs[act.s], act.s);
    assert rp.segment == act.s && !Covered(Next(b, act, fallible), rp);
  }

  lemma {:induction false} RunInv(fallible: bool, states: seq<Sys>, acts: seq<Act>, n: nat)
    requires Run(fallible, states, acts) && n <= |acts|
    ensures Inv(states[n])
  {
    if n > 0 {
      RunInv(fallible, states, acts, n - 1);
      InvKept(states[n - 1], acts[n - 1], fallible);
    }
  }

  lemma {:induction false} StaysInSight(fallible: bool, states: seq<Sys>, acts: seq<Act>, n: nat)
    requires Run(fallible, states, acts) && n <= |acts|
    requires forall i :: 0 <= i < n ==> !LosesSight(states[i], acts[i])
    ensures InSight(states[n])
  {
    if n > 0 {
      StaysInSight(fallible, states, acts, n - 1);
      RunInv(fallible, states, acts, n - 1);
      InSightKept(states[n - 1], acts[n - 1], fallible);
    }
  }

  /** A run keeps every pending request of the segments processed here in sight if and only if no
      goroutine in it forgets one after a poll has cleared the flag it set. */
  lemma InSightIff(fallible: bool, states: seq<Sys>, acts: seq<Act>)
    requires Run(fallible, states, acts)
    ensures (forall n :: 0 <= n < |states| ==> InSight(states[n])) <==>
            forall i :: 0 <= i < |acts| ==> !LosesSight(states[i], acts[i])
  {
    if forall n :: 0 <= n < |states| ==> InSight(states[n]) {
      forall i | 0 <= i < |acts| ensures !LosesSight(states[i], acts[i]) {
        assert InSight(states[i + 1]);
        if LosesSight(states[i], acts[i]) {
          RunInv(fallible, states, acts, i);
          SightIsLost(states[i], acts[i], fallible);
        }
      }
    }
    if forall i :: 0 <= i < |acts| ==> !LosesSight(states[i], acts[i]) {
      forall n | 0 <= n < |states| ensures InSight(states[n]) {
        StaysInSight(fallible, states, acts, n);
      }
    }
  }

  /** No request is left behind: one that is pending for a segment between two batches waits in the
      segment's queue, or the next poll reads. */
  ghost predicate NoneForgotten(b: Sys) {
    forall rp :: rp in b.open && rp.segment < |b.pcs| && b.pcs[rp.segment].Working? && b.poller.Resting? ==>
      rp in b.mem.Queue(rp.segment) || b.mem.Wanted()
  }

  /** A request in sight is not left behind. */
  lemma InSightForgetsNone(b: Sys)
    requires Inv(b) && InSight(b)
    ensures NoneForgotten(b)
  {
    forall rp | rp in b.open && rp.segment < |b.pcs| && b.pcs[rp.segment].Working? && b.poller.Resting?
      ensures rp in b.mem.Queue(rp.segment) || b.mem.Wanted()
    {
      assert Covered(b, rp) && Line(b.mem, b.pcs[rp.segment], rp.segment);
    }
  }

  // When outcomes are always recorded

  lemma NumbersKept(b: Sys, act: Act)
    requires Recorded(b) && Enabled(b, act, false)
    ensures var b' := Next(b, act, false);
            && (forall rp :: rp in b'.open ==> rp.number <= b'.last)
            && (forall rp :: rp in b'.mem.queued ==> rp.number <= b'.last)
            && (b'.poller.Found? ==> forall rp :: rp in b'.poller.replays ==> rp.number <= b'.last)
  {
    if act.Queue? { QueueAllActive(b.mem, b.poller.replays); }
  }

  lemma RecordedKept(b: Sys, act: Act)
    requires Recorded(b) && Enabled(b, act, false)
    ensures Recorded(Next(b, act, false))
  {
    LinesKept(b, act, false);
    NumbersKept(b, act);
    forall s | 0 <= s < |b.pcs| ensures Settled(Next(b, act, false), s) {
      SettledKept(b, act, s);
    }
  }

  lemma {:induction false} RunRecords(states: seq<Sys>, acts: seq<Act>, n: nat)
    requires Run(false, states, acts) && n <= |acts|
    ensures Recorded(states[n])
  {
    if n > 0 {
      RunRecords(states, acts, n - 1);
      RecordedKept(states[n - 1], acts[n - 1]);
    }
  }

  lemma RecordedKeepsSight(b: Sys, act: Act)
    requires Recorded(b)
    ensures !LosesSight(b, act)
  {
    if act.Forget? && act.s < |b.pcs| && b.pcs[act.s].Dropping? && !b.pcs[act.s].lost {
      assert Settled(b, act.s);
      forall rp | rp in b.open ensures rp !in b.pcs[act.s].reqs {
        NotAmong(b.pcs[act.s].reqs, b.open, rp);
      }
    }
  }

  lemma InfallibleForgetsNone(states: seq<Sys>, acts: seq<Act>, n: nat)
    requires Run(false, states, acts) && n <= |acts|
    ensures InSight(states[n]) && NoneForgotten(states[n])
  {
    forall i | 0 <= i < n ensures !LosesSight(states[i], acts[i]) {
      RunRecords(states, acts, i);
      RecordedKeepsSight(states[i], acts[i]);
    }
    StaysInSight(false, states, acts, n);
    RunInv(false, states, acts, n);
    InSightForgetsNone(states[n]);
  }

  // A run that forgets one

  const RP := Replay(1, "x", 0)

  /** A request is served, but not recorded as served; a poll falls between setting the flag and
      forgetting the request, finds it queued still, and clears the flag. */
  function Script(): seq<Act> {
    [Claim(0), Load(0), Request("x"), Clear, Read([RP]), Queue, Begin(0), Serve(0, true, false), End(0),
     Clear, Read([RP]), Queue, Forget(0)]
  }

  function At(pending: map<nat, seq<Replay>>, queued: set<Replay>, poll: bool, some: bool, poller: Poller, pc: Pc,
              letters: set<string>, open: set<Replay>, last: nat): Sys {
    Sys(Memory(pending, queued, poll, if pc.Away? then {} else {0}, if some then {0} else {}), poller, [pc], [letters],
      open, last)
  }

  function States(): seq<Sys> {
    [At(map[], {}, false, false, Resting, Away, {"x"}, {}, 0),
     At(map[], {}, true, false, Resting, Fresh, {"x"}, {}, 0),
     At(map[], {}, true, true, Resting, Working, {"x"}, {}, 0),
     At(map[], {}, true, true, Resting, Working, {"x"}, {RP}, 1),
     At(map[], {}, false, true, Cleared, Working, {"x"}, {RP}, 1),
     At(map[], {}, false, true, Found([RP]), Working, {"x"}, {RP}, 1),
     At(map[0 := [RP]], {RP}, false, true, Resting, Working, {"x"}, {RP}, 1),
     At(map[], {RP}, false, true, Resting, Serving([RP], 0), {"x"}, {RP}, 1),
     At(map[], {RP}, false, false, Resting, Serving([RP], 1), {}, {RP}, 1),
     At(map[], {RP}, true, false, Resting, Dropping([RP], false), {}, {RP}, 1),
     At(map[], {RP}, false, false, Cleared, Dropping([RP], false), {}, {RP}, 1),
     At(map[], {RP}, false, false, Found([RP]), Dropping([RP], false), {}, {RP}, 1),
     At(map[], {RP}, false, false, Resting, Dropping([RP], false), {}, {RP}, 1),
     At(map[], {}, false, false, Resting, Working, {}, {RP}, 1)]
  }

  ghost predicate Took(states: seq<Sys>, acts: seq<Act>, i: nat)
    requires i < |acts| < |states|
  {
    Enabled(states[i], acts[i], true) && Next(states[i], acts[i], true) == states[i + 1]
  }

  lemma AskedFor()
    ensures Took(States(), Script(), 0) && Took(States(), Script(), 1) && Took(States(), Script(), 2)
  {
    assert Asked(States()[2], "x", 1) == {RP};
  }

  lemma Queued()
    ensures Took(States(), Script(), 3) && Took(States(), Script(), 4) && Took(States(), Script(), 5)
  {
    QueuesOne(States()[5].mem, RP);
    assert [] + [RP] == [RP];
    assert States()[5].mem.QueueOne(RP) == States()[6].mem;
  }

  lemma Served()
    ensures Took(States(), Script(), 6) && Took(States(), Script(), 7) && Took(States(), Script(), 8)
  {
    var none: set<string> := {};
    assert {"x"} - {"x"} == none;
  }

  lemma Polled()
    ensures Took(States(), Script(), 9) && Took(States(), Script(), 10) && Took(States(), Script(), 11)
  {
    QueuesOne(States()[11].mem, RP);
  }

  lemma Forgotten()
    ensures Took(States(), Script(), 12) && Initial(States()[0]) && !NoneForgotten(States()[13])
  {
    assert (set rp | rp in [RP]) == {RP};
    var b := States()[13];
    assert RP in b.open && RP !in b.mem.Queue(0) && !b.mem.Wanted();
  }

  lemma Thirteen(p: int -> bool)
    requires p(0) && p(1) && p(2) && p(3) && p(4) && p(5) && p(6) && p(7) && p(8) && p(9) && p(10) && p(11) && p(12)
    ensures forall i :: 0 <= i < 13 ==> p(i)
  {}

  ghost function TookAt(states: seq<Sys>, acts: seq<Act>): int -> bool
    requires |states| == |acts| + 1
  {
    i => 0 <= i < |acts| && Took(states, acts, i)
  }

  lemma TookIsRun(states: seq<Sys>, acts: seq<Act>)
    requires |states| == |acts| + 1 && Initial(states[0]) && forall i :: 0 <= i < |acts| ==> TookAt(states, acts)(i)
    ensures Run(true, states, acts)
  {
    forall i | 0 <= i < |acts|
      ensures Enabled(states[i], acts[i], true) && states[i + 1] == Next(states[i], acts[i], true)
    {
      assert TookAt(states, acts)(i);
    }
  }

  lemma SomeRunForgets() returns (states: seq<Sys>)
    ensures Run(true, states, Script()) && |states| == 14 && !NoneForgotten(states[13])
  {
    AskedFor();
    Queued();
    Served();
    Polled();
    Forgotten();
    states := States();
    Thirteen(TookAt(states, Script()));
    TookIsRun(states, Script());
  }

  lemma QueuesOne(m: Memory, rp: Replay)
    ensures m.QueueAll([rp]) == m.QueueOne(rp)
  {
    assert [rp][..0] == [];
    assert m.QueueAll([]) == m;
  }

  ghost predicate NeverForgets(fallible: bool) {
    forall states: seq<Sys>, acts: seq<Act> :: Run(fallible, states, acts) ==>
      forall n :: 0 <= n < |states| ==> NoneForgotten(states[n])
  }

  /** No run leaves a request behind if and only if recording an outcome fails for a lost claim only. */
  lemma ForgetsNoneIff(fallible: bool)
    ensures NeverForgets(fallible) <==> !fallible
  {
    if fallible {
      var states := SomeRunForgets();
      assert !NoneForgotten(states[13]);
    } else {
      forall states: seq<Sys>, acts: seq<Act> | Run(fallible, states, acts)
        ensures forall n :: 0 <= n < |states| ==> NoneForgotten(states[n])
      {
        forall n: nat | n < |states| ensures NoneForgotten(states[n]) {
          InfallibleForgetsNone(states, acts, n);
        }
      }
    }
  }
}
