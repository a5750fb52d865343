/** automation/claim_scheduler.go: the segments one instance holds, their batches and their pauses. */
module ClaimScheduling {
  import opened Numbers
  import opened Options
  import opened Sequences
  import opened LeaseAllocator
  import Fair = LeaseFairness

  /** A segment this instance holds. leaseEnd is when the item leases of its batch end, deferUntil the
      latest pause the batch asked for. */
  datatype Held = Held(lease: Lease, since: nat, served: bool, busy: bool, leaseEnd: nat, deferUntil: Option<nat>)

  type Holding = map<int, Held>

  /** What the list claims for one segment, and a batch of it. Only the number of items matters. */
  datatype Group = Group(key: int, items: nat)

  datatype Batch = Batch(key: int, items: nat, deadline: nat)

  datatype Outcome = Done | Failed | Deferred(until: nat)

  /** The scheduler's settings; Definition's defaults make every number positive. */
  datatype Settings = Settings(name: string, owner: nat, lease: nat, ttl: nat, maxSegments: nat, term: nat, poll: nat)
  {
    predicate Valid() {
      owner != 0 && lease > 0 && ttl > 0 && maxSegments > 0 && poll > 0
    }
  }

  ghost predicate Shaped(c: Settings, held: Holding) {
    && |held| <= c.maxSegments
    && forall k :: k in held ==> held[k].lease.id == Id(c.name, k) && held[k].lease.owner == c.owner
  }

  /** A held segment that is not busy has no pause waiting. */
  ghost predicate Settled(held: Holding) {
    forall k :: k in held && !held[k].busy ==> held[k].deferUntil.None?
  }

  /** A pause lasts until t, or t has passed. */
  predicate PausedUntil(rows: Rows, id: Id, t: nat, now: nat) {
    t > now ==> id in rows && rows[id].pausedTill >= t
  }

  /** The pause a batch asked for is in the store. */
  predicate PauseKept(rows: Rows, h: Held, now: nat) {
    h.deferUntil.Some? ==> PausedUntil(rows, h.lease.id, h.deferUntil.value, now)
  }

  /** Which groups of an answer become batches: those asked for, with something in them. */
  function Batches(groups: seq<Group>, wanted: set<int>, deadline: nat): seq<Batch> {
    if groups == [] then []
    else
      var g := groups[|groups| - 1];
      var before := Batches(groups[..|groups| - 1], wanted, deadline);
      if g.key in wanted && g.items > 0 then before + [Batch(g.key, g.items, deadline)] else before
  }

  // Done and Drained

  /** A deferral's time; one already past means a lease from now. */
  function Until(c: Settings, out: Outcome, now: nat): nat
    requires out.Deferred?
  {
    if out.until > now then out.until else now + c.lease
  }

  function AfterDone(c: Settings, held: Holding, key: int, out: Outcome, now: nat): Holding {
    if out.Deferred? && key in held then
      var h := held[key];
      var until := Until(c, out, now);
      held[key := h.(deferUntil := Some(if h.deferUntil.Some? then Max(h.deferUntil.value, until) else until))]
    else held
  }

  function RowsAfterDone(c: Settings, held: Holding, rows: Rows, key: int, out: Outcome, now: nat, at: nat): Rows {
    if out.Deferred? && key !in held then DeferredRows(rows, Id(c.name, key), Until(c, out, now) - now, at) else rows
  }

  function AfterDrained(held: Holding, key: int): Holding {
    if key !in held then held
    else if held[key].deferUntil.None? then held[key := held[key].(busy := false)]
    else held - {key}
  }

  /** A segment that deferred is given back with its pause. */
  function DrainRequest(h: Held, now: nat): ReleaseRequest
    requires h.deferUntil.Some?
  {
    ReleaseRequest(h.lease, Max(h.deferUntil.value, h.leaseEnd) - now, h.served)
  }

  function RowsAfterDrained(held: Holding, rows: Rows, key: int, now: nat, at: nat): Rows {
    if key in held && held[key].deferUntil.Some? then ReleaseOne(rows, DrainRequest(held[key], now), at) else rows
  }

  // Next

  /** A lease that is still ours at a time. */
  predicate StillOurs(rows: Rows, h: Held, at: nat) {
    Live(rows, h.lease, at)
  }

  ghost predicate AllOurs(rows: Rows, held: Holding, at: nat) {
    forall k :: k in held ==> StillOurs(rows, held[k], at)
  }

  /** What one Next may do. It keeps within maxSegments; a busy segment that is still ours stays as it
      is and gets no batch; what it hands out is then busy, until the batch drains, and everything
      else it holds is as before or freshly granted. */
  ghost predicate NextOk(c: Settings, rows: Rows, held: Holding, held': Holding, batches: seq<Batch>, at: nat) {
    && Shaped(c, held')
    && (forall k :: k in held && held[k].busy && StillOurs(rows, held[k], at) ==> k in held' && held'[k] == held[k])
    && (forall i :: 0 <= i < |batches| ==> Handed(rows, held, held', batches[i], at))
    && (forall k :: k in held' ==>
          || (k in held && held'[k] == held[k])
          || (held'[k].deferUntil.None? && !held'[k].busy)
          || (exists i :: 0 <= i < |batches| && batches[i].key == k))
  }

  /** A batch goes out for a segment that was not busy, or is newly granted. */
  ghost predicate Handed(rows: Rows, held: Holding, held': Holding, b: Batch, at: nat) {
    && b.items > 0 && b.key in held'
    && held'[b.key].busy && held'[b.key].served && held'[b.key].leaseEnd == b.deadline
    && (b.key in held && StillOurs(rows, held[b.key], at) ==> !held[b.key].busy)
    && (held'[b.key].deferUntil.None? ||
        (b.key in held && !held[b.key].busy && held'[b.key].deferUntil == held[b.key].deferUntil))
  }

  // What the store's calls leave of a lease

  /** The store's calls other than a grant or release keep every lease, and pauses only grow. */
  ghost predicate KeepsLeases(rows: Rows, rows': Rows) {
    && (forall id :: id in rows ==>
          id in rows' && rows'[id].pausedTill >= rows[id].pausedTill && SameLease(rows[id], rows'[id]))
    && forall id :: id in rows' && id !in rows ==> rows'[id].owner == 0
  }

  lemma KeepsLeasesBoth(rows: Rows, rows': Rows, rows'': Rows)
    requires KeepsLeases(rows, rows') && KeepsLeases(rows', rows'')
    ensures KeepsLeases(rows, rows'')
  {}

  lemma PausesLast(rows: Rows, rows': Rows, now: nat)
    requires KeepsLeases(rows, rows')
    ensures forall h: Held :: PauseKept(rows, h, now) ==> PauseKept(rows', h, now)
  {}

  predicate SameLease(r: Row, r': Row) {
    r'.owner == r.owner && r'.epoch == r.epoch && r'.leaseUntil == r.leaseUntil
  }

  // What the store says this instance holds

  /** The row is leased to this instance at a time. */
  predicate Ours(c: Settings, rows: Rows, id: Id, at: nat) {
    id in rows && id.name == c.name && rows[id].owner == c.owner && rows[id].leaseUntil > at
  }

  /** No segment is leased to this instance without it holding the segment under that lease. */
  ghost predicate NoneAstray(c: Settings, rows: Rows, held: Holding, at: nat) {
    forall id :: Ours(c, rows, id, at) ==>
      id.key in held && held[id.key].lease == Lease(id, c.owner, rows[id].epoch)
  }

  /** The row of a segment that was given back, with its pause. */
  predicate GivenBack(rows: Rows, h: Held, deferFor: int, at: nat, rows': Rows) {
    h.lease.id in rows && h.lease.id in rows' &&
    rows'[h.lease.id] == ReleasedRow(rows[h.lease.id], ReleaseRequest(h.lease, deferFor, h.served), at)
  }

  predicate Free(rows: Rows, id: Id) {
    id in rows && rows[id].owner == 0
  }

  predicate SameRow(rows: Rows, rows': Rows, id: Id) {
    (id in rows <==> id in rows') && (id in rows ==> rows'[id] == rows[id])
  }

  /** Of idle segments: each was given back, paused for a poll, and no other row has changed. */
  ghost predicate AllGivenBack(c: Settings, rows: Rows, held: Holding, idle: set<int>, at: nat, rows': Rows) {
    && (forall k :: k in idle ==> k in held && GivenBack(rows, held[k], c.poll, at, rows'))
    && forall id: Id :: !(id.name == c.name && id.key in idle) ==> SameRow(rows, rows', id)
  }

  /** The rows once each of these segments has been given back for a poll. */
  function GiveBack(c: Settings, rows: Rows, held: Holding, idle: seq<int>, at: nat): Rows {
    if idle == [] then rows
    else
      var k := idle[|idle| - 1];
      var rest := GiveBack(c, rows, held, idle[..|idle| - 1], at);
      if k in held then ReleaseOne(rest, ReleaseRequest(held[k].lease, c.poll, held[k].served), at) else rest
  }

  lemma {:induction false} GiveBackIsAll(c: Settings, rows: Rows, held: Holding, idle: seq<int>, at: nat)
    requires Shaped(c, held) && AllOurs(rows, held, at) && Distinct(idle) && forall k :: k in idle ==> k in held
    ensures var rows' := GiveBack(c, rows, held, idle, at);
            AllGivenBack(c, rows, held, (set k | k in idle), at, rows') &&
            AllOurs(rows', held - (set k | k in idle), at)
  {
    if idle == [] {
      assert held - (set k | k in idle) == held;
    } else {
      var init, k := idle[..|idle| - 1], idle[|idle| - 1];
      GiveBackIsAll(c, rows, held, init, at);
      assert idle == init + [k] && k in idle;
      assert k !in init;
      OneMoreGivenBack(c, rows, held, (set j | j in init), at, GiveBack(c, rows, held, init, at), k);
      assert (set j | j in idle) == (set j | j in init) + {k};
    }
  }

  /** Marking segments busy before changes nothing of the idle ones. */
  lemma IdleGivenBack(c: Settings, rows: Rows, held: Holding, marked: Holding, idle: seq<int>, free: seq<int>,
                      batches: seq<Batch>, at: nat)
    requires Shaped(c, held) && Shaped(c, marked) && AllOurs(rows, held, at) && Distinct(idle)
    requires marked.Keys == held.Keys && forall k :: k in idle ==> k in held && marked[k] == held[k]
    requires forall k :: k in marked ==> marked[k].lease == held[k].lease
    requires forall k :: k in idle <==> k in free && !HasBatch(batches, k)
    ensures AllGivenBack(c, rows, held, Idle(free, batches), at, GiveBack(c, rows, marked, idle, at))
  {
    GiveBackIsAll(c, rows, marked, idle, at);
    assert (set k | k in idle) == Idle(free, batches);
  }

  lemma OneMoreGivenBack(c: Settings, rows: Rows, held: Holding, idle: set<int>, at: nat, rows': Rows, k: int)
    requires Shaped(c, held) && AllGivenBack(c, rows, held, idle, at, rows') && AllOurs(rows', held - idle, at)
    requires k in held && k !in idle
    ensures var rows'' := ReleaseOne(rows', ReleaseRequest(held[k].lease, c.poll, held[k].served), at);
            AllGivenBack(c, rows, held, idle + {k}, at, rows'') && AllOurs(rows'', held - (idle + {k}), at)
  {
    var rows'' := ReleaseOne(rows', ReleaseRequest(held[k].lease, c.poll, held[k].served), at);
    GivesBack(c, rows', held - idle, k, c.poll, at);
    assert (held - idle) - {k} == held - (idle + {k});
    assert SameRow(rows, rows', Id(c.name, k));
    forall j | j in idle ensures GivenBack(rows, held[j], c.poll, at, rows'') {
      assert SameRow(rows', rows'', Id(c.name, j));
    }
    forall id: Id | !(id.name == c.name && id.key in idle + {k}) ensures SameRow(rows, rows'', id) {
      assert id.name == c.name ==> id.key !in idle && id.key != k;
      assert SameRow(rows, rows', id) && SameRow(rows', rows'', id);
    }
  }

  /** What giving back one segment does to the store. */
  lemma GivesBack(c: Settings, rows: Rows, held: Holding, k: int, deferFor: int, at: nat)
    requires Shaped(c, held) && AllOurs(rows, held, at) && k in held
    ensures var rows' := ReleaseOne(rows, ReleaseRequest(held[k].lease, deferFor, held[k].served), at);
            && GivenBack(rows, held[k], deferFor, at, rows') && AllOurs(rows', held - {k}, at)
            && forall id :: id != Id(c.name, k) ==> SameRow(rows, rows', id)
  {
    assert StillOurs(rows, held[k], at);
  }

  /** After idle segments are given back, this instance holds the others and nothing else. */
  lemma GivenBackLeavesNone(c: Settings, rows: Rows, held: Holding, idle: set<int>, at: nat, rows': Rows,
                            held': Holding)
    requires c.Valid() && Shaped(c, held) && AllOurs(rows, held, at) && AllGivenBack(c, rows, held, idle, at, rows')
    requires forall k :: k in held' <==> k in held && k !in idle
    requires forall k :: k in held' ==> held'[k].lease == held[k].lease
    ensures AllOurs(rows', held', at)
    ensures NoneAstray(c, rows, held, at) ==> NoneAstray(c, rows', held', at)
    ensures forall k :: k in idle ==> Free(rows', Id(c.name, k)) && rows'[Id(c.name, k)].pausedTill >= at + c.poll
    ensures forall k :: k !in idle && Free(rows, Id(c.name, k)) ==> Free(rows', Id(c.name, k))
  {
    forall k | k in held' ensures StillOurs(rows', held'[k], at) {
      assert StillOurs(rows, held[k], at) && SameRow(rows, rows', Id(c.name, k));
    }
    forall k | k !in idle && Free(rows, Id(c.name, k)) ensures Free(rows', Id(c.name, k)) {
      assert SameRow(rows, rows', Id(c.name, k));
    }
    if NoneAstray(c, rows, held, at) {
      forall id | Ours(c, rows', id, at)
        ensures id.key in held' && held'[id.key].lease == Lease(id, c.owner, rows'[id].epoch)
      {
        assert id.key in idle ==> GivenBack(rows, held[id.key], c.poll, at, rows');
        assert SameRow(rows, rows', id) && Ours(c, rows, id, at);
      }
    }
  }

  lemma ReleaseLeavesNone(c: Settings, rows: Rows, held: Holding, k: int, rel: ReleaseRequest, at: nat)
    requires c.Valid() && k in held && rel.lease == held[k].lease && rel.lease.id == Id(c.name, k)
    requires NoneAstray(c, rows, held, at)
    ensures NoneAstray(c, ReleaseOne(rows, rel, at), held - {k}, at)
  {
    var rows' := ReleaseOne(rows, rel, at);
    forall id | Ours(c, rows', id, at)
      ensures id.key in held - {k} && (held - {k})[id.key].lease == Lease(id, c.owner, rows'[id].epoch)
    {
      assert id != rel.lease.id ==> Ours(c, rows, id, at) && id.key != k;
      assert id == rel.lease.id && !Current(rows, rel.lease) ==> !Ours(c, rows, id, at);
    }
  }

  lemma RenewLeavesNone(c: Settings, rows: Rows, held: Holding, leases: seq<Lease>, rows': Rows, held': Holding,
                        at: nat)
    requires c.Valid() && Shaped(c, held) && NoneAstray(c, rows, held, at)
    requires KeepsLeases(Renewed(rows, leases, c.ttl, at), rows')
    requires forall k :: k in held && StillOurs(rows, held[k], at) ==> k in held' && held'[k] == held[k]
    ensures NoneAstray(c, rows', held', at)
  {
    forall id | Ours(c, rows', id, at)
      ensures id.key in held' && held'[id.key].lease == Lease(id, c.owner, rows'[id].epoch)
    {
      Fair.RenewRow(rows, leases, c.ttl, at, id);
      assert Ours(c, rows, id, at);
    }
  }

  /** What an Acquire makes of a row: a new lease if it picks the key, otherwise only its group may change. */
  lemma AcquireRow(c: Settings, rows: Rows, candidates: seq<Segment>, max: int, at: nat, id: Id)
    ensures var rows' := Acquired(rows, c.name, c.owner, candidates, max, c.ttl, at);
            var picked := Picked(rows, c.name, candidates, max, at);
            && (id in rows ==> id in rows')
            && (id.name == c.name && id.key in picked ==>
                  id in rows' && rows'[id].owner == c.owner && rows'[id].leaseUntil == at + c.ttl &&
                  rows'[id].epoch == Get(Record(rows, c.name, candidates, at), c.name, id.key, at).epoch + 1)
            && (id in rows' && !(id.name == c.name && id.key in picked) ==>
                  if id in rows then SameLease(rows[id], rows'[id]) && rows'[id].pausedTill == rows[id].pausedTill
                  else rows'[id].owner == 0)
  {
    var _ := Fair.RecordRow(rows, c.name, candidates, at, id);
    Fair.PickedInKeys(rows, c.name, candidates, max, at);
  }

  lemma {:induction false} RenewOthers(rows: Rows, leases: seq<Lease>, ttl: int, at: nat, id: Id)
    requires forall i :: 0 <= i < |leases| ==> leases[i].id != id
    ensures id in Renewed(rows, leases, ttl, at) <==> id in rows
    ensures id in rows ==> Renewed(rows, leases, ttl, at)[id] == rows[id]
  {
    if leases != [] {
      RenewOthers(rows, leases[..|leases| - 1], ttl, at, id);
    }
  }

  /** Of distinct leases, those a renewal loses are those that were not live. */
  lemma LostAreDead(rows: Rows, leases: seq<Lease>, ttl: int, at: nat, lost: seq<Lease>)
    requires forall i, j :: 0 <= i < j < |leases| ==> leases[i].id != leases[j].id
    requires forall l :: l in lost <==>
               exists i :: 0 <= i < |leases| && leases[i] == l && !Live(Renewed(rows, leases[..i], ttl, at), l, at)
    ensures forall l :: l in lost <==> l in leases && !Live(rows, l, at)
  {
    forall i | 0 <= i < |leases|
      ensures Live(Renewed(rows, leases[..i], ttl, at), leases[i], at) == Live(rows, leases[i], at)
    {
      RenewOthers(rows, leases[..i], ttl, at, leases[i].id);
    }
    forall l | l in leases && !Live(rows, l, at) ensures l in lost {
      var i :| 0 <= i < |leases| && leases[i] == l;
      assert !Live(Renewed(rows, leases[..i], ttl, at), l, at);
    }
  }

  lemma RenewedLive(rows: Rows, leases: seq<Lease>, ttl: nat, at: nat, l: Lease)
    requires ttl > 0 && Live(rows, l, at)
    ensures Live(Renewed(rows, leases, ttl, at), l, at)
  {
    Fair.RenewRow(rows, leases, ttl, at, l.id);
  }

  lemma DeferKeeps(rows: Rows, id: Id, d: int, at: nat)
    ensures KeepsLeases(rows, DeferredRows(rows, id, d, at))
    ensures forall t: nat :: t <= at + d ==> PausedUntil(DeferredRows(rows, id, d, at), id, t, at)
  {}

  /** Releasing one lease leaves the others as they are. */
  lemma ReleaseKeeps(rows: Rows, rel: ReleaseRequest, at: nat)
    ensures Released(rows, [rel], at) == ReleaseOne(rows, rel, at)
    ensures forall id :: id in rows && id != rel.lease.id ==>
              id in ReleaseOne(rows, rel, at) && ReleaseOne(rows, rel, at)[id] == rows[id]
  {
    assert [rel][..0] == [];
    assert Released(rows, [], at) == rows;
  }

  /** What a drained batch's release leaves: the segment free, its turn counted, and paused at least
      until the later of its deferral and the end of its item leases. */
  lemma DrainPauses(rows: Rows, h: Held, now: nat, at: nat)
    requires h.deferUntil.Some? && Current(rows, h.lease) && now <= at
    ensures var rows' := ReleaseOne(rows, DrainRequest(h, now), at);
            && h.lease.id in rows' && rows'[h.lease.id].owner == 0
            && (h.served ==> rows'[h.lease.id].lastServed == Some(at))
            && PausedUntil(rows', h.lease.id, h.deferUntil.value, at)
            && PausedUntil(rows', h.lease.id, h.leaseEnd, at)
  {}

  predicate IsNew(h: Held, now: nat) {
    h.since == now && !h.served && !h.busy && h.deferUntil.None?
  }

  predicate HasBatch(batches: seq<Batch>, k: int) {
    exists i :: 0 <= i < |batches| && batches[i].key == k
  }

  /** The segments asked for that came back with nothing. */
  ghost function Idle(free: seq<int>, batches: seq<Batch>): set<int> {
    set k | k in free && !HasBatch(batches, k)
  }

  /** A segment whose batch is handed out. */
  function Taken(h: Held, deadline: nat): Held {
    h.(served := true, busy := true, leaseEnd := deadline)
  }

  lemma HasOneMore(batches: seq<Batch>, i: nat)
    requires i < |batches|
    ensures forall k :: HasBatch(batches[..i + 1], k) <==> HasBatch(batches[..i], k) || batches[i].key == k
  {
    forall k ensures HasBatch(batches[..i + 1], k) <==> HasBatch(batches[..i], k) || batches[i].key == k {
      if HasBatch(batches[..i], k) {
        var j :| 0 <= j < i && batches[..i][j].key == k;
        assert batches[..i + 1][j].key == k;
      }
      assert batches[..i + 1][i] == batches[i];
      if HasBatch(batches[..i + 1], k) && batches[i].key != k {
        var j :| 0 <= j < i + 1 && batches[..i + 1][j].key == k;
        assert batches[..i][j].key == k;
      }
    }
  }

  /** The list's side: at most one group per segment. */
  ghost predicate OneGroupEach(claim: seq<int> -> Option<seq<Group>>) {
    forall keys :: claim(keys).Some? ==>
      forall i, j :: 0 <= i < j < |claim(keys).value| ==> claim(keys).value[i].key != claim(keys).value[j].key
  }

  lemma {:induction false} BatchesOf(groups: seq<Group>, wanted: set<int>, deadline: nat)
    ensures forall b :: b in Batches(groups, wanted, deadline) ==>
              b.key in wanted && b.items > 0 && b.deadline == deadline && Group(b.key, b.items) in groups
    ensures (forall i, j :: 0 <= i < j < |groups| ==> groups[i].key != groups[j].key) ==>
              forall i, j :: 0 <= i < j < |Batches(groups, wanted, deadline)| ==>
                Batches(groups, wanted, deadline)[i].key != Batches(groups, wanted, deadline)[j].key
  {
    if groups != [] {
      var n := |groups| - 1;
      BatchesOf(groups[..n], wanted, deadline);
      var before := Batches(groups[..n], wanted, deadline);
      assert groups == groups[..n] + [groups[n]];
      forall i | 0 <= i < |before| ensures exists j :: 0 <= j < n && groups[j].key == before[i].key {
        assert before[i] in before;
        var j :| 0 <= j < n && groups[..n][j] == Group(before[i].key, before[i].items);
        assert groups[j].key == before[i].key;
      }
    }
  }

  /** The leases granted, by key. */
  lemma {:induction false} LeaseOf(rows: Rows, name: string, now: nat, keys: seq<int>, owner: nat)
    ensures forall i :: 0 <= i < |keys| ==>
              Leases(rows, name, now, keys, owner)[i] ==
                Lease(Id(name, keys[i]), owner, Get(rows, name, keys[i], now).epoch + 1)
  {
    if keys != [] {
      LeaseOf(rows, name, now, keys[..|keys| - 1], owner);
    }
  }

  function NewLease(c: Settings, rows: Rows, candidates: seq<Segment>, at: nat, k: int): Lease {
    Lease(Id(c.name, k), c.owner, Get(Record(rows, c.name, candidates, at), c.name, k, at).epoch + 1)
  }

  predicate SameClaim(rows: Rows, rows': Rows, id: Id) {
    id in rows && id in rows' && SameLease(rows[id], rows'[id]) && rows'[id].pausedTill == rows[id].pausedTill
  }

  /** After an Acquire this instance holds what it held and what it was granted, and nothing else. */
  lemma AcquireLeavesNone(c: Settings, rows: Rows, held: Holding, held': Holding, candidates: seq<Segment>,
                          max: int, at: nat)
    requires c.Valid() && Shaped(c, held) && AllOurs(rows, held, at)
    requires forall k :: k in Picked(rows, c.name, candidates, max, at) ==>
               k !in held && k in held' && held'[k].lease == NewLease(c, rows, candidates, at, k)
    requires forall k :: k in held ==> k in held' && held'[k] == held[k]
    requires forall k :: k in held' ==> k in held || k in Picked(rows, c.name, candidates, max, at)
    ensures var rows' := Acquired(rows, c.name, c.owner, candidates, max, c.ttl, at);
            && AllOurs(rows', held', at)
            && (NoneAstray(c, rows, held, at) ==> NoneAstray(c, rows', held', at))
            && forall k :: k !in held' && Id(c.name, k) in rows ==> SameClaim(rows, rows', Id(c.name, k))
  {
    var rows' := Acquired(rows, c.name, c.owner, candidates, max, c.ttl, at);
    forall k | k in held' ensures StillOurs(rows', held'[k], at) {
      AcquireRow(c, rows, candidates, max, at, Id(c.name, k));
      if k in held { assert StillOurs(rows, held[k], at); }
    }
    forall k | k !in held' && Id(c.name, k) in rows ensures SameClaim(rows, rows', Id(c.name, k)) {
      AcquireRow(c, rows, candidates, max, at, Id(c.name, k));
    }
    if NoneAstray(c, rows, held, at) {
      forall id | Ours(c, rows', id, at)
        ensures id.key in held' && held'[id.key].lease == Lease(id, c.owner, rows'[id].epoch)
      {
        AcquireRow(c, rows, candidates, max, at, id);
        assert id == Id(c.name, id.key);
        assert id.key !in Picked(rows, c.name, candidates, max, at) ==> Ours(c, rows, id, at);
      }
    }
  }

  /** What the store grants us is at most what we asked for, and nothing we hold. */
  lemma GrantsAreNew(c: Settings, rows: Rows, held: Holding, candidates: seq<Segment>, max: int, at: nat)
    requires c.Valid() && Shaped(c, held) && AllOurs(rows, held, at) && max >= 0
    ensures var recorded := Record(rows, c.name, candidates, at);
            var granted := Leases(recorded, c.name, at, Picked(rows, c.name, candidates, max, at), c.owner);
            && |granted| <= max
            && (forall i :: 0 <= i < |granted| ==>
                  granted[i].id == Id(c.name, granted[i].id.key) && granted[i].owner == c.owner &&
                  granted[i].id.key !in held)
            && (forall i, j :: 0 <= i < j < |granted| ==> granted[i].id.key != granted[j].id.key)
  {
    var recorded := Record(rows, c.name, candidates, at);
    var order := Order(recorded, c.name, at, Keys(candidates));
    var waiting := Waiting(recorded, c.name, at, order);
    var picked := Picked(rows, c.name, candidates, max, at);
    OrderDistinct(recorded, c.name, at, Keys(candidates));
    Fair.WaitingDistinct(recorded, c.name, at, order);
    LeaseOf(recorded, c.name, at, picked, c.owner);
    Fair.PickedInKeys(rows, c.name, candidates, max, at);
    forall i | 0 <= i < |picked| ensures picked[i] !in held {
      var k := picked[i];
      assert k in picked;
      var _ := Fair.RecordRow(rows, c.name, candidates, at, Id(c.name, k));
    }
  }

  /** What is held once the list is asked: what was held and is still ours, but for one segment rotated
      out that was not busy, and what was newly granted. */
  ghost predicate Gathered(rows: Rows, held: Holding, before: Holding, now: nat, at: nat) {
    && (forall k :: k in held && held[k].busy && StillOurs(rows, held[k], at) ==> k in before && before[k] == held[k])
    && forall k :: k in before ==>
         IsNew(before[k], now) || (k in held && StillOurs(rows, held[k], at) && before[k] == held[k])
  }

  /** The whole of Next: what was held when the list was asked, and what is held once the batches are
      handed out. */
  lemma HandedOut(c: Settings, rows: Rows, held: Holding, before: Holding, held': Holding,
                  free: seq<int>, batches: seq<Batch>, deadline: nat, now: nat, at: nat)
    requires Shaped(c, held') && Gathered(rows, held, before, now, at)
    requires forall k :: k in free <==> k in before && !before[k].busy
    requires forall b :: b in batches ==> b.key in free && b.items > 0 && b.deadline == deadline
    requires forall k :: k in held' <==> k in before && k !in Idle(free, batches)
    requires forall k :: k in held' ==>
               held'[k] == if k in free then Taken(before[k], deadline) else before[k]
    ensures NextOk(c, rows, held, held', batches, at)
  {
    forall i | 0 <= i < |batches| ensures Handed(rows, held, held', batches[i], at) {
      var b := batches[i];
      assert b in batches && batches[i].key == b.key;
      assert HasBatch(batches, b.key);
    }
  }

  /** What Close asks the store for a segment. */
  function CloseRequest(h: Held, now: nat): ReleaseRequest {
    var pause := if h.deferUntil.Some? && h.deferUntil.value > now then h.deferUntil.value - now else 0;
    ReleaseRequest(h.lease, pause, h.served)
  }

  lemma {:induction false} FirstIsOnly(rels: seq<ReleaseRequest>, i: nat)
    requires i < |rels| && forall j :: 0 <= j < |rels| && j != i ==> rels[j].lease != rels[i].lease
    ensures Fair.FirstFor(rels, rels[i].lease) == Some(rels[i])
  {
    var n := |rels| - 1;
    if i < n {
      FirstIsOnly(rels[..n], i);
    } else {
      NoneBefore(rels[..n], rels[i].lease);
    }
  }

  lemma {:induction false} NoneBefore(rels: seq<ReleaseRequest>, l: Lease)
    requires forall j :: 0 <= j < |rels| ==> rels[j].lease != l
    ensures Fair.FirstFor(rels, l).None?
  {
    if rels != [] {
      NoneBefore(rels[..|rels| - 1], l);
    }
  }

  lemma SomeMember(s: set<int>)
    requires s != {}
    ensures exists k :: k in s
  {
    if forall k :: k !in s {
      assert false;
    }
  }

  // The scheduler

  class ClaimScheduler {
    const c: Settings
    const store: AutomationStore
    var held: Holding
    var lastEligible: nat

    ghost predicate Valid()
      reads this
    {
      c.Valid() && Shaped(c, held)
    }

    constructor (c: Settings, store: AutomationStore)
      requires c.Valid()
      ensures Valid() && this.c == c && this.store == store && held == map[] && Settled(held)
    {
      this.c, this.store, held, lastEligible := c, store, map[], 0;
    }

    /** The keys it holds, in whatever order. */
    method Listed() returns (keys: seq<int>)
      ensures Distinct(keys) && forall k :: k in keys <==> k in held
      ensures forall i :: 0 <= i < |keys| ==> keys[i] in held
    {
      keys := [];
      var todo := held.Keys;
      while todo != {}
        invariant todo <= held.Keys && Distinct(keys)
        invariant forall k :: k in keys <==> k in held && k !in todo
        decreases |todo|
      {
        SomeMember(todo);
        var k :| k in todo;
        keys := keys + [k];
        todo := todo - {k};
      }
      forall i | 0 <= i < |keys| ensures keys[i] in held {
        var k := keys[i];
        assert k in keys;
      }
    }

    /** Keeps what it holds, and forgets what it lost; a pause a lost batch asked for is stored. */
    method RenewHeld(now: nat, at: nat)
      requires Valid() && now <= at
      modifies this`held, store
      ensures Valid() && AllOurs(store.rows, held, at)
      ensures forall k :: k in held <==> k in old(held) && StillOurs(old(store.rows), old(held)[k], at)
      ensures forall k :: k in held ==> held[k] == old(held)[k]
      ensures forall k :: k in old(held) && k !in held ==> PauseKept(store.rows, old(held)[k], at)
      ensures NoneAstray(c, old(store.rows), old(held), at) ==> NoneAstray(c, store.rows, held, at)
    {
      var keys := Listed();
      var leases: seq<Lease> := [];
      for i := 0 to |keys|
        invariant |leases| == i && forall j :: 0 <= j < i ==> leases[j] == held[keys[j]].lease
      {
        leases := leases + [held[keys[i]].lease];
      }
      var lost := store.Renew(leases, c.ttl, at);
      LostAreDead(old(store.rows), leases, c.ttl, at, lost);
      forall k | k in held ensures held[k].lease in leases {
        var i :| 0 <= i < |keys| && keys[i] == k;
        assert leases[i] == held[k].lease;
      }
      forall k | k in held && StillOurs(old(store.rows), held[k], at) ensures StillOurs(store.rows, held[k], at) {
        RenewedLive(old(store.rows), leases, c.ttl, at, held[k].lease);
      }
      ForgetLost(lost, now, at);
      if NoneAstray(c, old(store.rows), old(held), at) {
        RenewLeavesNone(c, old(store.rows), old(held), leases, store.rows, held, at);
      }
    }

    method ForgetLost(lost: seq<Lease>, now: nat, at: nat)
      requires Valid() && now <= at
      requires forall l :: l in lost ==> l.id.key in held && held[l.id.key].lease == l
      modifies this`held, store
      ensures Valid() && KeepsLeases(old(store.rows), store.rows)
      ensures forall k :: k in held <==> k in old(held) && old(held)[k].lease !in lost
      ensures forall k :: k in held ==> held[k] == old(held)[k]
      ensures forall k :: k in old(held) && k !in held ==> PauseKept(store.rows, old(held)[k], at)
    {
      ghost var gone: set<int> := {};
      for i := 0 to |lost|
        invariant Valid() && held == old(held) - gone && KeepsLeases(old(store.rows), store.rows)
        invariant forall k :: k in gone ==>
                    k in old(held) && old(held)[k].lease in lost && PauseKept(store.rows, old(held)[k], at)
        invariant forall j :: 0 <= j < i ==> lost[j].id.key in gone
      {
        var l := lost[i];
        assert l in lost;
        ghost var rows := store.rows;
        Forget(l.id.key, now, at);
        KeepsLeasesBoth(old(store.rows), rows, store.rows);
        PausesLast(rows, store.rows, at);
        gone := gone + {l.id.key};
      }
      forall k | k in old(held) && old(held)[k].lease in lost ensures k in gone {
        var j :| 0 <= j < |lost| && lost[j] == old(held)[k].lease;
        assert lost[j].id.key in gone;
      }
    }

    method Forget(k: int, now: nat, at: nat)
      requires Valid() && now <= at
      modifies this`held, store
      ensures Valid() && held == old(held) - {k} && KeepsLeases(old(store.rows), store.rows)
      ensures k in old(held) ==> PauseKept(store.rows, old(held)[k], at)
    {
      if k in held {
        var h := held[k];
        held := held - {k};
        if h.deferUntil.Some? {
          DeferKeeps(store.rows, Id(c.name, k), h.deferUntil.value - now, at);
          store.Defer(Id(c.name, k), h.deferUntil.value - now, at);
        }
      }
    }

    /** Gives h back, paused for deferFor, and forgets it. */
    method ReleaseSegment(k: int, deferFor: int, at: nat)
      requires Valid() && k in held
      modifies this`held, store
      ensures Valid() && held == old(held) - {k}
      ensures store.rows == ReleaseOne(old(store.rows),
                ReleaseRequest(old(held)[k].lease, deferFor, old(held)[k].served), at)
    {
      var h := held[k];
      held := held - {k};
      var rel := ReleaseRequest(h.lease, deferFor, h.served);
      ReleaseKeeps(store.rows, rel, at);
      var _ := store.Release([rel], at);
    }

    /** Whether a segment may be rotated out. */
    predicate PastTerm(held: Holding, k: int, now: nat) {
      k in held && !held[k].busy && held[k].since + c.term <= now
    }

    ghost predicate RotatedOut(held: Holding, held': Holding, k: int, now: nat) {
      && PastTerm(held, k, now) && held' == held - {k}
      && forall j :: PastTerm(held, j, now) ==> held[k].since <= held[j].since
    }

    /** At the cap, with others waiting, the segment held longest past its term is given back; never one
        whose batch still runs. */
    method Rotate(now: nat, at: nat)
      requires Valid() && AllOurs(store.rows, held, at)
      modifies this`held, store
      ensures Valid() && AllOurs(store.rows, held, at)
      ensures || (held == old(held) && store.rows == old(store.rows))
              || (exists k :: RotatedOut(old(held), held, k, now) && lastEligible > 0 && |old(held)| >= c.maxSegments &&
                    GivenBack(old(store.rows), old(held)[k], 0, at, store.rows) &&
                    forall id :: id != Id(c.name, k) ==> SameRow(old(store.rows), store.rows, id))
      ensures NoneAstray(c, old(store.rows), old(held), at) ==> NoneAstray(c, store.rows, held, at)
      ensures lastEligible > 0 && |old(held)| >= c.maxSegments && (exists k :: PastTerm(old(held), k, now)) ==>
                held != old(held)
    {
      if lastEligible == 0 || |held| < c.maxSegments {
        return;
      }
      var oldest: Option<int> := None;
      var keys := Listed();
      for i := 0 to |keys|
        invariant held == old(held) && store.rows == old(store.rows)
        invariant oldest.Some? ==> PastTerm(held, oldest.value, now)
        invariant forall j :: 0 <= j < i && PastTerm(held, keys[j], now) ==>
                    oldest.Some? && held[oldest.value].since <= held[keys[j]].since
      {
        var h := held[keys[i]];
        if !h.busy && now >= h.since + c.term && (oldest.None? || h.since < held[oldest.value].since) {
          oldest := Some(keys[i]);
        }
      }
      forall k | PastTerm(held, k, now) ensures oldest.Some? && held[oldest.value].since <= held[k].since {
        var j :| 0 <= j < |keys| && keys[j] == k;
      }
      if oldest.Some? {
        GivesBack(c, store.rows, held, oldest.value, 0, at);
        if NoneAstray(c, store.rows, held, at) {
          var h := held[oldest.value];
          ReleaseLeavesNone(c, store.rows, held, oldest.value, ReleaseRequest(h.lease, 0, h.served), at);
        }
        ReleaseSegment(oldest.value, 0, at);
        assert RotatedOut(old(held), held, oldest.value, now) && oldest.value !in held;
      }
    }

    /** Takes as many more segments as it may hold. */
    method AcquireMore(candidates: seq<Segment>, now: nat, at: nat)
      requires Valid() && AllOurs(store.rows, held, at)
      modifies this, store
      ensures Valid() && AllOurs(store.rows, held, at)
      ensures forall k :: k in old(held) ==> k in held && held[k] == old(held)[k]
      ensures forall k :: k in held && k !in old(held) ==> IsNew(held[k], now)
      ensures NoneAstray(c, old(store.rows), old(held), at) ==> NoneAstray(c, store.rows, held, at)
      ensures forall k :: k !in held && Id(c.name, k) in old(store.rows) ==>
                SameClaim(old(store.rows), store.rows, Id(c.name, k))
    {
      var max := c.maxSegments - |held|;
      if max < 0 {
        max := 0;
      }
      GrantsAreNew(c, store.rows, held, candidates, max, at);
      var res := store.Acquire(c.name, c.owner, candidates, max, c.ttl, at);
      lastEligible := res.eligible;
      AddGranted(res.granted, now);
      ghost var rows, picked := old(store.rows), Picked(old(store.rows), c.name, candidates, max, at);
      LeaseOf(Record(rows, c.name, candidates, at), c.name, at, picked, c.owner);
      forall k | k in picked
        ensures k !in old(held) && k in held && held[k].lease == NewLease(c, rows, candidates, at, k)
      {
        var i :| 0 <= i < |picked| && picked[i] == k;
        assert res.granted[i].id.key == k;
      }
      AcquireLeavesNone(c, rows, old(held), held, candidates, max, at);
    }

    method AddGranted(granted: seq<Lease>, now: nat)
      requires Valid() && |held| + |granted| <= c.maxSegments
      requires forall i :: 0 <= i < |granted| ==>
                 granted[i].id == Id(c.name, granted[i].id.key) && granted[i].owner == c.owner
      requires forall i :: 0 <= i < |granted| ==> granted[i].id.key !in held
      requires forall i, j :: 0 <= i < j < |granted| ==> granted[i].id.key != granted[j].id.key
      modifies this`held
      ensures Valid()
      ensures forall k :: k in old(held) ==> k in held && held[k] == old(held)[k]
      ensures forall k :: k in held && k !in old(held) ==> IsNew(held[k], now) && held[k].lease in granted
      ensures forall i :: 0 <= i < |granted| ==>
                granted[i].id.key in held && held[granted[i].id.key].lease == granted[i]
    {
      for i := 0 to |granted|
        invariant |held| == |old(held)| + i && Shaped(c, held)
        invariant forall j :: i <= j < |granted| ==> granted[j].id.key !in held
        invariant forall k :: k in old(held) ==> k in held && held[k] == old(held)[k]
        invariant forall k :: k in held && k !in old(held) ==> IsNew(held[k], now) && held[k].lease in granted
        invariant forall j :: 0 <= j < i ==> granted[j].id.key in held && held[granted[j].id.key].lease == granted[j]
      {
        var l := granted[i];
        held := held[l.id.key := Held(l, now, false, false, 0, None)];
      }
    }

    /** Claims for the held segments wanted, in one call. */
    method ClaimHeld(groups: seq<Group>, wanted: set<int>, deadline: nat) returns (batches: seq<Batch>)
      ensures batches == Batches(groups, wanted, deadline)
    {
      batches := [];
      for i := 0 to |groups|
        invariant batches == Batches(groups[..i], wanted, deadline)
      {
        assert groups[..i + 1][..i] == groups[..i];
        if groups[i].key !in wanted {
          continue;
        }
        if groups[i].items == 0 {
          continue;
        }
        batches := batches + [Batch(groups[i].key, groups[i].items, deadline)];
      }
      assert groups[..|groups|] == groups;
    }

    /** The held segments whose batch is not running. */
    method FreeKeys() returns (free: seq<int>)
      ensures Distinct(free) && forall k :: k in free <==> k in held && !held[k].busy
    {
      free := [];
      var keys := Listed();
      for i := 0 to |keys|
        invariant Distinct(free) && forall k :: k in free <==> k in keys[..i] && !held[k].busy
      {
        assert keys[..i + 1] == keys[..i] + [keys[i]];
        if !held[keys[i]].busy {
          free := free + [keys[i]];
        }
      }
      assert keys[..|keys|] == keys;
    }

    /** When each segment's batch ends. */
    method Ends(batches: seq<Batch>, deadline: nat) returns (got: map<int, nat>)
      requires forall i :: 0 <= i < |batches| ==> batches[i].deadline == deadline
      ensures forall k :: k in got <==> HasBatch(batches, k)
      ensures forall k :: k in got ==> got[k] == deadline
    {
      got := map[];
      for i := 0 to |batches|
        invariant forall k :: k in got <==> HasBatch(batches[..i], k)
        invariant forall k :: k in got ==> got[k] == deadline
      {
        HasOneMore(batches, i);
        got := got[batches[i].key := batches[i].deadline];
      }
      assert batches[..|batches|] == batches;
    }

    method MarkBusy(free: seq<int>, got: map<int, nat>, deadline: nat) returns (idle: seq<int>)
      requires Valid() && Distinct(free) && (forall k :: k in free ==> k in held)
      requires forall k :: k in got ==> got[k] == deadline
      modifies this`held
      ensures Valid() && Distinct(idle) && forall k :: k in idle <==> k in free && k !in got
      ensures held.Keys == old(held).Keys
      ensures forall k :: k in held ==>
                held[k] == if k in free && k in got then Taken(old(held)[k], deadline) else old(held)[k]
    {
      idle := [];
      for i := 0 to |free|
        invariant held.Keys == old(held).Keys && Shaped(c, held) && Distinct(idle)
        invariant forall k :: k in idle <==> k in free[..i] && k !in got
        invariant forall k :: k in held ==>
                    held[k] == if k in free[..i] && k in got then Taken(old(held)[k], deadline) else old(held)[k]
      {
        var k := free[i];
        assert k in free && free[..i + 1] == free[..i] + [k];
        assert k !in free[..i];
        if k in got {
          held := held[k := held[k].(served := true, busy := true, leaseEnd := got[k])];
        } else {
          idle := idle + [k];
        }
      }
      assert free[..|free|] == free;
    }

    /** A free segment with a batch is busy from here on; one without is idle, and given back. */
    method HandOut(free: seq<int>, batches: seq<Batch>, deadline: nat, at: nat)
      requires Valid() && AllOurs(store.rows, held, at) && Distinct(free) && (forall k :: k in free ==> k in held)
      requires forall i :: 0 <= i < |batches| ==> batches[i].deadline == deadline
      modifies this`held, store
      ensures Valid()
      ensures forall k :: k in held <==> k in old(held) && k !in Idle(free, batches)
      ensures forall k :: k in held ==> held[k] == if k in free then Taken(old(held)[k], deadline) else old(held)[k]
      ensures AllGivenBack(c, old(store.rows), old(held), Idle(free, batches), at, store.rows)
    {
      var got := Ends(batches, deadline);
      var idle := MarkBusy(free, got, deadline);
      assert AllOurs(store.rows, held, at);
      IdleGivenBack(c, store.rows, old(held), held, idle, free, batches, at);
      ReleaseIdle(idle, at);
    }

    method ReleaseIdle(idle: seq<int>, at: nat)
      requires Valid() && Distinct(idle) && forall k :: k in idle ==> k in held
      modifies this`held, store
      ensures Valid() && forall k :: k in held <==> k in old(held) && k !in idle
      ensures forall k :: k in held ==> held[k] == old(held)[k]
      ensures store.rows == GiveBack(c, old(store.rows), old(held), idle, at)
    {
      for i := 0 to |idle|
        invariant Valid() && forall k :: k in held <==> k in old(held) && k !in idle[..i]
        invariant forall k :: k in held ==> held[k] == old(held)[k]
        invariant store.rows == GiveBack(c, old(store.rows), old(held), idle[..i], at)
      {
        var k := idle[i];
        assert k in idle && idle[..i + 1] == idle[..i] + [k];
        assert k !in idle[..i] && idle[..i + 1][..i] == idle[..i];
        ReleaseSegment(k, c.poll, at);
      }
      assert idle[..|idle|] == idle;
    }

    /** Next for a segmented list: candidates is what its segmenter finds and claim what it claims for
        some held segments, or None when these calls fail. */
    method NextSegmented(candidates: Option<seq<Segment>>, claim: seq<int> -> Option<seq<Group>>, now: nat, at: nat)
        returns (res: Option<seq<Batch>>)
      requires Valid() && now <= at
      modifies this, store
      ensures Valid() && NextOk(c, old(store.rows), old(held), held, if res.Some? then res.value else [], at)
      ensures AllOurs(store.rows, held, at)
      ensures NoneAstray(c, old(store.rows), old(held), at) ==> NoneAstray(c, store.rows, held, at)
      ensures forall k :: k in old(held) && StillOurs(old(store.rows), old(held)[k], at) && k !in held ==>
                Free(store.rows, Id(c.name, k)) &&
                (PastTerm(old(held), k, now) || store.rows[Id(c.name, k)].pausedTill >= at + c.poll)
      ensures res.Some? && OneGroupEach(claim) ==>
                forall i, j :: 0 <= i < j < |res.value| ==> res.value[i].key != res.value[j].key
    {
      var ok := Gather(candidates, now, at);
      ghost var before := held;
      if !ok {
        return None;
      }
      var free := FreeKeys();
      if free == [] {
        return Some([]);
      }
      var deadline := at + c.lease;
      var groups := claim(free);
      if groups.None? {
        return None;
      }
      var wanted := set k | k in free;
      var batches := ClaimHeld(groups.value, wanted, deadline);
      BatchesOf(groups.value, wanted, deadline);
      ghost var rows := store.rows;
      HandOut(free, batches, deadline, at);
      GivenBackLeavesNone(c, rows, before, Idle(free, batches), at, store.rows, held);
      HandedOut(c, old(store.rows), old(held), before, held, free, batches, deadline, now, at);
      res := Some(batches);
    }

    /** The first half of Next: keep, rotate, acquire. */
    method Gather(candidates: Option<seq<Segment>>, now: nat, at: nat) returns (ok: bool)
      requires Valid() && now <= at
      modifies this, store
      ensures Valid() && Gathered(old(store.rows), old(held), held, now, at)
      ensures NextOk(c, old(store.rows), old(held), held, [], at)
      ensures AllOurs(store.rows, held, at)
      ensures NoneAstray(c, old(store.rows), old(held), at) ==> NoneAstray(c, store.rows, held, at)
      ensures forall k :: k in old(held) && StillOurs(old(store.rows), old(held)[k], at) && k !in held ==>
                PastTerm(old(held), k, now) && Free(store.rows, Id(c.name, k))
    {
      RenewHeld(now, at);
      Rotate(now, at);
      ok := candidates.Some?;
      if ok {
        AcquireMore(candidates.value, now, at);
      }
    }

    /** Only a deferral counts: it is noted until the batch drains, or stored if the segment is lost. */
    method Done(key: int, out: Outcome, now: nat, at: nat)
      requires Valid()
      modifies this`held, store
      ensures Valid() && held == AfterDone(c, old(held), key, out, now)
      ensures store.rows == RowsAfterDone(c, old(held), old(store.rows), key, out, now, at)
    {
      if !out.Deferred? {
        return;
      }
      var until := out.until;
      if until <= now {
        until := now + c.lease;
      }
      if key !in held {
        store.Defer(Id(c.name, key), until - now, at);
        return;
      }
      var h := held[key];
      if h.deferUntil.None? || until > h.deferUntil.value {
        held := held[key := h.(deferUntil := Some(until))];
      } else {
        assert held[key := h] == held;
      }
    }

    /** A segment that deferred is given back, paused; any other stays held. */
    method Drained(key: int, now: nat, at: nat)
      requires Valid()
      modifies this`held, store
      ensures Valid() && held == AfterDrained(old(held), key)
      ensures store.rows == RowsAfterDrained(old(held), old(store.rows), key, now, at)
    {
      if key !in held {
        return;
      }
      held := held[key := held[key].(busy := false)];
      var h := held[key];
      if h.deferUntil.None? {
        return;
      }
      var until := h.deferUntil.value;
      if h.leaseEnd > until {
        until := h.leaseEnd;
      }
      ReleaseSegment(key, until - now, at);
    }

    /** Gives back every segment, with any pause a batch asked for. */
    method Close(now: nat, at: nat)
      requires Valid() && now <= at
      modifies this`held, store
      ensures Valid() && held == map[]
      ensures forall k :: k in old(held) && Current(old(store.rows), old(held)[k].lease) ==>
                && Id(c.name, k) in store.rows && store.rows[Id(c.name, k)].owner == 0
                && PauseKept(store.rows, old(held)[k], at)
    {
      var rels: seq<ReleaseRequest> := [];
      var keys := Listed();
      for i := 0 to |keys|
        invariant |rels| == i && forall j :: 0 <= j < i ==> rels[j] == CloseRequest(held[keys[j]], now)
      {
        var h := held[keys[i]];
        var rel := ReleaseRequest(h.lease, 0, h.served);
        if h.deferUntil.Some? && h.deferUntil.value > now {
          rel := rel.(deferFor := h.deferUntil.value - now);
        }
        rels := rels + [rel];
      }
      ghost var rows := store.rows;
      forall k | k in held && Current(rows, held[k].lease)
        ensures var rows' := Released(rows, rels, at);
                Id(c.name, k) in rows' && rows'[Id(c.name, k)].owner == 0 && PauseKept(rows', held[k], at)
      {
        var i :| 0 <= i < |keys| && keys[i] == k;
        FirstIsOnly(rels, i);
        Fair.ReleaseRow(rows, rels, at, Id(c.name, k));
      }
      held := map[];
      var _ := store.Release(rels, at);
    }
  }
}
