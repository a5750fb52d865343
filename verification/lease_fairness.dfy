/** What the lease allocator promises over whole runs: exclusive leases, and fair turns. */
module LeaseFairness {
  import opened Options
  import opened Sequences
  import opened LeaseAllocator

  // The order of grants

  ghost predicate Sorted(s: seq<int>, less: (int, int) -> bool) {
    forall i, j :: 0 <= i < j < |s| ==> less(s[i], s[j])
  }

  predicate Less(less: (int, int) -> bool, a: int, b: int) {
    less(a, b)
  }

  /** A total order on what is sorted. */
  ghost predicate Total(s: seq<int>, less: (int, int) -> bool) {
    && (forall a, b :: a in s && b in s && a != b ==> Less(less, a, b) || Less(less, b, a))
    && (forall a, b, c :: a in s && b in s && c in s && Less(less, a, b) && Less(less, b, c) ==> Less(less, a, c))
  }

  lemma {:induction false} SortSorts(s: seq<int>, less: (int, int) -> bool)
    requires Total(s, less) && Distinct(s)
    ensures Sorted(SortBy(s, less), less)
  {
    if s != [] {
      var rest := SortBy(s[1..], less);
      assert s == [s[0]] + s[1..];
      assert forall x :: x in s[1..] ==> x in s;
      SortSorts(s[1..], less);
      SortMembers(s[1..], less);
      assert s[0] !in s[1..];
      assert forall x :: x in rest ==> x in s;
      InsertSorts(s[0], rest, less, s);
    }
  }

  lemma {:induction false} InsertSorts(k: int, s: seq<int>, less: (int, int) -> bool, all: seq<int>)
    requires Total(all, less) && Sorted(s, less) && k !in s && k in all && forall x :: x in s ==> x in all
    ensures Sorted(Insert(k, s, less), less)
  {
    if s != [] {
      forall i | 0 <= i < |s| ensures s[i] in all && s[i] != k {
        var x := s[i];
        assert x in s;
      }
      assert Less(less, k, s[0]) == less(k, s[0]);
      if less(k, s[0]) {
        forall i | 0 < i < |s| ensures less(k, s[i]) {
          assert Less(less, s[0], s[i]);
          assert Less(less, k, s[i]);
        }
      } else {
        var rest := s[1..];
        assert forall x :: x in rest ==> x in s;
        InsertSorts(k, rest, less, all);
        InsertMembers(k, rest, less);
        assert Less(less, s[0], k);
        var t := Insert(k, rest, less);
        forall i | 0 <= i < |t| ensures less(s[0], t[i]) {
          assert t[i] in t;
          if t[i] != k {
            var j :| 0 <= j < |rest| && rest[j] == t[i];
            assert rest[j] == s[j + 1];
          }
        }
      }
    }
  }

  lemma WaitIsTotal(rows: Rows, name: string, now: nat, keys: seq<int>)
    ensures Total(keys, LongerWait(rows, name, now))
  {
    var less := LongerWait(rows, name, now);
    assert forall a, b :: Less(less, a, b) == Waits(rows, name, now, a, b);
  }

  /** Within a group, ranks follow the wait: who has waited longer comes first. */
  lemma RankFollowsWait(rows: Rows, name: string, now: nat, keys: seq<int>, a: int, b: int)
    requires Distinct(keys) && a in keys && b in keys && a != b
    requires Get(rows, name, a, now).group == Get(rows, name, b, now).group
    ensures Rank(rows, name, now, keys, a) < Rank(rows, name, now, keys, b) <==> Waits(rows, name, now, a, b)
    ensures Rank(rows, name, now, keys, a) != Rank(rows, name, now, keys, b)
  {
    var group := InGroup(rows, name, now, keys, Get(rows, name, a, now).group);
    var less := LongerWait(rows, name, now);
    InGroupMembers(rows, name, now, keys, Get(rows, name, a, now).group);
    WaitIsTotal(rows, name, now, group);
    SortSorts(group, less);
    SortMembers(group, less);
    var sorted := SortBy(group, less);
    var i :| 0 <= i < |sorted| && sorted[i] == a;
    var j :| 0 <= j < |sorted| && sorted[j] == b;
    IndexAt(sorted, i);
    IndexAt(sorted, j);
    assert i < j ==> less(sorted[i], sorted[j]);
    assert j < i ==> less(sorted[j], sorted[i]);
  }

  lemma GrantOrderIsTotal(rows: Rows, name: string, now: nat, keys: seq<int>)
    ensures Total(keys, GrantOrder(rows, name, now, keys))
  {
    var less := GrantOrder(rows, name, now, keys);
    assert forall a, b :: Less(less, a, b) == Precedes(rows, name, now, keys, a, b);
    forall a, b, c | Precedes(rows, name, now, keys, a, b) && Precedes(rows, name, now, keys, b, c)
      ensures Precedes(rows, name, now, keys, a, c)
    {}
  }

  lemma {:induction false} WaitingSorted(rows: Rows, name: string, now: nat, order: seq<int>, less: (int, int) -> bool)
    requires Sorted(order, less)
    ensures Sorted(Waiting(rows, name, now, order), less)
  {
    if order != [] {
      var init, k := order[..|order| - 1], order[|order| - 1];
      WaitingSorted(rows, name, now, init, less);
      WaitingMembers(rows, name, now, init);
      var waiting := Waiting(rows, name, now, init);
      forall i | 0 <= i < |waiting| ensures less(waiting[i], k) {
        assert waiting[i] in waiting;
        var j :| 0 <= j < |init| && init[j] == waiting[i];
        assert order[j] == init[j];
      }
    }
  }

  lemma {:induction false} WaitingDistinct(rows: Rows, name: string, now: nat, order: seq<int>)
    requires Distinct(order)
    ensures Distinct(Waiting(rows, name, now, order))
  {
    if order != [] {
      var init, k := order[..|order| - 1], order[|order| - 1];
      assert order == init + [k];
      WaitingDistinct(rows, name, now, init);
      WaitingMembers(rows, name, now, init);
      assert k !in init;
    }
  }

  /** An Acquire grants the first of the eligible candidates in the fair order, as many as it may:
      whoever is left out is preceded by all that were granted, and somebody eligible is left out
      only if max were granted. */
  lemma FirstAreGranted(rows: Rows, name: string, candidates: seq<Segment>, max: int, now: nat, y: int)
    requires y in Keys(candidates)
    ensures var recorded := Record(rows, name, candidates, now);
            var picked := Picked(rows, name, candidates, max, now);
            && (y in picked ==> Eligible(Get(recorded, name, y, now), now))
            && (y !in picked && Eligible(Get(recorded, name, y, now), now) ==>
                  && |picked| >= max
                  && forall x :: x in picked ==> Precedes(recorded, name, now, Keys(candidates), x, y))
  {
    var recorded, keys := Record(rows, name, candidates, now), Keys(candidates);
    var less := GrantOrder(recorded, name, now, keys);
    var order := Order(recorded, name, now, keys);
    GrantOrderIsTotal(recorded, name, now, keys);
    SortSorts(keys, less);
    OrderDistinct(recorded, name, now, keys);
    WaitingSorted(recorded, name, now, order, less);
    WaitingMembers(recorded, name, now, order);
    var waiting := Waiting(recorded, name, now, order);
    var picked := Picked(rows, name, candidates, max, now);
    if y !in picked && y in waiting {
      var j :| 0 <= j < |waiting| && waiting[j] == y;
      assert forall i :: 0 <= i < |picked| ==> picked[i] == waiting[i] && picked[i] != y;
      assert j >= |picked|;
      forall x | x in picked ensures Precedes(recorded, name, now, keys, x, y) {
        var i :| 0 <= i < |picked| && picked[i] == x;
        assert less(waiting[i], waiting[j]);
      }
    }
  }

  /** No group is granted its second key while another group's first eligible key of a lower rank waits. */
  lemma GroupsTakeTurns(rows: Rows, name: string, candidates: seq<Segment>, max: int, now: nat, x: int, y: int)
    requires x in Keys(candidates) && y in Keys(candidates)
    requires var recorded := Record(rows, name, candidates, now);
             && x in Picked(rows, name, candidates, max, now) && Eligible(Get(recorded, name, y, now), now)
             && Rank(recorded, name, now, Keys(candidates), y) < Rank(recorded, name, now, Keys(candidates), x)
    ensures y in Picked(rows, name, candidates, max, now)
  {
    FirstAreGranted(rows, name, candidates, max, now, y);
  }

  // Runs

  datatype Act =
    | Acquire(name: string, owner: nat, candidates: seq<Segment>, max: int, ttl: int)
    | Renew(held: seq<Lease>, ttl: int)
    | Release(rels: seq<ReleaseRequest>)
    | Defer(id: Id, d: int)

  function Next(rows: Rows, act: Act, now: nat): Rows {
    match act
    case Acquire(name, owner, candidates, max, ttl) => Acquired(rows, name, owner, candidates, max, ttl, now)
    case Renew(held, ttl) => Renewed(rows, held, ttl, now)
    case Release(rels) => Released(rows, rels, now)
    case Defer(id, d) => DeferredRows(rows, id, d, now)
  }

  /** Owners have names, as every Definition's Owner does. */
  predicate Named(act: Act) {
    match act
    case Acquire(_, owner, _, _, _) => owner != 0
    case Release(rels) => forall i :: 0 <= i < |rels| ==> rels[i].lease.owner != 0
    case _ => true
  }

  /** A run: act i is made at time clock[i], and the clock never goes back. */
  ghost predicate Run(states: seq<Rows>, acts: seq<Act>, clock: seq<nat>) {
    && |states| == |acts| + 1 && |clock| == |acts| && states[0] == map[]
    && (forall i :: 0 <= i < |acts| ==> Named(acts[i]) && states[i + 1] == Next(states[i], acts[i], clock[i]))
    && forall i, j :: 0 <= i < j < |acts| ==> clock[i] <= clock[j]
  }

  ghost predicate Strict(clock: seq<nat>) {
    forall i, j :: 0 <= i < j < |clock| ==> clock[i] < clock[j]
  }

  ghost predicate Grants(rows: Rows, act: Act, now: nat, id: Id) {
    act.Acquire? && act.name == id.name && id.key in Picked(rows, act.name, act.candidates, act.max, now)
  }

  // What one step does to one row

  lemma {:induction false} RecordRow(rows: Rows, name: string, candidates: seq<Segment>, now: nat,
      id: Id) returns (group: int)
    ensures id in Record(rows, name, candidates, now) <==> id in rows || (id.name == name && id.key in Keys(candidates))
    ensures id in Record(rows, name, candidates, now) ==>
              Record(rows, name, candidates, now)[id] == Get(rows, id.name, id.key, now).(group := group)
  {
    group := Get(rows, id.name, id.key, now).group;
    if candidates != [] {
      var n := |candidates| - 1;
      group := RecordRow(rows, name, candidates[..n], now, id);
      if id == Id(name, candidates[n].key) && candidates[n].key !in Keys(candidates[..n]) {
        var before := Record(rows, name, candidates[..n], now);
        group := Mentioned(Get(before, name, id.key, now), candidates[n].group).group;
      }
    }
  }

  lemma PickedInKeys(rows: Rows, name: string, candidates: seq<Segment>, max: int, now: nat)
    ensures forall k :: k in Picked(rows, name, candidates, max, now) ==>
              k in Keys(candidates) && Eligible(Get(Record(rows, name, candidates, now), name, k, now), now)
  {
    var recorded, keys := Record(rows, name, candidates, now), Keys(candidates);
    OrderDistinct(recorded, name, now, keys);
    WaitingMembers(recorded, name, now, Order(recorded, name, now, keys));
  }

  /** An Acquire gives a row its next epoch if it grants it, and only then; a row granted was free. */
  lemma AcquireRow(rows: Rows, act: Act, now: nat, id: Id) returns (group: int)
    requires act.Acquire?
    ensures var row := Get(rows, id.name, id.key, now);
            var rows' := Next(rows, act, now);
            && (id in rows ==> id in rows')
            && (Grants(rows, act, now, id) ==> id in rows' && !HeldAt(row, now) && !Paused(row, now))
            && (id in rows' ==>
                  rows'[id] ==
                  (if Grants(rows, act, now, id) then Served(row, act.owner, now + act.ttl) else row).(group := group))
  {
    PickedInKeys(rows, act.name, act.candidates, act.max, now);
    group := RecordRow(rows, act.name, act.candidates, now, id);
  }

  /** The first request of a release that names this lease. */
  function FirstFor(rels: seq<ReleaseRequest>, l: Lease): Option<ReleaseRequest> {
    if rels == [] then None
    else
      var before := FirstFor(rels[..|rels| - 1], l);
      if before.Some? then before else if rels[|rels| - 1].lease == l then Some(rels[|rels| - 1]) else None
  }

  /** A release frees a row once, by its current lease; every other lease changes nothing. */
  lemma {:induction false} ReleaseRow(rows: Rows, rels: seq<ReleaseRequest>, now: nat, id: Id)
    requires Named(Release(rels))
    ensures id in Released(rows, rels, now) <==> id in rows
    ensures id in rows ==>
              var row := rows[id];
              var first := FirstFor(rels, Lease(id, row.owner, row.epoch));
              Released(rows, rels, now)[id] ==
              if row.owner != 0 && first.Some? then ReleasedRow(row, first.value, now) else row
  {
    if rels != [] {
      assert Named(Release(rels[..|rels| - 1]));
      ReleaseRow(rows, rels[..|rels| - 1], now, id);
    }
  }

  lemma {:induction false} RenewRow(rows: Rows, held: seq<Lease>, ttl: int, now: nat, id: Id)
    ensures id in Renewed(rows, held, ttl, now) <==> id in rows
    ensures id in rows ==>
              || Renewed(rows, held, ttl, now)[id] == rows[id]
              || (Renewed(rows, held, ttl, now)[id] == rows[id].(leaseUntil := now + ttl) && rows[id].leaseUntil > now)
  {
    if held != [] {
      RenewRow(rows, held[..|held| - 1], ttl, now, id);
    }
  }

  /** A release by the current lease that says the key was served: the end of a turn. */
  predicate Serves(rows: Rows, act: Act, id: Id) {
    && act.Release? && id in rows && rows[id].owner != 0
    && FirstFor(act.rels, Lease(id, rows[id].owner, rows[id].epoch)).Some?
    && FirstFor(act.rels, Lease(id, rows[id].owner, rows[id].epoch)).value.served
  }

  predicate Frees(act: Act, id: Id, row: Row) {
    act.Release? && FirstFor(act.rels, Lease(id, row.owner, row.epoch)).Some?
  }

  /** A row in one step: its epoch rises by a grant, its wait starts over by a turn. */
  lemma StepRow(rows: Rows, act: Act, now: nat, id: Id)
    requires Named(act) && id in rows
    ensures id in Next(rows, act, now)
    ensures var row, row' := rows[id], Next(rows, act, now)[id];
            && row'.firstSeen == row.firstSeen
            && row'.epoch == (if Grants(rows, act, now, id) then row.epoch + 1 else row.epoch)
            && row'.lastServed == (if Serves(rows, act, id) then Some(now) else row.lastServed)
            && (Serves(rows, act, id) ==> row'.owner == 0)
            && (!Grants(rows, act, now, id) ==> row'.owner == row.owner || (row'.owner == 0 && Frees(act, id, row)))
            && (Grants(rows, act, now, id) ==> row'.owner == act.owner && !HeldAt(row, now))
  {
    match act
    case Acquire(_, _, _, _, _) => var _ := AcquireRow(rows, act, now, id);
    case Renew(held, ttl) => RenewRow(rows, held, ttl, now, id);
    case Release(rels) => ReleaseRow(rows, rels, now, id);
    case Defer(_, _) =>
  }

  /** A row appears with its wait starting now. */
  lemma NewRow(rows: Rows, act: Act, now: nat, id: Id)
    requires Named(act) && id !in rows && id in Next(rows, act, now)
    ensures Waited(Next(rows, act, now)[id]) == now
  {
    match act
    case Acquire(_, _, _, _, _) => var _ := AcquireRow(rows, act, now, id);
    case Renew(held, ttl) => RenewRow(rows, held, ttl, now, id);
    case Release(rels) => ReleaseRow(rows, rels, now, id);
    case Defer(_, _) =>
  }

  // Every run

  lemma {:induction false} EpochsGrow(states: seq<Rows>, acts: seq<Act>, clock: seq<nat>, n: nat, m: nat, id: Id)
    requires Run(states, acts, clock) && n <= m <= |acts| && id in states[n]
    ensures id in states[m] && states[m][id].epoch >= states[n][id].epoch
    decreases m
  {
    if n < m {
      EpochsGrow(states, acts, clock, n, m - 1, id);
      StepRow(states[m - 1], acts[m - 1], clock[m - 1], id);
    }
  }

  /** Every grant of a key raises its epoch, so no two grants share one: a lease names one grant. */
  lemma GrantsRaiseEpoch(states: seq<Rows>, acts: seq<Act>, clock: seq<nat>, i: nat, j: nat, id: Id)
    requires Run(states, acts, clock) && i < j < |acts|
    requires Grants(states[i], acts[i], clock[i], id) && Grants(states[j], acts[j], clock[j], id)
    ensures id in states[i + 1] && id in states[j + 1]
    ensures states[i + 1][id].owner == acts[i].owner && states[j + 1][id].owner == acts[j].owner
    ensures states[i + 1][id].epoch < states[j + 1][id].epoch
  {
    var _ := AcquireRow(states[i], acts[i], clock[i], id);
    EpochsGrow(states, acts, clock, i + 1, j, id);
    var _ := AcquireRow(states[j], acts[j], clock[j], id);
  }

  /** A lease is exclusive: while it is live and its holder does not release it, the key stays with
      its owner and its epoch, whatever anybody asks for. */
  lemma {:induction false} LiveLeaseIsKept(states: seq<Rows>, acts: seq<Act>, clock: seq<nat>, n: nat, m: nat, l: Lease)
    requires Run(states, acts, clock) && n <= m <= |acts| && Current(states[n], l) && l.owner != 0
    requires forall i :: n <= i < m ==> acts[i].Release? ==> FirstFor(acts[i].rels, l).None?
    requires forall i :: n <= i < m && l.id in states[i] ==> states[i][l.id].leaseUntil > clock[i]
    ensures Current(states[m], l)
    ensures forall i :: n <= i < m ==> !Grants(states[i], acts[i], clock[i], l.id)
    decreases m
  {
    if n < m {
      LiveLeaseIsKept(states, acts, clock, n, m - 1, l);
      StepRow(states[m - 1], acts[m - 1], clock[m - 1], l.id);
    }
  }

  lemma {:induction false} WaitedInThePast(states: seq<Rows>, acts: seq<Act>, clock: seq<nat>, n: nat, id: Id)
    requires Run(states, acts, clock) && n <= |acts| && id in states[n]
    ensures n > 0 && Waited(states[n][id]) <= clock[n - 1]
  {
    if id in states[n - 1] {
      WaitedInThePast(states, acts, clock, n - 1, id);
      StepRow(states[n - 1], acts[n - 1], clock[n - 1], id);
    } else {
      NewRow(states[n - 1], acts[n - 1], clock[n - 1], id);
    }
  }

  /** A key that waits from a to m: whenever somebody asks for its automation's keys it is a candidate
      and eligible, in one group with its rival if that is one too, and it is neither granted nor served. */
  ghost predicate WaitsOn(states: seq<Rows>, acts: seq<Act>, clock: seq<nat>, a: nat, m: nat, k: Id, rival: Id)
    requires |states| == |acts| + 1 && |clock| == |acts| && a <= m <= |acts|
  {
    && k in states[a] && k != rival && k.name == rival.name
    && forall i :: a <= i < m ==>
         && !Grants(states[i], acts[i], clock[i], k) && !Serves(states[i], acts[i], k)
         && (acts[i].Acquire? && acts[i].name == k.name ==> Asks(states[i], acts[i], clock[i], k, rival))
  }

  ghost predicate Asks(rows: Rows, act: Act, now: nat, k: Id, rival: Id)
    requires act.Acquire?
  {
    var recorded := Record(rows, act.name, act.candidates, now);
    && k.key in Keys(act.candidates) && Eligible(Get(recorded, act.name, k.key, now), now)
    && (rival.key in Keys(act.candidates) ==>
          Get(recorded, act.name, rival.key, now).group == Get(recorded, act.name, k.key, now).group)
  }

  /** A rival that waits less is not granted before a key that waits. */
  lemma RivalAfter(rows: Rows, act: Act, now: nat, k: Id, rival: Id)
    requires act.Acquire? && act.name == k.name == rival.name && k in rows && rival in rows && k != rival
    requires Asks(rows, act, now, k, rival) && !Grants(rows, act, now, k)
    requires Waited(rows[k]) < Waited(rows[rival])
    ensures !Grants(rows, act, now, rival)
  {
    var recorded, keys := Record(rows, act.name, act.candidates, now), Keys(act.candidates);
    var _ := RecordRow(rows, act.name, act.candidates, now, k);
    var _ := RecordRow(rows, act.name, act.candidates, now, rival);
    PickedInKeys(rows, act.name, act.candidates, act.max, now);
    FirstAreGranted(rows, act.name, act.candidates, act.max, now, k.key);
    if rival.key in keys {
      RankFollowsWait(recorded, act.name, now, keys, rival.key, k.key);
    }
  }

  /** Once a rival was served, it is neither granted nor served again while the key waits. */
  lemma {:induction false} ServedWaits(states: seq<Rows>, acts: seq<Act>, clock: seq<nat>, a: nat, s: nat, m: nat,
      k: Id, rival: Id)
    requires Run(states, acts, clock) && Strict(clock) && a <= s < m <= |acts|
    requires WaitsOn(states, acts, clock, a, m, k, rival) && Serves(states[s], acts[s], rival)
    ensures k in states[m] && Waited(states[m][k]) < clock[s]
    ensures rival in states[m] && states[m][rival].owner == 0 && states[m][rival].lastServed == Some(clock[s])
    ensures forall i :: s < i < m ==> !Serves(states[i], acts[i], rival)
    decreases m
  {
    if m == s + 1 {
      EpochsGrow(states, acts, clock, a, s, k);
      WaitedInThePast(states, acts, clock, s, k);
      StepRow(states[s], acts[s], clock[s], k);
      StepRow(states[s], acts[s], clock[s], rival);
    } else {
      assert WaitsOn(states, acts, clock, a, m - 1, k, rival);
      ServedWaits(states, acts, clock, a, s, m - 1, k, rival);
      if acts[m - 1].Acquire? && acts[m - 1].name == k.name {
        RivalAfter(states[m - 1], acts[m - 1], clock[m - 1], k, rival);
      }
      StepRow(states[m - 1], acts[m - 1], clock[m - 1], k);
      StepRow(states[m - 1], acts[m - 1], clock[m - 1], rival);
    }
  }

  /** Fairness: with a clock that strictly advances, another key of the group is served at most once
      between two turns of a key that is eligible all along. */
  lemma RivalServedOnce(states: seq<Rows>, acts: seq<Act>, clock: seq<nat>, a: nat, s: nat, t: nat, m: nat, k: Id,
      rival: Id)
    requires Run(states, acts, clock) && Strict(clock) && a <= s < t < m <= |acts|
    requires WaitsOn(states, acts, clock, a, m, k, rival)
    ensures !(Serves(states[s], acts[s], rival) && Serves(states[t], acts[t], rival))
  {
    if Serves(states[s], acts[s], rival) {
      ServedWaits(states, acts, clock, a, s, m, k, rival);
    }
  }
}
