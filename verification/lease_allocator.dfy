/** memory/automation_store.go: fenced leases on segments, granted in a fair order. */
module LeaseAllocator {
  import opened Options
  import opened Sequences

  /** A segment key of an automation. Keys and groups are ordered as the strings they stand for; group
      0 is the empty one, owner 0 nobody. */
  datatype Id = Id(name: string, key: int)

  datatype Row = Row(
    group: int, owner: nat, epoch: nat, leaseUntil: int, pausedTill: int, firstSeen: int, lastServed: Option<int>)

  datatype Segment = Segment(key: int, group: int)

  datatype Lease = Lease(id: Id, owner: nat, epoch: nat)

  datatype ReleaseRequest = ReleaseRequest(lease: Lease, deferFor: int, served: bool)

  datatype AcquireResult = AcquireResult(granted: seq<Lease>, active: nat, eligible: nat)

  type Rows = map<Id, Row>

  function New(now: nat): Row {
    Row(0, 0, 0, 0, 0, now, None)
  }

  /** Since when a key has been waiting for its next turn. */
  function Waited(r: Row): int {
    if r.lastServed.Some? then r.lastServed.value else r.firstSeen
  }

  predicate HeldAt(r: Row, now: nat) {
    r.owner != 0 && r.leaseUntil > now
  }

  predicate Paused(r: Row, now: nat) {
    r.pausedTill > now
  }

  predicate Eligible(r: Row, now: nat) {
    !Paused(r, now) && !HeldAt(r, now)
  }

  function Get(rows: Rows, name: string, key: int, now: nat): Row {
    if Id(name, key) in rows then rows[Id(name, key)] else New(now)
  }

  // Candidates

  /** The candidates' keys, each at its first mention. */
  function Keys(candidates: seq<Segment>): (keys: seq<int>)
    ensures Distinct(keys)
  {
    if candidates == [] then []
    else
      var n := |candidates| - 1;
      var before := Keys(candidates[..n]);
      if candidates[n].key in before then before else before + [candidates[n].key]
  }

  /** The row of a candidate, with the group it names. */
  function Mentioned(r: Row, group: int): Row {
    if group != 0 then r.(group := group) else r
  }

  /** The rows once every candidate is recorded; a second mention of a key is ignored. */
  function Record(rows: Rows, name: string, candidates: seq<Segment>, now: nat): Rows {
    if candidates == [] then rows
    else
      var n := |candidates| - 1;
      var before := Record(rows, name, candidates[..n], now);
      var c := candidates[n];
      if c.key in Keys(candidates[..n]) then before
      else before[Id(name, c.key) := Mentioned(Get(before, name, c.key, now), c.group)]
  }

  // The fair order

  /** Insertion of a key, and the sort by it. */
  function Insert(k: int, s: seq<int>, less: (int, int) -> bool): seq<int> {
    if s == [] || less(k, s[0]) then [k] + s else [s[0]] + Insert(k, s[1..], less)
  }

  function SortBy(s: seq<int>, less: (int, int) -> bool): seq<int> {
    if s == [] then [] else Insert(s[0], SortBy(s[1..], less), less)
  }

  /** Of two keys of a group: a has waited longer. */
  predicate Waits(rows: Rows, name: string, now: nat, a: int, b: int) {
    var wa, wb := Waited(Get(rows, name, a, now)), Waited(Get(rows, name, b, now));
    wa < wb || (wa == wb && a < b)
  }

  function LongerWait(rows: Rows, name: string, now: nat): (int, int) -> bool {
    (a: int, b: int) => Waits(rows, name, now, a, b)
  }

  function InGroup(rows: Rows, name: string, now: nat, keys: seq<int>, group: int): seq<int> {
    if keys == [] then []
    else
      var rest := InGroup(rows, name, now, keys[..|keys| - 1], group);
      var k := keys[|keys| - 1];
      if Get(rows, name, k, now).group == group then rest + [k] else rest
  }

  function IndexOf(s: seq<int>, k: int): nat {
    if s == [] || s[0] == k then 0 else 1 + IndexOf(s[1..], k)
  }

  /** A key's place among the candidates of its group. */
  function Rank(rows: Rows, name: string, now: nat, keys: seq<int>, k: int): nat {
    var group := Get(rows, name, k, now).group;
    IndexOf(SortBy(InGroup(rows, name, now, keys, group), LongerWait(rows, name, now)), k)
  }

  function Later(a: Option<int>, b: Option<int>): Option<int> {
    if a.None? then b else if b.None? then a else if b.value > a.value then b else a
  }

  /** The last time a key of the group was served. */
  function LastServed(rows: Rows, name: string, now: nat, keys: seq<int>, group: int): Option<int> {
    if keys == [] then None
    else
      var rest := LastServed(rows, name, now, keys[..|keys| - 1], group);
      var r := Get(rows, name, keys[|keys| - 1], now);
      if r.group == group then Later(rest, r.lastServed) else rest
  }

  /** The first time a key of the group was seen. */
  function FirstSeen(rows: Rows, name: string, now: nat, keys: seq<int>, group: int): Option<int> {
    if keys == [] then None
    else
      var rest := FirstSeen(rows, name, now, keys[..|keys| - 1], group);
      var r := Get(rows, name, keys[|keys| - 1], now);
      if r.group == group && (rest.None? || r.firstSeen < rest.value) then Some(r.firstSeen) else rest
  }

  function Turn(rows: Rows, name: string, now: nat, keys: seq<int>, group: int): int {
    var served := LastServed(rows, name, now, keys, group);
    var seen := FirstSeen(rows, name, now, keys, group);
    if served.Some? then served.value else if seen.Some? then seen.value else 0
  }

  /** The order of grants: every group's first key before any group's second, the groups by their
      turn. */
  predicate Precedes(rows: Rows, name: string, now: nat, keys: seq<int>, a: int, b: int) {
    var ra, rb := Rank(rows, name, now, keys, a), Rank(rows, name, now, keys, b);
    var ga, gb := Get(rows, name, a, now).group, Get(rows, name, b, now).group;
    var ta, tb := Turn(rows, name, now, keys, ga), Turn(rows, name, now, keys, gb);
    if ra != rb then ra < rb
    else if ta != tb then ta < tb
    else if ga != gb then ga < gb
    else a < b
  }

  function GrantOrder(rows: Rows, name: string, now: nat, keys: seq<int>): (int, int) -> bool {
    (a: int, b: int) => Precedes(rows, name, now, keys, a, b)
  }

  function Order(rows: Rows, name: string, now: nat, keys: seq<int>): seq<int> {
    SortBy(keys, GrantOrder(rows, name, now, keys))
  }

  // Acquire

  /** The keys that may be granted, and those not paused, in order. */
  function Waiting(rows: Rows, name: string, now: nat, order: seq<int>): seq<int> {
    if order == [] then []
    else
      var rest := Waiting(rows, name, now, order[..|order| - 1]);
      var k := order[|order| - 1];
      if Eligible(Get(rows, name, k, now), now) then rest + [k] else rest
  }

  function Unpaused(rows: Rows, name: string, now: nat, order: seq<int>): nat {
    if order == [] then 0
    else
      var r := Get(rows, name, order[|order| - 1], now);
      Unpaused(rows, name, now, order[..|order| - 1]) + if Paused(r, now) then 0 else 1
  }

  function Served(r: Row, owner: nat, until: int): Row {
    r.(owner := owner, epoch := r.epoch + 1, leaseUntil := until)
  }

  function GrantAll(rows: Rows, name: string, keys: seq<int>, owner: nat, until: int): Rows {
    map id | id in rows :: if id.name == name && id.key in keys then Served(rows[id], owner, until) else rows[id]
  }

  function Leases(rows: Rows, name: string, now: nat, keys: seq<int>, owner: nat): (leases: seq<Lease>)
    ensures |leases| == |keys|
  {
    if keys == [] then []
    else
      var k := keys[|keys| - 1];
      Leases(rows, name, now, keys[..|keys| - 1], owner)
        + [Lease(Id(name, k), owner, Get(rows, name, k, now).epoch + 1)]
  }

  function Bound(max: int, n: nat): (r: nat)
    ensures r <= n && (max >= 0 ==> r <= max)
  {
    if max <= 0 then 0 else if max < n then max else n
  }

  /** What an Acquire grants: the first max eligible candidates in the fair order. */
  function Picked(rows: Rows, name: string, candidates: seq<Segment>, max: int, now: nat): seq<int> {
    var recorded := Record(rows, name, candidates, now);
    var waiting := Waiting(recorded, name, now, Order(recorded, name, now, Keys(candidates)));
    waiting[..Bound(max, |waiting|)]
  }

  function Acquired(rows: Rows, name: string, owner: nat, candidates: seq<Segment>, max: int, ttl: int,
      now: nat): Rows {
    GrantAll(Record(rows, name, candidates, now), name, Picked(rows, name, candidates, max, now), owner, now + ttl)
  }

  /** One candidate of the walk. */
  function Visit(rows: Rows, res: AcquireResult, name: string, k: int, max: int, owner: nat, until: int,
      now: nat): (Rows, AcquireResult) {
    var r := Get(rows, name, k, now);
    if Paused(r, now) then (rows, res)
    else if HeldAt(r, now) then (rows, res.(active := res.active + 1))
    else if |res.granted| < max then
      (rows[Id(name, k) := Served(r, owner, until)],
       res.(active := res.active + 1, granted := res.granted + [Lease(Id(name, k), owner, r.epoch + 1)]))
    else (rows, res.(active := res.active + 1, eligible := res.eligible + 1))
  }

  /** The walk over the candidates in order: the rows, and the result so far. */
  function Walk(rows: Rows, name: string, order: seq<int>, max: int, owner: nat, until: int, now: nat): (Rows,
      AcquireResult) {
    if order == [] then (rows, AcquireResult([], 0, 0))
    else
      var (before, res) := Walk(rows, name, order[..|order| - 1], max, owner, until, now);
      Visit(before, res, name, order[|order| - 1], max, owner, until, now)
  }

  /** Where the walk is once these are waiting. */
  function Reached(rows: Rows, name: string, waiting: seq<int>, active: nat, max: int, owner: nat, until: int,
      now: nat): (Rows, AcquireResult) {
    var picked := waiting[..Bound(max, |waiting|)];
    (GrantAll(rows, name, picked, owner, until),
     AcquireResult(Leases(rows, name, now, picked, owner), active, |waiting| - |picked|))
  }

  // Renew, Release, Defer

  predicate Current(rows: Rows, l: Lease) {
    l.id in rows && rows[l.id].owner == l.owner && rows[l.id].epoch == l.epoch
  }

  predicate Live(rows: Rows, l: Lease, now: nat) {
    Current(rows, l) && rows[l.id].leaseUntil > now
  }

  function RenewOne(rows: Rows, l: Lease, ttl: int, now: nat): Rows {
    if Live(rows, l, now) then rows[l.id := rows[l.id].(leaseUntil := now + ttl)] else rows
  }

  function Renewed(rows: Rows, held: seq<Lease>, ttl: int, now: nat): Rows {
    if held == [] then rows
    else RenewOne(Renewed(rows, held[..|held| - 1], ttl, now), held[|held| - 1], ttl, now)
  }

  function Pause(r: Row, until: int): Row {
    if until > r.pausedTill then r.(pausedTill := until) else r
  }

  function ReleasedRow(r: Row, rel: ReleaseRequest, now: nat): Row {
    var free := r.(owner := 0, leaseUntil := 0);
    var paused := if rel.deferFor > 0 then Pause(free, now + rel.deferFor) else free;
    if rel.served then paused.(lastServed := Some(now)) else paused
  }

  function ReleaseOne(rows: Rows, rel: ReleaseRequest, now: nat): Rows {
    if Current(rows, rel.lease) then rows[rel.lease.id := ReleasedRow(rows[rel.lease.id], rel, now)] else rows
  }

  function Released(rows: Rows, rels: seq<ReleaseRequest>, now: nat): Rows {
    if rels == [] then rows
    else ReleaseOne(Released(rows, rels[..|rels| - 1], now), rels[|rels| - 1], now)
  }

  function DeferredRows(rows: Rows, id: Id, d: int, now: nat): Rows {
    rows[id := Pause(Get(rows, id.name, id.key, now), now + d)]
  }

  // The order is a sort

  lemma {:induction false} SortMembers(s: seq<int>, less: (int, int) -> bool)
    ensures forall k :: k in SortBy(s, less) <==> k in s
    ensures |SortBy(s, less)| == |s|
    ensures Distinct(s) ==> Distinct(SortBy(s, less))
  {
    if s != [] {
      SortMembers(s[1..], less);
      InsertMembers(s[0], SortBy(s[1..], less), less);
      assert s == [s[0]] + s[1..];
    }
  }

  lemma {:induction false} InsertMembers(k: int, s: seq<int>, less: (int, int) -> bool)
    ensures forall x :: x in Insert(k, s, less) <==> x == k || x in s
    ensures |Insert(k, s, less)| == |s| + 1
    ensures Distinct(s) && k !in s ==> Distinct(Insert(k, s, less))
  {
    if s != [] && !less(k, s[0]) {
      InsertMembers(k, s[1..], less);
      assert s == [s[0]] + s[1..];
      assert Distinct(s) ==> Distinct(s[1..]) && s[0] !in s[1..];
    }
  }

  lemma OrderDistinct(rows: Rows, name: string, now: nat, keys: seq<int>)
    requires Distinct(keys)
    ensures Distinct(Order(rows, name, now, keys))
    ensures forall k :: k in Order(rows, name, now, keys) <==> k in keys
  {
    SortMembers(keys, GrantOrder(rows, name, now, keys));
  }

  predicate Agree(less: (int, int) -> bool, other: (int, int) -> bool, a: int, b: int) {
    less(a, b) == other(a, b)
  }

  /** Orders that agree on what is sorted sort the same. */
  lemma {:induction false} SortAgree(s: seq<int>, less: (int, int) -> bool, other: (int, int) -> bool)
    requires forall a, b :: a in s && b in s ==> Agree(less, other, a, b)
    ensures SortBy(s, less) == SortBy(s, other)
  {
    if s != [] {
      SortAgree(s[1..], less, other);
      SortMembers(s[1..], less);
      var rest := SortBy(s[1..], less);
      forall i | 0 <= i < |rest| ensures Agree(less, other, s[0], rest[i]) {
        var first, x := s[0], rest[i];
        assert s == [first] + s[1..] && x in rest;
        assert first in s && x in s;
      }
      InsertAgree(s[0], rest, less, other);
    }
  }

  lemma {:induction false} InsertAgree(k: int, s: seq<int>, less: (int, int) -> bool, other: (int, int) -> bool)
    requires forall i :: 0 <= i < |s| ==> Agree(less, other, k, s[i])
    ensures Insert(k, s, less) == Insert(k, s, other)
  {
    assert s != [] ==> Agree(less, other, k, s[0]);
    if s != [] && !less(k, s[0]) {
      InsertAgree(k, s[1..], less, other);
    }
  }

  lemma {:induction false} IndexAt(s: seq<int>, i: nat)
    requires Distinct(s) && i < |s|
    ensures IndexOf(s, s[i]) == i
  {
    if i > 0 {
      IndexAt(s[1..], i - 1);
    }
  }

  lemma {:induction false} InGroupMembers(rows: Rows, name: string, now: nat, keys: seq<int>, group: int)
    ensures forall k :: k in InGroup(rows, name, now, keys, group) <==>
              k in keys && Get(rows, name, k, now).group == group
    ensures Distinct(keys) ==> Distinct(InGroup(rows, name, now, keys, group))
  {
    if keys != [] {
      InGroupMembers(rows, name, now, keys[..|keys| - 1], group);
      assert keys == keys[..|keys| - 1] + [keys[|keys| - 1]];
    }
  }

  lemma TakeMore(waiting: seq<int>, k: int, max: int)
    ensures (waiting + [k])[..Bound(max, |waiting| + 1)] ==
            if Bound(max, |waiting|) < max then
              waiting[..Bound(max, |waiting|)] + [k]
            else
              waiting[..Bound(max, |waiting|)]
  {}

  lemma GrantMore(rows: Rows, name: string, picked: seq<int>, k: int, owner: nat, until: int)
    requires Id(name, k) in rows && k !in picked
    ensures GrantAll(rows, name, picked + [k], owner, until) ==
            GrantAll(rows, name, picked, owner, until)[Id(name, k) := Served(rows[Id(name, k)], owner, until)]
  {}

  lemma {:induction false} WaitingMembers(rows: Rows, name: string, now: nat, order: seq<int>)
    ensures forall k :: k in Waiting(rows, name, now, order) <==> k in order && Eligible(Get(rows, name, k, now), now)
  {
    if order != [] {
      WaitingMembers(rows, name, now, order[..|order| - 1]);
      assert order == order[..|order| - 1] + [order[|order| - 1]];
    }
  }

  lemma VisitOne(rows: Rows, name: string, waiting: seq<int>, active: nat, k: int, max: int, owner: nat, until: int,
      now: nat)
    requires Id(name, k) in rows && k !in waiting
    ensures var (before, res) := Reached(rows, name, waiting, active, max, owner, until, now);
            var r := Get(rows, name, k, now);
            Visit(before, res, name, k, max, owner, until, now) ==
            Reached(rows, name, if Eligible(r, now) then waiting + [k] else waiting,
                    if Paused(r, now) then active else active + 1,
                    max, owner, until, now)
  {
    var picked := waiting[..Bound(max, |waiting|)];
    var r := Get(rows, name, k, now);
    assert GrantAll(rows, name, picked, owner, until)[Id(name, k)] == r;
    TakeMore(waiting, k, max);
    if Eligible(r, now) && |picked| < max {
      GrantMore(rows, name, picked, k, owner, until);
      LeaseMore(rows, name, now, picked, k, owner);
      assert (waiting + [k])[..Bound(max, |waiting| + 1)] == picked + [k];
    }
  }

  lemma WalkMore(rows: Rows, name: string, init: seq<int>, k: int, max: int, owner: nat, until: int, now: nat)
    ensures var (before, res) := Walk(rows, name, init, max, owner, until, now);
            Walk(rows, name, init + [k], max, owner, until, now) == Visit(before, res, name, k, max, owner, until, now)
    ensures var r := Get(rows, name, k, now);
            var waiting, active := Waiting(rows, name, now, init), Unpaused(rows, name, now, init);
            && Waiting(rows, name, now, init + [k]) == (if Eligible(r, now) then waiting + [k] else waiting)
            && Unpaused(rows, name, now, init + [k]) == if Paused(r, now) then active else active + 1
  {
    assert (init + [k])[..|init|] == init;
  }

  lemma NotYetWaiting(rows: Rows, name: string, order: seq<int>, now: nat)
    requires order != [] && Distinct(order)
    ensures order[|order| - 1] in order
    ensures order[|order| - 1] !in Waiting(rows, name, now, order[..|order| - 1])
  {
    WaitingMembers(rows, name, now, order[..|order| - 1]);
  }

  /** The walk grants the first max of those waiting, and counts the rest of them. */
  lemma {:induction false} WalkGrantsFirst(rows: Rows, name: string, order: seq<int>, max: int, owner: nat,
      until: int, now: nat)
    requires Distinct(order) && forall k :: k in order ==> Id(name, k) in rows
    ensures Walk(rows, name, order, max, owner, until, now) ==
            Reached(rows, name, Waiting(rows, name, now, order), Unpaused(rows, name, now, order),
                    max, owner, until, now)
  {
    if order == [] {
      assert GrantAll(rows, name, [], owner, until) == rows;
    } else {
      var init, k := order[..|order| - 1], order[|order| - 1];
      assert order == init + [k];
      WalkGrantsFirst(rows, name, init, max, owner, until, now);
      var waiting, active := Waiting(rows, name, now, init), Unpaused(rows, name, now, init);
      NotYetWaiting(rows, name, order, now);
      WalkMore(rows, name, init, k, max, owner, until, now);
      VisitOne(rows, name, waiting, active, k, max, owner, until, now);
    }
  }

  lemma LeaseMore(rows: Rows, name: string, now: nat, picked: seq<int>, k: int, owner: nat)
    ensures Leases(rows, name, now, picked + [k], owner) ==
            Leases(rows, name, now, picked, owner) + [Lease(Id(name, k), owner, Get(rows, name, k, now).epoch + 1)]
  {
    assert (picked + [k])[..|picked|] == picked;
  }

  // The store

  class AutomationStore {
    var rows: Rows

    constructor ()
      ensures rows == map[]
    {
      rows := map[];
    }

    /** Records the candidates and grants the first max eligible ones in the fair order. */
    method Acquire(name: string, owner: nat, candidates: seq<Segment>, max: int, ttl: int, now: nat)
        returns (res: AcquireResult)
      modifies this
      ensures rows == Acquired(old(rows), name, owner, candidates, max, ttl, now)
      ensures var recorded := Record(old(rows), name, candidates, now);
              var order := Order(recorded, name, now, Keys(candidates));
              && res.granted == Leases(recorded, name, now, Picked(old(rows), name, candidates, max, now), owner)
              && res.active == Unpaused(recorded, name, now, order)
              && res.eligible == |Waiting(recorded, name, now, order)| - |res.granted|
    {
      var keys := RecordAll(name, candidates, now);
      var order := Sorted(name, keys, now);
      OrderDistinct(rows, name, now, keys);
      res := GrantFirst(name, owner, order, max, ttl, now);
    }

    method RecordAll(name: string, candidates: seq<Segment>, now: nat) returns (keys: seq<int>)
      modifies this
      ensures rows == Record(old(rows), name, candidates, now) && keys == Keys(candidates)
      ensures forall k :: k in keys ==> Id(name, k) in rows
    {
      keys := [];
      for i := 0 to |candidates|
        invariant rows == Record(old(rows), name, candidates[..i], now) && keys == Keys(candidates[..i])
        invariant forall k :: k in keys ==> Id(name, k) in rows
      {
        var c := candidates[i];
        assert candidates[..i + 1][..i] == candidates[..i];
        if c.key in keys {
          continue;
        }
        var r := if Id(name, c.key) in rows then rows[Id(name, c.key)] else New(now);
        if c.group != 0 {
          r := r.(group := c.group);
        }
        rows := rows[Id(name, c.key) := r];
        keys := keys + [c.key];
      }
      assert candidates[..|candidates|] == candidates;
    }

    /** The turn of every candidate's group. */
    method GroupTurns(name: string, keys: seq<int>, now: nat) returns (turns: map<int, int>)
      ensures forall k :: k in keys ==>
                var g := Get(rows, name, k, now).group; g in turns && turns[g] == Turn(rows, name, now, keys, g)
    {
      var served: map<int, int>, seen: map<int, int> := map[], map[];
      for i := 0 to |keys|
        invariant forall g :: LastServed(rows, name, now, keys[..i], g) == if g in served then Some(served[g]) else None
        invariant forall g :: FirstSeen(rows, name, now, keys[..i], g) == if g in seen then Some(seen[g]) else None
        invariant forall k :: k in keys[..i] ==> Get(rows, name, k, now).group in seen
      {
        var r := Get(rows, name, keys[i], now);
        assert keys[..i + 1][..i] == keys[..i];
        if r.lastServed.Some? && (r.group !in served || r.lastServed.value > served[r.group]) {
          served := served[r.group := r.lastServed.value];
        }
        if r.group !in seen || r.firstSeen < seen[r.group] {
          seen := seen[r.group := r.firstSeen];
        }
      }
      assert keys[..|keys|] == keys;
      turns := seen + served;
    }

    /** Every candidate's place in its group. */
    method Ranks(name: string, keys: seq<int>, now: nat) returns (ranks: map<int, nat>)
      requires Distinct(keys)
      ensures forall k :: k in keys ==> k in ranks && ranks[k] == Rank(rows, name, now, keys, k)
    {
      ranks := map[];
      for i := 0 to |keys|
        invariant forall k :: k in ranks ==> ranks[k] == Rank(rows, name, now, keys, k)
        invariant forall j :: 0 <= j < i ==> keys[j] in ranks
      {
        ranks := RankGroup(ranks, name, keys, Get(rows, name, keys[i], now).group, now);
        assert keys[i] in keys;
      }
    }

    /** Numbers the candidates of a group in the order of their wait. */
    method RankGroup(before: map<int, nat>, name: string, keys: seq<int>, group: int,
        now: nat) returns (ranks: map<int, nat>)
      requires Distinct(keys)
      ensures forall k :: k in ranks <==> k in before || (k in keys && Get(rows, name, k, now).group == group)
      ensures forall k :: k in ranks ==>
                ranks[k] == Rank(rows, name, now, keys, k) || (k in before && ranks[k] == before[k])
    {
      ranks := before;
      var inGroup := InGroup(rows, name, now, keys, group);
      var members := SortBy(inGroup, LongerWait(rows, name, now));
      InGroupMembers(rows, name, now, keys, group);
      SortMembers(inGroup, LongerWait(rows, name, now));
      for r := 0 to |members|
        invariant forall k :: k in ranks <==> k in before || k in members[..r]
        invariant forall k :: k in ranks ==>
                    ranks[k] == Rank(rows, name, now, keys, k) || (k in before && ranks[k] == before[k])
      {
        IndexAt(members, r);
        assert members[r] in members;
        assert members[..r + 1] == members[..r] + [members[r]];
        ranks := ranks[members[r] := r];
      }
      assert members[..|members|] == members;
    }

    /** The candidates in the order of grants. */
    method Sorted(name: string, keys: seq<int>, now: nat) returns (order: seq<int>)
      requires Distinct(keys)
      ensures order == Order(rows, name, now, keys)
    {
      var turns := GroupTurns(name, keys, now);
      var ranks := Ranks(name, keys, now);
      var groups := map k | k in keys :: Get(rows, name, k, now).group;
      var less := (a: int, b: int) =>
        a in ranks && b in ranks && a in groups && b in groups && groups[a] in turns && groups[b] in turns &&
        if ranks[a] != ranks[b] then ranks[a] < ranks[b]
        else if turns[groups[a]] != turns[groups[b]] then turns[groups[a]] < turns[groups[b]]
        else if groups[a] != groups[b] then groups[a] < groups[b]
        else a < b;
      order := SortBy(keys, less);
      forall a, b | a in keys && b in keys ensures Agree(less, GrantOrder(rows, name, now, keys), a, b) {
        assert turns[groups[a]] == Turn(rows, name, now, keys, groups[a]) &&
               turns[groups[b]] == Turn(rows, name, now, keys, groups[b]);
      }
      SortAgree(keys, less, GrantOrder(rows, name, now, keys));
    }

    /** Walks the candidates in order and grants up to max of them. */
    method GrantFirst(name: string, owner: nat, order: seq<int>, max: int, ttl: int,
        now: nat) returns (res: AcquireResult)
      requires forall k :: k in order ==> Id(name, k) in rows
      requires Distinct(order)
      modifies this
      ensures var waiting := Waiting(old(rows), name, now, order);
              var picked := waiting[..Bound(max, |waiting|)];
              && rows == GrantAll(old(rows), name, picked, owner, now + ttl)
              && res.granted == Leases(old(rows), name, now, picked, owner)
              && res.active == Unpaused(old(rows), name, now, order)
              && res.eligible == |waiting| - |picked|
    {
      res := AcquireResult([], 0, 0);
      for i := 0 to |order|
        invariant (rows, res) == Walk(old(rows), name, order[..i], max, owner, now + ttl, now)
        invariant forall id :: id in old(rows) ==> id in rows
      {
        var k := order[i];
        assert order[..i + 1][..i] == order[..i];
        var r := rows[Id(name, k)];
        if r.pausedTill > now {
          continue;
        }
        res := res.(active := res.active + 1);
        if r.owner != 0 && r.leaseUntil > now {
          continue;
        }
        if |res.granted| < max {
          rows := rows[Id(name, k) := Served(r, owner, now + ttl)];
          res := res.(granted := res.granted + [Lease(Id(name, k), owner, r.epoch + 1)]);
          continue;
        }
        res := res.(eligible := res.eligible + 1);
      }
      assert order[..|order|] == order;
      WalkGrantsFirst(old(rows), name, order, max, owner, now + ttl, now);
    }

    /** Extends the leases still held and returns the others. */
    method Renew(held: seq<Lease>, ttl: int, now: nat) returns (lost: seq<Lease>)
      modifies this
      ensures rows == Renewed(old(rows), held, ttl, now)
      ensures forall l :: l in lost <==>
                exists i :: 0 <= i < |held| && held[i] == l && !Live(Renewed(old(rows), held[..i], ttl, now), l, now)
    {
      lost := [];
      for i := 0 to |held|
        invariant rows == Renewed(old(rows), held[..i], ttl, now)
        invariant forall l :: l in lost <==>
                    exists j :: 0 <= j < i && held[j] == l && !Live(Renewed(old(rows), held[..j], ttl, now), l, now)
      {
        var l := held[i];
        assert held[..i + 1][..i] == held[..i];
        if l.id !in rows || rows[l.id].owner != l.owner || rows[l.id].epoch != l.epoch || rows[l.id].leaseUntil <= now {
          lost := lost + [l];
          continue;
        }
        rows := rows[l.id := rows[l.id].(leaseUntil := now + ttl)];
      }
      assert held[..|held|] == held;
    }

    /** Gives segments back, each fenced on its owner and epoch. */
    method Release(rels: seq<ReleaseRequest>, now: nat) returns (lost: seq<Lease>)
      modifies this
      ensures rows == Released(old(rows), rels, now)
      ensures forall l :: l in lost <==>
                exists i :: 0 <= i < |rels| && rels[i].lease == l && !Current(Released(old(rows), rels[..i], now), l)
    {
      lost := [];
      for i := 0 to |rels|
        invariant rows == Released(old(rows), rels[..i], now)
        invariant forall l :: l in lost <==>
                    exists j :: 0 <= j < i && rels[j].lease == l && !Current(Released(old(rows), rels[..j], now), l)
      {
        var rel := rels[i];
        assert rels[..i + 1][..i] == rels[..i];
        var l := rel.lease;
        if l.id !in rows || rows[l.id].owner != l.owner || rows[l.id].epoch != l.epoch {
          lost := lost + [l];
          continue;
        }
        var r := rows[l.id].(owner := 0, leaseUntil := 0);
        if rel.deferFor > 0 && now + rel.deferFor > r.pausedTill {
          r := r.(pausedTill := now + rel.deferFor);
        }
        if rel.served {
          r := r.(lastServed := Some(now));
        }
        rows := rows[l.id := r];
      }
      assert rels[..|rels|] == rels;
    }

    /** Pauses a key, keeping any longer pause. */
    method Defer(id: Id, d: int, now: nat)
      modifies this
      ensures rows == DeferredRows(old(rows), id, d, now)
    {
      var r := if id in rows then rows[id] else New(now);
      if now + d > r.pausedTill {
        r := r.(pausedTill := now + d);
      }
      rows := rows[id := r];
    }
  }
}
