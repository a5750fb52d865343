/** The Store contract orders candidates group by group; the allocator deals the groups out in turn.
    When the two orders are the same. */
module LeaseOrder {
  import opened Options
  import opened Sequences
  import opened LeaseAllocator
  import opened LeaseFairness

  /** Whether a's group has waited longer than b's. */
  predicate GroupBefore(rows: Rows, name: string, now: nat, keys: seq<int>, a: int, b: int) {
    var ga, gb := Get(rows, name, a, now).group, Get(rows, name, b, now).group;
    var ta, tb := Turn(rows, name, now, keys, ga), Turn(rows, name, now, keys, gb);
    if ta != tb then ta < tb else ga < gb
  }

  /** Group by group, and by wait within a group. */
  predicate GroupFirst(rows: Rows, name: string, now: nat, keys: seq<int>, a: int, b: int) {
    if Get(rows, name, a, now).group != Get(rows, name, b, now).group then GroupBefore(rows, name, now, keys, a, b)
    else Waits(rows, name, now, a, b)
  }

  function ByGroup(rows: Rows, name: string, now: nat, keys: seq<int>): (int, int) -> bool {
    (a: int, b: int) => GroupFirst(rows, name, now, keys, a, b)
  }

  predicate SameGroup(rows: Rows, name: string, now: nat, a: int, b: int) {
    Get(rows, name, a, now).group == Get(rows, name, b, now).group
  }

  predicate Shares(rows: Rows, name: string, now: nat, a: int, b: int, c: int) {
    a != b && SameGroup(rows, name, now, a, b) && !SameGroup(rows, name, now, a, c)
  }

  /** Every group but the last in turn has one candidate. */
  ghost predicate OnlyLastShared(rows: Rows, name: string, now: nat, keys: seq<int>) {
    forall a, b, c :: a in keys && b in keys && c in keys && Shares(rows, name, now, a, b, c) ==>
      !GroupBefore(rows, name, now, keys, a, c)
  }

  lemma ByGroupIsTotal(rows: Rows, name: string, now: nat, keys: seq<int>)
    ensures Total(keys, ByGroup(rows, name, now, keys))
  {
    var less := ByGroup(rows, name, now, keys);
    assert forall a, b :: Less(less, a, b) == GroupFirst(rows, name, now, keys, a, b);
    forall a, b, c | GroupFirst(rows, name, now, keys, a, b) && GroupFirst(rows, name, now, keys, b, c)
      ensures GroupFirst(rows, name, now, keys, a, c)
    {}
  }

  lemma Repeats(s: seq<int>, a: int)
    requires |s| > 1 && forall i :: 0 <= i < |s| ==> s[i] == a
    ensures !Distinct(s)
  {
    assert s[0] == s[1];
  }

  /** The only candidate of its group has rank 0. */
  lemma AloneIsFirst(rows: Rows, name: string, now: nat, keys: seq<int>, a: int)
    requires Distinct(keys) && a in keys
    requires forall b :: b in keys && SameGroup(rows, name, now, a, b) ==> b == a
    ensures Rank(rows, name, now, keys, a) == 0
  {
    var group := Get(rows, name, a, now).group;
    var members := InGroup(rows, name, now, keys, group);
    InGroupMembers(rows, name, now, keys, group);
    assert a in members;
    forall i | 0 <= i < |members| ensures members[i] == a {
      var m := members[i];
      assert m in members && SameGroup(rows, name, now, a, m);
    }
    if |members| > 1 {
      Repeats(members, a);
    }
    assert members == [a];
    assert SortBy([a], LongerWait(rows, name, now)) == [a];
  }

  /** Every candidate's group has a first. */
  lemma SomeIsFirst(rows: Rows, name: string, now: nat, keys: seq<int>, c: int) returns (first: int)
    requires Distinct(keys) && c in keys
    ensures first in keys && SameGroup(rows, name, now, c, first) && Rank(rows, name, now, keys, first) == 0
  {
    var group := Get(rows, name, c, now).group;
    var members, less := InGroup(rows, name, now, keys, group), LongerWait(rows, name, now);
    InGroupMembers(rows, name, now, keys, group);
    SortMembers(members, less);
    assert c in members;
    var sorted := SortBy(members, less);
    first := sorted[0];
    assert first in sorted;
    IndexAt(sorted, 0);
  }

  lemma SameOrders(rows: Rows, name: string, now: nat, keys: seq<int>)
    requires Distinct(keys) && OnlyLastShared(rows, name, now, keys)
    ensures SortBy(keys, ByGroup(rows, name, now, keys)) == Order(rows, name, now, keys)
  {
    forall a, b | a in keys && b in keys
      ensures Agree(ByGroup(rows, name, now, keys), GrantOrder(rows, name, now, keys), a, b)
    {
      if a != b && SameGroup(rows, name, now, a, b) {
        RankFollowsWait(rows, name, now, keys, a, b);
      } else if a != b {
        if GroupBefore(rows, name, now, keys, a, b) {
          AloneIsFirst(rows, name, now, keys, a);
        } else {
          AloneIsFirst(rows, name, now, keys, b);
        }
      }
    }
    SortAgree(keys, ByGroup(rows, name, now, keys), GrantOrder(rows, name, now, keys));
  }

  /** A second key of an earlier group and the first of a later one stand differently in the two orders. */
  lemma OrdersDiffer(rows: Rows, name: string, now: nat, keys: seq<int>, a: int, b: int, c: int)
    requires Distinct(keys) && a in keys && b in keys && c in keys && a != b
    requires SameGroup(rows, name, now, a, b) && !SameGroup(rows, name, now, a, c)
    requires GroupBefore(rows, name, now, keys, a, c)
    ensures SortBy(keys, ByGroup(rows, name, now, keys)) != Order(rows, name, now, keys)
  {
    RankFollowsWait(rows, name, now, keys, a, b);
    var second := if Rank(rows, name, now, keys, a) < Rank(rows, name, now, keys, b) then b else a;
    var first := SomeIsFirst(rows, name, now, keys, c);
    assert GroupFirst(rows, name, now, keys, second, first) && !GroupFirst(rows, name, now, keys, first, second);
    assert Precedes(rows, name, now, keys, first, second) && !Precedes(rows, name, now, keys, second, first);
    var byGroup, dealt := ByGroup(rows, name, now, keys), GrantOrder(rows, name, now, keys);
    ByGroupIsTotal(rows, name, now, keys);
    GrantOrderIsTotal(rows, name, now, keys);
    SortSorts(keys, byGroup);
    SortSorts(keys, dealt);
    SortMembers(keys, byGroup);
    Before(SortBy(keys, byGroup), byGroup, second, first);
    SortMembers(keys, dealt);
    Before(SortBy(keys, dealt), dealt, first, second);
  }

  /** In a sorted list, what is less stands before. */
  lemma Before(s: seq<int>, less: (int, int) -> bool, a: int, b: int)
    requires Sorted(s, less) && Distinct(s) && a in s && b in s && a != b && !less(b, a)
    ensures exists i, j :: 0 <= i < j < |s| && s[i] == a && s[j] == b
    ensures forall i, j :: 0 <= i < |s| && 0 <= j < |s| && s[i] == a && s[j] == b ==> i < j
  {
    var i :| 0 <= i < |s| && s[i] == a;
    var j :| 0 <= j < |s| && s[j] == b;
    if j < i {
      assert false;
    }
  }

  /** The candidates are granted group by group if and only if every group but the last in turn has
      one candidate. */
  lemma GroupByGroupIff(rows: Rows, name: string, now: nat, keys: seq<int>)
    requires Distinct(keys)
    ensures SortBy(keys, ByGroup(rows, name, now, keys)) == Order(rows, name, now, keys) <==>
            OnlyLastShared(rows, name, now, keys)
  {
    if OnlyLastShared(rows, name, now, keys) {
      SameOrders(rows, name, now, keys);
    } else {
      var a, b, c :| a in keys && b in keys && c in keys && Shares(rows, name, now, a, b, c) &&
                     GroupBefore(rows, name, now, keys, a, c);
      OrdersDiffer(rows, name, now, keys, a, b, c);
    }
  }

  // An input

  /** Two keys of one group and one of another, all new. */
  function Three(): seq<Segment> {
    [Segment(1, 1), Segment(2, 1), Segment(3, 2)]
  }

  /** Among keys nobody has served, first seen now, every group's turn is now. */
  lemma {:induction false} NewTurns(rows: Rows, name: string, now: nat, keys: seq<int>, group: int)
    requires forall i :: 0 <= i < |keys| ==>
               var r := Get(rows, name, keys[i], now); r.lastServed == None && r.firstSeen == now
    ensures LastServed(rows, name, now, keys, group) == None
    ensures FirstSeen(rows, name, now, keys, group) == None || FirstSeen(rows, name, now, keys, group) == Some(now)
    ensures (exists i :: 0 <= i < |keys| && Get(rows, name, keys[i], now).group == group) ==>
              FirstSeen(rows, name, now, keys, group) == Some(now)
  {
    if keys != [] {
      NewTurns(rows, name, now, keys[..|keys| - 1], group);
    }
  }

  /** The rows and keys these make in an empty store. */
  lemma ThreeRecorded(now: nat)
    ensures Keys(Three()) == [1, 2, 3]
    ensures Record(map[], "", Three(), now) ==
            map[Id("", 1) := New(now).(group := 1), Id("", 2) := New(now).(group := 1),
              Id("", 3) := New(now).(group := 2)]
  {
    var c := Three();
    assert c[..2][..1] == c[..1] && c[..1][..0] == [];
    assert Keys(c[..1]) == [] + [1] == [1] && Keys(c[..2]) == [1] + [2];
    assert Record(map[], "", c[..1], now) == map[Id("", 1) := New(now).(group := 1)];
    assert Record(map[], "", c[..2], now) ==
             map[Id("", 1) := New(now).(group := 1), Id("", 2) := New(now).(group := 1)];
  }

  lemma ThreeOrdered(now: nat)
    ensures var rows, k := Record(map[], "", Three(), now), [1, 2, 3];
            && Shares(rows, "", now, 1, 2, 3) && GroupBefore(rows, "", now, k, 1, 3)
            && GroupFirst(rows, "", now, k, 2, 3)
            && Rank(rows, "", now, k, 3) == 0 < Rank(rows, "", now, k, 2)
            && !Precedes(rows, "", now, k, 2, 1) && !Precedes(rows, "", now, k, 2, 3)
  {
    ThreeRecorded(now);
    var rows, k := Record(map[], "", Three(), now), [1, 2, 3];
    assert k[0] == 1 && k[1] == 2 && k[2] == 3;
    NewTurns(rows, "", now, k, 1);
    NewTurns(rows, "", now, k, 2);
    assert Get(rows, "", k[0], now).group == 1 && Get(rows, "", k[2], now).group == 2;
    assert Turn(rows, "", now, k, 1) == now == Turn(rows, "", now, k, 2);
    assert 1 in k && 2 in k && 3 in k;
    RankFollowsWait(rows, "", now, k, 1, 2);
    AloneIsFirst(rows, "", now, k, 3);
    var first := SomeIsFirst(rows, "", now, k, 1);
    assert first == 1;
  }

  /** Of these, with two slots, the second goes to the other group, not to the first group's second
      key, which group by group would be next. */
  lemma SecondGroupServed(now: nat)
    ensures var rows := Record(map[], "", Three(), now);
            && GroupFirst(rows, "", now, Keys(Three()), 2, 3)
            && 3 in Picked(map[], "", Three(), 2, now) && 2 !in Picked(map[], "", Three(), 2, now)
  {
    ThreeRecorded(now);
    ThreeOrdered(now);
    var picked := Picked(map[], "", Three(), 2, now);
    PickedDistinct(map[], "", Three(), 2, now);
    PickedInKeys(map[], "", Three(), 2, now);
    ThreeLeftOut(now, 1);
    ThreeLeftOut(now, 2);
    ThreeLeftOut(now, 3);
    TwoOfThree(picked);
    if 3 !in picked {
      forall i | 0 <= i < |picked| ensures picked[i] == 1 {
        var x := picked[i];
        assert x in picked;
      }
      Repeats(picked, 1);
    }
  }

  /** Each of the three is eligible: left out, it is preceded by those granted, two of them. */
  lemma ThreeLeftOut(now: nat, y: int)
    requires y == 1 || y == 2 || y == 3
    ensures var rows, picked := Record(map[], "", Three(), now), Picked(map[], "", Three(), 2, now);
            y !in picked ==> |picked| >= 2 && forall x :: x in picked ==> Precedes(rows, "", now, [1, 2, 3], x, y)
  {
    ThreeRecorded(now);
    var k := [1, 2, 3];
    assert k[0] == 1 && k[1] == 2 && k[2] == 3;
    assert y in k;
    FirstAreGranted(map[], "", Three(), 2, now, y);
  }

  /** Two distinct of three, the third not before the others. */
  lemma TwoOfThree(s: seq<int>)
    requires Distinct(s) && |s| <= 2 && forall x :: x in s ==> x == 1 || x == 2 || x == 3
    ensures !(1 in s && 2 in s && 3 in s)
  {}

  lemma PickedDistinct(rows: Rows, name: string, candidates: seq<Segment>, max: nat, now: nat)
    ensures Distinct(Picked(rows, name, candidates, max, now)) && |Picked(rows, name, candidates, max, now)| <= max
  {
    var recorded := Record(rows, name, candidates, now);
    var order := Order(recorded, name, now, Keys(candidates));
    OrderDistinct(recorded, name, now, Keys(candidates));
    WaitingDistinct(recorded, name, now, order);
  }
}
