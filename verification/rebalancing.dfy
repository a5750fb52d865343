/** projection/instances.go: segments moving between instances until each holds its quota. */
module Rebalancing {
  import opened Options
  import opened Membership
  import opened Sums

  // The algorithm: every instance sheds or claims by the quotas of the current counts

  datatype Team = Team(instances: seq<Instance>, unclaimed: nat)

  datatype Move = Shed(i: nat) | Take(i: nat)

  function HeldBy(): Instance -> int {
    (m: Instance) => m.held
  }

  ghost predicate ValidTeam(t: Team, segments: nat) {
    t.instances != [] && DistinctOwners(t.instances) && Sum(t.instances, HeldBy()) + t.unclaimed == segments
  }

  predicate CanMove(t: Team, segments: nat, move: Move) {
    move.i < |t.instances| &&
    var m := t.instances[move.i];
    match move
    case Shed(_) => m.held > Quota(t.instances, m.owner, segments)
    case Take(_) => m.held < Quota(t.instances, m.owner, segments) && t.unclaimed > 0
  }

  function WithHeld(s: seq<Instance>, i: nat, held: nat): seq<Instance>
    requires i < |s|
  {
    s[i := s[i].(held := held)]
  }

  function DoMove(t: Team, segments: nat, move: Move): Team
    requires CanMove(t, segments, move)
  {
    var held := t.instances[move.i].held;
    match move
    case Shed(i) => Team(WithHeld(t.instances, i, held - 1), t.unclaimed + 1)
    case Take(i) => Team(WithHeld(t.instances, i, held + 1), t.unclaimed - 1)
  }

  /** The segments that still have to move. */
  function ToMove(t: Team, segments: nat): int {
    Excess(t.instances, Quotas(t.instances, segments))
  }

  // Only the counts change

  ghost predicate SameTeam(a: seq<Instance>, b: seq<Instance>) {
    |a| == |b| && forall i :: 0 <= i < |a| ==> a[i].owner == b[i].owner && a[i].version == b[i].version
  }

  lemma {:induction false} SameTop(a: seq<Instance>, b: seq<Instance>)
    requires SameTeam(a, b)
    ensures Top(a) == Top(b)
  {
    if a != [] { SameTop(a[1..], b[1..]); }
  }

  lemma {:induction false} SameShares(a: seq<Instance>, b: seq<Instance>, version: nat, allot: Allotment)
    requires SameTeam(a, b)
    ensures Sum(OnVersion(a, version), ShareOf(allot)) == Sum(OnVersion(b, version), ShareOf(allot))
  {
    if a != [] {
      SameShares(a[1..], b[1..], version, allot);
      var x, y := OnVersion(a[1..], version), OnVersion(b[1..], version);
      assert ([a[0]] + x)[1..] == x && ([b[0]] + y)[1..] == y;
      assert [] + x == x && [] + y == y;
    }
  }

  /** Whether shares are balanced does not depend on who holds what. */
  lemma SameBalance(a: seq<Instance>, b: seq<Instance>, allot: Allotment, segments: nat)
    requires SameTeam(a, b) && Balanced(a, allot, segments)
    ensures Balanced(b, allot, segments)
  {
    SameTop(a, b);
    SameShares(a, b, Top(a), allot);
    forall m | m in b
      ensures m in Live(b) ==> exists x :: x in Live(a) && x.owner == m.owner
      ensures m !in Live(b) ==> allot(m.owner) == 0
    {
      var k :| 0 <= k < |b| && b[k] == m;
      assert a[k] in a;
      assert m in Live(b) ==> a[k] in Live(a);
    }
    assert forall m :: m in Live(b) ==> m in b;
  }

  /** A move under quotas q leaves no more to move than q did. */
  lemma QuotasAfter(a: seq<Instance>, b: seq<Instance>, segments: nat)
    requires a != [] && DistinctOwners(a) && SameTeam(a, b)
    ensures DistinctOwners(b) && Excess(b, Quotas(b, segments)) <= Excess(b, Quotas(a, segments))
  {
    QuotasBalanced(a, segments);
    SameBalance(a, b, Quotas(a, segments), segments);
    QuotasMinimal(b, Quotas(a, segments), segments);
  }

  lemma {:induction false} ExcessNat(s: seq<Instance>, allot: Allotment)
    ensures Excess(s, allot) >= 0
    ensures Excess(s, allot) == 0 ==> forall m :: m in s ==> m.held <= allot(m.owner)
  {
    if s != [] {
      ExcessNat(s[1..], allot);
      var f := OverShare(allot);
      assert f(s[0]) == Over(s[0], allot(s[0].owner));
      assert Sum(s, f) == f(s[0]) + Sum(s[1..], f);
      assert forall m :: m in s <==> m == s[0] || m in s[1..];
    }
  }

  // Convergence

  lemma MoveKeepsTeam(t: Team, segments: nat, move: Move)
    requires ValidTeam(t, segments) && CanMove(t, segments, move)
    ensures ValidTeam(DoMove(t, segments, move), segments) && SameTeam(t.instances, DoMove(t, segments, move).instances)
  {
    var t' := DoMove(t, segments, move);
    SumUpdate(t.instances, HeldBy(), move.i, t'.instances[move.i]);
  }

  /** Against the quotas it was made under, a shed lowers the excess by one and a claim leaves it. */
  lemma MoveExcess(s: seq<Instance>, i: nat, held: nat, allot: Allotment)
    requires i < |s|
    ensures s[i].held == held + 1 > allot(s[i].owner) ==> Excess(WithHeld(s, i, held), allot) == Excess(s, allot) - 1
    ensures s[i].held + 1 == held <= allot(s[i].owner) ==> Excess(WithHeld(s, i, held), allot) == Excess(s, allot)
  {
    SumUpdate(s, OverShare(allot), i, s[i].(held := held));
  }

  /** Every shed strictly lowers what is left to move, and every claim the unclaimed segments
      without raising it. */
  lemma MoveProgress(t: Team, segments: nat, move: Move)
    requires ValidTeam(t, segments) && CanMove(t, segments, move)
    ensures var t' := DoMove(t, segments, move);
            && ValidTeam(t', segments)
            && 0 <= ToMove(t', segments)
            && if move.Shed? then ToMove(t', segments) < ToMove(t, segments) && t'.unclaimed == t.unclaimed + 1
               else ToMove(t', segments) <= ToMove(t, segments) && t'.unclaimed == t.unclaimed - 1
  {
    var t' := DoMove(t, segments, move);
    MoveKeepsTeam(t, segments, move);
    MoveExcess(t.instances, move.i, t'.instances[move.i].held, Quotas(t.instances, segments));
    QuotasAfter(t.instances, t'.instances, segments);
    ExcessNat(t'.instances, Quotas(t'.instances, segments));
  }

  /** With nothing left to shed or claim, every segment is claimed and every instance holds its quota. */
  lemma AtRest(t: Team, segments: nat)
    requires ValidTeam(t, segments) && forall move :: !CanMove(t, segments, move)
    ensures t.unclaimed == 0 && forall m :: m in t.instances ==> m.held == Quota(t.instances, m.owner, segments)
  {
    var quotas := Quotas(t.instances, segments);
    forall m | m in t.instances
      ensures m.held <= quotas(m.owner)
      ensures t.unclaimed > 0 ==> m.held == quotas(m.owner)
    {
      var i :| 0 <= i < |t.instances| && t.instances[i] == m;
      assert !CanMove(t, segments, Shed(i)) && !CanMove(t, segments, Take(i));
    }
    QuotasOfAll(t.instances, segments);
    if t.unclaimed > 0 {
      SumEq(t.instances, HeldBy(), ShareOf(quotas));
    }
    SumTight(t.instances, HeldBy(), ShareOf(quotas));
  }

  /** Over all instances, the quotas add up to the segments. */
  lemma QuotasOfAll(instances: seq<Instance>, segments: nat)
    requires instances != [] && DistinctOwners(instances)
    ensures Sum(instances, ShareOf(Quotas(instances, segments))) == segments
  {
    var allot := Quotas(instances, segments);
    QuotasBalanced(instances, segments);
    BalancedSum(instances, allot, segments);
  }

  lemma BalancedSum(instances: seq<Instance>, allot: Allotment, segments: nat)
    requires Balanced(instances, allot, segments)
    ensures Sum(instances, ShareOf(allot)) == segments
  {
    var top := Top(instances);
    SumParts(instances, top, ShareOf(allot));
    SumEq(instances, Only(top, false, ShareOf(allot)), Const(0));
    SumOfConst(instances, 0);
  }

  /** Nowhere above and equal in sum: equal everywhere. */
  lemma {:induction false} SumTight(s: seq<Instance>, f: Instance -> int, g: Instance -> int)
    requires forall m :: m in s ==> f(m) <= g(m)
    ensures Sum(s, f) <= Sum(s, g)
    ensures Sum(s, f) == Sum(s, g) ==> forall m :: m in s ==> f(m) == g(m)
  {
    if s != [] {
      assert forall m :: m in s <==> m == s[0] || m in s[1..];
      SumTight(s[1..], f, g);
    }
  }

  /** A balanced distribution is its own quota: nothing moves any more. */
  lemma BalancedIsOwnQuota(t: Team, segments: nat, shares: Allotment)
    requires ValidTeam(t, segments) && Balanced(t.instances, shares, segments)
    requires forall m :: m in t.instances ==> m.held == shares(m.owner)
    ensures forall m :: m in t.instances ==> m.held == Quota(t.instances, m.owner, segments)
    ensures forall move :: !CanMove(t, segments, move)
  {
    var quotas := Quotas(t.instances, segments);
    QuotasMinimal(t.instances, shares, segments);
    SumEq(t.instances, OverShare(shares), Const(0));
    SumOfConst(t.instances, 0);
    ExcessNat(t.instances, quotas);
    QuotasOfAll(t.instances, segments);
    BalancedSum(t.instances, shares, segments);
    SumEq(t.instances, HeldBy(), ShareOf(shares));
    SumTight(t.instances, HeldBy(), ShareOf(quotas));
    forall move ensures !CanMove(t, segments, move) {
      if move.i < |t.instances| { assert t.instances[move.i] in t.instances; }
    }
  }

  /** A run of moves. */
  ghost predicate Moves(teams: seq<Team>, moves: seq<Move>, segments: nat) {
    |teams| == |moves| + 1 && ValidTeam(teams[0], segments) &&
    forall k :: 0 <= k < |moves| ==>
      CanMove(teams[k], segments, moves[k]) && teams[k + 1] == DoMove(teams[k], segments, moves[k])
  }

  /** What is left to move weighs more than any number of unclaimed segments: n is above segments. */
  function Rank(t: Team, segments: nat, n: nat): int {
    ToMove(t, segments) * n + t.unclaimed
  }

  lemma RankFalls(t: Team, segments: nat, n: nat, move: Move)
    requires ValidTeam(t, segments) && CanMove(t, segments, move) && n > segments
    ensures Rank(DoMove(t, segments, move), segments, n) < Rank(t, segments, n)
  {
    var t' := DoMove(t, segments, move);
    var a', a, u', u := ToMove(t', segments), ToMove(t, segments), t'.unclaimed, t.unclaimed;
    MoveProgress(t, segments, move);
    if move.Shed? {
      UnclaimedBelow(t', segments);
      ShedRank(a', a, n, u);
    } else {
      MulLe(a', a, n);
    }
  }

  lemma UnclaimedBelow(t: Team, segments: nat)
    requires ValidTeam(t, segments)
    ensures t.unclaimed <= segments
  {
    HeldNat(t.instances);
  }

  lemma ShedRank(a: int, b: int, n: nat, u: nat)
    requires a < b && u + 1 < n
    ensures a * n + (u + 1) < b * n + u
  {
    MulLe(a + 1, b, n);
    assert (a + 1) * n == a * n + n;
  }

  lemma MulLe(a: int, b: int, n: nat)
    requires a <= b
    ensures a * n <= b * n
  {
  }

  lemma {:induction false} HeldNat(s: seq<Instance>)
    ensures Sum(s, HeldBy()) >= 0
  {
    if s != [] { HeldNat(s[1..]); }
  }

  lemma RankNat(t: Team, segments: nat, n: nat)
    ensures 0 <= Rank(t, segments, n)
  {
    ExcessNat(t.instances, Quotas(t.instances, segments));
    MulLe(0, ToMove(t, segments), n);
  }

  /** Rebalancing ends: no run from a team has more moves than its rank. */
  lemma {:induction false} RunsEnd(teams: seq<Team>, moves: seq<Move>, segments: nat, n: nat, k: nat)
    requires Moves(teams, moves, segments) && k <= |moves| && n > segments
    ensures ValidTeam(teams[k], segments) && k <= k + Rank(teams[k], segments, n) <= Rank(teams[0], segments, n)
    decreases k
  {
    RankNat(teams[k], segments, n);
    if k > 0 {
      RunsEnd(teams, moves, segments, n, k - 1);
      var t, move := teams[k - 1], moves[k - 1];
      assert CanMove(t, segments, move) && teams[k] == DoMove(t, segments, move);
      MoveKeepsTeam(t, segments, move);
      RankFalls(t, segments, n, move);
    }
  }

  // One instance's memory

  const SHED_GRACE := 2

  /** The set of instances a heartbeat saw, to tell whether it changed. */
  function Signature(instances: seq<Instance>): seq<(nat, nat)> {
    if instances == [] then [] else [(instances[0].owner, instances[0].version)] + Signature(instances[1..])
  }

  function Count(reserved: seq<bool>): nat {
    if reserved == [] then 0 else (if reserved[0] then 1 else 0) + Count(reserved[1..])
  }

  lemma {:induction false} CountUpdate(reserved: seq<bool>, i: nat, b: bool)
    requires i < |reserved|
    ensures Count(reserved[i := b]) + (if reserved[i] then 1 else 0) == Count(reserved) + if b then 1 else 0
  {
    if i > 0 {
      CountUpdate(reserved[1..], i - 1, b);
      assert reserved[i := b][1..] == reserved[1..][i - 1 := b];
    } else {
      assert reserved[i := b][1..] == reserved[1..];
    }
  }

  lemma {:induction false} CountPositive(reserved: seq<bool>)
    ensures Count(reserved) > 0 <==> exists i :: 0 <= i < |reserved| && reserved[i]
  {
    if reserved != [] {
      CountPositive(reserved[1..]);
      assert forall i :: 1 <= i < |reserved| ==> reserved[i] == reserved[1..][i - 1];
      assert Count(reserved[1..]) > 0 ==> exists i :: 0 <= i < |reserved[1..]| && reserved[1..][i];
    }
  }

  /** seg is the segment to give up first: the highest-numbered one held, segment 0 last. */
  predicate FirstToGo(reserved: seq<bool>, seg: nat) {
    seg < |reserved| && reserved[seg] && forall i :: seg < i < |reserved| ==> !reserved[i]
  }

  /** There is one such segment as soon as any is held. */
  lemma {:induction false} SomeFirstToGo(reserved: seq<bool>)
    requires Count(reserved) > 0
    ensures exists seg :: FirstToGo(reserved, seg)
    ensures forall a, b :: FirstToGo(reserved, a) && FirstToGo(reserved, b) ==> a == b
  {
    CountPositive(reserved);
    var n := |reserved| - 1;
    if reserved[n] {
      assert FirstToGo(reserved, n);
    } else {
      var init := reserved[..n];
      var i :| 0 <= i < |reserved| && reserved[i];
      assert init[i];
      CountPositive(init);
      SomeFirstToGo(init);
      var seg :| FirstToGo(init, seg);
      assert forall j :: 0 <= j < n ==> init[j] == reserved[j];
      assert FirstToGo(reserved, seg);
    }
  }

  /** What a runner keeps about its share, changed under its mutex. */
  class Shares {
    const owner: nat
    const reserved: array<bool>
    var held: nat
    var quota: nat
    var instancesOK: bool
    var stable: nat
    var membership: seq<(nat, nat)>

    /** What the instance counts as held is what it has reserved. */
    ghost predicate Valid()
      reads this, reserved
    {
      held == Count(reserved[..])
    }

    constructor (owner: nat, segments: nat)
      ensures Valid() && fresh(reserved) && reserved.Length == segments && held == 0 && quota == 0 && !instancesOK
      ensures this.owner == owner
    {
      this.owner := owner;
      reserved := new bool[segments](i => false);
      held, quota, instancesOK, stable, membership := 0, 0, false, 0, [];
      new;
      CountPositive(reserved[..]);
    }

    /** A failed heartbeat keeps the quota and stops claiming and shedding; a successful one
        recomputes the quota and counts how long the membership has been the same. */
    method Heartbeat(seen: Option<seq<Instance>>) returns (over: bool)
      requires Valid()
      modifies this
      ensures Valid() && held == old(held)
      ensures instancesOK == seen.Some?
      ensures seen.None? ==> quota == old(quota) && stable == old(stable) && membership == old(membership) && !over
      ensures seen.Some? ==>
                && quota == Quota(seen.value, owner, reserved.Length)
                && membership == Signature(seen.value)
                && stable == (if membership == old(membership) then old(stable) + 1 else 0)
                && over == (held > quota && stable >= SHED_GRACE)
    {
      if seen.None? {
        instancesOK := false;
        return false;
      }
      var sig := Signature(seen.value);
      if sig == membership {
        stable := stable + 1;
      } else {
        membership := sig;
        stable := 0;
      }
      quota := Quota(seen.value, owner, reserved.Length);
      instancesOK := true;
      over := held > quota && stable >= SHED_GRACE;
    }

    /** A segment is reserved while the instance has a share left; what is reserved stays granted. */
    method Reserve(seg: nat) returns (ok: bool)
      requires Valid() && seg < reserved.Length
      modifies this`held, reserved
      ensures Valid()
      ensures ok <==> old(reserved[seg]) || (instancesOK && old(held) < quota)
      ensures reserved[..] == if ok then old(reserved[..])[seg := true] else old(reserved[..])
      ensures !(ok && !old(reserved[seg])) ==> held == old(held)
      ensures ok && !old(reserved[seg]) ==> held == old(held) + 1 && held <= quota
    {
      if reserved[seg] {
        assert reserved[..][seg := true] == reserved[..];
        return true;
      }
      if !instancesOK || held >= quota {
        return false;
      }
      CountUpdate(reserved[..], seg, true);
      reserved[seg] := true;
      held := held + 1;
      ok := true;
    }

    method Unreserve(seg: nat)
      requires Valid() && seg < reserved.Length
      modifies this`held, reserved
      ensures Valid() && reserved[..] == old(reserved[..])[seg := false]
      ensures held == old(held) - if old(reserved[seg]) then 1 else 0
    {
      CountUpdate(reserved[..], seg, false);
      if reserved[seg] {
        reserved[seg] := false;
        held := held - 1;
      }
      assert reserved[..] == old(reserved[..])[seg := false];
    }

    /** Exactly the segment to give up first, once the instance is over a quota that has been
        stable long enough: so its loops never shed two segments for one. */
    method ShouldShed(seg: nat) returns (shed: bool)
      requires Valid() && seg < reserved.Length
      ensures shed <==> instancesOK && stable >= SHED_GRACE && held > quota && FirstToGo(reserved[..], seg)
    {
      if !instancesOK || stable < SHED_GRACE || held <= quota {
        return false;
      }
      CountPositive(reserved[..]);
      var i := reserved.Length - 1;
      while i > 0
        invariant i < reserved.Length
        invariant forall k :: i < k < reserved.Length ==> k > 0 ==> !reserved[k]
      {
        if reserved[i] {
          return i == seg;
        }
        i := i - 1;
      }
      shed := seg == 0;
    }
  }
}
