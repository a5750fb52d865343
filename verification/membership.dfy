/** projection/instances.go: how the live instances of a projection share its segments. */
module Membership {
  import opened Sums

  /** A live instance: its owner name, its Version, and the segments whose claim it holds. */
  datatype Instance = Instance(owner: nat, version: nat, held: nat)

  // quota, as the source computes it

  function Top(instances: seq<Instance>): (top: nat)
    ensures forall m :: m in instances ==> m.version <= top
    ensures instances != [] ==> exists m :: m in instances && m.version == top
  {
    if instances == [] then 0
    else
      var rest := Top(instances[1..]);
      assert forall m :: m in instances <==> m == instances[0] || m in instances[1..];
      if instances[0].version > rest then instances[0].version
      else
        assert instances[1..] == [] ==> instances[0].version == rest;
        rest
  }

  /** The instances on the highest Version. */
  function Live(instances: seq<Instance>): seq<Instance> {
    OnVersion(instances, Top(instances))
  }

  function OnVersion(instances: seq<Instance>, version: nat): (r: seq<Instance>)
    ensures forall m :: m in r <==> m in instances && m.version == version
  {
    if instances == [] then []
    else
      assert forall m :: m in instances <==> m == instances[0] || m in instances[1..];
      (if instances[0].version == version then [instances[0]] else []) + OnVersion(instances[1..], version)
  }

  /** Most segments first, ties by owner. */
  predicate Before(a: Instance, b: Instance) {
    a.held > b.held || (a.held == b.held && a.owner <= b.owner)
  }

  function Insert(m: Instance, s: seq<Instance>): seq<Instance> {
    if s == [] || Before(m, s[0]) then [m] + s else [s[0]] + Insert(m, s[1..])
  }

  function Sort(s: seq<Instance>): seq<Instance> {
    if s == [] then [] else Insert(s[0], Sort(s[1..]))
  }

  /** The index of owner, or the length when it is not there. */
  function IndexOf(s: seq<Instance>, owner: nat): (i: nat)
    ensures i <= |s| && (i < |s| ==> s[i].owner == owner)
    ensures forall k :: 0 <= k < i ==> s[k].owner != owner
  {
    if s == [] || s[0].owner == owner then 0 else 1 + IndexOf(s[1..], owner)
  }

  function Quota(instances: seq<Instance>, owner: nat, segments: nat): nat {
    var live := Sort(Live(instances));
    var i := IndexOf(live, owner);
    if i == |live| then 0 else Share(i, |live|, segments)
  }

  /** The share of the i-th of n instances. */
  function Share(i: nat, n: nat, segments: nat): nat
    requires n > 0
  {
    segments / n + if i < segments % n then 1 else 0
  }

  // Sums over instances

  lemma {:induction false} SumLe(s: seq<Instance>, f: Instance -> int, g: Instance -> int)
    requires forall m :: m in s ==> f(m) <= g(m)
    ensures Sum(s, f) <= Sum(s, g)
  {
    if s != [] {
      assert forall m :: m in s[1..] ==> m in s;
      SumLe(s[1..], f, g);
    }
  }

  lemma SumEq(s: seq<Instance>, f: Instance -> int, g: Instance -> int)
    requires forall m :: m in s ==> f(m) == g(m)
    ensures Sum(s, f) == Sum(s, g)
  {
    SumLe(s, f, g);
    SumLe(s, g, f);
  }

  lemma {:induction false} SumAdd(s: seq<Instance>, f: Instance -> int, g: Instance -> int)
    ensures Sum(s, m => f(m) + g(m)) == Sum(s, f) + Sum(s, g)
  {
    if s != [] {
      SumAdd(s[1..], f, g);
    }
  }

  lemma {:induction false} SumInsert(m: Instance, s: seq<Instance>, f: Instance -> int)
    ensures Sum(Insert(m, s), f) == f(m) + Sum(s, f)
    ensures |Insert(m, s)| == |s| + 1
    ensures forall x :: x in Insert(m, s) <==> x == m || x in s
  {
    if s == [] || Before(m, s[0]) {
      assert ([m] + s)[1..] == s;
    } else {
      SumInsert(m, s[1..], f);
      var r := Insert(m, s[1..]);
      assert ([s[0]] + r)[1..] == r;
      assert forall x :: x in s <==> x == s[0] || x in s[1..];
    }
  }

  /** Sorting keeps the members, the length and every sum. */
  lemma {:induction false} SumSort(s: seq<Instance>, f: Instance -> int)
    ensures Sum(Sort(s), f) == Sum(s, f) && |Sort(s)| == |s|
    ensures forall x :: x in Sort(s) <==> x in s
  {
    if s != [] {
      SumSort(s[1..], f);
      SumInsert(s[0], Sort(s[1..]), f);
      assert forall x :: x in s <==> x == s[0] || x in s[1..];
    }
  }

  ghost predicate Sorted(s: seq<Instance>) {
    forall i, j :: 0 <= i < j < |s| ==> s[i].held >= s[j].held
  }

  ghost predicate DistinctOwners(s: seq<Instance>) {
    forall i, j :: 0 <= i < j < |s| ==> s[i].owner != s[j].owner
  }

  lemma {:induction false} InsertSorted(m: Instance, s: seq<Instance>)
    requires Sorted(s)
    ensures Sorted(Insert(m, s))
  {
    if s != [] && !Before(m, s[0]) {
      InsertSorted(m, s[1..]);
      SumInsert(m, s[1..], x => 0);
      var r := Insert(m, s[1..]);
      forall j | 0 <= j < |r| ensures s[0].held >= r[j].held {
        assert r[j] in r;
      }
    }
  }

  lemma {:induction false} InsertDistinct(m: Instance, s: seq<Instance>)
    requires DistinctOwners(s) && forall x :: x in s ==> x.owner != m.owner
    ensures DistinctOwners(Insert(m, s))
  {
    if s != [] && !Before(m, s[0]) {
      assert forall x :: x in s[1..] ==> x in s;
      InsertDistinct(m, s[1..]);
      SumInsert(m, s[1..], x => 0);
      var r := Insert(m, s[1..]);
      forall j | 0 <= j < |r| ensures s[0].owner != r[j].owner {
        assert r[j] in r;
      }
    }
  }

  lemma {:induction false} SortSorted(s: seq<Instance>)
    requires DistinctOwners(s)
    ensures Sorted(Sort(s)) && DistinctOwners(Sort(s))
  {
    if s != [] {
      SortSorted(s[1..]);
      SumSort(s[1..], x => 0);
      InsertSorted(s[0], Sort(s[1..]));
      InsertDistinct(s[0], Sort(s[1..]));
    }
  }

  lemma {:induction false} OnVersionDistinct(s: seq<Instance>, version: nat)
    requires DistinctOwners(s)
    ensures DistinctOwners(OnVersion(s, version))
  {
    if s != [] {
      OnVersionDistinct(s[1..], version);
      var r := OnVersion(s[1..], version);
      forall j | 0 <= j < |r| ensures s[0].owner != r[j].owner {
        assert r[j] in r;
      }
    }
  }

  /** The sum over all instances is that over the ones that count, if the others add nothing. */
  lemma {:induction false} SumOnVersion(s: seq<Instance>, version: nat, f: Instance -> int)
    ensures Sum(s, (m: Instance) => if m.version == version then f(m) else 0) == Sum(OnVersion(s, version), f)
  {
    if s != [] {
      SumOnVersion(s[1..], version, f);
      var r := OnVersion(s[1..], version);
      assert s[0].version == version ==> ([s[0]] + r)[1..] == r;
      assert s[0].version != version ==> [] + r == r;
    }
  }

  // Handing out the remainder

  /** f over the first r elements. */
  function First(s: seq<Instance>, r: nat, f: Instance -> int): int {
    if r == 0 || s == [] then 0 else f(s[0]) + First(s[1..], r - 1, f)
  }

  lemma {:induction false} FirstStep(s: seq<Instance>, r: nat, f: Instance -> int, bound: int)
    requires r > 0 && bound >= 0 && forall m :: m in s ==> f(m) <= bound
    ensures First(s, r, f) <= bound + First(s, r - 1, f)
  {
    if s != [] && r > 1 {
      assert forall m :: m in s[1..] ==> m in s;
      FirstStep(s[1..], r - 1, f, bound);
    } else if s != [] {
      assert s[0] in s;
    }
  }

  /** Among all ways to pick elements, picking the first ones catches the most of a property that
      the order puts first. */
  lemma {:induction false} FirstCatchMost(s: seq<Instance>, pick: Instance -> int, f: Instance -> int)
    requires forall m :: m in s ==> 0 <= pick(m) <= 1 && 0 <= f(m) <= 1
    requires forall i, j :: 0 <= i < j < |s| ==> f(s[i]) >= f(s[j])
    ensures 0 <= Sum(s, pick)
    ensures Sum(s, m => pick(m) * f(m)) <= First(s, Sum(s, pick), f)
  {
    if s != [] {
      var t := s[1..];
      assert forall m :: m in t ==> m in s;
      FirstCatchMost(t, pick, f);
      assert s[0] in s;
      var r := Sum(s, pick);
      if pick(s[0]) == 0 && r > 0 {
        forall m | m in t ensures f(m) <= f(s[0]) {
          var k :| 0 <= k < |t| && t[k] == m;
          assert s[k + 1] == m;
        }
        FirstStep(t, r, f, f(s[0]));
      }
    }
  }

  lemma {:induction false} SumBits(s: seq<Instance>, bit: Instance -> int)
    requires forall m :: m in s ==> 0 <= bit(m) <= 1
    ensures 0 <= Sum(s, bit) <= |s|
    ensures (exists m :: m in s && bit(m) == 0) ==> Sum(s, bit) < |s|
  {
    if s != [] {
      assert forall m :: m in s <==> m == s[0] || m in s[1..];
      SumBits(s[1..], bit);
    }
  }

  lemma {:induction false} SumConst(s: seq<Instance>, c: int)
    ensures Sum(s, m => c) == |s| * c
  {
    if s != [] {
      SumConst(s[1..], c);
    }
  }

  lemma Multiple(n: int, d: int)
    requires n > 0
    ensures d >= 1 ==> n * d >= n
    ensures d <= -1 ==> n * d <= -n
  {
  }

  lemma SameQuotient(n: int, q: int, r: int, q': int, r': int)
    requires n > 0 && n * q + r == n * q' + r' && 0 <= r < n && 0 <= r' < n
    ensures q == q' && r == r'
  {
    var d := q - q';
    assert n * d == n * q - n * q';
    Multiple(n, d);
  }

  /** Shares that differ by at most one and add up to |s| * b + r are b, or b + 1 for r of them. */
  lemma BalancedShape(s: seq<Instance>, share: Instance -> int, b: nat, r: nat)
    requires s != [] && Sum(s, share) == |s| * b + r && r < |s|
    requires forall x, y :: x in s && y in s ==> share(x) <= share(y) + 1
    ensures forall m :: m in s ==> b <= share(m) <= b + 1
    ensures Sum(s, m => share(m) - b) == r
  {
    var least := Least(s, share);
    var q := share(least);
    SumBits(s, m => share(m) - q);
    SumConst(s, q);
    SumAdd(s, m => share(m) - q, m => q);
    SumEq(s, share, m => (m => share(m) - q)(m) + (m => q)(m));
    SameQuotient(|s|, q, Sum(s, m => share(m) - q), b, r);
    SumEq(s, m => share(m) - q, m => share(m) - b);
  }

  ghost function Least(s: seq<Instance>, share: Instance -> int): (m: Instance)
    requires s != []
    ensures m in s && forall x :: x in s ==> share(m) <= share(x)
  {
    if |s| == 1 then s[0]
    else
      var m := Least(s[1..], share);
      assert forall x :: x in s <==> x == s[0] || x in s[1..];
      if share(s[0]) <= share(m) then s[0] else m
  }

  // Quotas are balanced, and move as little as any balanced allotment

  type Allotment = nat -> nat

  function ShareOf(allot: Allotment): Instance -> int {
    (m: Instance) => allot(m.owner)
  }

  function Quotas(instances: seq<Instance>, segments: nat): Allotment {
    owner => Quota(instances, owner, segments)
  }

  /** What an instance holds beyond q. */
  function Over(m: Instance, q: int): int {
    if m.held > q then m.held - q else 0
  }

  function OverShare(allot: Allotment): Instance -> int {
    (m: Instance) => Over(m, allot(m.owner))
  }

  /** How many segments must move for every instance to be within its share. */
  function Excess(instances: seq<Instance>, allot: Allotment): int {
    Sum(instances, OverShare(allot))
  }

  /** Shares that add up to the segments, differ by at most one among the instances on the
      highest Version, and give the others nothing. */
  ghost predicate Balanced(instances: seq<Instance>, allot: Allotment, segments: nat) {
    && Sum(Live(instances), ShareOf(allot)) == segments
    && (forall a, b :: a in Live(instances) && b in Live(instances) ==> allot(a.owner) <= allot(b.owner) + 1)
    && (forall m :: m in instances && m !in Live(instances) ==> allot(m.owner) == 0)
  }

  lemma {:induction false} IndexOfSelf(s: seq<Instance>, k: nat)
    requires DistinctOwners(s) && k < |s|
    ensures IndexOf(s, s[k].owner) == k
  {
    if k > 0 {
      IndexOfSelf(s[1..], k - 1);
    }
  }

  /** f, for the first r instances of s. */
  function AmongFirst(s: seq<Instance>, r: nat, f: Instance -> int): Instance -> int {
    (m: Instance) => if IndexOf(s, m.owner) < r then f(m) else 0
  }

  lemma {:induction false} SumAmongFirst(s: seq<Instance>, k: nat, r: nat, f: Instance -> int)
    requires DistinctOwners(s) && k <= |s|
    ensures Sum(s[k..], AmongFirst(s, r, f)) == First(s[k..], if r > k then r - k else 0, f)
    decreases |s| - k
  {
    if k < |s| {
      SumAmongFirst(s, k + 1, r, f);
      IndexOfSelf(s, k);
      assert s[k..][1..] == s[k + 1..];
    }
  }

  /** The instances that count, most segments first, and what is left after equal shares. */
  lemma LiveSorted(instances: seq<Instance>)
    requires instances != [] && DistinctOwners(instances)
    ensures var s := Sort(Live(instances));
            && s != [] && Sorted(s) && DistinctOwners(s) && |s| == |Live(instances)|
            && forall m :: m in s <==> m in Live(instances)
  {
    var live := Live(instances);
    var top :| top in instances && top.version == Top(instances);
    assert top in live;
    OnVersionDistinct(instances, Top(instances));
    SortSorted(live);
    SumSort(live, m => 0);
  }

  /** The quota of an instance that counts: an equal share, and one more for the first few. */
  lemma QuotaOfLive(instances: seq<Instance>, segments: nat, m: Instance)
    requires instances != [] && DistinctOwners(instances) && m in Live(instances)
    ensures var s := Sort(Live(instances));
            IndexOf(s, m.owner) < |s| &&
            Quota(instances, m.owner, segments) == Share(IndexOf(s, m.owner), |s|, segments)
  {
    LiveSorted(instances);
    var s := Sort(Live(instances));
    var k :| 0 <= k < |s| && s[k] == m;
    IndexOfSelf(s, k);
  }

  lemma QuotaOfOther(instances: seq<Instance>, segments: nat, m: Instance)
    requires instances != [] && DistinctOwners(instances) && m in instances && m !in Live(instances)
    ensures Quota(instances, m.owner, segments) == 0
  {
    LiveSorted(instances);
    var s := Sort(Live(instances));
    var i := IndexOf(s, m.owner);
    if i < |s| {
      assert s[i] in instances && s[i].owner == m.owner;
      SameOwner(instances, s[i], m);
    }
  }

  lemma SameOwner(s: seq<Instance>, a: Instance, b: Instance)
    requires DistinctOwners(s) && a in s && b in s && a.owner == b.owner
    ensures a == b
  {
    var i :| 0 <= i < |s| && s[i] == a;
    var j :| 0 <= j < |s| && s[j] == b;
    assert !(i < j) && !(j < i);
  }

  function Const(c: int): Instance -> int {
    (m: Instance) => c
  }

  function Plus(f: Instance -> int, g: Instance -> int): Instance -> int {
    (m: Instance) => f(m) + g(m)
  }

  lemma SumPlus(s: seq<Instance>, f: Instance -> int, g: Instance -> int)
    ensures Sum(s, Plus(f, g)) == Sum(s, f) + Sum(s, g)
  {
    SumAdd(s, f, g);
    SumEq(s, Plus(f, g), m => f(m) + g(m));
  }

  lemma SumOfConst(s: seq<Instance>, c: int)
    ensures Sum(s, Const(c)) == |s| * c
  {
    SumConst(s, c);
    SumEq(s, Const(c), m => c);
  }

  /** b each, and one more for the first r. */
  ghost predicate TopShares(s: seq<Instance>, allot: Allotment, b: nat, r: nat) {
    forall m :: m in s ==> allot(m.owner) == b + if IndexOf(s, m.owner) < r then 1 else 0
  }

  lemma QuotasAreTopShares(instances: seq<Instance>, segments: nat) returns (b: nat, r: nat)
    requires instances != [] && DistinctOwners(instances)
    ensures var s := Sort(Live(instances));
            s != [] && segments == Sum(s, Const(b)) + r && r < |s| && TopShares(s, Quotas(instances, segments), b, r)
  {
    LiveSorted(instances);
    var s := Sort(Live(instances));
    b, r := Divide(segments, |s|);
    SumOfConst(s, b);
    forall m | m in s
      ensures Quotas(instances, segments)(m.owner) == b + if IndexOf(s, m.owner) < r then 1 else 0
    {
      QuotaOfLive(instances, segments, m);
    }
  }

  lemma Divide(a: nat, n: nat) returns (q: nat, r: nat)
    requires n > 0
    ensures a == n * q + r && r < n && q == a / n && r == a % n
  {
    q, r := a / n, a % n;
  }

  lemma TopSharesAddUp(s: seq<Instance>, allot: Allotment, b: nat, r: nat)
    requires DistinctOwners(s) && TopShares(s, allot, b, r) && r <= |s|
    ensures Sum(s, ShareOf(allot)) == Sum(s, Const(b)) + r
  {
    var extra := AmongFirst(s, r, Const(1));
    SumEq(s, ShareOf(allot), Plus(extra, Const(b)));
    SumPlus(s, extra, Const(b));
    SumAmongFirst(s, 0, r, Const(1));
    assert s[0..] == s;
    FirstOnes(s, r, Const(1));
  }

  lemma QuotasAddUp(instances: seq<Instance>, segments: nat)
    requires instances != [] && DistinctOwners(instances)
    ensures Sum(Live(instances), ShareOf(Quotas(instances, segments))) == segments
  {
    LiveSorted(instances);
    var s := Sort(Live(instances));
    var b, r := QuotasAreTopShares(instances, segments);
    TopSharesAddUp(s, Quotas(instances, segments), b, r);
    SumSort(Live(instances), ShareOf(Quotas(instances, segments)));
  }

  /** The quotas of the instances on the highest Version add up to the segments and differ by at
      most one; the others get none. */
  lemma QuotasBalanced(instances: seq<Instance>, segments: nat)
    requires instances != [] && DistinctOwners(instances)
    ensures Balanced(instances, Quotas(instances, segments), segments)
  {
    var live := Live(instances);
    var allot := Quotas(instances, segments);
    QuotasAddUp(instances, segments);
    forall a, b | a in live && b in live ensures allot(a.owner) <= allot(b.owner) + 1 {
      QuotaOfLive(instances, segments, a);
      QuotaOfLive(instances, segments, b);
    }
    forall m | m in instances && m !in live ensures allot(m.owner) == 0 {
      QuotaOfOther(instances, segments, m);
    }
  }

  lemma {:induction false} FirstOnes(s: seq<Instance>, r: nat, one: Instance -> int)
    requires r <= |s| && forall m :: one(m) == 1
    ensures First(s, r, one) == r
  {
    if r > 0 { FirstOnes(s[1..], r - 1, one); }
  }

  // Minimality

  /** Whether an instance holds more than the equal share: the ones for which one more matters. */
  function Holds(b: int): Instance -> int {
    (m: Instance) => if m.held > b then 1 else 0
  }

  function Extra(allot: Allotment, b: int): Instance -> int {
    (m: Instance) => allot(m.owner) - b
  }

  function Times(f: Instance -> int, g: Instance -> int): Instance -> int {
    (m: Instance) => f(m) * g(m)
  }

  function OverConst(b: int): Instance -> int {
    (m: Instance) => Over(m, b)
  }

  /** With shares of b or b + 1, what must move is what exceeds b less the extra shares that help. */
  lemma OverSplit(s: seq<Instance>, allot: Allotment, b: nat)
    requires forall m :: m in s ==> b <= allot(m.owner) <= b + 1
    ensures Sum(s, OverShare(allot)) + Sum(s, Times(Extra(allot, b), Holds(b))) == Sum(s, OverConst(b))
  {
    SumPlus(s, OverShare(allot), Times(Extra(allot, b), Holds(b)));
    SumEq(s, Plus(OverShare(allot), Times(Extra(allot, b), Holds(b))), OverConst(b));
  }

  /** Any balanced shares of the sorted instances catch no more than the first ones do. */
  lemma ExtraCatches(s: seq<Instance>, allot: Allotment, b: nat, r: nat)
    requires s != [] && Sorted(s) && Sum(s, ShareOf(allot)) == Sum(s, Const(b)) + r && r < |s|
    requires forall x, y :: x in s && y in s ==> allot(x.owner) <= allot(y.owner) + 1
    ensures forall m :: m in s ==> b <= allot(m.owner) <= b + 1
    ensures Sum(s, Times(Extra(allot, b), Holds(b))) <= First(s, r, Holds(b))
  {
    var share := ShareOf(allot);
    forall x, y | x in s && y in s ensures share(x) <= share(y) + 1 { }
    SumOfConst(s, b);
    BalancedShape(s, share, b, r);
    forall m | m in s ensures b <= allot(m.owner) <= b + 1 {
      assert b <= share(m) <= b + 1;
    }
    SumEq(s, m => share(m) - b, Extra(allot, b));
    FirstCatchMost(s, Extra(allot, b), Holds(b));
    SumEq(s, m => Extra(allot, b)(m) * Holds(b)(m), Times(Extra(allot, b), Holds(b)));
  }

  lemma TopSharesCatch(s: seq<Instance>, allot: Allotment, b: nat, r: nat)
    requires DistinctOwners(s) && TopShares(s, allot, b, r)
    ensures Sum(s, Times(Extra(allot, b), Holds(b))) == First(s, r, Holds(b))
  {
    SumEq(s, Times(Extra(allot, b), Holds(b)), AmongFirst(s, r, Holds(b)));
    SumAmongFirst(s, 0, r, Holds(b));
    assert s[0..] == s;
  }

  /** The shares that go to the first instances leave no more to move than any other balanced ones. */
  lemma TopSharesMinimal(s: seq<Instance>, top: Allotment, allot: Allotment, b: nat, r: nat)
    requires s != [] && Sorted(s) && DistinctOwners(s) && TopShares(s, top, b, r)
    requires Sum(s, ShareOf(allot)) == Sum(s, Const(b)) + r && r < |s|
    requires forall a, b :: a in s && b in s ==> allot(a.owner) <= allot(b.owner) + 1
    ensures Sum(s, OverShare(top)) <= Sum(s, OverShare(allot))
  {
    ExtraCatches(s, allot, b, r);
    TopSharesCatch(s, top, b, r);
    OverSplit(s, allot, b);
    OverSplit(s, top, b);
  }

  lemma MinimalAmongLive(instances: seq<Instance>, allot: Allotment, segments: nat)
    requires instances != [] && DistinctOwners(instances) && Balanced(instances, allot, segments)
    ensures Sum(Live(instances), OverShare(Quotas(instances, segments))) <= Sum(Live(instances), OverShare(allot))
  {
    var live := Live(instances);
    var quotas := Quotas(instances, segments);
    LiveSorted(instances);
    var b, r := QuotasAreTopShares(instances, segments);
    SumSort(live, ShareOf(allot));
    SumSort(live, OverShare(allot));
    SumSort(live, OverShare(quotas));
    TopSharesMinimal(Sort(live), quotas, allot, b, r);
  }

  /** f for the instances on a version, or for the others. */
  function Only(version: nat, on: bool, f: Instance -> int): Instance -> int {
    (m: Instance) => if (m.version == version) == on then f(m) else 0
  }

  lemma SumParts(s: seq<Instance>, version: nat, f: Instance -> int)
    ensures Sum(s, f) == Sum(OnVersion(s, version), f) + Sum(s, Only(version, false, f))
  {
    SumOnVersion(s, version, f);
    SumEq(s, (m: Instance) => if m.version == version then f(m) else 0, Only(version, true, f));
    SumPlus(s, Only(version, true, f), Only(version, false, f));
    SumEq(s, f, Plus(Only(version, true, f), Only(version, false, f)));
  }

  /** No balanced allotment needs fewer segments to move than the quotas do. */
  lemma QuotasMinimal(instances: seq<Instance>, allot: Allotment, segments: nat)
    requires instances != [] && DistinctOwners(instances) && Balanced(instances, allot, segments)
    ensures Excess(instances, Quotas(instances, segments)) <= Excess(instances, allot)
  {
    var top, quotas := Top(instances), Quotas(instances, segments);
    MinimalAmongLive(instances, allot, segments);
    SumParts(instances, top, OverShare(allot));
    SumParts(instances, top, OverShare(quotas));
    forall m | m in instances ensures Only(top, false, OverShare(allot))(m) == Only(top, false, OverShare(quotas))(m) {
      if m.version != top {
        QuotaOfOther(instances, segments, m);
      }
    }
    SumEq(instances, Only(top, false, OverShare(allot)), Only(top, false, OverShare(quotas)));
  }
}
