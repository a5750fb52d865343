/** The global log as one segment of a projection sees it. */
module SegmentLog {
  datatype Event = Event(stream: string, name: string, payload: int)

  type Log = seq<Event>

  /** The segment a key hash falls into; one segment takes everything. */
  function SegmentOf(hash: nat, segments: nat): (s: nat)
    ensures segments > 1 ==> s < segments
    ensures segments <= 1 ==> s == 0
  {
    if segments <= 1 then 0 else hash % segments
  }

  /** How events are routed: SegmentKey followed by its hash is any function of the event. */
  datatype Routing = Routing(segments: nat, keyHash: Event -> nat)

  /** Whether the event at global position p (its index plus one) belongs to segment s of a
      projection that handles types. */
  predicate Matches(rt: Routing, log: Log, s: nat, types: set<string>, p: nat) {
    1 <= p <= |log| && log[p - 1].name in types && SegmentOf(rt.keyHash(log[p - 1]), rt.segments) == s
  }

  /** The positions in (lo, hi] that segment s handles, in log order. */
  function MatchSeq(rt: Routing, log: Log, s: nat, types: set<string>, lo: nat, hi: nat): seq<nat>
    decreases hi
  {
    if hi <= lo then []
    else MatchSeq(rt, log, s, types, lo, hi - 1) + if Matches(rt, log, s, types, hi) then [hi] else []
  }

  ghost predicate Ascending(ps: seq<nat>) {
    forall i, j :: 0 <= i < j < |ps| ==> ps[i] < ps[j]
  }

  lemma {:induction false} MatchSeqProps(rt: Routing, log: Log, s: nat, types: set<string>, lo: nat, hi: nat)
    ensures Ascending(MatchSeq(rt, log, s, types, lo, hi))
    ensures forall p :: p in MatchSeq(rt, log, s, types, lo, hi) <==> lo < p <= hi && Matches(rt, log, s, types, p)
    decreases hi
  {
    if hi > lo {
      MatchSeqProps(rt, log, s, types, lo, hi - 1);
      var before := MatchSeq(rt, log, s, types, lo, hi - 1);
      assert forall i :: 0 <= i < |before| ==> before[i] in before;
    }
  }

  /** An ascending sequence is determined by its members. */
  lemma {:induction false} AscendingUnique(a: seq<nat>, b: seq<nat>)
    requires Ascending(a) && Ascending(b)
    requires forall p :: p in a <==> p in b
    ensures a == b
  {
    assert a != [] ==> a[0] in b;
    assert b != [] ==> b[0] in a;
    if a != [] {
      var x, y := a[|a| - 1], b[|b| - 1];
      assert x in b && y in a;
      assert x == y;
      var a', b' := a[..|a| - 1], b[..|b| - 1];
      forall p ensures p in a' <==> p in b' {
        if p in a' { assert p in a && p < x; assert p in b; }
        if p in b' { assert p in b && p < x; assert p in a; }
      }
      AscendingUnique(a', b');
      assert a == a' + [x] && b == b' + [y];
    }
  }

  /** Appending to the log changes nothing about positions already there. */
  lemma {:induction false} MatchSeqAppend(rt: Routing, log: Log, more: Log, s: nat, types: set<string>, lo: nat,
      hi: nat)
    requires hi <= |log|
    ensures MatchSeq(rt, log + more, s, types, lo, hi) == MatchSeq(rt, log, s, types, lo, hi)
    decreases hi
  {
    if hi > lo {
      MatchSeqAppend(rt, log, more, s, types, lo, hi - 1);
      assert (log + more)[hi - 1] == log[hi - 1];
    }
  }

  /** The positions of ps whose event belongs to stream. */
  function OfStream(log: Log, ps: seq<nat>, stream: string): seq<nat>
    requires forall p :: p in ps ==> 1 <= p <= |log|
  {
    if ps == [] then []
    else
      var init := ps[..|ps| - 1];
      var last := ps[|ps| - 1];
      assert last in ps;
      assert forall p :: p in init ==> p in ps;
      OfStream(log, init, stream) + if log[last - 1].stream == stream then [last] else []
  }

  lemma {:induction false} OfStreamMembers(log: Log, ps: seq<nat>, stream: string)
    requires forall p :: p in ps ==> 1 <= p <= |log|
    ensures forall p :: p in OfStream(log, ps, stream) <==> p in ps && log[p - 1].stream == stream
  {
    if ps != [] {
      var init := ps[..|ps| - 1];
      assert forall p :: p in init ==> p in ps;
      OfStreamMembers(log, init, stream);
      assert ps == init + [ps[|ps| - 1]];
    }
  }

  /** Positions of one stream come in log order. */
  ghost predicate StreamAscending(log: Log, ps: seq<nat>) {
    forall i, j :: 0 <= i < j < |ps| && 1 <= ps[i] <= |log| && 1 <= ps[j] <= |log| &&
      log[ps[i] - 1].stream == log[ps[j] - 1].stream
      ==> ps[i] < ps[j]
  }

  /** Positions that ascend within each stream ascend once filtered to one. */
  lemma {:induction false} OfStreamAscending(log: Log, ps: seq<nat>, stream: string)
    requires forall p :: p in ps ==> 1 <= p <= |log|
    requires StreamAscending(log, ps)
    ensures Ascending(OfStream(log, ps, stream))
  {
    if ps != [] {
      var init := ps[..|ps| - 1];
      var last := ps[|ps| - 1];
      assert last in ps;
      assert forall p :: p in init ==> p in ps;
      OfStreamAscending(log, init, stream);
      OfStreamMembers(log, init, stream);
      var f := OfStream(log, init, stream);
      forall i | 0 <= i < |f| && log[last - 1].stream == stream ensures f[i] < last {
        assert f[i] in f;
        var k :| 0 <= k < |init| && init[k] == f[i];
        assert ps[k] == f[i];
      }
    }
  }

  /** Ascending, a contained in b, and nothing of b below an element of a left out: a prefix. */
  lemma {:induction false} AscendingPrefix(a: seq<nat>, b: seq<nat>)
    requires Ascending(a) && Ascending(b)
    requires forall p :: p in a ==> p in b
    requires forall p, q :: p in b && p !in a && q in a ==> q < p
    ensures a <= b
    decreases |b|
  {
    assert a != [] ==> a[0] in b;
    if b != [] {
      var y := b[|b| - 1];
      var b' := b[..|b| - 1];
      assert b == b' + [y];
      if y in a {
        forall p | p in b ensures p in a {
          var k :| 0 <= k < |b| && b[k] == p;
          assert p <= y;
        }
        AscendingUnique(a, b);
      } else {
        forall p | p in a ensures p in b' { assert p in b; }
        AscendingPrefix(a, b');
      }
    }
  }
}
