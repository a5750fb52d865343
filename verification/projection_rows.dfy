/** What a projection store keeps per segment, and how each store call changes it.

    These functions are the meaning of the store's contract. The in-memory store
    (module MemoryProjectionStore) is proved to compute them, and the protocol between
    several runners (module ProjectionProtocol) is a transition system over them. */
module ProjectionRows {
  import opened Numbers
  import opened Options

  /** Instances carry distinct owner names, so a number identifies one. */
  type Owner = nat

  /** `fingerprint` identifies the set of event types a checkpoint was written for.
      The hash is taken to be injective, so the set itself stands for it; None is the
      empty fingerprint of a segment that has not committed since it was reset. */
  datatype Checkpoint = Checkpoint(position: nat, version: nat, replayUntil: nat, fingerprint: Option<set<string>>)

  datatype Cause = HandlerFailed | StreamParked

  datatype DeadLetter = DeadLetter(position: nat, stream: string, cause: Cause)

  /** A claim on a segment: who holds it, and the fencing token it was granted. */
  datatype Lease = Lease(owner: Owner, epoch: nat)

  datatype Row = Row(cp: Checkpoint, owner: Option<Owner>, epoch: nat, heartbeat: nat, ttl: nat,
      letters: seq<DeadLetter>)

  /** The fence: l is the segment's current claim. */
  predicate Owned(row: Row, l: Lease) {
    row.owner == Some(l.owner) && row.epoch == l.epoch
  }

  /** A claim holds the segment until its own ttl has passed without a heartbeat. */
  predicate Held(row: Row, now: nat) {
    row.owner.Some? && now - row.heartbeat <= row.ttl
  }

  predicate CanClaim(row: Row, l: Lease, now: nat) {
    Owned(row, l) || !Held(row, now)
  }

  function ClaimRow(row: Row, l: Lease, ttl: nat, now: nat): (r: Row)
    ensures r.owner == Some(l.owner) && row.epoch <= r.epoch
    ensures r.epoch == row.epoch <==> Owned(row, l)
  {
    row.(owner := Some(l.owner), epoch := if Owned(row, l) then row.epoch else row.epoch + 1,
         heartbeat := now, ttl := ttl)
  }

  /** The checkpoint, the dead letters written in the unit of work, and the heartbeat. */
  function CommitRow(row: Row, cp: Checkpoint, letters: seq<DeadLetter>, now: nat): Row {
    row.(cp := cp, letters := letters, heartbeat := now)
  }

  function ReleaseRow(row: Row): Row {
    row.(owner := None)
  }

  function RefreshRow(row: Row, now: nat): Row {
    row.(heartbeat := now)
  }

  /** A reset rewinds every segment of the projection; only the one it was called under stays claimed. */
  function WipeRow(row: Row, version: nat, keep: bool, now: nat): (r: Row)
    ensures r.cp.position == 0 && r.letters == [] && r.cp.replayUntil >= row.cp.replayUntil
    ensures r.cp.replayUntil >= row.cp.position
  {
    var cp := Checkpoint(0, version, Max(row.cp.replayUntil, row.cp.position), None);
    if keep then row.(cp := cp, letters := [], heartbeat := now)
    else row.(cp := cp, letters := [], owner := None)
  }

  // Dead letters, ordered by position

  function Positions(letters: seq<DeadLetter>): set<nat> {
    set d | d in letters :: d.position
  }

  function Streams(letters: seq<DeadLetter>): set<string> {
    set d | d in letters :: d.stream
  }

  ghost predicate Ordered(letters: seq<DeadLetter>) {
    forall i, j :: 0 <= i < j < |letters| ==> letters[i].position < letters[j].position
  }

  /** The first index whose letter is not before position. */
  function LowerBound(letters: seq<DeadLetter>, position: nat): (i: nat)
    ensures i <= |letters|
    ensures forall j :: 0 <= j < i ==> letters[j].position < position
    ensures i < |letters| ==> letters[i].position >= position
  {
    if letters == [] || letters[0].position >= position then 0
    else 1 + LowerBound(letters[1..], position)
  }

  function InsertLetter(letters: seq<DeadLetter>, d: DeadLetter): seq<DeadLetter> {
    var i := LowerBound(letters, d.position);
    letters[..i] + [d] + letters[i..]
  }

  function DeleteLetters(letters: seq<DeadLetter>, position: nat): (r: seq<DeadLetter>)
    ensures forall d :: d in r <==> d in letters && d.position != position
  {
    if letters == [] then []
    else if letters[0].position == position then DeleteLetters(letters[1..], position)
    else [letters[0]] + DeleteLetters(letters[1..], position)
  }

  lemma InsertLetterMembers(letters: seq<DeadLetter>, d: DeadLetter)
    ensures forall e :: e in InsertLetter(letters, d) <==> e in letters || e == d
  {
    var i := LowerBound(letters, d.position);
    assert letters == letters[..i] + letters[i..];
  }

  lemma InsertLetterSets(letters: seq<DeadLetter>, d: DeadLetter)
    ensures Positions(InsertLetter(letters, d)) == Positions(letters) + {d.position}
    ensures Streams(InsertLetter(letters, d)) == Streams(letters) + {d.stream}
  {
    var r := InsertLetter(letters, d);
    InsertLetterMembers(letters, d);
    assert d in r;
    forall p | p in Positions(letters) ensures p in Positions(r) {
      var e :| e in letters && e.position == p;
      assert e in r;
    }
    forall s | s in Streams(letters) ensures s in Streams(r) {
      var e :| e in letters && e.stream == s;
      assert e in r;
    }
  }

  /** A letter recorded at a new position keeps the order. */
  lemma InsertLetterOrdered(letters: seq<DeadLetter>, d: DeadLetter)
    requires Ordered(letters) && d.position !in Positions(letters)
    ensures Ordered(InsertLetter(letters, d))
  {
    var i := LowerBound(letters, d.position);
    var r := InsertLetter(letters, d);
    forall k | i <= k < |letters| ensures d.position < letters[k].position {
      assert letters[k] in letters;
      assert letters[i].position <= letters[k].position;
    }
    forall a, b | 0 <= a < b < |r| ensures r[a].position < r[b].position {
      InsertAt(letters, i, d, a);
      InsertAt(letters, i, d, b);
    }
  }

  lemma InsertAt(letters: seq<DeadLetter>, i: nat, d: DeadLetter, k: nat)
    requires i <= |letters| && k <= |letters|
    ensures (letters[..i] + [d] + letters[i..])[k] == if k < i then letters[k] else if k == i then d else letters[k - 1]
  {
  }

  lemma DeleteLettersSets(letters: seq<DeadLetter>, position: nat)
    ensures Positions(DeleteLetters(letters, position)) == Positions(letters) - {position}
  {
    var r := DeleteLetters(letters, position);
    forall p | p in Positions(letters) - {position} ensures p in Positions(r) {
      var e :| e in letters && e.position == p;
      assert e in r;
    }
  }

  lemma {:induction false} DeleteLettersOrdered(letters: seq<DeadLetter>, position: nat)
    requires Ordered(letters)
    ensures Ordered(DeleteLetters(letters, position))
  {
    if letters != [] {
      var rest := letters[1..];
      DeleteLettersOrdered(rest, position);
      if letters[0].position != position {
        var tail := DeleteLetters(rest, position);
        forall j | 0 <= j < |tail| ensures letters[0].position < tail[j].position {
          assert tail[j] in tail;
          var k :| 0 <= k < |rest| && rest[k] == tail[j];
          assert rest[k] == letters[k + 1];
        }
        ConsOrdered(letters[0], tail);
      }
    }
  }

  lemma ConsOrdered(d: DeadLetter, tail: seq<DeadLetter>)
    requires Ordered(tail) && forall j :: 0 <= j < |tail| ==> d.position < tail[j].position
    ensures Ordered([d] + tail)
  {
  }
}
