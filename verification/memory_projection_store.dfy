/** memory/projection_store.go: the in-memory projection store, for one projection.

    Each method is what one critical section of the source does. Commit and Reset run the caller's
    function between two of them, so each is a check and a finish with anything in between. */
module MemoryProjectionStore {
  import opened Numbers
  import opened Options
  import opened ProjectionRows

  datatype Phase = Starting | Standby | CatchingUp | Live | Stalled

  datatype Status = Status(phase: Phase, position: nat, head: nat, version: nat, lastError: string,
      owner: Option<Owner>, segment: nat)

  datatype Stored = Stored(row: Row, status: Status)

  /** A replay request: its stream, and for each segment that held dead letters of it, the outcome. */
  datatype Attempt = Attempt(done: bool, err: string)
  datatype Request = Request(stream: string, segments: map<nat, Attempt>)

  datatype Result<+T> = Ok(value: T) | ErrClaimLost | ErrSegmentsChanged | ErrUnknownProjection

  predicate Finished(q: Request) {
    forall seg :: seg in q.segments ==> q.segments[seg].done
  }

  predicate Succeeded(q: Request) {
    forall seg :: seg in q.segments ==> q.segments[seg].done && q.segments[seg].err == ""
  }

  // What each call makes of a stored segment

  function Declared(segment: nat, replayUntil: nat): Stored {
    Stored(Row(Checkpoint(0, 0, replayUntil, None), None, 0, 0, 0, []), Status(Starting, 0, 0, 0, "", None, segment))
  }

  function AfterClaim(st: Stored, l: Lease, ttl: nat, now: nat): Stored {
    Stored(ClaimRow(st.row, l, ttl, now), st.status.(owner := Some(l.owner)))
  }

  function AfterCommit(st: Stored, cp: Checkpoint, status: Status, now: nat): Stored {
    Stored(CommitRow(st.row, cp, st.row.letters, now), status)
  }

  function AfterReset(st: Stored, version: nat, keep: bool, now: nat): Stored {
    Stored(WipeRow(st.row, version, keep, now),
           st.status.(position := 0, version := version, head := 0, lastError := "",
                      phase := if keep then Starting else Standby,
                      owner := if keep then st.status.owner else None))
  }

  function AfterRelease(st: Stored): Stored {
    Stored(ReleaseRow(st.row), st.status.(owner := None, phase := Standby))
  }

  function AfterSaveStatus(st: Stored, status: Status, now: nat): Stored {
    Stored(RefreshRow(st.row, now),
      st.status.(phase := status.phase, head := status.head, lastError := status.lastError))
  }

  function AfterSaveDeadLetter(st: Stored, d: DeadLetter): Stored {
    st.(row := st.row.(letters := InsertLetter(st.row.letters, d)))
  }

  function AfterDeleteDeadLetter(st: Stored, position: nat): Stored {
    st.(row := st.row.(letters := DeleteLetters(st.row.letters, position)))
  }

  /** Whether a request survives the success of request number on stream. */
  predicate Kept(replays: map<nat, Request>, n: nat, number: nat, stream: string)
    requires n in replays
  {
    !(n <= number && replays[n].stream == stream && Finished(replays[n]))
  }

  /** The requests left after request number on stream has succeeded, out of tried. */
  function AfterSuccess(tried: map<nat, Request>, number: nat, stream: string): map<nat, Request> {
    map n | n in tried && Kept(tried, n, number, stream) :: tried[n]
  }

  function AfterAttempt(q: Request, seg: nat, msg: string): Request {
    if seg in q.segments then q.(segments := q.segments[seg := Attempt(true, msg)]) else q
  }

  /** The segments that hold dead letters of stream, none of which has tried to replay them. */
  function Holding(rows: map<nat, Stored>, stream: string): map<nat, Attempt> {
    map i | i in rows && stream in Streams(rows[i].row.letters) :: Attempt(false, "")
  }

  class ProjectionStore {
    var declared: bool
    var segments: nat
    var rows: map<nat, Stored>
    var rebuildsRequested: nat
    var rebuildsDone: nat
    var rebuildFailed: nat
    var rebuildErr: string
    var replays: map<nat, Request>
    var lastReplay: nat

    ghost predicate Valid()
      reads this
    {
      && (!declared ==> rows == map[] && rebuildsRequested == 0 && replays == map[])
      && (declared ==> forall i :: i in rows <==> 0 <= i < segments)
      && rebuildsDone <= rebuildsRequested
      && forall n :: n in replays ==> n <= lastReplay && WithinSegments(replays[n], segments)
    }

    /** The segment's row is the current claim of l. */
    predicate Holds(seg: nat, l: Lease)
      reads this
    {
      seg in rows && Owned(rows[seg].row, l)
    }

    constructor ()
      ensures Valid() && !declared
    {
      declared, segments, rows := false, 0, map[];
      rebuildsRequested, rebuildsDone, rebuildFailed, rebuildErr := 0, 0, 0, "";
      replays, lastReplay := map[], 0;
    }

    /** Creates the segments on first use; another count is refused, the same one changes nothing. */
    method Declare(count: nat, replayUntil: nat) returns (res: Result<()>)
      requires Valid()
      modifies this
      ensures Valid() && declared
      ensures unchanged(`rebuildsRequested, `rebuildsDone, `rebuildFailed, `rebuildErr, `replays, `lastReplay)
      ensures old(declared) ==>
                && segments == old(segments) && rows == old(rows)
                && res == if count == old(segments) then Ok(()) else ErrSegmentsChanged
      ensures !old(declared) ==>
                res == Ok(()) && segments == count && rows == (map i | 0 <= i < count :: Declared(i, replayUntil))
    {
      if declared {
        return if segments != count then ErrSegmentsChanged else Ok(());
      }
      var created: map<nat, Stored> := map[];
      for i := 0 to count
        invariant created == map k | 0 <= k < i :: Declared(k, replayUntil)
      {
        created := created[i := Declared(i, replayUntil)];
      }
      declared, segments, rows := true, count, created;
      res := Ok(());
    }

    /** Refreshes l's own claim, or takes over a free or expired one under a new epoch. */
    method Claim(seg: nat, l: Lease, ttl: nat, now: nat) returns (granted: Option<(Lease, Checkpoint)>)
      requires Valid()
      modifies `rows
      ensures Valid()
      ensures granted.Some? <==> seg in old(rows) && CanClaim(old(rows)[seg].row, l, now)
      ensures granted.None? ==> rows == old(rows)
      ensures granted.Some? ==>
                && rows == old(rows)[seg := AfterClaim(old(rows)[seg], l, ttl, now)]
                && granted.value == (Lease(l.owner, rows[seg].row.epoch), old(rows)[seg].row.cp)
                && Holds(seg, granted.value.0)
    {
      if seg !in rows {
        return None;
      }
      var st := rows[seg];
      var epoch := st.row.epoch;
      if !Owned(st.row, l) {
        if st.row.owner.Some? && now - st.row.heartbeat <= st.row.ttl {
          return None;
        }
        epoch := epoch + 1;
      }
      rows := rows[seg := Stored(st.row.(owner := Some(l.owner), epoch := epoch, heartbeat := now, ttl := ttl),
                                 st.status.(owner := Some(l.owner)))];
      granted := Some((Lease(l.owner, epoch), st.row.cp));
    }

    /** The checks a Commit and a Reset make before they run the caller's function. */
    method CheckHeld(seg: nat, l: Lease) returns (res: Result<()>)
      ensures res == if Holds(seg, l) then Ok(()) else ErrClaimLost
    {
      res := if seg in rows && Owned(rows[seg].row, l) then Ok(()) else ErrClaimLost;
    }

    /** The end of a Commit: dead letters the function recorded stay where they are. */
    method FinishCommit(seg: nat, l: Lease, cp: Checkpoint, status: Status, now: nat) returns (res: Result<()>)
      requires Valid()
      modifies `rows
      ensures Valid()
      ensures res == if old(Holds(seg, l)) then Ok(()) else ErrClaimLost
      ensures rows == if old(Holds(seg, l)) then old(rows)[seg := AfterCommit(old(rows)[seg], cp, status, now)]
                else old(rows)
    {
      if seg !in rows || !Owned(rows[seg].row, l) {
        return ErrClaimLost;
      }
      var st := rows[seg];
      rows := rows[seg := Stored(st.row.(cp := cp, heartbeat := now), status)];
      res := Ok(());
    }

    /** The end of a Reset: every segment is rewound, all but l's released, every request served. */
    method FinishReset(seg: nat, l: Lease, version: nat, now: nat) returns (res: Result<()>)
      requires Valid()
      modifies `rows, `rebuildsDone, `replays
      ensures Valid()
      ensures res == if old(Holds(seg, l)) then Ok(()) else ErrClaimLost
      ensures !old(Holds(seg, l)) ==> rows == old(rows) && rebuildsDone == old(rebuildsDone) && replays == old(replays)
      ensures old(Holds(seg, l)) ==>
                && rows == (map i | i in old(rows) :: AfterReset(old(rows)[i], version, i == seg, now))
                && rebuildsDone == rebuildsRequested && replays == map[]
    {
      if seg !in rows || !Owned(rows[seg].row, l) {
        return ErrClaimLost;
      }
      rebuildsDone := rebuildsRequested;
      replays := map[];
      var todo := rows.Keys;
      var was := rows;
      while todo != {}
        invariant rebuildsDone == rebuildsRequested && replays == map[]
        invariant todo <= was.Keys && rows.Keys == was.Keys
        invariant forall i :: i in was ==>
                    rows[i] == if i in todo then was[i] else AfterReset(was[i], version, i == seg, now)
        decreases |todo|
      {
        var i :| i in todo;
        todo := todo - {i};
        var st := rows[i];
        var ru := if st.row.cp.replayUntil < st.row.cp.position then st.row.cp.position else st.row.cp.replayUntil;
        st := Stored(st.row.(letters := [], cp := Checkpoint(0, version, ru, None)),
                     st.status.(position := 0, version := version, head := 0, lastError := ""));
        if i == seg {
          st := Stored(st.row.(heartbeat := now), st.status.(phase := Starting));
        } else {
          st := Stored(st.row.(owner := None), st.status.(owner := None, phase := Standby));
        }
        rows := rows[i := st];
      }
      assert rows == map i | i in was :: AfterReset(was[i], version, i == seg, now);
      res := Ok(());
    }

    method Release(seg: nat, l: Lease)
      requires Valid()
      modifies `rows
      ensures Valid()
      ensures rows == if old(Holds(seg, l)) then old(rows)[seg := AfterRelease(old(rows)[seg])] else old(rows)
    {
      if seg in rows && Owned(rows[seg].row, l) {
        var st := rows[seg];
        rows := rows[seg := Stored(st.row.(owner := None), st.status.(owner := None, phase := Standby))];
      }
    }

    /** Progress only moves with the checkpoint; SaveStatus publishes the rest. */
    method SaveStatus(seg: nat, l: Lease, status: Status, now: nat) returns (res: Result<()>)
      requires Valid()
      modifies `rows
      ensures Valid()
      ensures res == if old(Holds(seg, l)) then Ok(()) else ErrClaimLost
      ensures rows == if old(Holds(seg, l)) then old(rows)[seg := AfterSaveStatus(old(rows)[seg], status, now)]
                else old(rows)
    {
      if seg !in rows || !Owned(rows[seg].row, l) {
        return ErrClaimLost;
      }
      var st := rows[seg];
      rows := rows[seg := Stored(st.row.(heartbeat := now),
                                 st.status.(phase := status.phase, head := status.head,
                                            lastError := status.lastError))];
      res := Ok(());
    }

    method RequestRebuild() returns (res: Result<nat>)
      requires Valid()
      modifies `rebuildsRequested
      ensures Valid()
      ensures !declared ==> res == ErrUnknownProjection && rebuildsRequested == old(rebuildsRequested)
      ensures declared ==>
                && res == Ok(rebuildsRequested) && rebuildsRequested == old(rebuildsRequested) + 1
                && rebuildsRequested > rebuildsDone
    {
      if !declared {
        return ErrUnknownProjection;
      }
      rebuildsRequested := rebuildsRequested + 1;
      res := Ok(rebuildsRequested);
    }

    /** Keeps the failure of the highest request only. */
    method FailRebuild(seg: nat, l: Lease, requested: nat, msg: string) returns (res: Result<()>)
      modifies `rebuildFailed, `rebuildErr
      ensures res == if Holds(seg, l) then Ok(()) else ErrClaimLost
      ensures rebuildFailed == if Holds(seg, l) then Max(old(rebuildFailed), requested) else old(rebuildFailed)
      ensures rebuildErr == if Holds(seg, l) && requested >= old(rebuildFailed) then msg else old(rebuildErr)
    {
      if seg !in rows || !Owned(rows[seg].row, l) {
        return ErrClaimLost;
      }
      if requested >= rebuildFailed {
        rebuildFailed, rebuildErr := requested, msg;
      }
      res := Ok(());
    }

    /** Not fenced: it runs inside a Commit's function, which is. */
    method SaveDeadLetter(seg: nat, d: DeadLetter) returns (res: Result<()>)
      requires Valid()
      modifies `rows
      ensures Valid()
      ensures res == if seg in old(rows) then Ok(()) else ErrClaimLost
      ensures rows == if seg in old(rows)
                      then old(rows)[seg := AfterSaveDeadLetter(old(rows)[seg], d)]
                      else old(rows)
    {
      if seg !in rows {
        return ErrClaimLost;
      }
      var st := rows[seg];
      var i := LowerBound(st.row.letters, d.position);
      rows := rows[seg := Stored(st.row.(letters := st.row.letters[..i] + [d] + st.row.letters[i..]), st.status)];
      res := Ok(());
    }

    method DeleteDeadLetter(seg: nat, position: nat) returns (res: Result<()>)
      requires Valid()
      modifies `rows
      ensures Valid()
      ensures res == if seg in old(rows) then Ok(()) else ErrClaimLost
      ensures rows == if seg in old(rows)
                      then old(rows)[seg := AfterDeleteDeadLetter(old(rows)[seg], position)]
                      else old(rows)
    {
      if seg !in rows {
        return ErrClaimLost;
      }
      var st := rows[seg];
      rows := rows[seg := Stored(st.row.(letters := DeleteLetters(st.row.letters, position)), st.status)];
      res := Ok(());
    }

    /** Records a request for every segment that holds dead letters of stream; none, no request. */
    method RequestReplay(stream: string) returns (res: Result<nat>)
      requires Valid()
      modifies `replays, `lastReplay
      ensures Valid()
      ensures !declared ==> res == ErrUnknownProjection
      ensures var holding := Holding(rows, stream);
              if !declared || holding == map[] then
                replays == old(replays) && lastReplay == old(lastReplay) && (declared ==> res == Ok(0))
              else
                && res == Ok(lastReplay) && lastReplay == old(lastReplay) + 1
                && replays == old(replays)[lastReplay := Request(stream, holding)]
    {
      if !declared {
        return ErrUnknownProjection;
      }
      var held: map<nat, Attempt> := map[];
      var todo := rows.Keys;
      while todo != {}
        invariant todo <= rows.Keys && replays == old(replays) && lastReplay == old(lastReplay)
        invariant held ==
                  map i | i in rows && i !in todo && stream in Streams(rows[i].row.letters) :: Attempt(false, "")
        decreases |todo|
      {
        var i :| i in todo;
        todo := todo - {i};
        if stream in Streams(rows[i].row.letters) {
          held := held[i := Attempt(false, "")];
        }
      }
      assert held == Holding(rows, stream);
      if held == map[] {
        return Ok(0);
      }
      lastReplay := lastReplay + 1;
      replays := replays[lastReplay := Request(stream, held)];
      res := Ok(lastReplay);
    }

    /** Records a segment's attempt. The last successful one of a request deletes it, and the
        earlier requests of its stream that every segment tried. */
    method FinishReplay(seg: nat, l: Lease, number: nat, msg: string) returns (res: Result<()>)
      requires Valid()
      modifies `replays
      ensures Valid()
      ensures res == if Holds(seg, l) then Ok(()) else ErrClaimLost
      ensures !Holds(seg, l) || number !in old(replays) ==> replays == old(replays)
      ensures Holds(seg, l) && number in old(replays) ==>
                var q := AfterAttempt(old(replays)[number], seg, msg);
                var tried := old(replays)[number := q];
                replays == if Succeeded(q) then AfterSuccess(tried, number, q.stream) else tried
    {
      if seg !in rows || !Owned(rows[seg].row, l) {
        return ErrClaimLost;
      }
      res := Ok(());
      if number !in replays {
        return;
      }
      var q := AfterAttempt(replays[number], seg, msg);
      replays := replays[number := q];
      if !Succeeded(q) {
        return;
      }
      var tried := replays;
      var todo := tried.Keys;
      while todo != {}
        invariant todo <= tried.Keys
        invariant forall n :: n in replays <==> n in tried && (n in todo || Kept(tried, n, number, q.stream))
        invariant forall n :: n in replays ==> replays[n] == tried[n]
        decreases |todo|
      {
        var n :| n in todo;
        todo := todo - {n};
        if n <= number && replays[n].stream == q.stream && Finished(replays[n]) {
          replays := replays - {n};
        }
      }
      assert replays == AfterSuccess(tried, number, q.stream);
    }

    /** How many of the request's segments have not tried it, and the errors of those that did and
        failed, in segment order. */
    method ReplayResult(number: nat) returns (pending: nat, errs: seq<string>)
      requires Valid()
      ensures number !in replays ==> pending == 0 && errs == []
      ensures number in replays ==>
                pending == |Untried(replays[number])| && errs == Errors(replays[number], segments)
    {
      pending, errs := 0, [];
      if number !in replays {
        return;
      }
      var q := replays[number];
      for seg := 0 to segments
        invariant pending == |UntriedBelow(q, seg)| && errs == Errors(q, seg)
      {
        UntriedGrows(q, seg);
        if seg in q.segments {
          if !q.segments[seg].done {
            pending := pending + 1;
          } else if q.segments[seg].err != "" {
            errs := errs + [q.segments[seg].err];
          }
        }
      }
      assert WithinSegments(q, segments);
      assert UntriedBelow(q, segments) == Untried(q);
    }
  }

  predicate WithinSegments(q: Request, segments: nat) {
    forall seg :: seg in q.segments ==> seg < segments
  }

  function Untried(q: Request): set<nat> {
    set seg | seg in q.segments && !q.segments[seg].done
  }

  function UntriedBelow(q: Request, n: nat): set<nat> {
    set seg | seg in q.segments && seg < n && !q.segments[seg].done
  }

  lemma UntriedGrows(q: Request, n: nat)
    ensures |UntriedBelow(q, n + 1)| ==
            |UntriedBelow(q, n)| + if n in q.segments && !q.segments[n].done then 1 else 0
  {
    assert UntriedBelow(q, n + 1) ==
           UntriedBelow(q, n) + if n in q.segments && !q.segments[n].done then {n} else {};
  }

  /** The errors of the segments below n that tried the request and failed, in segment order. */
  function Errors(q: Request, n: nat): seq<string> {
    if n == 0 then []
    else if n - 1 in q.segments && q.segments[n - 1].done && q.segments[n - 1].err != "" then
      Errors(q, n - 1) + [q.segments[n - 1].err]
    else
      Errors(q, n - 1)
  }
}
