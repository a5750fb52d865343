/** memory/eventstore.go: an append-only log with an index per stream, and paged filtered reads. */
module EventLog {
  import opened Options

  /** A saved event: version is its number in its stream, position its number in the log. */
  datatype Record = Record(stream: string, name: string, data: int, correlation: string, version: nat, position: nat)

  /** An event to save. id 0 is the missing event ID; some events cannot be encoded. */
  datatype Envelope = Envelope(id: nat, stream: string, name: string, data: int, correlation: string, encodable: bool)

  datatype StreamState = Any | NoStream | StreamExists | Revision(n: nat)

  datatype Error =
    | InvalidEventBatch | CannotEncode | ErrStreamExists | ErrStreamNotFound | ErrInvalidRevision | EmptyCorrelationID
    | RevisionConflict(expected: nat, actual: nat)

  datatype Result<+T> = Ok(value: T) | Err(error: Error)

  datatype AppendResult = AppendResult(stream: string, nextExpectedVersion: nat, position: nat)

  /** The events of one stream, in log order. */
  function StreamOf(log: seq<Record>, id: string): seq<Record> {
    if log == [] then []
    else
      var n := |log| - 1;
      StreamOf(log[..n], id) + if log[n].stream == id then [log[n]] else []
  }

  /** Positions are the log's indices plus one, versions the streams'. */
  ghost predicate Numbered(log: seq<Record>) {
    && (forall i :: 0 <= i < |log| ==> log[i].position == i + 1)
    && (forall id, k {:trigger StreamOf(log, id)[k]} :: 0 <= k < |StreamOf(log, id)| ==>
         StreamOf(log, id)[k].version == k + 1)
  }

  // Save

  /** Why a batch is refused before the store is even looked at. */
  function BatchError(events: seq<Envelope>): Option<Error> {
    if exists i :: 0 <= i < |events| && (events[i].stream != events[0].stream || events[i].id == 0) then
      Some(InvalidEventBatch)
    else if exists i :: 0 <= i < |events| && !events[i].encodable then Some(CannotEncode)
    else None
  }

  /** The optimistic concurrency check against a stream with count events. */
  function RevisionError(state: StreamState, count: nat): Option<Error> {
    match state
    case Any => None
    case NoStream => if count != 0 then Some(ErrStreamExists) else None
    case StreamExists => if count == 0 then Some(ErrStreamNotFound) else None
    case Revision(n) => if count != n then Some(RevisionConflict(n, count)) else None
  }

  /** The records a batch becomes after count events of its stream and end events of the log. */
  function Stamp(events: seq<Envelope>, count: nat, end: nat): (r: seq<Record>)
    ensures |r| == |events|
  {
    seq(|events|, i requires 0 <= i < |events| =>
      Record(events[i].stream, events[i].name, events[i].data, events[i].correlation, count + i + 1, end + i + 1))
  }

  /** What Save does to a log: a refused batch changes nothing, an accepted one is appended whole. */
  ghost predicate Saved(log: seq<Record>, batch: seq<Envelope>, state: StreamState,
                        res: Result<AppendResult>, log': seq<Record>) {
    if batch == [] then res == Ok(AppendResult("", 0, 0)) && log' == log
    else
      var id := batch[0].stream;
      var count := |StreamOf(log, id)|;
      if BatchError(batch).Some? then res == Err(BatchError(batch).value) && log' == log
      else if RevisionError(state, count).Some? then res == Err(RevisionError(state, count).value) && log' == log
      else res == Ok(AppendResult(id, count + |batch|, |log'|)) && log' == log + Stamp(batch, count, |log|)
  }

  lemma {:induction false} StreamOfAppend(log: seq<Record>, more: seq<Record>, id: string)
    ensures StreamOf(log + more, id) == StreamOf(log, id) + StreamOf(more, id)
  {
    if more == [] {
      assert log + more == log;
    } else {
      var n := |more| - 1;
      assert (log + more)[..|log| + n] == log + more[..n];
      StreamOfAppend(log, more[..n], id);
    }
  }

  lemma {:induction false} StreamOfOne(batch: seq<Record>, id: string)
    requires forall i :: 0 <= i < |batch| ==> batch[i].stream == batch[0].stream
    ensures StreamOf(batch, id) == if batch != [] && batch[0].stream == id then batch else []
  {
    if batch != [] {
      var n := |batch| - 1;
      assert n > 0 ==> batch[..n][0] == batch[0];
      StreamOfOne(batch[..n], id);
      assert batch == batch[..n] + [batch[n]];
    }
  }

  /** An appended batch is numbered on in the log and in its stream, and touches no other. */
  lemma AppendNumbered(log: seq<Record>, events: seq<Envelope>)
    requires Numbered(log) && events != [] && BatchError(events).None?
    ensures var id := events[0].stream;
            var log' := log + Stamp(events, |StreamOf(log, id)|, |log|);
            Numbered(log') && StreamOf(log', id) == StreamOf(log, id) + Stamp(events, |StreamOf(log, id)|, |log|) &&
            forall other :: other != id ==> StreamOf(log', other) == StreamOf(log, other)
  {
    var id := events[0].stream;
    var batch := Stamp(events, |StreamOf(log, id)|, |log|);
    var log' := log + batch;
    forall other ensures StreamOf(log', other) == StreamOf(log, other) + if other == id then batch else [] {
      StreamOfAppend(log, batch, other);
      StreamOfOne(batch, other);
    }
    forall other, k | 0 <= k < |StreamOf(log', other)| ensures StreamOf(log', other)[k].version == k + 1 {
      if k < |StreamOf(log, other)| { assert StreamOf(log', other)[k] == StreamOf(log, other)[k]; }
    }
  }

  /** The stream index holds each stream of the log, and no empty one. */
  ghost predicate Indexed(log: seq<Record>, index: map<string, seq<Record>>) {
    forall id :: if id in index then index[id] == StreamOf(log, id) && index[id] != [] else StreamOf(log, id) == []
  }

  lemma AppendIndexed(log: seq<Record>, index: map<string, seq<Record>>, events: seq<Envelope>)
    requires Numbered(log) && Indexed(log, index) && events != [] && BatchError(events).None?
    ensures var id := events[0].stream;
            var batch := Stamp(events, |StreamOf(log, id)|, |log|);
            Indexed(log + batch, index[id := StreamOf(log, id) + batch])
  {
    AppendNumbered(log, events);
  }

  lemma TakeOneMore<T>(a: seq<T>, b: seq<T>, i: nat)
    requires i < |b|
    ensures a + b[..i + 1] == a + b[..i] + [b[i]]
  {}

  // Reads

  /** What a read filters on; empty sets match everything. */
  datatype Filter = Filter(types: set<string>, prefixes: set<string>)

  predicate Matches(f: Filter, r: Record) {
    (f.types == {} || r.name in f.types) && (f.prefixes == {} || exists p :: p in f.prefixes && p <= r.stream)
  }

  /** The matching events with a position in (lo, hi]. */
  function Between(log: seq<Record>, f: Filter, lo: nat, hi: nat): seq<Record>
    requires hi <= |log|
    decreases hi
  {
    if hi <= lo then []
    else Between(log, f, lo, hi - 1) + if Matches(f, log[hi - 1]) then [log[hi - 1]] else []
  }

  datatype Page = Page(events: seq<Record>, next: nat, atEnd: bool)

  const DEFAULT_LIMIT := 500

  /** A page is everything that matches in a stretch of the log: it ends at the head, or with the
      event that filled it. */
  ghost predicate IsPage(log: seq<Record>, f: Filter, after: nat, limit: int, page: Page) {
    var max := if limit <= 0 then DEFAULT_LIMIT else limit;
    && after <= page.next && (page.next <= |log| || page.next == after)
    && page.atEnd == (page.next >= |log|)
    && page.events == (if page.next <= |log| then Between(log, f, after, page.next) else [])
    && |page.events| <= max
    && (!page.atEnd ==> page.next > after && |page.events| == max && page.events[max - 1] == log[page.next - 1])
  }

  lemma {:induction false} BetweenSplit(log: seq<Record>, f: Filter, lo: nat, mid: nat, hi: nat)
    requires lo <= mid <= hi <= |log|
    ensures Between(log, f, lo, hi) == Between(log, f, lo, mid) + Between(log, f, mid, hi)
    decreases hi
  {
    if hi > mid {
      BetweenSplit(log, f, lo, mid, hi - 1);
    }
  }

  lemma {:induction false} BetweenAppend(log: seq<Record>, more: seq<Record>, f: Filter, lo: nat, hi: nat)
    requires hi <= |log|
    ensures Between(log + more, f, lo, hi) == Between(log, f, lo, hi)
    decreases hi
  {
    if hi > lo {
      BetweenAppend(log, more, f, lo, hi - 1);
    }
  }

  lemma {:induction false} BetweenPositions(log: seq<Record>, f: Filter, lo: nat, hi: nat)
    requires hi <= |log| && forall i :: 0 <= i < |log| ==> log[i].position == i + 1
    ensures forall r :: r in Between(log, f, lo, hi) <==> r in log && Matches(f, r) && lo < r.position <= hi
    ensures forall i, j :: 0 <= i < j < |Between(log, f, lo, hi)| ==>
              Between(log, f, lo, hi)[i].position < Between(log, f, lo, hi)[j].position
    decreases hi
  {
    if hi > lo {
      BetweenPositions(log, f, lo, hi - 1);
      var init := Between(log, f, lo, hi - 1);
      assert forall i :: 0 <= i < |init| ==> init[i] in init;
      forall r | r in log && lo < r.position <= hi ensures r.position < hi || r == log[hi - 1] {
        var k :| 0 <= k < |log| && log[k] == r;
      }
    }
  }

  // The store

  class EventStore {
    var global: seq<Record>
    var events: map<string, seq<Record>>

    ghost predicate Valid()
      reads this
    {
      Numbered(global) && Indexed(global, events)
    }

    constructor ()
      ensures Valid() && global == [] && events == map[]
    {
      global, events := [], map[];
    }

    /** Appends a batch to its stream, all of it or none. */
    method Save(batch: seq<Envelope>, state: StreamState) returns (res: Result<AppendResult>)
      requires Valid()
      modifies this
      ensures Valid()
      ensures Saved(old(global), batch, state, res, global)
    {
      if batch == [] {
        return Ok(AppendResult("", 0, 0));
      }
      var invalid := CheckBatch(batch);
      if invalid.Some? {
        return Err(invalid.value);
      }
      var id := batch[0].stream;
      var count := if id in events then |events[id]| else 0;
      match state {
        case Any =>
        case NoStream => if count != 0 { return Err(ErrStreamExists); }
        case StreamExists => if count == 0 { return Err(ErrStreamNotFound); }
        case Revision(n) => if count != n { return Err(RevisionConflict(n, count)); }
      }
      var version := Append(id, batch);
      res := Ok(AppendResult(id, version, |global|));
    }

    /** The events share their stream, have an ID each, and can be encoded. */
    static method CheckBatch(batch: seq<Envelope>) returns (err: Option<Error>)
      requires batch != []
      ensures err == BatchError(batch)
    {
      for i := 0 to |batch|
        invariant forall k :: 0 <= k < i ==> batch[k].stream == batch[0].stream && batch[k].id != 0
      {
        if batch[i].stream != batch[0].stream || batch[i].id == 0 {
          return Some(InvalidEventBatch);
        }
      }
      for i := 0 to |batch|
        invariant forall k :: 0 <= k < i ==> batch[k].encodable
      {
        if !batch[i].encodable {
          return Some(CannotEncode);
        }
      }
      err := None;
    }

    /** Appends a batch that passed every check. */
    method Append(id: string, batch: seq<Envelope>) returns (version: nat)
      requires Valid() && batch != [] && BatchError(batch).None? && batch[0].stream == id
      modifies this
      ensures Valid()
      ensures global == old(global) + Stamp(batch, |StreamOf(old(global), id)|, |old(global)|)
      ensures version == |StreamOf(old(global), id)| + |batch|
    {
      version := AppendEach(id, batch);
      AppendNumbered(old(global), batch);
      AppendIndexed(old(global), old(events), batch);
    }

    /** The append loop. */
    method AppendEach(id: string, batch: seq<Envelope>) returns (version: nat)
      requires batch != [] && (forall i :: 0 <= i < |batch| ==> batch[i].stream == id)
      modifies this
      ensures var before := if id in old(events) then old(events)[id] else [];
              var stamped := Stamp(batch, |before|, |old(global)|);
              global == old(global) + stamped && events == old(events)[id := before + stamped] &&
              version == |before| + |batch|
    {
      var stream := if id in events then events[id] else [];
      ghost var before := stream;
      ghost var stamped := Stamp(batch, |before|, |global|);
      version := |stream|;
      for i := 0 to |batch|
        invariant version == |before| + i
        invariant global == old(global) + stamped[..i]
        invariant stream == before + stamped[..i]
        invariant events == if i == 0 then old(events) else old(events)[id := stream]
      {
        var rec := Record(id, batch[i].name, batch[i].data, batch[i].correlation, version + 1, |global| + 1);
        assert rec == stamped[i];
        TakeOneMore(old(global), stamped, i);
        TakeOneMore(before, stamped, i);
        stream := stream + [rec];
        events := events[id := stream];
        global := global + [rec];
        version := version + 1;
      }
      assert stamped[..|batch|] == stamped;
    }

    /** One page of the log after a position, filtered. */
    method ReadAll(after: nat, limit: int, f: Filter) returns (page: Page)
      requires Valid()
      ensures IsPage(global, f, after, limit, page)
    {
      var max := if limit <= 0 then DEFAULT_LIMIT else limit;
      var found: seq<Record> := [];
      var next, i := after, after;
      while i < |global|
        invariant i == next && after <= i && (i <= |global| || i == after)
        invariant found == if i <= |global| then Between(global, f, after, i) else []
        invariant |found| < max
      {
        var rec := global[i];
        next := rec.position;
        i := i + 1;
        if Matches(f, rec) {
          found := found + [rec];
          if |found| == max {
            break;
          }
        }
      }
      page := Page(found, next, next >= |global|);
    }

    method Head() returns (head: nat)
      ensures head == |global|
    {
      head := |global|;
    }

    /** The events of a stream from where state says. */
    method LoadStreamFrom(id: string, state: StreamState) returns (res: Result<seq<Record>>)
      requires Valid()
      ensures res == Load(global, id, state)
    {
      var exists_ := id in events;
      var stream := if exists_ then events[id] else [];
      var offset := 0;
      match state {
        case NoStream => if exists_ { return Err(ErrStreamExists); }
        case StreamExists => if !exists_ { return Err(ErrStreamNotFound); }
        case Revision(v) =>
          if v > |stream| { return Err(ErrInvalidRevision); }
          offset := v;
        case Any =>
      }
      var out: seq<Record> := [];
      var at := offset;
      while at < |stream|
        invariant offset <= at <= |stream| && out == stream[offset..at]
      {
        out := out + [stream[at]];
        at := at + 1;
      }
      assert out == stream[offset..];
      res := Ok(out);
    }

    /** Every event of a correlation chain, in log order. */
    method LoadCorrelation(id: string) returns (res: Result<seq<Record>>)
      ensures id == "" ==> res == Err(EmptyCorrelationID)
      ensures id != "" ==> res == Ok(ChainOf(global, id))
    {
      if id == "" {
        return Err(EmptyCorrelationID);
      }
      var chain: seq<Record> := [];
      for i := 0 to |global|
        invariant chain == ChainOf(global[..i], id)
      {
        assert global[..i + 1][..i] == global[..i];
        if global[i].correlation == id {
          chain := chain + [global[i]];
        }
      }
      assert global[..|global|] == global;
      res := Ok(chain);
    }
  }

  /** What a load returns: the stream from its start, or strictly after a revision. */
  function Load(log: seq<Record>, id: string, state: StreamState): Result<seq<Record>> {
    var stream := StreamOf(log, id);
    match state
    case Any => Ok(stream)
    case NoStream => if stream != [] then Err(ErrStreamExists) else Ok([])
    case StreamExists => if stream == [] then Err(ErrStreamNotFound) else Ok(stream)
    case Revision(n) => if n > |stream| then Err(ErrInvalidRevision) else Ok(stream[n..])
  }

  function ChainOf(log: seq<Record>, id: string): seq<Record> {
    if log == [] then []
    else
      var n := |log| - 1;
      ChainOf(log[..n], id) + if log[n].correlation == id then [log[n]] else []
  }

  // Following Next

  /** What happens around a reader: appends, and its own reads with whatever limit. */
  datatype Event = Append(records: seq<Record>) | Read(page: Page)

  datatype Reader = Reader(log: seq<Record>, after: nat, seen: seq<Record>)

  /** The reader passes Next on as the next after. */
  ghost predicate Follows(f: Filter, a: Reader, e: Event, b: Reader) {
    match e
    case Append(records) => b == a.(log := a.log + records)
    case Read(page) =>
      && (exists limit :: IsPage(a.log, f, a.after, limit, page))
      && b == Reader(a.log, page.next, a.seen + page.events)
  }

  ghost predicate Following(f: Filter, readers: seq<Reader>, events: seq<Event>) {
    && |readers| == |events| + 1 && readers[0].after == 0 && readers[0].seen == []
    && forall i :: 0 <= i < |events| ==> Follows(f, readers[i], events[i], readers[i + 1])
  }

  /** Following Next from 0, with any limits and any appends in between, has seen exactly the
      matching events up to where it is, once each, in log order. */
  lemma {:induction false} FollowingSeesAll(f: Filter, readers: seq<Reader>, events: seq<Event>, n: nat)
    requires Following(f, readers, events) && n < |readers|
    ensures readers[n].after <= |readers[n].log| && readers[n].seen == Between(readers[n].log, f, 0, readers[n].after)
    decreases n
  {
    if n > 0 {
      FollowingSeesAll(f, readers, events, n - 1);
      var a, b := readers[n - 1], readers[n];
      assert Follows(f, a, events[n - 1], b);
      match events[n - 1] {
        case Append(records) => BetweenAppend(a.log, records, f, 0, a.after);
        case Read(page) => BetweenSplit(a.log, f, 0, a.after, page.next);
      }
    }
  }

  /** Between two appends every read that is not at the end brings the reader closer to the head;
      at the end it has seen everything. */
  lemma FollowingProgress(f: Filter, a: Reader, page: Page, b: Reader)
    requires a.after <= |a.log| && a.seen == Between(a.log, f, 0, a.after) && Follows(f, a, Read(page), b)
    ensures 0 <= |b.log| - b.after
    ensures if page.atEnd then b.seen == Between(b.log, f, 0, |b.log|) else |b.log| - b.after < |a.log| - a.after
  {
    BetweenSplit(a.log, f, 0, a.after, page.next);
  }
}
