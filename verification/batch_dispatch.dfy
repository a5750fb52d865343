/** automation/automation.go: the items of one batch, run several at a time, in order within a key. */
module BatchDispatch {
  import opened Options
  import opened Sums

  datatype Outcome = Done | Failed | Deferred(until: nat) | Stopping

  datatype Summary = Summary(processed: nat, failed: nat, deferred: nat, nextEligible: Option<nat>)

  /** The state of batchRun. An item is its index in claim order. */
  datatype Batch = Batch(
    order: seq<string>, queues: map<string, seq<nat>>, inUse: set<string>, parked: set<string>,
    stopped: bool, active: int, sum: Summary)

  function Empty(): Batch {
    Batch([], map[], {}, {}, false, 0, Summary(0, 0, 0, None))
  }

  function Enqueue(b: Batch, key: string, item: nat): Batch {
    if key in b.queues then b.(queues := b.queues[key := b.queues[key] + [item]])
    else b.(order := b.order + [key], queues := b.queues[key := [item]])
  }

  /** The batch of items with these ordering keys. */
  function Load(keys: seq<string>): Batch {
    if keys == [] then Empty()
    else
      var n := |keys| - 1;
      Enqueue(Load(keys[..n]), keys[n], n)
  }

  predicate Free(b: Batch, key: string) {
    key in b.queues && b.queues[key] != [] && key !in b.inUse && key !in b.parked
  }

  /** The first free key from i on. */
  function FirstFree(b: Batch, i: nat): (r: Option<string>)
    requires i <= |b.order|
    ensures r.Some? ==> Free(b, r.value)
    ensures r.None? <==> forall j :: i <= j < |b.order| ==> !Free(b, b.order[j])
    decreases |b.order| - i
  {
    if i == |b.order| then None else if Free(b, b.order[i]) then Some(b.order[i]) else FirstFree(b, i + 1)
  }

  function Pick(b: Batch, concurrency: int): Option<string> {
    if b.stopped || b.active >= concurrency then None else FirstFree(b, 0)
  }

  function Started(b: Batch, key: string): Batch
    requires Free(b, key)
  {
    b.(queues := b.queues[key := b.queues[key][1..]], inUse := b.inUse + {key}, active := b.active + 1)
  }

  function Sooner(next: Option<nat>, until: nat): Option<nat> {
    if next.None? || until < next.value then Some(until) else next
  }

  function Finished(b: Batch, key: string, out: Outcome): Batch {
    var freed := b.(inUse := b.inUse - {key}, active := b.active - 1);
    match out
    case Done => freed.(sum := b.sum.(processed := b.sum.processed + 1))
    case Failed => freed.(sum := b.sum.(failed := b.sum.failed + 1), parked := b.parked + {key})
    case Deferred(until) =>
      freed.(sum := b.sum.(deferred := b.sum.deferred + 1, nextEligible := Sooner(b.sum.nextEligible, until)),
        stopped := true)
    case Stopping => freed.(stopped := true)
  }

  class BatchRun {
    var order: seq<string>
    var queues: map<string, seq<nat>>
    var inUse: set<string>
    var parked: set<string>
    var stopped: bool
    var active: int
    var sum: Summary

    ghost function View(): Batch
      reads this
    {
      Batch(order, queues, inUse, parked, stopped, active, sum)
    }

    constructor (keys: seq<string>)
      ensures View() == Load(keys)
    {
      order, queues, inUse, parked := [], map[], {}, {};
      stopped, active, sum := false, 0, Summary(0, 0, 0, None);
      new;
      for i := 0 to |keys|
        invariant View() == Load(keys[..i])
      {
        var key := keys[i];
        assert keys[..i + 1][..i] == keys[..i];
        if key !in queues {
          order := order + [key];
        }
        var queue: seq<nat> := if key in queues then queues[key] else [];
        queues := queues[key := queue + [i]];
        assert queue == [] ==> queue + [i] == [i];
      }
      assert keys[..|keys|] == keys;
    }

    /** The head of the first queue whose key is free, taken off it, if a slot is free and the batch
        has not stopped. */
    method Next(concurrency: int) returns (picked: Option<(string, nat)>)
      modifies this`queues
      ensures var key := Pick(old(View()), concurrency);
              if key.None? then picked == None && View() == old(View())
              else picked == Some((key.value, old(queues)[key.value][0])) &&
                   queues == old(queues)[key.value := old(queues)[key.value][1..]]
    {
      if stopped || active >= concurrency {
        return None;
      }
      for i := 0 to |order|
        invariant View() == old(View()) && FirstFree(View(), 0) == FirstFree(View(), i)
      {
        var key := order[i];
        if key in queues && queues[key] != [] && key !in inUse && key !in parked {
          picked := Some((key, queues[key][0]));
          queues := queues[key := queues[key][1..]];
          return;
        }
      }
      picked := None;
    }

    /** One turn of the dispatch loop under the lock. */
    method Start(concurrency: int) returns (picked: Option<(string, nat)>)
      modifies this
      ensures var key := Pick(old(View()), concurrency);
              if key.None? then picked == None && View() == old(View())
              else picked == Some((key.value, old(queues)[key.value][0])) && View() == Started(old(View()), key.value)
    {
      picked := Next(concurrency);
      if picked.Some? {
        inUse := inUse + {picked.value.0};
        active := active + 1;
      }
    }

    /** What an item's goroutine does under the lock once the work is over. */
    method Finish(key: string, out: Outcome)
      modifies this
      ensures View() == Finished(old(View()), key, out)
    {
      inUse := inUse - {key};
      active := active - 1;
      match out {
        case Stopping => stopped := true;
        case Done => sum := sum.(processed := sum.processed + 1);
        case Failed =>
          sum := sum.(failed := sum.failed + 1);
          parked := parked + {key};
        case Deferred(until) =>
          sum := sum.(deferred := sum.deferred + 1);
          stopped := true;
          if sum.nextEligible.None? || until < sum.nextEligible.value {
            sum := sum.(nextEligible := Some(until));
          }
      }
    }
  }

  // Runs

  datatype Status = Queued | Running | Ended(outcome: Outcome)

  /** A deferral, or the end of the run. */
  predicate StopsBatch(status: Status) {
    status.Ended? && (status.outcome.Deferred? || status.outcome.Stopping?)
  }

  /** The batch, and what became of each item so far. */
  datatype Sys = Sys(batch: Batch, items: seq<Status>)

  datatype Act = StartNext | Finish(item: nat, outcome: Outcome)

  predicate Enabled(keys: seq<string>, concurrency: int, s: Sys, act: Act) {
    match act
    case StartNext => Pick(s.batch, concurrency).Some?
    case Finish(item, _) => item < |s.items| && s.items[item].Running?
  }

  function Step(keys: seq<string>, concurrency: int, s: Sys, act: Act): Sys
    requires |keys| == |s.items| && Enabled(keys, concurrency, s, act)
  {
    match act
    case StartNext =>
      var key := Pick(s.batch, concurrency).value;
      var item := s.batch.queues[key][0];
      Sys(Started(s.batch, key), if item < |s.items| then s.items[item := Running] else s.items)
    case Finish(item, outcome) => Sys(Finished(s.batch, keys[item], outcome), s.items[item := Ended(outcome)])
  }

  ghost predicate Run(keys: seq<string>, concurrency: int, states: seq<Sys>, acts: seq<Act>) {
    && |states| == |acts| + 1 && states[0] == Sys(Load(keys), seq(|keys|, _ => Queued))
    && (forall i :: 0 <= i < |states| ==> |states[i].items| == |keys|)
    && forall i :: 0 <= i < |acts| ==>
         Enabled(keys, concurrency, states[i], acts[i]) && states[i + 1] == Step(keys, concurrency, states[i], acts[i])
  }

  function IsRunning(): Status -> int {
    (s: Status) => if s.Running? then 1 else 0
  }

  // The invariant

  /** A queue holds its key's items not yet started, in claim order. */
  ghost predicate QueueOk(keys: seq<string>, items: seq<Status>, key: string, queue: seq<nat>)
    requires |keys| == |items|
  {
    && (forall a, b :: 0 <= a < b < |queue| ==> queue[a] < queue[b])
    && (forall i: nat :: i in queue <==> i < |keys| && keys[i] == key && items[i].Queued?)
  }

  ghost predicate Queues(keys: seq<string>, s: Sys) {
    && |s.items| == |keys|
    && (forall key :: key in s.batch.queues ==> QueueOk(keys, s.items, key, s.batch.queues[key]))
    && (forall i :: 0 <= i < |keys| ==> keys[i] in s.batch.queues)
    && (forall key :: key in s.batch.order <==> key in s.batch.queues)
  }

  /** One running item per key in use. */
  ghost predicate Flying(keys: seq<string>, s: Sys)
    requires |s.items| == |keys|
  {
    && s.batch.active == Sum(s.items, IsRunning())
    && (forall i :: 0 <= i < |keys| && s.items[i].Running? ==> keys[i] in s.batch.inUse)
    && (forall i, j :: 0 <= i < j < |keys| && s.items[i].Running? && s.items[j].Running? ==> keys[i] != keys[j])
    && forall key :: key in s.batch.inUse ==> Somewhere(keys, s.items, key, Running)
  }

  /** Some item of a key has this status. */
  ghost predicate Somewhere(keys: seq<string>, items: seq<Status>, key: string, status: Status)
    requires |items| == |keys|
  {
    exists i :: 0 <= i < |keys| && keys[i] == key && items[i] == status
  }

  /** An item that has started had every earlier item of its key done. */
  ghost predicate Chained(keys: seq<string>, s: Sys)
    requires |s.items| == |keys|
  {
    && (forall i, j :: 0 <= i < j < |keys| && keys[i] == keys[j] && !s.items[j].Queued? ==> s.items[i] == Ended(Done))
    && (forall i :: 0 <= i < |keys| && s.items[i].Ended? ==> EndOk(s.batch, keys[i], s.items[i].outcome))
    && (forall key :: key in s.batch.parked ==> Somewhere(keys, s.items, key, Ended(Failed)))
    && (s.batch.stopped ==> exists i :: 0 <= i < |keys| && StopsBatch(s.items[i]))
  }

  predicate EndOk(b: Batch, key: string, out: Outcome) {
    match out
    case Done => true
    case Failed => key in b.parked
    case Deferred(_) => b.stopped
    case Stopping => b.stopped
  }

  ghost predicate Inv(keys: seq<string>, concurrency: int, s: Sys) {
    && Queues(keys, s) && Flying(keys, s) && Chained(keys, s)
    && 0 <= s.batch.active <= concurrency
  }

  /** One more item of a key ends its queue; to any other key it changes nothing. */
  lemma EnqueueQueue(keys: seq<string>, key: string, queue: seq<nat>)
    requires keys != [] && QueueOk(keys[..|keys| - 1], seq(|keys| - 1, _ => Queued), key, queue)
    ensures var n := |keys| - 1;
            QueueOk(keys, seq(|keys|, _ => Queued), key, if keys[n] == key then queue + [n] else queue)
  {
    var n := |keys| - 1;
    forall i | 0 <= i < |queue| ensures queue[i] < n {
      assert queue[i] in queue;
    }
    assert forall i :: 0 <= i < n ==> keys[..n][i] == keys[i];
    assert forall i :: i in queue + [n] <==> i in queue || i == n;
  }

  /** The queues of a batch nothing of which has started. */
  ghost predicate AllQueued(keys: seq<string>, b: Batch) {
    && (forall key :: key in b.queues ==> QueueOk(keys, seq(|keys|, _ => Queued), key, b.queues[key]))
    && (forall i :: 0 <= i < |keys| ==> keys[i] in b.queues)
    && (forall key :: key in b.order <==> key in b.queues)
  }

  lemma {:induction false} LoadOk(keys: seq<string>)
    ensures AllQueued(keys, Load(keys))
    ensures var b := Load(keys); b.inUse == {} && b.parked == {} && !b.stopped && b.active == 0
  {
    if keys != [] {
      LoadOk(keys[..|keys| - 1]);
      EnqueueOk(keys, Load(keys[..|keys| - 1]));
    }
  }

  lemma EnqueueOk(keys: seq<string>, b: Batch)
    requires keys != [] && AllQueued(keys[..|keys| - 1], b)
    ensures AllQueued(keys, Enqueue(b, keys[|keys| - 1], |keys| - 1))
  {
    var n := |keys| - 1;
    var b' := Enqueue(b, keys[n], n);
    assert forall i :: 0 <= i < n ==> keys[..n][i] == keys[i] && keys[i] in b.queues;
    forall key | key in b'.queues ensures QueueOk(keys, seq(|keys|, _ => Queued), key, b'.queues[key]) {
      if key in b.queues {
        EnqueueQueue(keys, key, b.queues[key]);
      } else {
        EnqueueQueue(keys, key, []);
        assert [] + [n] == b'.queues[key];
      }
    }
  }

  lemma StartQueues(keys: seq<string>, concurrency: int, s: Sys)
    requires Queues(keys, s) && Enabled(keys, concurrency, s, StartNext)
    ensures var key := Pick(s.batch, concurrency).value;
            var item := s.batch.queues[key][0];
            && item < |keys| && keys[item] == key && s.items[item].Queued?
            && (forall i :: 0 <= i < item && keys[i] == key ==> !s.items[i].Queued?)
    ensures Queues(keys, Step(keys, concurrency, s, StartNext))
  {
    var key := Pick(s.batch, concurrency).value;
    var queue := s.batch.queues[key];
    var item := queue[0];
    assert QueueOk(keys, s.items, key, queue) && item in queue;
    var s' := Step(keys, concurrency, s, StartNext);
    forall k | k in s'.batch.queues ensures QueueOk(keys, s'.items, k, s'.batch.queues[k]) {
      assert QueueOk(keys, s.items, k, s.batch.queues[k]);
      if k == key {
        assert forall i :: i in queue[1..] <==> i in queue && i != item;
      }
    }
    forall i | 0 <= i < item && keys[i] == key ensures !s.items[i].Queued? {
      assert i in queue <==> s.items[i].Queued?;
    }
  }

  /** The item picked is the next of its key, and all those before it are done. */
  lemma EarlierDone(keys: seq<string>, concurrency: int, s: Sys)
    requires Inv(keys, concurrency, s) && Enabled(keys, concurrency, s, StartNext)
    ensures var key := Pick(s.batch, concurrency).value;
            var item := s.batch.queues[key][0];
            forall i :: 0 <= i < item && i < |keys| && keys[i] == key ==> s.items[i] == Ended(Done)
  {
    StartQueues(keys, concurrency, s);
    var key := Pick(s.batch, concurrency).value;
    forall i | 0 <= i < s.batch.queues[key][0] && keys[i] == key ensures s.items[i] == Ended(Done) {
      assert s.items[i].Ended? ==> EndOk(s.batch, keys[i], s.items[i].outcome);
    }
  }

  lemma StartFlying(keys: seq<string>, concurrency: int, s: Sys)
    requires Inv(keys, concurrency, s) && Enabled(keys, concurrency, s, StartNext)
    ensures Flying(keys, Step(keys, concurrency, s, StartNext))
  {
    StartQueues(keys, concurrency, s);
    var key := Pick(s.batch, concurrency).value;
    ItemFlies(keys, s, Started(s.batch, key), key, s.batch.queues[key][0]);
  }

  lemma ItemFlies(keys: seq<string>, s: Sys, batch: Batch, key: string, item: nat)
    requires |keys| == |s.items| && Flying(keys, s) && item < |keys| && keys[item] == key && s.items[item].Queued?
    requires key !in s.batch.inUse && batch.inUse == s.batch.inUse + {key} && batch.active == s.batch.active + 1
    ensures Flying(keys, Sys(batch, s.items[item := Running]))
  {
    SumUpdate(s.items, IsRunning(), item, Running);
    assert forall i :: 0 <= i < |keys| && s.items[i].Running? ==> keys[i] != key;
    forall k | k in batch.inUse ensures Somewhere(keys, s.items[item := Running], k, Running) {
      StillSomewhere(keys, s.items, item, Running, k, Running);
    }
  }

  /** A status is still somewhere after an item changed from another one, or to it. */
  lemma StillSomewhere(keys: seq<string>, items: seq<Status>, item: nat, status: Status, key: string, wanted: Status)
    requires |items| == |keys| && item < |items|
    requires || (keys[item] == key && status == wanted)
             || (Somewhere(keys, items, key, wanted) && (keys[item] != key || items[item] != wanted))
    ensures Somewhere(keys, items[item := status], key, wanted)
  {
    if keys[item] == key && status == wanted {
      assert items[item := status][item] == wanted;
    } else {
      var i :| 0 <= i < |keys| && keys[i] == key && items[i] == wanted;
      assert items[item := status][i] == wanted;
    }
  }

  lemma StartChained(keys: seq<string>, concurrency: int, s: Sys)
    requires Inv(keys, concurrency, s) && Enabled(keys, concurrency, s, StartNext)
    ensures Chained(keys, Step(keys, concurrency, s, StartNext))
  {
    StartQueues(keys, concurrency, s);
    EarlierDone(keys, concurrency, s);
    var item := s.batch.queues[Pick(s.batch, concurrency).value][0];
    var s' := Step(keys, concurrency, s, StartNext);
    assert s'.items == s.items[item := Running] && s'.batch.parked == s.batch.parked && !s'.batch.stopped;
    forall i | 0 <= i < |keys| && s'.items[i].Ended? ensures EndOk(s'.batch, keys[i], s'.items[i].outcome) {
      assert EndOk(s.batch, keys[i], s.items[i].outcome);
    }
    forall k | k in s.batch.parked ensures Somewhere(keys, s'.items, k, Ended(Failed)) {
      StillSomewhere(keys, s.items, item, Running, k, Ended(Failed));
    }
  }

  lemma StartKeeps(keys: seq<string>, concurrency: int, s: Sys)
    requires Inv(keys, concurrency, s) && Enabled(keys, concurrency, s, StartNext)
    ensures Inv(keys, concurrency, Step(keys, concurrency, s, StartNext))
  {
    StartQueues(keys, concurrency, s);
    StartFlying(keys, concurrency, s);
    StartChained(keys, concurrency, s);
  }

  /** Finishing an item counts it out, and it had been counted. */
  lemma FinishCounts(keys: seq<string>, concurrency: int, s: Sys, item: nat, out: Outcome)
    requires Inv(keys, concurrency, s) && Enabled(keys, concurrency, s, Finish(item, out))
    ensures s.batch.active > 0
    ensures Sum(s.items[item := Ended(out)], IsRunning()) == s.batch.active - 1
  {
    SumAtLeast(s.items, IsRunning());
    SumUpdate(s.items, IsRunning(), item, Ended(out));
  }

  lemma FinishFlying(keys: seq<string>, concurrency: int, s: Sys, item: nat, out: Outcome)
    requires Inv(keys, concurrency, s) && Enabled(keys, concurrency, s, Finish(item, out))
    ensures Flying(keys, Step(keys, concurrency, s, Finish(item, out)))
  {
    FinishCounts(keys, concurrency, s, item, out);
    var s' := Step(keys, concurrency, s, Finish(item, out));
    forall k | k in s'.batch.inUse ensures Somewhere(keys, s'.items, k, Running) {
      StillSomewhere(keys, s.items, item, Ended(out), k, Running);
    }
  }

  lemma FinishChained(keys: seq<string>, concurrency: int, s: Sys, item: nat, out: Outcome)
    requires Inv(keys, concurrency, s) && Enabled(keys, concurrency, s, Finish(item, out))
    ensures Chained(keys, Step(keys, concurrency, s, Finish(item, out)))
  {
    var s' := Step(keys, concurrency, s, Finish(item, out));
    forall i | 0 <= i < |keys| && s'.items[i].Ended? ensures EndOk(s'.batch, keys[i], s'.items[i].outcome) {
      if i != item { assert EndOk(s.batch, keys[i], s.items[i].outcome); }
    }
    forall k | k in s'.batch.parked ensures Somewhere(keys, s'.items, k, Ended(Failed)) {
      StillSomewhere(keys, s.items, item, Ended(out), k, Ended(Failed));
    }
    if s.batch.stopped {
      var i :| 0 <= i < |keys| && StopsBatch(s.items[i]);
      assert s'.items[i] == s.items[i];
    } else {
      assert s'.items[item] == Ended(out);
    }
  }

  lemma FinishKeeps(keys: seq<string>, concurrency: int, s: Sys, item: nat, out: Outcome)
    requires Inv(keys, concurrency, s) && Enabled(keys, concurrency, s, Finish(item, out))
    ensures Inv(keys, concurrency, Step(keys, concurrency, s, Finish(item, out)))
  {
    FinishCounts(keys, concurrency, s, item, out);
    FinishFlying(keys, concurrency, s, item, out);
    FinishChained(keys, concurrency, s, item, out);
    FinishQueues(keys, concurrency, s, item, out);
  }

  lemma FinishQueues(keys: seq<string>, concurrency: int, s: Sys, item: nat, out: Outcome)
    requires Queues(keys, s) && Enabled(keys, concurrency, s, Finish(item, out))
    ensures Queues(keys, Step(keys, concurrency, s, Finish(item, out)))
  {
    var s' := Step(keys, concurrency, s, Finish(item, out));
    forall k | k in s'.batch.queues ensures QueueOk(keys, s'.items, k, s'.batch.queues[k]) {
      assert QueueOk(keys, s.items, k, s.batch.queues[k]);
    }
  }

  lemma {:induction false} RunInv(keys: seq<string>, concurrency: int, states: seq<Sys>, acts: seq<Act>, n: nat)
    requires Run(keys, concurrency, states, acts) && n <= |acts| && concurrency > 0
    ensures Inv(keys, concurrency, states[n])
  {
    if n == 0 {
      LoadOk(keys);
      SumZero(states[0].items, IsRunning());
    } else {
      RunInv(keys, concurrency, states, acts, n - 1);
      match acts[n - 1] {
        case StartNext => StartKeeps(keys, concurrency, states[n - 1]);
        case Finish(item, out) => FinishKeeps(keys, concurrency, states[n - 1], item, out);
      }
    }
  }

  // Every run

  /** At most concurrency items run at once, never two of one key; and nothing has started before
      every earlier item of its key was done, so items of a key start in claim order and none starts
      after one that failed. */
  lemma DispatchKeepsOrder(keys: seq<string>, concurrency: int, states: seq<Sys>, acts: seq<Act>, n: nat)
    requires Run(keys, concurrency, states, acts) && n <= |acts| && concurrency > 0
    ensures Sum(states[n].items, IsRunning()) <= concurrency
    ensures forall i, j :: 0 <= i < j < |keys| && keys[i] == keys[j] && !states[n].items[j].Queued? ==>
              states[n].items[i] == Ended(Done)
    ensures forall i, j :: 0 <= i < j < |keys| && states[n].items[i].Running? && states[n].items[j].Running? ==>
              keys[i] != keys[j]
  {
    RunInv(keys, concurrency, states, acts, n);
  }

  /** Nothing starts once an item was deferred, or the run is ending. */
  lemma NothingAfterDeferral(keys: seq<string>, concurrency: int, states: seq<Sys>, acts: seq<Act>, n: nat, i: nat)
    requires Run(keys, concurrency, states, acts) && n < |acts| && concurrency > 0 && i < |keys|
    requires StopsBatch(states[n].items[i])
    ensures acts[n] != StartNext
  {
    RunInv(keys, concurrency, states, acts, n);
    assert EndOk(states[n].batch, keys[i], states[n].items[i].outcome);
  }

  function IsEnded(out: Outcome): Status -> int {
    (s: Status) => if s == Ended(out) then 1 else 0
  }

  function IsDeferred(): Status -> int {
    (s: Status) => if s.Ended? && s.outcome.Deferred? then 1 else 0
  }

  /** The summary counts the items by outcome, and its next eligible time is the soonest deferral. */
  ghost predicate SummaryOk(s: Sys) {
    var sum := s.batch.sum;
    && sum.processed == Sum(s.items, IsEnded(Done)) && sum.failed == Sum(s.items, IsEnded(Failed))
    && sum.deferred == Sum(s.items, IsDeferred())
    && (forall i :: 0 <= i < |s.items| && s.items[i].Ended? && s.items[i].outcome.Deferred? ==>
          sum.nextEligible.Some? && sum.nextEligible.value <= s.items[i].outcome.until)
    && (sum.nextEligible.Some? ==> Ended(Deferred(sum.nextEligible.value)) in s.items)
  }

  lemma FinishSummary(keys: seq<string>, concurrency: int, s: Sys, item: nat, out: Outcome)
    requires |keys| == |s.items| && Enabled(keys, concurrency, s, Finish(item, out)) && SummaryOk(s)
    ensures SummaryOk(Step(keys, concurrency, s, Finish(item, out)))
  {
    SumUpdate(s.items, IsEnded(Done), item, Ended(out));
    SumUpdate(s.items, IsEnded(Failed), item, Ended(out));
    SumUpdate(s.items, IsDeferred(), item, Ended(out));
    var items' := s.items[item := Ended(out)];
    assert items'[item] == Ended(out);
    forall st | st in s.items && st.Ended? ensures st in items' {
      var i :| 0 <= i < |s.items| && s.items[i] == st;
      assert items'[i] == st;
    }
  }

  lemma {:induction false} SummaryIsTrue(keys: seq<string>, concurrency: int, states: seq<Sys>, acts: seq<Act>, n: nat)
    requires Run(keys, concurrency, states, acts) && n <= |acts| && concurrency > 0
    ensures SummaryOk(states[n])
  {
    if n == 0 {
      LoadOk(keys);
      LoadSummary(keys);
      SumZero(states[0].items, IsEnded(Done));
      SumZero(states[0].items, IsEnded(Failed));
      SumZero(states[0].items, IsDeferred());
    } else {
      SummaryIsTrue(keys, concurrency, states, acts, n - 1);
      RunInv(keys, concurrency, states, acts, n - 1);
      match acts[n - 1] {
        case StartNext => StartSummary(keys, concurrency, states[n - 1]);
        case Finish(item, out) => FinishSummary(keys, concurrency, states[n - 1], item, out);
      }
    }
  }

  lemma StartSummary(keys: seq<string>, concurrency: int, s: Sys)
    requires Queues(keys, s) && Enabled(keys, concurrency, s, StartNext) && SummaryOk(s)
    ensures SummaryOk(Step(keys, concurrency, s, StartNext))
  {
    StartQueues(keys, concurrency, s);
    var item := s.batch.queues[Pick(s.batch, concurrency).value][0];
    SumUpdate(s.items, IsEnded(Done), item, Running);
    SumUpdate(s.items, IsEnded(Failed), item, Running);
    SumUpdate(s.items, IsDeferred(), item, Running);
    var items' := s.items[item := Running];
    forall st | st in s.items && st.Ended? ensures st in items' {
      var i :| 0 <= i < |s.items| && s.items[i] == st;
      assert items'[i] == st;
    }
  }

  lemma {:induction false} LoadSummary(keys: seq<string>)
    ensures Load(keys).sum == Summary(0, 0, 0, None)
  {
    if keys != [] { LoadSummary(keys[..|keys| - 1]); }
  }

  function Left(): Status -> int {
    (s: Status) => match s case Queued => 2 case Running => 1 case Ended(_) => 0
  }

  lemma {:induction false} LeftFalls(keys: seq<string>, concurrency: int, states: seq<Sys>, acts: seq<Act>, n: nat)
    requires Run(keys, concurrency, states, acts) && n <= |acts| && concurrency > 0
    ensures n + Sum(states[n].items, Left()) <= Sum(states[0].items, Left())
  {
    if n > 0 {
      LeftFalls(keys, concurrency, states, acts, n - 1);
      RunInv(keys, concurrency, states, acts, n - 1);
      var s := states[n - 1];
      match acts[n - 1] {
        case StartNext =>
          StartQueues(keys, concurrency, s);
          SumUpdate(s.items, Left(), s.batch.queues[Pick(s.batch, concurrency).value][0], Running);
        case Finish(item, out) => SumUpdate(s.items, Left(), item, Ended(out));
      }
    }
  }

  lemma {:induction false} LeftAtFirst(items: seq<Status>)
    requires forall i :: 0 <= i < |items| ==> items[i] == Queued
    ensures Sum(items, Left()) == 2 * |items|
  {
    if items != [] { LeftAtFirst(items[1..]); }
  }

  /** The dispatch loop ends, within two steps per item: it never waits with nothing running, and
      when it is left, which is with nothing to start and no item active, every item has ended, or a
      deferral or the end of the run stopped the batch, or the item waits behind a failure of its key. */
  lemma DispatchEnds(keys: seq<string>, concurrency: int, states: seq<Sys>, acts: seq<Act>)
    requires Run(keys, concurrency, states, acts) && concurrency > 0
    ensures |acts| <= 2 * |keys|
    ensures var s := states[|acts|];
            s.batch.active == 0 <==> forall i :: 0 <= i < |keys| ==> !s.items[i].Running?
    ensures var s := states[|acts|];
            Pick(s.batch, concurrency).None? && s.batch.active == 0 ==>
              forall j :: 0 <= j < |keys| && !s.items[j].Ended? ==>
                || (exists i :: 0 <= i < |keys| && StopsBatch(s.items[i]))
                || (exists i :: 0 <= i < j && keys[i] == keys[j] && s.items[i] == Ended(Failed))
  {
    RunInv(keys, concurrency, states, acts, |acts|);
    LeftFalls(keys, concurrency, states, acts, |acts|);
    LeftAtFirst(states[0].items);
    var s := states[|acts|];
    SumAtLeast(s.items, Left());
    SumZero(s.items, IsRunning());
    if Pick(s.batch, concurrency).None? && s.batch.active == 0 && !s.batch.stopped {
      forall j | 0 <= j < |keys| && !s.items[j].Ended?
        ensures exists i :: 0 <= i < j && keys[i] == keys[j] && s.items[i] == Ended(Failed)
      {
        WaitsBehindFailure(keys, concurrency, s, j);
      }
    }
  }

  lemma WaitsBehindFailure(keys: seq<string>, concurrency: int, s: Sys, j: nat)
    requires Inv(keys, concurrency, s) && concurrency > 0 && j < |keys| && s.items[j].Queued?
    requires FirstFree(s.batch, 0).None? && forall i :: 0 <= i < |keys| ==> !s.items[i].Running?
    ensures exists i :: 0 <= i < j && keys[i] == keys[j] && s.items[i] == Ended(Failed)
  {
    var key := keys[j];
    assert QueueOk(keys, s.items, key, s.batch.queues[key]) && j in s.batch.queues[key];
    var k :| 0 <= k < |s.batch.order| && s.batch.order[k] == key;
    assert !Free(s.batch, s.batch.order[k]);
    var i :| 0 <= i < |keys| && keys[i] == key && s.items[i] == Ended(Failed);
    if j <= i {
      assert false;
    }
  }
}
