/** dashboard/events.go: the newest events first, over a reader that only reads forwards. */
module BackwardsPaging {
  import opened EventLog
  import opened Numbers

  /** readRange's page size, and how many positions one request scans. */
  const MAX_EVENT_PAGE := 500
  const MAX_EVENT_SCAN := 100_000

  /** older is the before of the next page, or 0; scanned is the lowest position scanned when the
      page stopped short of its limit there. */
  datatype BackPage = BackPage(events: seq<Record>, head: nat, older: nat, scanned: nat)

  function Reverse<T>(s: seq<T>): (r: seq<T>)
    ensures |r| == |s|
    ensures forall i :: 0 <= i < |s| ==> r[i] == s[|s| - 1 - i]
  {
    if s == [] then [] else Reverse(s[1..]) + [s[0]]
  }

  /** The last position of the page before a position; 0 is the end of the log. */
  function End(before: nat, head: nat): nat {
    if 0 < before <= head then before - 1 else head
  }

  /** A page's events oldest first, and its marks. */
  datatype Found = Found(events: seq<Record>, older: nat, scanned: nat)

  /** Searching up to end in one pass, with no window: the newest limit matches, unless so many are
      not among the last positions that may be scanned. */
  function Search(log: seq<Record>, f: Filter, end: nat, limit: nat): Found
    requires limit > 0 && end <= |log|
  {
    var floor := Floor(end, Max(limit, MAX_EVENT_SCAN));
    var found := Between(log, f, floor, end);
    if |found| >= limit then Found(found[|found| - limit..], found[|found| - limit].position, 0)
    else if floor == 0 then Found(found, 0, 0)
    else Found(found, floor + 1, floor + 1)
  }

  /** Where a window that ends at end starts, exclusive. */
  function Floor(end: nat, window: nat): nat {
    if window < end then end - window else 0
  }

  /** The page as a function of the log. */
  function Newest(log: seq<Record>, f: Filter, before: nat, limit: nat): BackPage
    requires limit > 0
  {
    var found := Search(log, f, End(before, |log|), limit);
    BackPage(Reverse(found.events), |log|, found.older, found.scanned)
  }

  // The range read

  lemma BetweenAt(log: seq<Record>, f: Filter, lo: nat, hi: nat)
    requires Numbered(log) && hi <= |log|
    ensures forall i :: 0 <= i < |Between(log, f, lo, hi)| ==> lo < Between(log, f, lo, hi)[i].position <= hi
    ensures forall i, j :: 0 <= i < j < |Between(log, f, lo, hi)| ==>
              Between(log, f, lo, hi)[i].position < Between(log, f, lo, hi)[j].position
  {
    BetweenPositions(log, f, lo, hi);
    forall i | 0 <= i < |Between(log, f, lo, hi)| ensures lo < Between(log, f, lo, hi)[i].position <= hi {
      assert Between(log, f, lo, hi)[i] in Between(log, f, lo, hi);
    }
  }

  /** taken events of a page are those up to a position. */
  ghost predicate UpTo(page: seq<Record>, taken: nat, mid: nat) {
    && taken <= |page| && (forall i :: 0 <= i < taken ==> page[i].position <= mid)
    && (taken < |page| ==> page[taken].position > mid)
  }

  lemma BetweenUpTo(log: seq<Record>, f: Filter, lo: nat, mid: nat, hi: nat, taken: nat)
    requires Numbered(log) && lo <= mid <= hi <= |log| && UpTo(Between(log, f, lo, hi), taken, mid)
    ensures Between(log, f, lo, hi)[..taken] == Between(log, f, lo, mid)
    ensures Between(log, f, lo, hi)[taken..] == Between(log, f, mid, hi)
  {
    BetweenSplit(log, f, lo, mid, hi);
    BetweenAt(log, f, lo, mid);
    BetweenAt(log, f, mid, hi);
    var a, b, page := Between(log, f, lo, mid), Between(log, f, mid, hi), Between(log, f, lo, hi);
    assert forall i :: 0 <= i < |a| ==> page[i] == a[i];
    assert forall i :: 0 <= i < |b| ==> page[|a| + i] == b[i];
    assert b != [] ==> page[|a| + 0].position > mid;
    assert taken == |a|;
  }

  lemma ReadStep(log: seq<Record>, f: Filter, start: nat, after: nat, end: nat, page: Page, taken: nat)
    requires Numbered(log) && start <= after < end && IsPage(log, f, after, MAX_EVENT_PAGE, page)
    requires UpTo(page.events, taken, end)
    ensures var hi := Min(end, |log|);
            Between(log, f, start, Min(after, hi)) + page.events[..taken] == Between(log, f, start, Min(page.next, hi))
    ensures taken < |page.events| ==> page.next > end
  {
    if after <= page.next <= |log| {
      BetweenAt(log, f, after, page.next);
      var hi := Min(end, page.next);
      assert UpTo(page.events, taken, hi);
      BetweenUpTo(log, f, after, hi, page.next, taken);
      BetweenSplit(log, f, start, after, hi);
    }
  }

  /** Appends the events of a page up to a position; passed when one is past it. */
  method TakeUpTo(out: seq<Record>, events: seq<Record>, end: nat) returns (out': seq<Record>, passed: bool,
      ghost taken: nat)
    ensures UpTo(events, taken, end) && out' == out + events[..taken] && passed == (taken < |events|)
  {
    out', passed, taken := out, false, 0;
    for i := 0 to |events|
      invariant taken == i && !passed && out' == out + events[..i]
      invariant forall k :: 0 <= k < i ==> events[k].position <= end
    {
      if events[i].position > end {
        passed := true;
        return;
      }
      out' := out' + [events[i]];
      taken := i + 1;
    }
  }

  /** The matching events with a position in (start, end], oldest first. */
  method ReadRange(store: EventStore, f: Filter, start: nat, end: nat) returns (out: seq<Record>)
    requires store.Valid()
    ensures out == Between(store.global, f, start, Min(end, |store.global|))
  {
    out := [];
    var after := start;
    ghost var log := store.global;
    ghost var hi := Min(end, |log|);
    while after < end
      invariant start <= after
      invariant out == Between(log, f, start, Min(after, hi))
      decreases end - after
    {
      var page := store.ReadAll(after, MAX_EVENT_PAGE, f);
      var passed;
      ghost var taken;
      out, passed, taken := TakeUpTo(out, page.events, end);
      ReadStep(log, f, start, after, end, page, taken);
      if passed {
        return;
      }
      if page.atEnd || page.next <= after || page.next >= end {
        break;
      }
      after := page.next;
    }
  }

  // The search

  /** A window that holds enough gives the same newest matches as any wider one. */
  lemma WiderIsSame(log: seq<Record>, f: Filter, floor: nat, start: nat, end: nat, limit: nat)
    requires floor <= start <= end <= |log| && 0 < limit <= |Between(log, f, start, end)|
    ensures var a, b := Between(log, f, floor, end), Between(log, f, start, end);
            limit <= |a| && a[|a| - limit..] == b[|b| - limit..]
  {
    BetweenSplit(log, f, floor, start, end);
  }

  /** What a window shows once it is as wide as it gets, or holds limit matches, or the whole log. */
  lemma WindowIsSearch(log: seq<Record>, f: Filter, end: nat, limit: nat, window: nat)
    requires 0 < end <= |log| && 0 < limit <= window <= Max(limit, MAX_EVENT_SCAN)
    ensures var start := Floor(end, window);
            var found := Between(log, f, start, end);
            if |found| >= limit then
              Search(log, f, end, limit) == Found(found[|found| - limit..], found[|found| - limit].position, 0)
            else if start == 0 then Search(log, f, end, limit) == Found(found, 0, 0)
            else end - start >= MAX_EVENT_SCAN ==> Search(log, f, end, limit) == Found(found, start + 1, start + 1)
  {
    var start := Floor(end, window);
    var floor := Floor(end, Max(limit, MAX_EVENT_SCAN));
    if |Between(log, f, start, end)| >= limit {
      WiderIsSame(log, f, floor, start, end, limit);
    }
  }

  /** The loop: the window widens until it holds limit matches, reaches the start of the log or has
      scanned MAX_EVENT_SCAN positions. */
  method WidenWindow(store: EventStore, f: Filter, end: nat, limit: nat) returns (found: Found)
    requires store.Valid() && 0 < end <= |store.global| && limit > 0
    ensures found == Search(store.global, f, end, limit)
  {
    var window := limit;
    while true
      invariant limit <= window <= Max(limit, MAX_EVENT_SCAN)
      decreases Max(limit, MAX_EVENT_SCAN) - window
    {
      var start := 0;
      if window < end {
        start := end - window;
      }
      var events := ReadRange(store, f, start, end);
      WindowIsSearch(store.global, f, end, limit, window);
      if |events| >= limit {
        events := events[|events| - limit..];
        return Found(events, events[0].position, 0);
      } else if start == 0 {
        return Found(events, 0, 0);
      } else if end - start >= MAX_EVENT_SCAN {
        return Found(events, start + 1, start + 1);
      }
      window := if window * 4 < MAX_EVENT_SCAN then window * 4 else MAX_EVENT_SCAN;
    }
  }

  method ReadBackwards(store: EventStore, before: nat, limit: nat, f: Filter) returns (page: BackPage)
    requires store.Valid() && limit > 0
    ensures page == Newest(store.global, f, before, limit)
  {
    var head := store.Head();
    var end := head;
    if before > 0 && before - 1 < head {
      end := before - 1;
    }
    if end == 0 {
      return BackPage([], head, 0, 0);
    }
    var found := WidenWindow(store, f, end, limit);
    var events: seq<Record> := [];
    var i := |found.events|;
    while i > 0
      invariant 0 <= i <= |found.events| && events == Reverse(found.events)[..|found.events| - i]
    {
      i := i - 1;
      events := events + [found.events[i]];
    }
    assert events == Reverse(found.events);
    page := BackPage(events, head, found.older, found.scanned);
  }

  // Following Older

  lemma ReverseSplit<T>(a: seq<T>, b: seq<T>)
    ensures Reverse(a + b) == Reverse(b) + Reverse(a)
  {}

  lemma SearchHolds(log: seq<Record>, f: Filter, end: nat, limit: nat)
    requires Numbered(log) && limit > 0 && end <= |log|
    ensures var found := Search(log, f, end, limit);
            && (found.older > 0 ==> found.older <= end)
            && found.events == Between(log, f, if found.older == 0 then 0 else found.older - 1, end)
  {
    var floor := Floor(end, Max(limit, MAX_EVENT_SCAN));
    var all := Between(log, f, floor, end);
    BetweenAt(log, f, floor, end);
    if |all| >= limit {
      var k := |all| - limit;
      assert all[k].position > 0;
      BetweenUpTo(log, f, floor, all[k].position - 1, end, k);
    }
  }

  /** What a page holds: every match from older up to its end, newest first, and never more than
      limit; it stops short of limit only at the start of the log, or after scanning its share. */
  lemma PageHolds(log: seq<Record>, f: Filter, before: nat, limit: nat)
    requires Numbered(log) && limit > 0
    ensures var page, end := Newest(log, f, before, limit), End(before, |log|);
            && (page.older > 0 ==> page.older <= end)
            && page.events == Reverse(Between(log, f, if page.older == 0 then 0 else page.older - 1, end))
            && |page.events| <= limit
            && (|page.events| < limit ==> page.older == page.scanned)
            && (|page.events| < limit && page.older > 0 ==> end - (page.older - 1) >= MAX_EVENT_SCAN)
  {
    SearchHolds(log, f, End(before, |log|), limit);
  }

  /** Pages asked for one after another, each before the older of the last; the log may grow. */
  ghost predicate Paging(f: Filter, logs: seq<seq<Record>>, limits: seq<nat>, pages: seq<BackPage>) {
    && |logs| == |limits| == |pages| > 0
    && (forall i :: 0 <= i < |pages| ==> Numbered(logs[i]) && limits[i] > 0)
    && (forall i :: 0 <= i < |pages| - 1 ==> logs[i] <= logs[i + 1] && pages[i].older > 0)
    && pages[0] == Newest(logs[0], f, 0, limits[0])
    && forall i :: 0 < i < |pages| ==> pages[i] == Newest(logs[i], f, pages[i - 1].older, limits[i])
  }

  function Shown(pages: seq<BackPage>): seq<Record> {
    if pages == [] then [] else Shown(pages[..|pages| - 1]) + pages[|pages| - 1].events
  }

  lemma GrownBetween(log: seq<Record>, log': seq<Record>, f: Filter, lo: nat, hi: nat)
    requires log <= log' && hi <= |log|
    ensures Between(log', f, lo, hi) == Between(log, f, lo, hi)
  {
    assert log' == log + log'[|log|..];
    BetweenAppend(log, log'[|log|..], f, lo, hi);
  }

  /** The matches a page that ends at older adds to those already shown. */
  lemma NextPage(f: Filter, first: seq<Record>, log: seq<Record>, before: nat, limit: nat)
    requires Numbered(log) && limit > 0 && first <= log && 0 < before <= |first|
    ensures var page := Newest(log, f, before, limit);
            var lo := if page.older == 0 then 0 else page.older - 1;
            && page.older < before
            && Reverse(Between(first, f, before - 1, |first|)) + page.events == Reverse(Between(first, f, lo, |first|))
  {
    PageHolds(log, f, before, limit);
    var page := Newest(log, f, before, limit);
    var lo := if page.older == 0 then 0 else page.older - 1;
    GrownBetween(first, log, f, lo, before - 1);
    BetweenSplit(first, f, lo, before - 1, |first|);
    ReverseSplit(Between(first, f, lo, before - 1), Between(first, f, before - 1, |first|));
  }

  /** Following Older shows, newest first and once each, exactly the matches of the log as it was at
      the first page, from older up; when older is 0 that is all of them. older falls with every
      page, so it gets to 0. */
  lemma {:induction false} FollowingOlderShowsAll(
    f: Filter, logs: seq<seq<Record>>, limits: seq<nat>, pages: seq<BackPage>, n: nat)
    requires Paging(f, logs, limits, pages) && n < |pages|
    ensures var older := pages[n].older;
            && older <= |logs[0]| && logs[0] <= logs[n]
            && Shown(pages[..n + 1]) == Reverse(Between(logs[0], f, if older == 0 then 0 else older - 1, |logs[0]|))
    ensures n > 0 ==> pages[n].older < pages[n - 1].older
  {
    assert pages[..n + 1][..n] == pages[..n];
    var log := logs[0];
    if n == 0 {
      PageHolds(log, f, 0, limits[0]);
      assert pages[..1] == [pages[0]] && Shown(pages[..0]) == [];
    } else {
      FollowingOlderShowsAll(f, logs, limits, pages, n - 1);
      assert logs[n - 1] <= logs[n];
      NextPage(f, log, logs[n], pages[n - 1].older, limits[n]);
    }
  }
}
