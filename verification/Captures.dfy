/**
 The webhook capture log: retention by pruning, and the polling cursor.
 Captures are committed in id order, so the table is kept as the sequence of
 its rows by ascending id.
 */
module Captures {
  import opened Common

  /** `payload` stands for the recorded request; nothing here looks inside it. */
  datatype Capture = Capture(id: nat, endpoint: Id, payload: nat)

  ghost predicate Rising(log: seq<Capture>) {
    forall i, j :: 0 <= i < j < |log| ==> log[i].id < log[j].id
  }

  /** The rows a WHERE clause lets through, in order. */
  function Filter(rows: seq<Capture>, where: Capture -> bool): seq<Capture> {
    if rows == [] then []
    else Filter(rows[..|rows| - 1], where) + if where(rows[|rows| - 1]) then [rows[|rows| - 1]] else []
  }

  function OfEndpoint(e: Id): Capture -> bool {
    (row: Capture) => row.endpoint == e
  }

  function IdFrom(bound: nat): Capture -> bool {
    (row: Capture) => row.id >= bound
  }

  /** The rows of one endpoint, by ascending id. */
  function Of(log: seq<Capture>, e: Id): seq<Capture> {
    Filter(log, OfEndpoint(e))
  }

  /** Rows with id at or above a bound. */
  function From(rows: seq<Capture>, bound: nat): seq<Capture> {
    Filter(rows, IdFrom(bound))
  }

  /** The subquery of the prune: the id at `offset` in descending order, or NULL. */
  function Cutoff(log: seq<Capture>, e: Id, offset: nat): Option<nat> {
    var own := Of(log, e);
    if offset < |own| then Some(own[|own| - 1 - offset].id) else None
  }

  function Spared(e: Id, cutoff: Option<nat>): Capture -> bool {
    (row: Capture) => row.endpoint != e || cutoff.None? || row.id >= cutoff.value
  }

  /** `PruneWebhookCaptures`. */
  function Prune(log: seq<Capture>, e: Id, offset: nat): seq<Capture> {
    Filter(log, Spared(e, Cutoff(log, e, offset)))
  }

  function NotOf(e: Id): Capture -> bool {
    (row: Capture) => row.endpoint != e
  }

  /** `DeleteWebhookCaptures`, and the cascade from a deleted endpoint. */
  function Clear(log: seq<Capture>, e: Id): seq<Capture> {
    Filter(log, NotOf(e))
  }

  class CaptureStore {
    var log: seq<Capture>
    var next: nat

    constructor ()
      ensures log == [] && next == 1
    {
      log, next := [], 1;
    }

    /** Deletes row by row what lies below the cutoff. */
    method PruneCaptures(e: Id, offset: nat)
      modifies this`log
      ensures log == Prune(old(log), e, offset)
    {
      var cutoff := Cutoff(log, e, offset);
      var kept: seq<Capture> := [];
      for i := 0 to |log|
        invariant log == old(log) && kept == Filter(log[..i], Spared(e, cutoff))
      {
        assert log[..i + 1][..i] == log[..i];
        if Spared(e, cutoff)(log[i]) {
          kept := kept + [log[i]];
        }
      }
      assert log[..|log|] == log;
      log := kept;
    }

    /** `CaptureWebhook`: insert, then keep the newest `keep` of the endpoint. */
    method CaptureWebhook(e: Id, payload: nat, keep: nat) returns (id: nat)
      requires keep >= 1
      modifies this
      ensures id == old(next) && next == old(next) + 1
      ensures log == Prune(old(log) + [Capture(id, e, payload)], e, keep - 1)
    {
      id := next;
      next := next + 1;
      log := log + [Capture(id, e, payload)];
      PruneCaptures(e, keep - 1);
    }
  }

  // -------------------------------------------------------------- retention

  function LastN(s: seq<Capture>, n: nat): seq<Capture> {
    if |s| <= n then s else s[|s| - n..]
  }

  /** A selection holds exactly the rows that pass, still in id order. */
  lemma {:induction false} FilterFacts(rows: seq<Capture>, where: Capture -> bool)
    requires Rising(rows)
    ensures Rising(Filter(rows, where))
    ensures forall x :: x in Filter(rows, where) <==> x in rows && where(x)
  {
    if rows != [] {
      var init, last := rows[..|rows| - 1], rows[|rows| - 1];
      FilterFacts(init, where);
      var kept := Filter(init, where);
      forall i | 0 <= i < |kept| ensures kept[i].id < last.id {
        assert kept[i] in kept && kept[i] in init;
        var k :| 0 <= k < |init| && init[k] == kept[i];
        assert rows[k].id < rows[|rows| - 1].id;
      }
      assert forall x :: x in rows <==> x in init || x == last;
    }
  }

  lemma FilterAppend(rows: seq<Capture>, x: Capture, where: Capture -> bool)
    ensures Filter(rows + [x], where) == Filter(rows, where) + if where(x) then [x] else []
  {
    assert (rows + [x])[..|rows|] == rows;
  }

  /** Two selections in a row are one. */
  lemma {:induction false} FilterTwice(
    rows: seq<Capture>, first: Capture -> bool, second: Capture -> bool, both: Capture -> bool)
    requires forall x :: both(x) <==> first(x) && second(x)
    ensures Filter(Filter(rows, first), second) == Filter(rows, both)
  {
    if rows != [] {
      var init, last := rows[..|rows| - 1], rows[|rows| - 1];
      FilterTwice(init, first, second, both);
      if first(last) {
        FilterAppend(Filter(init, first), last, second);
      } else {
        assert Filter(rows, first) == Filter(init, first);
      }
    }
  }

  lemma {:induction false} FilterAll(rows: seq<Capture>, where: Capture -> bool)
    requires forall i :: 0 <= i < |rows| ==> where(rows[i])
    ensures Filter(rows, where) == rows
  {
    if rows != [] {
      FilterAll(rows[..|rows| - 1], where);
      assert rows == rows[..|rows| - 1] + [rows[|rows| - 1]];
    }
  }

  lemma {:induction false} FilterNone(rows: seq<Capture>, where: Capture -> bool)
    requires forall i :: 0 <= i < |rows| ==> !where(rows[i])
    ensures Filter(rows, where) == []
  {
    if rows != [] {
      FilterNone(rows[..|rows| - 1], where);
    }
  }

  /** In id order, the rows from a given row's id on are the suffix that starts with it. */
  lemma {:induction false} FromIsSuffix(rows: seq<Capture>, m: nat)
    requires Rising(rows) && m < |rows|
    ensures From(rows, rows[m].id) == rows[m..]
    decreases |rows|
  {
    var init, last := rows[..|rows| - 1], rows[|rows| - 1];
    if m == |rows| - 1 {
      FilterNone(init, IdFrom(last.id));
    } else {
      FromIsSuffix(init, m);
      assert rows[m].id < last.id;
      assert rows[m..] == init[m..] + [last];
    }
  }

  lemma SparedOf(log: seq<Capture>, e: Id, cutoff: Option<nat>, other: Id)
    ensures Of(Filter(log, Spared(e, cutoff)), other) ==
            if other == e && cutoff.Some? then From(Of(log, e), cutoff.value) else Of(log, other)
  {
    if other == e && cutoff.Some? {
      var both := (row: Capture) => row.endpoint == e && row.id >= cutoff.value;
      FilterTwice(log, Spared(e, cutoff), OfEndpoint(e), both);
      FilterTwice(log, OfEndpoint(e), IdFrom(cutoff.value), both);
    } else {
      FilterTwice(log, Spared(e, cutoff), OfEndpoint(other), OfEndpoint(other));
    }
  }

  lemma ClearOf(log: seq<Capture>, e: Id, other: Id)
    ensures Of(Clear(log, e), other) == if other == e then [] else Of(log, other)
  {
    if other == e {
      var never := (row: Capture) => false;
      FilterTwice(log, NotOf(e), OfEndpoint(e), never);
      FilterNone(log, never);
    } else {
      FilterTwice(log, NotOf(e), OfEndpoint(other), OfEndpoint(other));
    }
  }

  /** Pruning leaves an endpoint its newest rows and every other endpoint all of its own. */
  lemma PruneKeepsNewest(log: seq<Capture>, e: Id, keep: nat, other: Id)
    requires Rising(log) && keep >= 1
    ensures Of(Prune(log, e, keep - 1), other) == if other == e then LastN(Of(log, e), keep) else Of(log, other)
  {
    var cutoff := Cutoff(log, e, keep - 1);
    SparedOf(log, e, cutoff, other);
    if other == e && cutoff.Some? {
      FilterFacts(log, OfEndpoint(e));
      FromIsSuffix(Of(log, e), |Of(log, e)| - keep);
    }
  }

  /** Everything that changes the log. `Lost` is an insert that rolled back: it uses up an id and leaves no row. */
  datatype Event =
    | Arrive(endpoint: Id, payload: nat)
    | Wipe(endpoint: Id)
    | Lost

  /** The sequence's next value. */
  function NextId(events: seq<Event>): nat {
    if events == [] then 1
    else NextId(events[..|events| - 1]) + if events[|events| - 1].Wipe? then 0 else 1
  }

  function Log(events: seq<Event>, keep: nat): seq<Capture>
    requires keep >= 1
  {
    if events == [] then []
    else
      var before := events[..|events| - 1];
      match events[|events| - 1]
      case Arrive(e, payload) => Prune(Log(before, keep) + [Capture(NextId(before), e, payload)], e, keep - 1)
      case Wipe(e) => Clear(Log(before, keep), e)
      case Lost => Log(before, keep)
  }

  /** All captures of an endpoint since it was last cleared. */
  function Since(events: seq<Event>, e: Id): seq<Capture> {
    if events == [] then []
    else
      var before := events[..|events| - 1];
      match events[|events| - 1]
      case Arrive(e', payload) => Since(before, e) + if e' == e then [Capture(NextId(before), e, payload)] else []
      case Wipe(e') => if e' == e then [] else Since(before, e)
      case Lost => Since(before, e)
  }

  ghost predicate LogOk(log: seq<Capture>, next: nat) {
    Rising(log) && forall x :: x in log ==> 1 <= x.id < next
  }

  lemma ArriveOk(log: seq<Capture>, next: nat, e: Id, payload: nat, keep: nat)
    requires LogOk(log, next) && keep >= 1 && next >= 1
    ensures Rising(log + [Capture(next, e, payload)])
    ensures LogOk(Prune(log + [Capture(next, e, payload)], e, keep - 1), next + 1)
  {
    var longer := log + [Capture(next, e, payload)];
    assert forall i :: 0 <= i < |log| ==> log[i] in log;
    FilterFacts(longer, Spared(e, Cutoff(longer, e, keep - 1)));
  }

  lemma {:induction false} LogStaysOk(events: seq<Event>, keep: nat)
    requires keep >= 1
    ensures LogOk(Log(events, keep), NextId(events)) && NextId(events) >= 1
  {
    if events != [] {
      var before := events[..|events| - 1];
      LogStaysOk(before, keep);
      match events[|events| - 1]
      case Arrive(e, payload) => ArriveOk(Log(before, keep), NextId(before), e, payload, keep);
      case Wipe(e) => FilterFacts(Log(before, keep), NotOf(e));
      case Lost =>
    }
  }

  lemma LastNAgain(s: seq<Capture>, x: Capture, n: nat)
    requires n >= 1
    ensures LastN(LastN(s, n) + [x], n) == LastN(s + [x], n)
  {
  }

  /**
   After any sequence of captures and clears over many endpoints, each holds
   exactly the newest `keep` since its last clear.
   */
  lemma {:induction false} RetentionExact(events: seq<Event>, keep: nat, e: Id)
    requires keep >= 1
    ensures Of(Log(events, keep), e) == LastN(Since(events, e), keep)
  {
    if events != [] {
      var before := events[..|events| - 1];
      RetentionExact(before, keep, e);
      LogStaysOk(before, keep);
      var log := Log(before, keep);
      match events[|events| - 1]
      case Arrive(e', payload) =>
        var x := Capture(NextId(before), e', payload);
        ArriveOk(log, NextId(before), e', payload, keep);
        PruneKeepsNewest(log + [x], e', keep, e);
        FilterAppend(log, x, OfEndpoint(e));
        if e' == e {
          LastNAgain(Since(before, e), x, keep);
        } else {
          assert Since(before, e) + [] == Since(before, e);
          assert Of(log, e) + [] == Of(log, e);
        }
      case Wipe(e') => ClearOf(log, e', e);
      case Lost =>
    }
  }

  // --------------------------------------------------------- polling cursor

  /** `ListWebhookCapturesAfter`: rows of the endpoint past the cursor, oldest first, at most `limit`. */
  function Page(log: seq<Capture>, e: Id, after: nat, limit: nat): seq<Capture> {
    var rows := From(Of(log, e), after + 1);
    if |rows| <= limit then rows else rows[..limit]
  }

  /**
   One endpoint and one client that polls with the last id it saw. `captured`
   is every capture of the endpoint so far; `missed` are those deleted while
   they were still ahead of the cursor.
   */
  datatype Poller = Poller(
    log: seq<Capture>, next: nat, cursor: nat, received: seq<Capture>, captured: set<Capture>, missed: set<Capture>)

  datatype Action =
    | Change(event: Event)
    | Poll(limit: nat)

  /** Stored rows of the endpoint the client has not been given yet. */
  function Waiting(log: seq<Capture>, e: Id, cursor: nat): set<Capture> {
    set x | x in log && x.endpoint == e && x.id > cursor
  }

  /** The table becomes `log`; what was waiting and is gone now is missed. */
  function Replace(p: Poller, log: seq<Capture>, e: Id): Poller {
    p.(log := log, missed := p.missed + (Waiting(p.log, e, p.cursor) - Waiting(log, e, p.cursor)))
  }

  function Insert(p: Poller, x: Capture, e: Id): Poller {
    p.(log := p.log + [x], next := p.next + 1, captured := p.captured + if x.endpoint == e then {x} else {})
  }

  function Act(p: Poller, a: Action, e: Id, keep: nat): Poller
    requires keep >= 1
  {
    match a
    case Poll(limit) =>
      var page := Page(p.log, e, p.cursor, limit);
      p.(received := p.received + page, cursor := if page == [] then p.cursor else page[|page| - 1].id)
    case Change(Lost) => p.(next := p.next + 1)
    case Change(Wipe(e')) => Replace(p, Clear(p.log, e'), e)
    case Change(Arrive(e', payload)) =>
      var grown := Insert(p, Capture(p.next, e', payload), e);
      Replace(grown, Prune(grown.log, e', keep - 1), e)
  }

  function Watch(actions: seq<Action>, e: Id, keep: nat): Poller
    requires keep >= 1
  {
    if actions == [] then Poller([], 1, 0, [], {}, {})
    else Act(Watch(actions[..|actions| - 1], e, keep), actions[|actions| - 1], e, keep)
  }

  /** The rows past the cursor, in order, are exactly the waiting ones. */
  lemma PastCursor(log: seq<Capture>, e: Id, cursor: nat)
    requires Rising(log)
    ensures Rising(From(Of(log, e), cursor + 1))
    ensures Elements(From(Of(log, e), cursor + 1)) == Waiting(log, e, cursor)
  {
    FilterFacts(log, OfEndpoint(e));
    FilterFacts(Of(log, e), IdFrom(cursor + 1));
  }

  ghost predicate TakesOldest(rows: set<Capture>, page: seq<Capture>, cursor: nat, limit: nat) {
    var end := if page == [] then cursor else page[|page| - 1].id;
    && Rising(page) && cursor <= end && Elements(page) <= rows
    && (forall x :: x in Elements(page) ==> x.id <= end)
    && (forall x :: x in rows - Elements(page) ==> |page| == limit && (page != [] ==> x.id > end))
  }

  lemma BehindThePrefix(rows: seq<Capture>, n: nat, x: Capture)
    requires Rising(rows) && n <= |rows| && x in Elements(rows) && x !in Elements(rows[..n])
    ensures n < |rows| && (n > 0 ==> x.id > rows[n - 1].id)
  {
    var page := rows[..n];
    var k :| 0 <= k < |rows| && rows[k] == x;
    assert forall i :: 0 <= i < n ==> page[i] in Elements(page) && rows[i] == page[i];
  }

  lemma PrefixTakesOldest(rows: seq<Capture>, n: nat, cursor: nat, limit: nat)
    requires Rising(rows) && (forall i :: 0 <= i < |rows| ==> rows[i].id > cursor)
    requires n <= |rows| && (n < |rows| ==> n == limit)
    ensures TakesOldest(Elements(rows), rows[..n], cursor, limit)
  {
    var page := rows[..n];
    forall x | x in Elements(rows) - Elements(page)
      ensures |page| == limit && (page != [] ==> x.id > page[|page| - 1].id)
    {
      BehindThePrefix(rows, n, x);
    }
  }

  /** A page takes the oldest waiting rows: none older is left behind it, and none at all if it is short. */
  lemma PageFacts(log: seq<Capture>, e: Id, cursor: nat, limit: nat)
    requires Rising(log)
    ensures TakesOldest(Waiting(log, e, cursor), Page(log, e, cursor, limit), cursor, limit)
    ensures |Page(log, e, cursor, limit)| <= limit
  {
    PastCursor(log, e, cursor);
    var rows := From(Of(log, e), cursor + 1);
    assert forall i :: 0 <= i < |rows| ==> rows[i] in Elements(rows);
    var n := if |rows| <= limit then |rows| else limit;
    PrefixTakesOldest(rows, n, cursor, limit);
    assert Page(log, e, cursor, limit) == rows[..n];
  }

  /** Nothing is given twice or skipped: each capture is received, missed or still waiting. */
  ghost predicate PollerOk(p: Poller, e: Id) {
    && p.next >= 1 && p.cursor < p.next && LogOk(p.log, p.next)
    && (forall x :: x in p.captured ==> x.endpoint == e && 1 <= x.id < p.next)
    && (forall x :: x in p.captured ==> x in Elements(p.received) || x in p.missed || x in Waiting(p.log, e, p.cursor))
    && Waiting(p.log, e, p.cursor) <= p.captured
    && Rising(p.received) && (forall i :: 0 <= i < |p.received| ==> p.received[i].id <= p.cursor)
    && Elements(p.received) <= p.captured
    && p.missed <= p.captured && p.missed !! Elements(p.received) && p.missed !! Waiting(p.log, e, p.cursor)
  }

  lemma JoinRising(a: seq<Capture>, b: seq<Capture>, bound: nat)
    requires Rising(a) && Rising(b)
    requires forall i :: 0 <= i < |a| ==> a[i].id <= bound
    requires forall i :: 0 <= i < |b| ==> b[i].id > bound
    ensures Rising(a + b) && Elements(a + b) == Elements(a) + Elements(b)
  {
  }

  /** A non-empty page moves the cursor over exactly its own rows. */
  lemma PageMovesRows(log: seq<Capture>, e: Id, cursor: nat, limit: nat, page: seq<Capture>)
    requires page != [] && TakesOldest(Waiting(log, e, cursor), page, cursor, limit)
    ensures var end := page[|page| - 1].id;
            && end > cursor
            && Waiting(log, e, cursor) == Elements(page) + Waiting(log, e, end)
            && Elements(page) !! Waiting(log, e, end)
  {
    var end := page[|page| - 1].id;
    assert page[|page| - 1] in Elements(page);
    forall x ensures x in Waiting(log, e, cursor) <==> x in Elements(page) || x in Waiting(log, e, end) {
      if x in Waiting(log, e, cursor) && x !in Elements(page) {
        assert x in Waiting(log, e, cursor) - Elements(page);
      }
    }
  }

  lemma DeliverKeeps(p: Poller, page: seq<Capture>, e: Id, limit: nat)
    requires PollerOk(p, e) && page != [] && TakesOldest(Waiting(p.log, e, p.cursor), page, p.cursor, limit)
    ensures PollerOk(p.(received := p.received + page, cursor := page[|page| - 1].id), e)
  {
    PageMovesRows(p.log, e, p.cursor, limit, page);
    assert forall i :: 0 <= i < |page| ==> page[i] in Elements(page);
    JoinRising(p.received, page, p.cursor);
  }

  lemma PollKeeps(p: Poller, limit: nat, e: Id, keep: nat)
    requires PollerOk(p, e) && keep >= 1
    ensures PollerOk(Act(p, Poll(limit), e, keep), e)
  {
    var page := Page(p.log, e, p.cursor, limit);
    PageFacts(p.log, e, p.cursor, limit);
    if page == [] {
      assert p.received + page == p.received;
    } else {
      DeliverKeeps(p, page, e, limit);
    }
  }

  lemma ReplaceKeeps(p: Poller, log: seq<Capture>, e: Id)
    requires PollerOk(p, e) && LogOk(log, p.next) && Waiting(log, e, p.cursor) <= Waiting(p.log, e, p.cursor)
    ensures PollerOk(Replace(p, log, e), e)
  {
    var before, after := Waiting(p.log, e, p.cursor), Waiting(log, e, p.cursor);
    assert forall x :: x in Elements(p.received) ==> x.id <= p.cursor && x !in before;
  }

  lemma InsertKeeps(p: Poller, x: Capture, e: Id)
    requires PollerOk(p, e) && x.id == p.next
    ensures PollerOk(Insert(p, x, e), e)
  {
    var p' := Insert(p, x, e);
    assert forall i :: 0 <= i < |p.log| ==> p.log[i] in p.log;
    assert Waiting(p'.log, e, p.cursor) == Waiting(p.log, e, p.cursor) + if x.endpoint == e then {x} else {};
    assert x !in p.captured;
  }

  lemma ChangeKeeps(p: Poller, event: Event, e: Id, keep: nat)
    requires PollerOk(p, e) && keep >= 1
    ensures PollerOk(Act(p, Change(event), e, keep), e)
  {
    match event
    case Lost =>
    case Wipe(e') =>
      FilterFacts(p.log, NotOf(e'));
      ReplaceKeeps(p, Clear(p.log, e'), e);
    case Arrive(e', payload) =>
      var grown := Insert(p, Capture(p.next, e', payload), e);
      InsertKeeps(p, Capture(p.next, e', payload), e);
      FilterFacts(grown.log, Spared(e', Cutoff(grown.log, e', keep - 1)));
      ReplaceKeeps(grown, Prune(grown.log, e', keep - 1), e);
  }

  lemma {:induction false} WatchKeeps(actions: seq<Action>, e: Id, keep: nat)
    requires keep >= 1
    ensures PollerOk(Watch(actions, e, keep), e)
  {
    if actions != [] {
      var before := actions[..|actions| - 1];
      WatchKeeps(before, e, keep);
      match actions[|actions| - 1]
      case Poll(limit) => PollKeeps(Watch(before, e, keep), limit, e, keep);
      case Change(event) => ChangeKeeps(Watch(before, e, keep), event, e, keep);
    }
  }

  // ---------------------------------- what the client gets, read on the events

  /** The changes among the actions, in order. */
  function Events(actions: seq<Action>): seq<Event> {
    if actions == [] then []
    else
      var last := actions[|actions| - 1];
      Events(actions[..|actions| - 1]) + if last.Change? then [last.event] else []
  }

  /** All captures of an endpoint ever. */
  function AllOf(events: seq<Event>, e: Id): seq<Capture> {
    if events == [] then []
    else
      var before, last := events[..|events| - 1], events[|events| - 1];
      AllOf(before, e) +
      if last.Arrive? && last.endpoint == e then [Capture(NextId(before), e, last.payload)] else []
  }

  /** The client watches the log of the retention results: polls do not change it. */
  lemma {:induction false} WatchesTheLog(actions: seq<Action>, e: Id, keep: nat)
    requires keep >= 1
    ensures var p := Watch(actions, e, keep);
            && p.log == Log(Events(actions), keep) && p.next == NextId(Events(actions))
            && p.captured == Elements(AllOf(Events(actions), e))
  {
    if actions != [] {
      var before := actions[..|actions| - 1];
      WatchesTheLog(before, e, keep);
      match actions[|actions| - 1]
      case Poll(_) => assert Events(before) + [] == Events(before);
      case Change(event) =>
        var events := Events(before) + [event];
        assert events[..|events| - 1] == Events(before);
        assert Elements(AllOf(events, e)) == Elements(AllOf(Events(before), e)) +
               if event.Arrive? && event.endpoint == e then {Capture(NextId(Events(before)), e, event.payload)} else {};
    }
  }

  /**
   After the first n actions a capture that had arrived and was still ahead of
   the cursor was no longer kept: cleared since, or `keep` newer ones of its
   endpoint had arrived.
   */
  ghost predicate DroppedAhead(actions: seq<Action>, e: Id, keep: nat, x: Capture, n: nat)
    requires keep >= 1
  {
    n <= |actions| &&
    var events := Events(actions[..n]);
    && x in AllOf(events, e) && x !in LastN(Since(events, e), keep)
    && Watch(actions[..n], e, keep).cursor < x.id
  }

  ghost predicate Dropped(actions: seq<Action>, e: Id, keep: nat, x: Capture)
    requires keep >= 1
  {
    exists n: nat :: DroppedAhead(actions, e, keep, x, n)
  }

  lemma DroppedNowOrBefore(actions: seq<Action>, e: Id, keep: nat, x: Capture)
    requires keep >= 1 && actions != []
    ensures Dropped(actions, e, keep, x) <==>
            Dropped(actions[..|actions| - 1], e, keep, x) || DroppedAhead(actions, e, keep, x, |actions|)
  {
    var before := actions[..|actions| - 1];
    assert forall n: nat :: n <= |before| ==> before[..n] == actions[..n];
    assert forall n: nat :: n <= |before| ==>
        (DroppedAhead(before, e, keep, x, n) <==> DroppedAhead(actions, e, keep, x, n));
    assert forall n: nat :: DroppedAhead(actions, e, keep, x, n) ==> n <= |before| || n == |actions|;
  }

  /** Stored rows ahead of the cursor are the kept ones ahead of it. */
  lemma WaitingIsKept(actions: seq<Action>, e: Id, keep: nat, x: Capture)
    requires keep >= 1
    ensures var p := Watch(actions, e, keep);
            x in Waiting(p.log, e, p.cursor) <==> x in LastN(Since(Events(actions), e), keep) && x.id > p.cursor
  {
    var p := Watch(actions, e, keep);
    WatchesTheLog(actions, e, keep);
    WatchKeeps(actions, e, keep);
    RetentionExact(Events(actions), keep, e);
    FilterFacts(p.log, OfEndpoint(e));
  }

  lemma {:induction false} MissedIsDropped(actions: seq<Action>, e: Id, keep: nat, x: Capture)
    requires keep >= 1
    ensures x in Watch(actions, e, keep).missed <==> Dropped(actions, e, keep, x)
    decreases |actions|
  {
    WatchKeeps(actions, e, keep);
    WatchesTheLog(actions, e, keep);
    WaitingIsKept(actions, e, keep, x);
    assert actions[..|actions|] == actions;
    var p := Watch(actions, e, keep);
    if DroppedAhead(actions, e, keep, x, |actions|) {
      assert x in p.captured && x !in Elements(p.received);
    }
    if actions == [] {
      assert forall n: nat :: n <= |actions| ==> actions[..n] == [];
    } else {
      var before := actions[..|actions| - 1];
      MissedIsDropped(before, e, keep, x);
      DroppedNowOrBefore(actions, e, keep, x);
      assert x in p.missed && x !in Watch(before, e, keep).missed ==> x.id > p.cursor;
    }
  }

  /**
   For any interleaving of captures, clears and polls of any page size: the
   client receives captures of the endpoint in ascending id order, none twice.
   Of those up to its cursor it has received exactly the ones that were not
   dropped while still ahead of it; those beyond it are stored exactly if they
   are kept.
   */
  lemma PollingExact(actions: seq<Action>, e: Id, keep: nat, x: Capture)
    requires keep >= 1
    ensures var p := Watch(actions, e, keep);
            var all, kept := AllOf(Events(actions), e), LastN(Since(Events(actions), e), keep);
            && (forall i, j :: 0 <= i < j < |p.received| ==> p.received[i].id < p.received[j].id)
            && (x in p.received ==> x in all && x.id <= p.cursor)
            && (x in all && x.id <= p.cursor ==> (x in p.received <==> !Dropped(actions, e, keep, x)))
            && (x in all && x.id > p.cursor ==> (x in p.log <==> x in kept))
  {
    WatchKeeps(actions, e, keep);
    WatchesTheLog(actions, e, keep);
    WaitingIsKept(actions, e, keep, x);
    MissedIsDropped(actions, e, keep, x);
    var p := Watch(actions, e, keep);
    assert x in p.received <==> x in Elements(p.received);
  }

  /**
   A poll that is not cut off by its limit leaves nothing waiting; one that is
   hands over exactly `limit` captures.
   */
  lemma PollProgress(actions: seq<Action>, e: Id, keep: nat, limit: nat)
    requires keep >= 1
    ensures var p := Watch(actions, e, keep);
            var p' := Act(p, Poll(limit), e, keep);
            || |p'.received| == |p.received| + limit
            || (|p'.received| < |p.received| + limit && Waiting(p'.log, e, p'.cursor) == {})
  {
    WatchKeeps(actions, e, keep);
    var p := Watch(actions, e, keep);
    PageFacts(p.log, e, p.cursor, limit);
    var page, p' := Page(p.log, e, p.cursor, limit), Act(p, Poll(limit), e, keep);
    forall x | x in Waiting(p.log, e, p'.cursor) ensures x in Waiting(p.log, e, p.cursor) - Elements(page) {
      assert x in Elements(page) ==> x.id <= p'.cursor;
    }
  }
}
