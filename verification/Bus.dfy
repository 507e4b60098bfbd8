/** Outbox relay, event log, consumer checkpoints and dead letters (services/events/events/bus.go). */
module Backbone {
  import opened Wrappers

  type EventId = nat
  type Topic = nat
  type Source = nat
  type Consumer = nat
  type Fact = int

  datatype OutRow = OutRow(event: EventId, topic: Topic, fact: Fact, published: bool)
  datatype LogRow = LogRow(offset: nat, event: EventId, topic: Topic, fact: Fact)
  datatype Group = Group(topics: set<Topic>, position: int)
  datatype Key = Key(consumer: Consumer, event: EventId)

  /** One call of a handler. It may act and still report an error. */
  datatype Outcome = Succeeds | Fails | FailsAfterActing

  /** `nextOffset` is the bigserial. `facts` holds the rows of an Ingest that ignores an event id it has seen.
      `handled` and `acted` are history: the events a handler reported as done, and those it acted on. */
  datatype State = State(
    outboxes: map<Source, seq<OutRow>>, log: seq<LogRow>, nextOffset: nat, rejected: set<EventId>,
    groups: map<Consumer, Group>, dead: set<Key>, handled: set<Key>, acted: set<Key>, facts: map<Key, Fact>)

  const ATTEMPTS := 3

  // ---- the relay ------------------------------------------------------------------------

  /** The ids of the first `batch` unpublished rows from `i` on that nobody else has locked. */
  function Claimed(rows: seq<OutRow>, locked: set<nat>, batch: nat, i: nat): (r: seq<nat>)
    ensures Rows(rows, r)
    decreases |rows| - i
  {
    if i >= |rows| || batch == 0 then []
    else if rows[i].published || i in locked then Claimed(rows, locked, batch, i + 1)
    else [i] + Claimed(rows, locked, batch - 1, i + 1)
  }

  predicate InLog(log: seq<LogRow>, e: EventId) { exists i :: 0 <= i < |log| && log[i].event == e }

  /** One claimed row: into the log or into rejected_events, unless its event id is there, and marked. */
  function RelayRow(st: State, src: Source, n: nat, bad: set<EventId>): State
    requires src in st.outboxes && n < |st.outboxes[src]|
  {
    var row := st.outboxes[src][n];
    var marked := st.(outboxes := st.outboxes[src := st.outboxes[src][n := row.(published := true)]]);
    if row.event in bad then marked.(rejected := st.rejected + {row.event})
    else if InLog(st.log, row.event) then marked.(nextOffset := st.nextOffset + 1)
    else marked.(log := st.log + [LogRow(st.nextOffset, row.event, row.topic, row.fact)], nextOffset := st.nextOffset + 1)
  }

  predicate Rows(rows: seq<OutRow>, ns: seq<nat>) { forall k :: 0 <= k < |ns| ==> ns[k] < |rows| }

  function RelayRows(st: State, src: Source, ns: seq<nat>, bad: set<EventId>): (r: State)
    requires src in st.outboxes && Rows(st.outboxes[src], ns)
    ensures r.outboxes.Keys == st.outboxes.Keys && |r.outboxes[src]| == |st.outboxes[src]|
  {
    if ns == [] then st else RelayRow(RelayRows(st, src, ns[..|ns| - 1], bad), src, ns[|ns| - 1], bad)
  }

  /** The relay's statement for one source. */
  function Relay(st: State, src: Source, locked: set<nat>, batch: nat, bad: set<EventId>): State {
    if src !in st.outboxes then st else RelayRows(st, src, Claimed(st.outboxes[src], locked, batch, 0), bad)
  }

  // ---- delivery ----------------------------------------------------------------------------

  /** SELECT ... WHERE offset_id > position AND topic = ANY(topics) ORDER BY offset_id LIMIT. */
  function After(log: seq<LogRow>, topics: set<Topic>, position: int, limit: nat): seq<LogRow> {
    if log == [] || limit == 0 then []
    else if log[0].offset > position && log[0].topic in topics then [log[0]] + After(log[1..], topics, position, limit - 1)
    else After(log[1..], topics, position, limit)
  }

  function Ingest(st: State, c: Consumer, row: LogRow): State {
    var key := Key(c, row.event);
    st.(acted := st.acted + {key}, facts := if key in st.facts then st.facts else st.facts[key := row.fact])
  }

  /** Up to three calls of the handler; then the dead letter. */
  function Try(st: State, c: Consumer, row: LogRow, outs: seq<Outcome>, k: nat): State
    decreases ATTEMPTS - k
  {
    if k >= ATTEMPTS then st.(dead := st.dead + {Key(c, row.event)})
    else match if k < |outs| then outs[k] else Fails
      case Succeeds => Ingest(st, c, row).(handled := st.handled + {Key(c, row.event)})
      case Fails => Try(st, c, row, outs, k + 1)
      case FailsAfterActing => Try(Ingest(st, c, row), c, row, outs, k + 1)
  }

  /** UPDATE consumers SET position ... WHERE position < last. */
  function Advance(st: State, c: Consumer, last: int): State {
    if c in st.groups && st.groups[c].position < last then st.(groups := st.groups[c := st.groups[c].(position := last)]) else st
  }

  /** Replay of one event for one consumer. */
  function Redeliver(st: State, c: Consumer, row: LogRow, out: Outcome): State {
    match out
    case Fails => st
    case FailsAfterActing => Ingest(st, c, row)
    case Succeeds => Ingest(st, c, row).(handled := st.handled + {Key(c, row.event)})
  }

  // ---- any interleaving, with crashes -------------------------------------------------------------

  /** A delivery that holds the advisory lock of its group. */
  datatype Delivery = Delivery(from: int, batch: seq<LogRow>, done: nat)

  datatype World = World(st: State, active: map<Consumer, Delivery>)

  datatype Turn =
    | Append(src: Source, row: OutRow)
    | RelayFrom(src: Source, locked: set<nat>, batch: nat, bad: set<EventId>)
    | Begin(c: Consumer, limit: nat) | HandleNext(c: Consumer, outs: seq<Outcome>) | Finish(c: Consumer) | Die(c: Consumer)
    | Retry(c: Consumer, n: nat, out: Outcome)

  predicate MayFinish(w: World, c: Consumer) {
    c in w.active && w.active[c].done == |w.active[c].batch| && w.active[c].batch != []
  }

  function Deal(w: World, t: Turn): World {
    match t
    case Append(src, row) =>
      w.(st := w.st.(outboxes := w.st.outboxes[src := (if src in w.st.outboxes then w.st.outboxes[src] else []) + [row.(published := false)]]))
    case RelayFrom(src, locked, batch, bad) => w.(st := Relay(w.st, src, locked, batch, bad))
    case Begin(c, limit) =>
      if c in w.active || c !in w.st.groups then w
      else
        var g := w.st.groups[c];
        w.(active := w.active[c := Delivery(g.position, After(w.st.log, g.topics, g.position, limit), 0)])
    case HandleNext(c, outs) =>
      if c in w.active && w.active[c].done < |w.active[c].batch| then
        var d := w.active[c];
        World(Try(w.st, c, d.batch[d.done], outs, 0), w.active[c := d.(done := d.done + 1)])
      else w
    case Finish(c) =>
      if MayFinish(w, c) then World(Advance(w.st, c, w.active[c].batch[|w.active[c].batch| - 1].offset), w.active - {c}) else w
    case Die(c) => w.(active := w.active - {c})
    case Retry(c, n, out) => if n < |w.st.log| then w.(st := Redeliver(w.st, c, w.st.log[n], out)) else w
  }

  function Play(w: World, turns: seq<Turn>): World
    decreases |turns|
  {
    if turns == [] then w else Play(Deal(w, turns[0]), turns[1..])
  }

  // ---- what holds in every reachable state -----------------------------------------------------------

  /** Offsets increase, and no event id is in the log twice. */
  ghost predicate LogOk(log: seq<LogRow>, next: nat) {
    && (forall i :: 0 <= i < |log| ==> log[i].offset < next)
    && (forall i, j :: 0 <= i < j < |log| ==> log[i].offset < log[j].offset && log[i].event != log[j].event)
  }

  /** A marked outbox row is in the log or rejected. */
  ghost predicate RowsOk(st: State) {
    forall src, n :: src in st.outboxes && 0 <= n < |st.outboxes[src]| && st.outboxes[src][n].published ==>
      InLog(st.log, st.outboxes[src][n].event) || st.outboxes[src][n].event in st.rejected
  }

  predicate Settled(st: State, c: Consumer, e: EventId) { Key(c, e) in st.handled || Key(c, e) in st.dead }

  /** Everything a group has passed was handled or dead-lettered. */
  ghost predicate PassedSettled(st: State, c: Consumer) {
    c in st.groups ==> forall i :: 0 <= i < |st.log| && st.log[i].offset <= st.groups[c].position && st.log[i].topic in st.groups[c].topics ==>
      Settled(st, c, st.log[i].event)
  }

  /** The rows of a batch are exactly the matching rows up to its last offset. */
  ghost predicate BatchOk(log: seq<LogRow>, topics: set<Topic>, from: int, batch: seq<LogRow>) {
    && (forall k :: 0 <= k < |batch| ==> batch[k] in log && batch[k].offset > from && batch[k].topic in topics)
    && (batch != [] ==> forall i :: 0 <= i < |log| && from < log[i].offset <= batch[|batch| - 1].offset && log[i].topic in topics ==> log[i] in batch)
  }

  ghost predicate DeliveryOk(w: World, c: Consumer) {
    c in w.active ==>
      && c in w.st.groups && w.active[c].from == w.st.groups[c].position && w.active[c].done <= |w.active[c].batch|
      && BatchOk(w.st.log, w.st.groups[c].topics, w.active[c].from, w.active[c].batch)
      && forall k :: 0 <= k < w.active[c].done ==> Settled(w.st, c, w.active[c].batch[k].event)
  }

  /** A fact is that of its event, however often the event was delivered; what was handled has its fact. */
  ghost predicate FactsOk(st: State) {
    && (forall key :: key in st.facts ==> exists i :: 0 <= i < |st.log| && st.log[i].event == key.event && st.log[i].fact == st.facts[key])
    && (forall key :: key in st.handled ==> key in st.facts)
  }

  ghost predicate Inv(w: World) {
    && LogOk(w.st.log, w.st.nextOffset) && RowsOk(w.st) && FactsOk(w.st)
    && (forall c :: PassedSettled(w.st, c) && DeliveryOk(w, c))
    && (forall c :: c in w.st.groups ==> w.st.groups[c].position < w.st.nextOffset)
  }

  // ---- the relay keeps it ---------------------------------------------------------------------------

  /** The log only grows, at offsets no group has passed. */
  ghost predicate Grows(st: State, st2: State) {
    && st2 == st.(outboxes := st2.outboxes, log := st2.log, nextOffset := st2.nextOffset, rejected := st2.rejected)
    && st.nextOffset <= st2.nextOffset && st.log <= st2.log && st.rejected <= st2.rejected
    && forall i :: |st.log| <= i < |st2.log| ==> st2.log[i].offset >= st.nextOffset
  }

  lemma RelayRowKeeps(st: State, src: Source, n: nat, bad: set<EventId>)
    requires src in st.outboxes && n < |st.outboxes[src]| && LogOk(st.log, st.nextOffset) && RowsOk(st)
    ensures var st2 := RelayRow(st, src, n, bad); LogOk(st2.log, st2.nextOffset) && RowsOk(st2) && Grows(st, st2)
  {
    var st2, row := RelayRow(st, src, n, bad), st.outboxes[src][n];
    forall e | InLog(st.log, e) ensures InLog(st2.log, e) {
      var i :| 0 <= i < |st.log| && st.log[i].event == e;
      assert st2.log[i].event == e;
    }
    if row.event !in bad && !InLog(st.log, row.event) { assert st2.log[|st.log|].event == row.event; }
  }

  lemma {:induction false} RelayRowsKeep(st: State, src: Source, ns: seq<nat>, bad: set<EventId>)
    requires src in st.outboxes && Rows(st.outboxes[src], ns) && LogOk(st.log, st.nextOffset) && RowsOk(st)
    ensures var st2 := RelayRows(st, src, ns, bad); LogOk(st2.log, st2.nextOffset) && RowsOk(st2) && Grows(st, st2)
  {
    if ns != [] {
      RelayRowsKeep(st, src, ns[..|ns| - 1], bad);
      RelayRowKeeps(RelayRows(st, src, ns[..|ns| - 1], bad), src, ns[|ns| - 1], bad);
    }
  }

  lemma {:induction false} RelayMarks(st: State, src: Source, ns: seq<nat>, bad: set<EventId>, n: nat)
    requires src in st.outboxes && Rows(st.outboxes[src], ns) && n < |st.outboxes[src]|
    ensures RelayRows(st, src, ns, bad).outboxes[src][n] ==
              if n in ns then st.outboxes[src][n].(published := true) else st.outboxes[src][n]
  {
    if ns != [] {
      var k := |ns| - 1;
      assert ns == ns[..k] + [ns[k]];
      RelayMarks(st, src, ns[..k], bad, n);
    }
  }

  lemma {:induction false} ClaimsAll(rows: seq<OutRow>, batch: nat, i: nat, n: nat)
    requires i <= n < |rows| && batch >= |rows| - i && !rows[n].published
    ensures n in Claimed(rows, {}, batch, i)
    decreases |rows| - i
  {
    if i != n { ClaimsAll(rows, if rows[i].published then batch else batch - 1, i + 1, n); }
  }

  /** A relay with room for every row, that nobody competes with, leaves nothing unpublished: each
      row is then in the log or rejected. */
  lemma RelayEmptiesTheOutbox(st: State, src: Source, batch: nat, bad: set<EventId>, n: nat)
    requires LogOk(st.log, st.nextOffset) && RowsOk(st)
    requires src in st.outboxes && n < |st.outboxes[src]| <= batch
    ensures var st2 := Relay(st, src, {}, batch, bad);
      && |st2.outboxes[src]| == |st.outboxes[src]| && st2.outboxes[src][n] == st.outboxes[src][n].(published := true)
      && (InLog(st2.log, st.outboxes[src][n].event) || st.outboxes[src][n].event in st2.rejected)
  {
    var rows := st.outboxes[src];
    var ns := Claimed(rows, {}, batch, 0);
    RelayMarks(st, src, ns, bad, n);
    if !rows[n].published { ClaimsAll(rows, batch, 0, n); }
    RelayRowsKeep(st, src, ns, bad);
  }

  lemma GrowingKeeps(w: World, st2: State)
    requires Inv(w) && Grows(w.st, st2) && LogOk(st2.log, st2.nextOffset) && RowsOk(st2)
    ensures Inv(w.(st := st2))
  {
    var w2 := w.(st := st2);
    forall c ensures PassedSettled(st2, c) && DeliveryOk(w2, c) {
      assert PassedSettled(w.st, c) && DeliveryOk(w, c);
      if c in w.active { BatchStays(w.st, st2, w.st.groups[c].topics, w.active[c].from, w.active[c].batch); }
    }
    forall key | key in st2.facts ensures exists i :: 0 <= i < |st2.log| && st2.log[i].event == key.event && st2.log[i].fact == st2.facts[key] {
      var i :| 0 <= i < |w.st.log| && w.st.log[i].event == key.event && w.st.log[i].fact == w.st.facts[key];
      assert st2.log[i] == w.st.log[i];
    }
  }

  lemma BatchStays(st: State, st2: State, topics: set<Topic>, from: int, batch: seq<LogRow>)
    requires Grows(st, st2) && LogOk(st.log, st.nextOffset) && BatchOk(st.log, topics, from, batch)
    ensures BatchOk(st2.log, topics, from, batch)
  {
    forall k | 0 <= k < |batch| ensures batch[k] in st2.log {
      var i :| 0 <= i < |st.log| && st.log[i] == batch[k];
      assert st2.log[i] == batch[k];
    }
  }

  // ---- delivery keeps it --------------------------------------------------------------------------------

  lemma {:induction false} AfterIsBatch(log: seq<LogRow>, topics: set<Topic>, position: int, limit: nat, next: nat)
    requires LogOk(log, next)
    ensures BatchOk(log, topics, position, After(log, topics, position, limit))
    decreases |log|
  {
    EmptyBatch(log, topics, position);
    if log != [] && limit > 0 {
      assert LogOk(log[1..], next);
      hide BatchOk, LogOk;
      if log[0].offset > position && log[0].topic in topics {
        AfterIsBatch(log[1..], topics, position, limit - 1, next);
        TailCovers(log, topics, position, After(log[1..], topics, position, limit - 1), next);
      } else {
        AfterIsBatch(log[1..], topics, position, limit, next);
        SkipCovers(log, topics, position, After(log[1..], topics, position, limit));
      }
    }
  }

  lemma EmptyBatch(log: seq<LogRow>, topics: set<Topic>, from: int)
    ensures BatchOk(log, topics, from, [])
  {
  }

  lemma SkipCovers(log: seq<LogRow>, topics: set<Topic>, from: int, batch: seq<LogRow>)
    requires log != [] && !(log[0].offset > from && log[0].topic in topics) && BatchOk(log[1..], topics, from, batch)
    ensures BatchOk(log, topics, from, batch)
  {
    forall k | 0 <= k < |batch| ensures batch[k] in log { assert batch[k] in log[1..]; }
    forall i | 0 < i < |log| ensures log[i] == log[1..][i - 1] {}
  }

  lemma TailCovers(log: seq<LogRow>, topics: set<Topic>, from: int, tail: seq<LogRow>, next: nat)
    requires log != [] && LogOk(log, next)
    requires log[0].offset > from && log[0].topic in topics && BatchOk(log[1..], topics, from, tail)
    ensures BatchOk(log, topics, from, [log[0]] + tail)
  {
    var batch := [log[0]] + tail;
    forall k | 0 <= k < |batch| ensures batch[k] in log && batch[k].offset > from && batch[k].topic in topics {
      if k > 0 { assert batch[k] == tail[k - 1] && tail[k - 1] in log[1..]; }
    }
    forall i | 0 <= i < |log| && from < log[i].offset <= batch[|batch| - 1].offset && log[i].topic in topics ensures log[i] in batch {
      if i == 0 { assert batch[0] == log[0]; }
      else if tail != [] { assert log[1..][i - 1] == log[i] && log[i] in tail; }
    }
  }

  /** Trying an event settles it, whatever the handler does, and disturbs nothing else. */
  lemma TrySettles(st: State, c: Consumer, row: LogRow, outs: seq<Outcome>, k: nat)
    requires FactsOk(st) && row in st.log && LogOk(st.log, st.nextOffset)
    ensures var st2 := Try(st, c, row, outs, k);
      && Settled(st2, c, row.event) && FactsOk(st2)
      && st2 == st.(dead := st2.dead, handled := st2.handled, acted := st2.acted, facts := st2.facts) && st.dead <= st2.dead && st.handled <= st2.handled
    decreases ATTEMPTS - k
  {
    IngestKeeps(st, c, row);
    if k < ATTEMPTS {
      match if k < |outs| then outs[k] else Fails
      case Succeeds => assert Key(c, row.event) in Ingest(st, c, row).facts;
      case Fails => TrySettles(st, c, row, outs, k + 1);
      case FailsAfterActing => TrySettles(Ingest(st, c, row), c, row, outs, k + 1);
    }
  }

  lemma IngestKeeps(st: State, c: Consumer, row: LogRow)
    requires FactsOk(st) && row in st.log
    ensures FactsOk(Ingest(st, c, row)) && Ingest(st, c, row) == st.(acted := Ingest(st, c, row).acted, facts := Ingest(st, c, row).facts)
    ensures Key(c, row.event) in Ingest(st, c, row).facts
  {
    var i :| 0 <= i < |st.log| && st.log[i] == row;
  }

  /** More is settled, nothing else changes. */
  lemma SettlingKeeps(w: World, st2: State)
    requires Inv(w) && FactsOk(st2) && st2 == w.st.(dead := st2.dead, handled := st2.handled, acted := st2.acted, facts := st2.facts)
    requires w.st.dead <= st2.dead && w.st.handled <= st2.handled
    ensures Inv(w.(st := st2))
  {
    forall c ensures PassedSettled(st2, c) && DeliveryOk(w.(st := st2), c) { assert PassedSettled(w.st, c) && DeliveryOk(w, c); }
  }

  lemma BeginKeeps(w: World, c: Consumer, limit: nat)
    requires Inv(w) && c !in w.active && c in w.st.groups
    ensures Inv(Deal(w, Begin(c, limit)))
  {
    AfterIsBatch(w.st.log, w.st.groups[c].topics, w.st.groups[c].position, limit, w.st.nextOffset);
    var w2 := Deal(w, Begin(c, limit));
    forall d ensures PassedSettled(w2.st, d) && DeliveryOk(w2, d) { assert PassedSettled(w.st, d) && DeliveryOk(w, d); }
  }

  lemma NextOfBatch(w: World, c: Consumer)
    requires Inv(w) && c in w.active && w.active[c].done < |w.active[c].batch|
    ensures w.active[c].batch[w.active[c].done] in w.st.log && FactsOk(w.st) && LogOk(w.st.log, w.st.nextOffset)
  {
    assert DeliveryOk(w, c);
  }

  lemma HandleKeeps(w: World, c: Consumer, outs: seq<Outcome>)
    requires Inv(w) && c in w.active && w.active[c].done < |w.active[c].batch|
    ensures Inv(Deal(w, HandleNext(c, outs)))
  {
    hide Inv, LogOk, FactsOk;
    var d := w.active[c];
    NextOfBatch(w, c);
    TrySettles(w.st, c, d.batch[d.done], outs, 0);
    var w1 := w.(st := Try(w.st, c, d.batch[d.done], outs, 0));
    SettlingKeeps(w, w1.st);
    hide Try;
    OneMoreHandled(w1, c);
  }

  lemma OneMoreHandled(w: World, c: Consumer)
    requires Inv(w) && c in w.active && w.active[c].done < |w.active[c].batch| && Settled(w.st, c, w.active[c].batch[w.active[c].done].event)
    ensures Inv(w.(active := w.active[c := w.active[c].(done := w.active[c].done + 1)]))
  {
    hide PassedSettled, LogOk, FactsOk, RowsOk, BatchOk;
    var w2 := w.(active := w.active[c := w.active[c].(done := w.active[c].done + 1)]);
    forall e ensures PassedSettled(w2.st, e) && DeliveryOk(w2, e) { assert PassedSettled(w.st, e) && DeliveryOk(w, e); }
  }

  lemma FinishKeeps(w: World, c: Consumer)
    requires Inv(w) && MayFinish(w, c)
    ensures Inv(Deal(w, Finish(c)))
    ensures c in Deal(w, Finish(c)).st.groups && c in w.st.groups
    ensures Deal(w, Finish(c)).st.groups[c].position == w.active[c].batch[|w.active[c].batch| - 1].offset > w.st.groups[c].position
  {
    var d, w2 := w.active[c], Deal(w, Finish(c));
    assert DeliveryOk(w, c) && PassedSettled(w.st, c);
    var last := d.batch[|d.batch| - 1];
    assert last in w.st.log;
    forall i | 0 <= i < |w.st.log| && w.st.log[i].offset <= last.offset && w.st.log[i].topic in w.st.groups[c].topics
      ensures Settled(w2.st, c, w.st.log[i].event)
    {
      if w.st.log[i].offset > d.from {
        var k :| 0 <= k < |d.batch| && d.batch[k] == w.st.log[i];
      }
    }
    forall e ensures PassedSettled(w2.st, e) && DeliveryOk(w2, e) { assert PassedSettled(w.st, e) && DeliveryOk(w, e); }
  }

  lemma DieKeeps(w: World, c: Consumer)
    requires Inv(w)
    ensures Inv(Deal(w, Die(c)))
  {
    var w2 := Deal(w, Die(c));
    forall e ensures PassedSettled(w2.st, e) && DeliveryOk(w2, e) { assert PassedSettled(w.st, e) && DeliveryOk(w, e); }
  }

  lemma AppendKeeps(w: World, src: Source, row: OutRow)
    requires Inv(w)
    ensures Inv(Deal(w, Append(src, row)))
  {
    GrowingKeeps(w, Deal(w, Append(src, row)).st);
  }

  lemma RelayKeeps(w: World, src: Source, locked: set<nat>, batch: nat, bad: set<EventId>)
    requires Inv(w)
    ensures Inv(Deal(w, RelayFrom(src, locked, batch, bad)))
  {
    if src in w.st.outboxes {
      RelayRowsKeep(w.st, src, Claimed(w.st.outboxes[src], locked, batch, 0), bad);
      GrowingKeeps(w, Relay(w.st, src, locked, batch, bad));
    }
  }

  lemma RetryKeeps(w: World, c: Consumer, n: nat, out: Outcome)
    requires Inv(w) && n < |w.st.log|
    ensures Inv(Deal(w, Retry(c, n, out)))
  {
    IngestKeeps(w.st, c, w.st.log[n]);
    SettlingKeeps(w, Redeliver(w.st, c, w.st.log[n], out));
  }

  lemma DealKeeps(w: World, t: Turn)
    requires Inv(w)
    ensures Inv(Deal(w, t))
  {
    hide Inv;
    match t
    case Append(src, row) => AppendKeeps(w, src, row);
    case RelayFrom(src, locked, batch, bad) => RelayKeeps(w, src, locked, batch, bad);
    case Begin(c, limit) => if c !in w.active && c in w.st.groups { BeginKeeps(w, c, limit); }
    case HandleNext(c, outs) => if c in w.active && w.active[c].done < |w.active[c].batch| { HandleKeeps(w, c, outs); }
    case Finish(c) => if MayFinish(w, c) { FinishKeeps(w, c); }
    case Die(c) => DieKeeps(w, c);
    case Retry(c, n, out) => if n < |w.st.log| { RetryKeeps(w, c, n, out); }
  }

  lemma {:induction false} PlayKeeps(w: World, turns: seq<Turn>)
    requires Inv(w)
    ensures Inv(Play(w, turns))
    decreases |turns|
  {
    hide Inv, Deal;
    if turns != [] {
      DealKeeps(w, turns[0]);
      PlayKeeps(Deal(w, turns[0]), turns[1..]);
    }
  }

  /** Registered groups at the start of the log, nothing published. */
  function Opening(groups: map<Consumer, set<Topic>>): World {
    World(State(map[], [], 1, {}, map c | c in groups :: Group(groups[c], 0), {}, {}, {}, map[]), map[])
  }

  /** Over any run with crashes: no event id twice in the log, every marked outbox row in the log or
      rejected, everything a group has passed handled or dead-lettered, one fact per handled event. */
  lemma BackboneIsSound(groups: map<Consumer, set<Topic>>, turns: seq<Turn>)
    ensures Inv(Play(Opening(groups), turns))
  {
    PlayKeeps(Opening(groups), turns);
  }

  lemma TryKeepsGroups(st: State, c: Consumer, row: LogRow, outs: seq<Outcome>, k: nat)
    ensures Try(st, c, row, outs, k).groups == st.groups
    decreases ATTEMPTS - k
  {
  }

  lemma {:induction false} RelayKeepsGroups(st: State, src: Source, ns: seq<nat>, bad: set<EventId>)
    requires src in st.outboxes && Rows(st.outboxes[src], ns)
    ensures RelayRows(st, src, ns, bad).groups == st.groups
  {
    if ns != [] { RelayKeepsGroups(st, src, ns[..|ns| - 1], bad); }
  }

  /** The checkpoint of a group never falls. */
  lemma {:induction false} PositionNeverFalls(w: World, turns: seq<Turn>, c: Consumer)
    requires c in w.st.groups
    ensures c in Play(w, turns).st.groups && Play(w, turns).st.groups[c].position >= w.st.groups[c].position
    decreases |turns|
  {
    if turns != [] {
      var t := turns[0];
      if t.HandleNext? && t.c in w.active && w.active[t.c].done < |w.active[t.c].batch| {
        TryKeepsGroups(w.st, t.c, w.active[t.c].batch[w.active[t.c].done], t.outs, 0);
      }
      if t.RelayFrom? && t.src in w.st.outboxes { RelayKeepsGroups(w.st, t.src, Claimed(w.st.outboxes[t.src], t.locked, t.batch, 0), t.bad); }
      PositionNeverFalls(Deal(w, t), turns[1..], c);
    }
  }

  /** A delivery that nobody interrupts ends beyond its checkpoint, even if every call of every handler fails. */
  lemma CompletedBatchAdvances(w: World, c: Consumer)
    requires Inv(w) && MayFinish(w, c)
    ensures c in Deal(w, Finish(c)).st.groups && Deal(w, Finish(c)).st.groups[c].position > w.st.groups[c].position
  {
    FinishKeeps(w, c);
  }

  // ---- facts ------------------------------------------------------------------------------------------

  /** No handler acts and then reports an error. */
  predicate Honest(t: Turn) {
    match t
    case HandleNext(_, outs) => forall k :: 0 <= k < |outs| ==> outs[k] != FailsAfterActing
    case Retry(_, _, out) => out != FailsAfterActing
    case _ => true
  }

  /** One fact for each event acted on; what was reported done was acted on, and with honest handlers
      nothing else was. */
  ghost predicate OneFactEach(st: State, honest: bool) {
    st.facts.Keys == st.acted && st.handled <= st.acted && (honest ==> st.acted <= st.handled)
  }

  lemma TryKeepsFacts(st: State, c: Consumer, row: LogRow, outs: seq<Outcome>, k: nat, honest: bool)
    requires OneFactEach(st, honest) && (honest ==> forall j :: 0 <= j < |outs| ==> outs[j] != FailsAfterActing)
    ensures OneFactEach(Try(st, c, row, outs, k), honest)
    decreases ATTEMPTS - k
  {
    IngestFacts(st, c, row);
    if k < ATTEMPTS {
      match if k < |outs| then outs[k] else Fails
      case Succeeds =>
      case Fails => TryKeepsFacts(st, c, row, outs, k + 1, honest);
      case FailsAfterActing => TryKeepsFacts(Ingest(st, c, row), c, row, outs, k + 1, honest);
    }
  }

  lemma IngestFacts(st: State, c: Consumer, row: LogRow)
    ensures Ingest(st, c, row).facts.Keys == st.facts.Keys + {Key(c, row.event)}
  {
  }

  lemma {:induction false} RelayKeepsFacts(st: State, src: Source, ns: seq<nat>, bad: set<EventId>)
    requires src in st.outboxes && Rows(st.outboxes[src], ns)
    ensures var st2 := RelayRows(st, src, ns, bad); st2.facts == st.facts && st2.handled == st.handled && st2.acted == st.acted
  {
    if ns != [] { RelayKeepsFacts(st, src, ns[..|ns| - 1], bad); }
  }

  lemma FactsStep(w: World, t: Turn, honest: bool)
    requires OneFactEach(w.st, honest) && (honest ==> Honest(t))
    ensures OneFactEach(Deal(w, t).st, honest)
  {
    match t
    case HandleNext(c, outs) =>
      if c in w.active && w.active[c].done < |w.active[c].batch| {
        TryKeepsFacts(w.st, c, w.active[c].batch[w.active[c].done], outs, 0, honest);
      }
    case RelayFrom(src, locked, batch, bad) =>
      if src in w.st.outboxes { RelayKeepsFacts(w.st, src, Claimed(w.st.outboxes[src], locked, batch, 0), bad); }
    case Retry(c, n, out) =>
      if n < |w.st.log| { IngestFacts(w.st, c, w.st.log[n]); }
    case _ =>
  }

  predicate AllHonest(turns: seq<Turn>) { forall i :: 0 <= i < |turns| ==> Honest(turns[i]) }

  /** However often events are delivered, retried and replayed, by handlers that may act and then fail: there is
      exactly one fact for each event that a handler acted on, at least one call for each that it
      reported as done, and no other facts at all when no handler fails after acting. */
  lemma {:induction false} OneFactPerHandledEvent(w: World, turns: seq<Turn>, honest: bool)
    requires OneFactEach(w.st, honest) && (honest ==> AllHonest(turns))
    ensures OneFactEach(Play(w, turns).st, honest)
    decreases |turns|
  {
    hide Deal, OneFactEach;
    if turns != [] {
      FactsStep(w, turns[0], honest);
      OneFactPerHandledEvent(Deal(w, turns[0]), turns[1..], honest);
    }
  }

  ghost function Pick(facts: map<Key, Fact>): Key
    requires facts != map[]
    ensures Pick(facts) in facts
  {
    assert facts.Keys != {};
    var key :| key in facts;
    key
  }

  function AmountOf(facts: map<Key, Fact>, c: Consumer,
          key: Key): Fact { if key in facts && key.consumer == c then facts[key] else 0 }

  /** The day's revenue as the table of the consumer shows it: the sum of all its facts. */
  ghost function Total(facts: map<Key, Fact>, c: Consumer): Fact
    decreases facts.Keys
  {
    if facts == map[] then 0
    else
      var key := Pick(facts);
      assert (facts - {key}).Keys == facts.Keys - {key};
      AmountOf(facts, c, key) + Total(facts - {key}, c)
  }

  /** What it should be: each event of the log that the consumer acted on, once. */
  function Due(log: seq<LogRow>, c: Consumer, acted: set<Key>): Fact {
    if log == [] then 0
    else
      var last := log[|log| - 1];
      Due(log[..|log| - 1], c, acted) + if Key(c, last.event) in acted then last.fact else 0
  }

  /** The facts can be summed in any order. */
  lemma {:induction false} TotalWithout(facts: map<Key, Fact>, c: Consumer, key: Key)
    ensures Total(facts, c) == AmountOf(facts, c, key) + Total(facts - {key}, c)
    decreases facts.Keys
  {
    if key !in facts {
      assert facts - {key} == facts;
    } else if key != Pick(facts) {
      var first := Pick(facts);
      assert (facts - {first}).Keys == facts.Keys - {first} && (facts - {key}).Keys == facts.Keys - {key};
      TotalWithout(facts - {first}, c, key);
      TotalWithout(facts - {key}, c, first);
      assert facts - {first} - {key} == facts - {key} - {first};
    }
  }

  lemma {:induction false} NothingDue(facts: map<Key, Fact>, c: Consumer)
    requires forall key :: key in facts ==> key.consumer != c
    ensures Total(facts, c) == 0
    decreases facts.Keys
  {
    if facts != map[] {
      assert (facts - {Pick(facts)}).Keys == facts.Keys - {Pick(facts)};
      NothingDue(facts - {Pick(facts)}, c);
    }
  }

  lemma {:induction false} DueWithout(log: seq<LogRow>, c: Consumer, acted: set<Key>, e: EventId)
    requires forall i :: 0 <= i < |log| ==> log[i].event != e
    ensures Due(log, c, acted - {Key(c, e)}) == Due(log, c, acted)
  {
    if log != [] { DueWithout(log[..|log| - 1], c, acted, e); }
  }

  /** Facts that are those of their events, of which none is in the log twice. */
  lemma {:induction false} TotalIsDue(log: seq<LogRow>, next: nat, facts: map<Key, Fact>, c: Consumer)
    requires LogOk(log, next)
    requires forall key :: key in facts && key.consumer == c ==> exists i :: 0 <= i < |log| && log[i].event == key.event && log[i].fact == facts[key]
    ensures Total(facts, c) == Due(log, c, facts.Keys)
    decreases |log|
  {
    if log == [] {
      NothingDue(facts, c);
    } else {
      var n := |log| - 1;
      var key := Key(c, log[n].event);
      var rest := facts - {key};
      forall k | k in rest && k.consumer == c
        ensures exists i :: 0 <= i < |log[..n]| && log[..n][i].event == k.event && log[..n][i].fact == rest[k]
      {
        var i :| 0 <= i < |log| && log[i].event == k.event && log[i].fact == facts[k];
        assert i < n && log[..n][i] == log[i];
      }
      TotalIsDue(log[..n], next, rest, c);
      DueWithout(log[..n], c, facts.Keys, log[n].event);
      assert rest.Keys == facts.Keys - {key};
      TotalWithout(facts, c, key);
    }
  }

  /** Redelivery cannot double a day's revenue: after any run, whatever was delivered twice, retried, replayed or
      lost to a crash, the facts of a consumer add up to the amounts of the distinct events it acted on. */
  lemma RevenueCountsOnce(groups: map<Consumer, set<Topic>>, turns: seq<Turn>, c: Consumer)
    ensures var st := Play(Opening(groups), turns).st; Total(st.facts, c) == Due(st.log, c, st.acted)
  {
    BackboneIsSound(groups, turns);
    OneFactPerHandledEvent(Opening(groups), turns, false);
    var st := Play(Opening(groups), turns).st;
    hide Play, Opening, RowsOk, PassedSettled, DeliveryOk;
    TotalIsDue(st.log, st.nextOffset, st.facts, c);
  }

  // ---- what the registry decides ----------------------------------------------------------------

  /** One claimed row, in its columns: a malformed event is rejected and enters no log, a sound one enters the log
      as it is unless its id is there, and is not rejected. */
  lemma RelayedRow(st: State, src: Source, n: nat, bad: set<EventId>)
    requires src in st.outboxes && n < |st.outboxes[src]|
    ensures var st2, row := RelayRow(st, src, n, bad), st.outboxes[src][n];
      && st2.outboxes == st.outboxes[src := st.outboxes[src][n := OutRow(row.event, row.topic, row.fact, true)]]
      && (row.event in bad ==> st2.log == st.log && st2.rejected == st.rejected + {row.event})
      && (row.event !in bad ==>
            && st2.rejected == st.rejected
            && if exists i :: 0 <= i < |st.log| && st.log[i].event == row.event then st2.log == st.log
               else st2.log == st.log + [LogRow(st.nextOffset, row.event, row.topic, row.fact)])
  {
  }

  /** The first rows from `i` on that are unpublished and that nobody has locked, up to the batch and no fewer. */
  ghost predicate IsClaim(rows: seq<OutRow>, locked: set<nat>, batch: nat, i: nat, ns: seq<nat>) {
    && |ns| <= batch
    && (forall k :: 0 <= k < |ns| ==> i <= ns[k] < |rows| && !rows[ns[k]].published && ns[k] !in locked)
    && (forall j, k :: 0 <= j < k < |ns| ==> ns[j] < ns[k])
    && forall n: nat :: i <= n < |rows| && !rows[n].published && n !in locked && n !in ns ==> |ns| == batch && forall k :: 0 <= k < |ns| ==> ns[k] < n
  }

  lemma OneMoreClaim(rows: seq<OutRow>, locked: set<nat>, batch: nat, i: nat, ns: seq<nat>)
    requires IsClaim(rows, locked, batch, i + 1, ns) && i < |rows| && !rows[i].published && i !in locked
    ensures IsClaim(rows, locked, batch + 1, i, [i] + ns)
  {
    var all := [i] + ns;
    forall n: nat | i <= n < |rows| && !rows[n].published && n !in locked && n !in all
      ensures |all| == batch + 1 && forall k :: 0 <= k < |all| ==> all[k] < n
    {
      assert all[0] == i && forall k :: 0 <= k < |ns| ==> all[k + 1] == ns[k];
    }
  }

  lemma {:induction false} ClaimedIs(rows: seq<OutRow>, locked: set<nat>, batch: nat, i: nat)
    ensures IsClaim(rows, locked, batch, i, Claimed(rows, locked, batch, i))
    decreases |rows| - i
  {
    if i < |rows| && batch > 0 {
      if rows[i].published || i in locked {
        ClaimedIs(rows, locked, batch, i + 1);
      } else {
        ClaimedIs(rows, locked, batch - 1, i + 1);
        OneMoreClaim(rows, locked, batch - 1, i, Claimed(rows, locked, batch - 1, i + 1));
        hide IsClaim;
      }
    }
  }

  predicate IsRow(r: LogRow, row: OutRow) { r.event == row.event && r.topic == row.topic && r.fact == row.fact }

  /** The log row is that of a published outbox row. */
  ghost predicate Published(outboxes: map<Source, seq<OutRow>>, r: LogRow) {
    exists src, n: nat :: src in outboxes && n < |outboxes[src]| && outboxes[src][n].published && IsRow(r, outboxes[src][n])
  }

  /** The log holds only sound events, each as its outbox row says; only malformed ones are rejected. */
  ghost predicate Registered(st: State, bad: set<EventId>) {
    && (forall i :: 0 <= i < |st.log| ==> st.log[i].event !in bad && Published(st.outboxes, st.log[i]))
    && st.rejected <= bad
  }

  /** Outbox rows are appended and marked, and otherwise stay. */
  ghost predicate OutboxGrows(a: map<Source, seq<OutRow>>, b: map<Source, seq<OutRow>>) {
    forall src :: src in a ==>
      && src in b && |a[src]| <= |b[src]|
      && forall n :: 0 <= n < |a[src]| ==> b[src][n] == a[src][n] || b[src][n] == a[src][n].(published := true)
  }

  lemma StaysPublished(a: map<Source, seq<OutRow>>, b: map<Source, seq<OutRow>>, r: LogRow)
    requires OutboxGrows(a, b) && Published(a, r)
    ensures Published(b, r)
  {
    var src, n: nat :| src in a && n < |a[src]| && a[src][n].published && IsRow(r, a[src][n]);
    assert b[src][n].published && IsRow(r, b[src][n]);
  }

  lemma RelayRowRegisters(st: State, src: Source, n: nat, bad: set<EventId>)
    requires src in st.outboxes && n < |st.outboxes[src]| && Registered(st, bad)
    ensures Registered(RelayRow(st, src, n, bad), bad)
  {
    var st2 := RelayRow(st, src, n, bad);
    RelayedRow(st, src, n, bad);
    assert OutboxGrows(st.outboxes, st2.outboxes);
    forall i | 0 <= i < |st2.log| ensures st2.log[i].event !in bad && Published(st2.outboxes, st2.log[i]) {
      if i < |st.log| {
        assert st2.log[i] == st.log[i];
        StaysPublished(st.outboxes, st2.outboxes, st.log[i]);
      } else {
        assert IsRow(st2.log[i], st2.outboxes[src][n]) && st2.outboxes[src][n].published;
      }
    }
    hide RelayRow, Published, OutboxGrows;
  }

  lemma {:induction false} RelayRowsRegister(st: State, src: Source, ns: seq<nat>, bad: set<EventId>)
    requires src in st.outboxes && Rows(st.outboxes[src], ns) && Registered(st, bad)
    ensures Registered(RelayRows(st, src, ns, bad), bad)
  {
    hide RelayRow, Registered;
    if ns != [] {
      RelayRowsRegister(st, src, ns[..|ns| - 1], bad);
      RelayRowRegisters(RelayRows(st, src, ns[..|ns| - 1], bad), src, ns[|ns| - 1], bad);
    }
  }

  lemma AppendRegisters(w: World, src: Source, row: OutRow, bad: set<EventId>)
    requires Registered(w.st, bad)
    ensures Registered(Deal(w, Append(src, row)).st, bad)
  {
    var a, b := w.st.outboxes, Deal(w, Append(src, row)).st.outboxes;
    assert OutboxGrows(a, b);
    forall i | 0 <= i < |w.st.log| ensures Published(b, w.st.log[i]) { StaysPublished(a, b, w.st.log[i]); }
    hide Published, OutboxGrows;
  }

  lemma {:induction false} TryKeepsLog(st: State, c: Consumer, row: LogRow, outs: seq<Outcome>, k: nat)
    ensures var st2 := Try(st, c, row, outs, k); st2.outboxes == st.outboxes && st2.log == st.log && st2.rejected == st.rejected
    decreases ATTEMPTS - k
  {
    if k < ATTEMPTS {
      match if k < |outs| then outs[k] else Fails
      case Succeeds =>
      case Fails => TryKeepsLog(st, c, row, outs, k + 1);
      case FailsAfterActing => TryKeepsLog(Ingest(st, c, row), c, row, outs, k + 1);
    }
  }

  lemma RegistersStep(w: World, t: Turn, bad: set<EventId>)
    requires Registered(w.st, bad) && (t.RelayFrom? ==> t.bad == bad)
    ensures Registered(Deal(w, t).st, bad)
  {
    match t
    case Append(src, row) => AppendRegisters(w, src, row, bad);
    case RelayFrom(src, locked, batch, _) =>
      if src in w.st.outboxes { RelayRowsRegister(w.st, src, Claimed(w.st.outboxes[src], locked, batch, 0), bad); }
    case HandleNext(c, outs) =>
      if c in w.active && w.active[c].done < |w.active[c].batch| { TryKeepsLog(w.st, c, w.active[c].batch[w.active[c].done], outs, 0); }
    case _ =>
  }

  lemma {:induction false} RegistersAlways(w: World, turns: seq<Turn>, bad: set<EventId>)
    requires Registered(w.st, bad) && forall t :: t in turns ==> t.RelayFrom? ==> t.bad == bad
    ensures Registered(Play(w, turns).st, bad)
    decreases |turns|
  {
    hide Deal, Registered;
    if turns != [] {
      RegistersStep(w, turns[0], bad);
      RegistersAlways(Deal(w, turns[0]), turns[1..], bad);
    }
  }

  /** Over any run in which the registry calls the events of `bad` malformed: the log holds only sound events, each
      with the topic and the fact of its outbox row; only malformed events are rejected; and a marked row
      is in the log exactly if it is sound and rejected exactly if it is not. */
  lemma RegistryDecides(groups: map<Consumer, set<Topic>>, turns: seq<Turn>, bad: set<EventId>, src: Source, n: nat)
    requires forall t :: t in turns ==> t.RelayFrom? ==> t.bad == bad
    ensures var st := Play(Opening(groups), turns).st;
      && (forall i :: 0 <= i < |st.log| ==> st.log[i].event !in bad && Published(st.outboxes, st.log[i])) && st.rejected <= bad
      && (src in st.outboxes && n < |st.outboxes[src]| && st.outboxes[src][n].published ==>
            var e := st.outboxes[src][n].event;
            && (e in bad <==> e in st.rejected)
            && (e !in bad <==> exists i :: 0 <= i < |st.log| && st.log[i].event == e))
  {
    BackboneIsSound(groups, turns);
    assert Registered(Opening(groups).st, bad);
    RegistersAlways(Opening(groups), turns, bad);
    var st := Play(Opening(groups), turns).st;
    hide Play, Opening, PassedSettled, DeliveryOk, FactsOk, LogOk, Published;
    if src in st.outboxes && n < |st.outboxes[src]| && st.outboxes[src][n].published { assert InLog(st.log, st.outboxes[src][n].event) || st.outboxes[src][n].event in st.rejected; }
  }

  // ---- what waits is delivered ---------------------------------------------------------------------

  predicate Waits(r: LogRow, topics: set<Topic>, position: int) { r.offset > position && r.topic in topics }

  /** The first rows that wait, in order, as many as the limit allows and no fewer than there are. */
  ghost predicate IsBatch(log: seq<LogRow>, topics: set<Topic>, position: int, limit: nat, batch: seq<LogRow>) {
    && |batch| <= limit
    && (forall k :: 0 <= k < |batch| ==> batch[k] in log && Waits(batch[k], topics, position))
    && (forall j, k :: 0 <= j < k < |batch| ==> batch[j].offset < batch[k].offset)
    && forall r :: r in log && Waits(r, topics, position) && r !in batch ==> |batch| == limit && forall k :: 0 <= k < |batch| ==> batch[k].offset < r.offset
  }

  lemma LaterOffsets(log: seq<LogRow>, next: nat)
    requires log != [] && LogOk(log, next)
    ensures forall r :: r in log[1..] ==> r in log && log[0].offset < r.offset
  {
    forall r | r in log[1..] ensures r in log && log[0].offset < r.offset {
      var i :| 0 <= i < |log[1..]| && log[1..][i] == r;
      assert log[i + 1] == r;
    }
  }

  /** A row that is left out of the longer batch was left out of the shorter one. */
  lemma LeftOut(first: LogRow, rest: seq<LogRow>, topics: set<Topic>, position: int, limit: nat, tail: seq<LogRow>,
          r: LogRow)
    requires IsBatch(rest, topics, position, limit, tail) && forall q :: q in rest ==> first.offset < q.offset
    requires r in rest && Waits(r, topics, position) && r !in tail
    ensures |tail| == limit && forall k :: 0 <= k < |tail| + 1 ==> ([first] + tail)[k].offset < r.offset
  {
    hide Waits;
    forall k | 0 <= k < |tail| + 1 ensures ([first] + tail)[k].offset < r.offset { if k > 0 { assert ([first] + tail)[k] == tail[k - 1]; } }
  }

  lemma StillInOrder(first: LogRow, rest: seq<LogRow>, topics: set<Topic>, position: int, limit: nat, tail: seq<LogRow>)
    requires IsBatch(rest, topics, position, limit, tail) && forall q :: q in rest ==> first.offset < q.offset
    ensures forall k :: 0 <= k < |tail| ==> tail[k] in rest && Waits(tail[k], topics, position) && first.offset < tail[k].offset
    ensures forall j, k :: 0 <= j < k < |tail| + 1 ==> ([first] + tail)[j].offset < ([first] + tail)[k].offset
  {
    hide Waits;
    forall j, k | 0 <= j < k < |tail| + 1 ensures ([first] + tail)[j].offset < ([first] + tail)[k].offset {
      assert ([first] + tail)[k] == tail[k - 1];
      if j > 0 { assert ([first] + tail)[j] == tail[j - 1]; }
    }
  }

  lemma FirstOfBatch(log: seq<LogRow>, topics: set<Topic>, position: int, limit: nat, next: nat, tail: seq<LogRow>)
    requires log != [] && LogOk(log, next) && Waits(log[0], topics, position) && IsBatch(log[1..], topics, position, limit, tail)
    ensures IsBatch(log, topics, position, limit + 1, [log[0]] + tail)
  {
    LaterOffsets(log, next);
    hide LogOk, Waits;
    var first, rest, batch := log[0], log[1..], [log[0]] + tail;
    StillInOrder(first, rest, topics, position, limit, tail);
    assert |tail| <= limit;
    forall r | r in log && Waits(r, topics, position) && r !in batch
      ensures |batch| == limit + 1 && forall k :: 0 <= k < |batch| ==> batch[k].offset < r.offset
    {
      assert batch[0] == first && log == [first] + rest && forall k :: 0 <= k < |tail| ==> batch[k + 1] == tail[k];
      LeftOut(first, rest, topics, position, limit, tail, r);
    }
  }

  lemma NotInBatch(log: seq<LogRow>, topics: set<Topic>, position: int, limit: nat, batch: seq<LogRow>)
    requires log != [] && !Waits(log[0], topics, position) && IsBatch(log[1..], topics, position, limit, batch)
    ensures IsBatch(log, topics, position, limit, batch)
  {
    assert forall r :: r in log <==> r == log[0] || r in log[1..];
  }

  lemma {:induction false} AfterIsExact(log: seq<LogRow>, topics: set<Topic>, position: int, limit: nat, next: nat)
    requires LogOk(log, next)
    ensures IsBatch(log, topics, position, limit, After(log, topics, position, limit))
    decreases |log|
  {
    if log != [] && limit > 0 {
      assert LogOk(log[1..], next);
      if Waits(log[0], topics, position) {
        AfterIsExact(log[1..], topics, position, limit - 1, next);
        FirstOfBatch(log, topics, position, limit - 1, next, After(log[1..], topics, position, limit - 1));
        hide IsBatch;
      } else {
        AfterIsExact(log[1..], topics, position, limit, next);
        NotInBatch(log, topics, position, limit, After(log[1..], topics, position, limit));
        hide IsBatch;
      }
    }
  }

  lemma {:induction false} AllHandled(st: State, c: Consumer, batch: seq<LogRow>, script: seq<seq<Outcome>>, n: nat)
    requires n <= |batch| && FactsOk(st) && LogOk(st.log, st.nextOffset) && forall k :: 0 <= k < n ==> batch[k] in st.log
    ensures var st2 := HandleAll(st, c, batch, script, n);
      && FactsOk(st2) && st2.log == st.log && st2.nextOffset == st.nextOffset && st2.groups == st.groups
      && st.dead <= st2.dead && st.handled <= st2.handled
      && forall k :: 0 <= k < n ==> Settled(st2, c, batch[k].event)
  {
    hide FactsOk, LogOk, Try;
    if n > 0 {
      AllHandled(st, c, batch, script, n - 1);
      TrySettles(HandleAll(st, c, batch, script, n - 1), c, batch[n - 1], ScriptOf(script, n - 1), 0);
    }
  }

  lemma DeliveredIs(st: State, c: Consumer, limit: nat, script: seq<seq<Outcome>>)
    requires FactsOk(st) && LogOk(st.log, st.nextOffset) && c in st.groups
    ensures var st2, g := DeliverOne(st, c, limit, script), st.groups[c];
      var batch := After(st.log, g.topics, g.position, limit);
      && st2.log == st.log && IsBatch(st.log, g.topics, g.position, limit, batch)
      && (batch == [] ==> st2 == st)
      && (batch != [] ==> st2.groups == st.groups[c := g.(position := batch[|batch| - 1].offset)] && forall r :: r in batch ==> Settled(st2, c, r.event))
  {
    var g := st.groups[c];
    var batch := After(st.log, g.topics, g.position, limit);
    hide FactsOk, LogOk, HandleAll, After, IsBatch, Settled, Advance, Try;
    BatchWaits(st.log, g.topics, g.position, limit, st.nextOffset);
    if batch != [] {
      var last := batch[|batch| - 1];
      assert Waits(last, g.topics, g.position);
      AllHandled(st, c, batch, script, |batch|);
      Advances(HandleAll(st, c, batch, script, |batch|), c, last.offset);
      forall r | r in batch ensures Settled(DeliverOne(st, c, limit, script), c, r.event) {
        var k :| 0 <= k < |batch| && batch[k] == r;
        assert Settled(HandleAll(st, c, batch, script, |batch|), c, batch[k].event);
      }
    }
  }

  lemma Advances(st: State, c: Consumer, last: int)
    requires c in st.groups && st.groups[c].position < last
    ensures var st2 := Advance(st, c, last);
      st2.log == st.log && st2.groups == st.groups[c := st.groups[c].(position := last)] && forall e :: Settled(st2, c, e) <==> Settled(st, c, e)
  {
  }

  lemma BatchWaits(log: seq<LogRow>, topics: set<Topic>, position: int, limit: nat, next: nat)
    requires LogOk(log, next)
    ensures var batch := After(log, topics, position, limit);
      IsBatch(log, topics, position, limit, batch) && forall k :: 0 <= k < |batch| ==> batch[k] in log && Waits(batch[k], topics, position)
  {
    AfterIsExact(log, topics, position, limit, next);
    hide After, LogOk;
  }

  /** One delivery that nobody interrupts settles every event that waits, if the limit leaves room, and otherwise as
      many as the limit says, the oldest first; and the checkpoint is then exactly at the last of them. */
  lemma DeliveryMakesProgress(st: State, c: Consumer, limit: nat, script: seq<seq<Outcome>>)
    requires FactsOk(st) && LogOk(st.log, st.nextOffset) && c in st.groups && limit > 0
    ensures var st2, g := DeliverOne(st, c, limit, script), st.groups[c];
      && c in st2.groups && st2.log == st.log
      && (forall r :: r in st.log && Waits(r, g.topics, g.position) && r.offset <= st2.groups[c].position ==> Settled(st2, c, r.event))
      && ((exists r :: r in st.log && Waits(r, g.topics, g.position)) <==> st2.groups[c].position > g.position)
      && (st2.groups[c].position > g.position ==> exists r :: r in st.log && Waits(r, g.topics, g.position) && r.offset == st2.groups[c].position)
      && ((exists r :: r in st.log && Waits(r, g.topics, g.position) && r.offset > st2.groups[c].position) ==>
            |After(st.log, g.topics, g.position, limit)| == limit)
  {
    hide FactsOk, LogOk, DeliverOne, After, Settled;
    DeliveredIs(st, c, limit, script);
    var g := st.groups[c];
    var batch := After(st.log, g.topics, g.position, limit);
    if batch == [] {
      assert forall r :: r in st.log && Waits(r, g.topics, g.position) ==> r !in batch;
    } else {
      var last := batch[|batch| - 1];
      assert last in st.log && Waits(last, g.topics, g.position);
      forall r | r in st.log && Waits(r, g.topics, g.position) && r !in batch ensures last.offset < r.offset && |batch| == limit {}
      forall r | r in batch ensures r.offset <= last.offset {}
    }
  }

  // ---- appended, lost and replayed ------------------------------------------------------------------

  /** An appended event is in the log or rejected after the next relay with room for every row. */
  lemma AppendedIsRelayed(w: World, src: Source, row: OutRow, batch: nat, bad: set<EventId>)
    requires Inv(w) && batch > if src in w.st.outboxes then |w.st.outboxes[src]| else 0
    ensures var st2 := Play(w, [Append(src, row), RelayFrom(src, {}, batch, bad)]).st; var n := if src in w.st.outboxes then |w.st.outboxes[src]| else 0;
      && src in st2.outboxes && |st2.outboxes[src]| == n + 1 && st2.outboxes[src][n] == row.(published := true)
      && (InLog(st2.log, row.event) || row.event in st2.rejected)
  {
    var turns := [Append(src, row), RelayFrom(src, {}, batch, bad)];
    var w1 := Deal(w, turns[0]);
    DealKeeps(w, turns[0]);
    assert turns[1..][1..] == [] && Play(w, turns) == Play(w1, turns[1..]) && Play(w1, turns[1..]) == Deal(w1, turns[1]);
    RelayEmptiesTheOutbox(w1.st, src, batch, bad, |w1.st.outboxes[src]| - 1);
    hide Relay, Play;
  }

  /** The next delivery after a death starts again at the checkpoint, with every event that still waits there. */
  lemma DeathRedelivers(w: World, c: Consumer, limit: nat)
    requires Inv(w) && c in w.st.groups
    ensures var w2, g := Play(w, [Die(c), Begin(c, limit)]), w.st.groups[c];
      && w2.st == w.st && c in w2.active && w2.active[c].done == 0 && w2.active[c].from == g.position
      && IsBatch(w.st.log, g.topics, g.position, limit, w2.active[c].batch)
  {
    var turns := [Die(c), Begin(c, limit)];
    assert turns[1..][1..] == [] && Play(w, turns) == Play(Deal(w, turns[0]), turns[1..]);
    assert Play(Deal(w, turns[0]), turns[1..]) == Deal(Deal(w, turns[0]), turns[1]);
    AfterIsExact(w.st.log, w.st.groups[c].topics, w.st.groups[c].position, limit, w.st.nextOffset);
    hide After, IsBatch, Play;
  }

  /** What replaying row `n` for `c` has done, if some call acted, and if some call succeeded. */
  ghost predicate Replayed(st: State, st2: State, c: Consumer, n: nat, acted: bool, done: bool)
    requires n < |st.log|
  {
    var key := Key(c, st.log[n].event);
    && st2.handled == (if done then st.handled + {key} else st.handled) && st2.acted == (if acted then st.acted + {key} else st.acted)
    && st2.facts == (if acted && key !in st.facts then st.facts[key := st.log[n].fact] else st.facts)
    && st2.log == st.log && st2.groups == st.groups && st2.dead == st.dead && st2.outboxes == st.outboxes
  }

  lemma RetryStep(w: World, c: Consumer, n: nat, out: Outcome)
    requires n < |w.st.log|
    ensures Replayed(w.st, Deal(w, Retry(c, n, out)).st, c, n, out != Fails, out == Succeeds)
  {
  }

  lemma ReplayedTwice(a: State, b: State, st: State, c: Consumer, n: nat, acted1: bool, done1: bool, acted2: bool,
          done2: bool)
    requires n < |a.log| && Replayed(a, b, c, n, acted1, done1) && Replayed(b, st, c, n, acted2, done2)
    ensures Replayed(a, st, c, n, acted1 || acted2, done1 || done2)
  {
  }

  /** Replaying an event for one consumer, any number of times: it adds at most one fact, counts as handled if some call
      succeeds, and moves no checkpoint. */
  lemma {:induction false} ReplayedIs(w: World, c: Consumer, n: nat, outs: seq<Outcome>)
    requires n < |w.st.log|
    ensures var turns := seq(|outs|, i requires 0 <= i < |outs| => Retry(c, n, outs[i]));
      Replayed(w.st, Play(w, turns).st, c, n, Succeeds in outs || FailsAfterActing in outs, Succeeds in outs)
    decreases |outs|
  {
    var turns := seq(|outs|, i requires 0 <= i < |outs| => Retry(c, n, outs[i]));
    if outs != [] {
      var rest, w1 := outs[1..], Deal(w, turns[0]);
      assert outs == [outs[0]] + rest;
      assert turns[1..] == seq(|rest|, i requires 0 <= i < |rest| => Retry(c, n, rest[i]));
      RetryStep(w, c, n, outs[0]);
      assert Play(w, turns) == Play(w1, turns[1..]);
      hide Deal, Play;
      ReplayedIs(w1, c, n, rest);
      ReplayedTwice(w.st, w1.st, Play(w, turns).st, c, n, outs[0] != Fails, outs[0] == Succeeds, Succeeds in rest || FailsAfterActing in rest, Succeeds in rest);
      hide Replayed;
      assert FailsAfterActing in outs <==> outs[0] == FailsAfterActing || FailsAfterActing in rest;
    }
  }

  // ---- one delivery, uninterrupted ----------------------------------------------------------------

  /** The first `n` events of a batch, each with the outcomes its calls will have. */
  function HandleAll(st: State, c: Consumer, batch: seq<LogRow>, script: seq<seq<Outcome>>, n: nat): State
    requires n <= |batch|
  {
    if n == 0 then st else Try(HandleAll(st, c, batch, script, n - 1), c, batch[n - 1], ScriptOf(script, n - 1), 0)
  }

  function ScriptOf(script: seq<seq<Outcome>>, n: nat): seq<Outcome> { if n < |script| then script[n] else [] }

  function DeliverOne(st: State, c: Consumer, limit: nat, script: seq<seq<Outcome>>): State {
    if c !in st.groups then st
    else
      var batch := After(st.log, st.groups[c].topics, st.groups[c].position, limit);
      if batch == [] then st else Advance(HandleAll(st, c, batch, script, |batch|), c, batch[|batch| - 1].offset)
  }

  /** One of the calls the bus makes for an event succeeds. */
  predicate SomeSucceeds(outs: seq<Outcome>) { exists k :: 0 <= k < |outs| && k < ATTEMPTS && outs[k] == Succeeds }

  function Successes(script: seq<seq<Outcome>>, n: nat): nat {
    if n == 0 then 0 else Successes(script, n - 1) + if SomeSucceeds(ScriptOf(script, n - 1)) then 1 else 0
  }

  function Handles(c: Consumer, script: seq<seq<Outcome>>, n: nat): seq<Turn> {
    if n == 0 then [] else Handles(c, script, n - 1) + [HandleNext(c, ScriptOf(script, n - 1))]
  }

  lemma {:induction false} PlayAppend(w: World, a: seq<Turn>, t: Turn)
    ensures Play(w, a + [t]) == Deal(Play(w, a), t)
    decreases |a|
  {
    hide Deal;
    if a == [] {
      assert [t][1..] == [] && a + [t] == [t];
      assert Play(w, [t]) == Play(Deal(w, t), []);
    } else {
      assert (a + [t])[1..] == a[1..] + [t];
      PlayAppend(Deal(w, a[0]), a[1..], t);
    }
  }

  /** An uninterrupted delivery is a run of the machine: its start, a step per event, its end. */
  lemma {:induction false} DeliveryIsARun(st: State, active: map<Consumer, Delivery>, c: Consumer, batch: seq<LogRow>,
          from: int, script: seq<seq<Outcome>>, n: nat)
    requires n <= |batch| && c in active && active[c] == Delivery(from, batch, 0)
    ensures Play(World(st, active), Handles(c, script, n)) == World(HandleAll(st, c, batch, script, n), active[c := Delivery(from, batch, n)])
  {
    if n == 0 {
      assert active[c := Delivery(from, batch, 0)] == active;
    } else {
      DeliveryIsARun(st, active, c, batch, from, script, n - 1);
      PlayAppend(World(st, active), Handles(c, script, n - 1), HandleNext(c, ScriptOf(script, n - 1)));
      assert active[c := Delivery(from, batch, n - 1)][c := Delivery(from, batch, n)] == active[c := Delivery(from, batch, n)];
    }
  }
}

/** The bus itself. */
module EventBus {
  import opened Wrappers
  import opened Backbone

  class Bus {
    var outboxes: map<Source, seq<OutRow>>
    var log: seq<LogRow>
    var nextOffset: nat
    var rejected: set<EventId>
    var groups: map<Consumer, Group>
    var dead: set<Key>
    var handled: set<Key>
    var acted: set<Key>
    var facts: map<Key, Fact>

    function Now(): State
      reads this
    {
      State(outboxes, log, nextOffset, rejected, groups, dead, handled, acted, facts)
    }

    constructor (groups: map<Consumer, set<Topic>>)
      ensures Now() == Opening(groups).st
    {
      outboxes, log, nextOffset, rejected := map[], [], 1, {};
      this.groups := map c | c in groups :: Group(groups[c], 0);
      dead, handled, acted, facts := {}, {}, {}, map[];
    }

    /** One claimed outbox row. */
    method RelayOne(src: Source, n: nat, bad: set<EventId>)
      requires src in outboxes && n < |outboxes[src]|
      modifies this
      ensures Now() == RelayRow(old(Now()), src, n, bad)
    {
      var row := outboxes[src][n];
      if row.event in bad {
        rejected := rejected + {row.event};
      } else {
        if !InLog(log, row.event) { log := log + [LogRow(nextOffset, row.event, row.topic, row.fact)]; }
        nextOffset := nextOffset + 1;
      }
      outboxes := outboxes[src := outboxes[src][n := row.(published := true)]];
    }

    /** Relay, for one source: claim, check, publish or reject, mark. */
    method Relay(src: Source, locked: set<nat>, batch: nat, bad: set<EventId>)
      modifies this
      ensures Now() == Backbone.Relay(old(Now()), src, locked, batch, bad)
    {
      if src !in outboxes { return; }
      hide RelayRow;
      var ns := Claimed(outboxes[src], locked, batch, 0);
      for i := 0 to |ns|
        invariant Rows(old(outboxes)[src], ns[..i]) && Now() == RelayRows(old(Now()), src, ns[..i], bad)
      {
        assert ns[..i + 1][..i] == ns[..i];
        RelayOne(src, ns[i], bad);
      }
      assert ns[..|ns|] == ns;
    }

    /** The handler acts: one fact per event id. */
    method Act(c: Consumer, row: LogRow)
      modifies this`acted, this`facts
      ensures Now() == Ingest(old(Now()), c, row)
    {
      acted := acted + {Key(c, row.event)};
      if Key(c, row.event) !in facts { facts := facts[Key(c, row.event) := row.fact]; }
    }

    /** The calls of the handler for one event, until one succeeds or three have failed. */
    method Handle(c: Consumer, row: LogRow, outs: seq<Outcome>) returns (ok: bool)
      modifies this`dead, this`handled, this`acted, this`facts
      ensures Now() == Try(old(Now()), c, row, outs, 0)
      ensures ok <==> exists k :: 0 <= k < |outs| && k < 3 && outs[k] == Succeeds
      ensures handled == if ok then old(handled) + {Key(c, row.event)} else old(handled)
      ensures dead == if ok then old(dead) else old(dead) + {Key(c, row.event)}
    {
      var attempt := 0;
      while attempt < ATTEMPTS
        invariant handled == old(handled) && dead == old(dead)
        invariant forall k :: 0 <= k < attempt && k < |outs| ==> outs[k] != Succeeds
        invariant 0 <= attempt <= ATTEMPTS && Try(Now(), c, row, outs, attempt) == Try(old(Now()), c, row, outs, 0)
      {
        var out := if attempt < |outs| then outs[attempt] else Fails;
        if out != Fails { Act(c, row); }
        if out == Succeeds {
          handled := handled + {Key(c, row.event)};
          return true;
        }
        attempt := attempt + 1;
      }
      dead := dead + {Key(c, row.event)};
      return false;
    }

    method HandleBatch(c: Consumer, batch: seq<LogRow>, script: seq<seq<Outcome>>) returns (delivered: nat, failed: nat)
      modifies this`dead, this`handled, this`acted, this`facts
      ensures Now() == HandleAll(old(Now()), c, batch, script, |batch|)
      ensures delivered == Successes(script, |batch|) && failed == |batch| - delivered
    {
      delivered, failed := 0, 0;
      hide Try, SomeSucceeds, ScriptOf;
      for i := 0 to |batch|
        invariant Now() == HandleAll(old(Now()), c, batch, script, i)
        invariant delivered == Successes(script, i) && failed == i - delivered
      {
        var ok := Handle(c, batch[i], ScriptOf(script, i));
        if ok { delivered := delivered + 1; } else { failed := failed + 1; }
      }
    }

    /** deliverOne: the batch, its events in order, the checkpoint. */
    method DeliverOne(c: Consumer, limit: nat, script: seq<seq<Outcome>>) returns (delivered: nat, failed: nat)
      modifies this
      ensures Now() == Backbone.DeliverOne(old(Now()), c, limit, script)
      ensures c in old(groups) ==>
                var n := |After(old(log), old(groups)[c].topics, old(groups)[c].position, limit)|;
                delivered == Successes(script, n) && failed == n - delivered
    {
      if c !in groups { return 0, 0; }
      hide After, HandleAll, Successes;
      var batch := After(log, groups[c].topics, groups[c].position, limit);
      if batch == [] {
        NoSuccesses(script);
        return 0, 0;
      }
      delivered, failed := HandleBatch(c, batch, script);
      var last := batch[|batch| - 1].offset;
      if c in groups && groups[c].position < last { groups := groups[c := groups[c].(position := last)]; }
    }
  }

  lemma NoSuccesses(script: seq<seq<Outcome>>)
    ensures Successes(script, 0) == 0
  {
  }
}
