/** The database object and the peek-lock queue over it (packages/servicebus/local.py). */
module LocalQueue {
  import opened Values
  import opened Tables

  /**
   * The tables, and a log of what was committed: one entry for each session that may write. A queue method is a
   * session of its own; repository calls belong to their caller's session, which ends with `EndSession`.
   */
  class Database {
    var rows: seq<Row>
    var jobs: map<string, Job>
    var keys: map<string, KeyRow>
    var approvals: map<string, Approval>
    var events: seq<Event>
    var calls: seq<ToolCall>
    ghost var log: seq<Db>

    constructor ()
      ensures View() == EMPTY && log == []
    {
      rows, jobs, keys, approvals, events, calls := [], map[], map[], map[], [], [];
      log := [];
    }

    function View(): Db
      reads this
    {
      Db(rows, jobs, keys, approvals, events, calls)
    }

    /** Commits what the session wrote. */
    ghost method EndSession()
      modifies this`log
      ensures log == old(log) + [View()]
    {
      log := log + [View()];
    }
  }

  class Queue {
    const db: Database
    const name: string
    const maxDelivery: int

    constructor (db: Database, name: string, maxDelivery: int)
      ensures this.db == db && this.name == name && this.maxDelivery == maxDelivery
    {
      this.db, this.name, this.maxDelivery := db, name, maxDelivery;
    }

    method Publish(body: Body, now: int)
      modifies db`rows, db`log
      ensures db.rows == Published(old(db.rows), name, body, now)
      ensures db.log == old(db.log) + [db.View()]
    {
      db.rows := db.rows + [Row(name, body, Available, 0, now, None)];
      db.EndSession();
    }

    /** Claims the ready rows one by one: sets status, delivery count and visibility in place. */
    method Receive(max: nat, timeout: int, now: int) returns (claimed: seq<Message>)
      modifies db`rows, db`log
      ensures db.rows == ClaimAll(old(db.rows), Selected(old(db.rows), name, now, max), now, timeout)
      ensures db.log == old(db.log) + [db.View()]
      ensures claimed == MessagesOf(old(db.rows), Selected(old(db.rows), name, now, max))
    {
      var ids := Selected(db.rows, name, now, max);
      SelectedExact(db.rows, name, now, max);
      claimed := [];
      for i := 0 to |ids|
        invariant db.rows == ClaimAll(old(db.rows), ids[..i], now, timeout)
        invariant claimed == MessagesOf(old(db.rows), ids[..i])
        invariant db.log == old(db.log)
      {
        ClaimOneMore(old(db.rows), ids, i, now, timeout);
        var message := Claim(ids[i], timeout, now);
        claimed := claimed + [message];
      }
      assert ids[..|ids|] == ids;
      db.EndSession();
    }

    method Claim(id: nat, timeout: int, now: int) returns (message: Message)
      requires id < |db.rows|
      modifies db`rows
      ensures db.rows == old(db.rows)[id := ClaimRow(old(db.rows)[id], now, timeout)]
      ensures message == Message(old(db.rows)[id].body, old(db.rows)[id].deliveries + 1, id)
    {
      var row := db.rows[id].(status := Locked);
      row := row.(deliveries := row.deliveries + 1);
      row := row.(visibleAt := now + timeout);
      db.rows := db.rows[id := row];
      message := Message(row.body, row.deliveries, id);
    }

    method Complete(message: Message)
      modifies db`rows, db`log
      ensures db.rows == Completing(old(db.rows), message.handle)
      ensures db.log == old(db.log) + [db.View()]
    {
      if message.handle < |db.rows| {
        db.rows := db.rows[message.handle := db.rows[message.handle].(status := Completed)];
      }
      db.EndSession();
    }

    method Abandon(message: Message, now: int)
      modifies db`rows, db`log
      ensures db.rows == Abandoning(old(db.rows), message.handle, maxDelivery, now)
      ensures db.log == old(db.log) + [db.View()]
    {
      if message.handle >= |db.rows| {
        db.EndSession();
        return;
      }
      var row := db.rows[message.handle];
      if row.deliveries >= maxDelivery {
        row := row.(status := DeadLetter);
        row := row.(reason := Some("max delivery count exceeded"));
      } else {
        row := row.(status := Available);
        row := row.(visibleAt := now);
      }
      db.rows := db.rows[message.handle := row];
      db.EndSession();
    }

    method DeadLetterMessage(message: Message, reason: string)
      modifies db`rows, db`log
      ensures db.rows == DeadLettering(old(db.rows), message.handle, reason)
      ensures message.handle < |db.rows| ==>
                db.rows[message.handle].reason == Some(if reason == "" then "explicit dead-letter" else reason)
      ensures db.log == old(db.log) + [db.View()]
    {
      if message.handle < |db.rows| {
        var row := db.rows[message.handle].(status := DeadLetter);
        row := row.(reason := Some(if reason == "" then "explicit dead-letter" else reason));
        db.rows := db.rows[message.handle := row];
      }
      db.EndSession();
    }

    /** The histogram of statuses; a status without rows has no entry. */
    method Stats() returns (out: map<RowStatus, nat>)
      ensures forall st :: st in out <==> Count(db.rows, name, st) > 0
      ensures forall st :: st in out ==> out[st] == Count(db.rows, name, st)
    {
      out := map[];
      for i := 0 to |db.rows|
        invariant forall st :: st in out <==> Count(db.rows[..i], name, st) > 0
        invariant forall st :: st in out ==> out[st] == Count(db.rows[..i], name, st)
      {
        assert db.rows[..i + 1][..i] == db.rows[..i];
        var r := db.rows[i];
        if r.queue == name {
          out := out[r.status := (if r.status in out then out[r.status] else 0) + 1];
        }
      }
      assert db.rows[..|db.rows|] == db.rows;
    }
  }

  lemma ClaimOneMore(rows: seq<Row>, ids: seq<nat>, i: nat, now: int, timeout: int)
    requires i < |ids| && forall j :: 0 <= j < |ids| ==> ids[j] < |rows|
    requires forall j :: 0 <= j < i ==> ids[j] != ids[i]
    ensures ClaimAll(rows, ids[..i], now, timeout)[ids[i]] == rows[ids[i]]
    ensures ClaimAll(rows, ids[..i + 1], now, timeout)
            == ClaimAll(rows, ids[..i], now, timeout)[ids[i] := ClaimRow(rows[ids[i]], now, timeout)]
    ensures MessagesOf(rows, ids[..i + 1])
            == MessagesOf(rows, ids[..i]) + [Message(rows[ids[i]].body, rows[ids[i]].deliveries + 1, ids[i])]
  {
    assert ids[..i + 1] == ids[..i] + [ids[i]];
  }

  // ---------------------------------------------------------------- what a claim selects

  lemma {:induction false} ReadyExact(rows: seq<Row>, queue: string, now: int)
    ensures forall i, j :: 0 <= i < j < |Ready(rows, queue, now)| ==>
              Ready(rows, queue, now)[i] < Ready(rows, queue, now)[j]
    ensures forall id: nat :: id in Ready(rows, queue, now) <==> id < |rows| && IsReady(rows[id], queue, now)
  {
    if rows != [] {
      ReadyExact(rows[..|rows| - 1], queue, now);
    }
  }

  /**
   * The claim takes ready rows only, each once, in id order; a ready row left behind is younger than
   * every row taken and the batch is full.
   */
  lemma SelectedExact(rows: seq<Row>, queue: string, now: int, max: nat)
    ensures |Selected(rows, queue, now, max)| <= max
    ensures forall i, j :: 0 <= i < j < |Selected(rows, queue, now, max)| ==>
              Selected(rows, queue, now, max)[i] < Selected(rows, queue, now, max)[j]
    ensures forall id: nat :: id in Selected(rows, queue, now, max) ==>
              id < |rows| && rows[id].queue == queue && rows[id].status == Available && rows[id].visibleAt <= now
    ensures forall id: nat :: id < |rows| && rows[id].queue == queue && rows[id].status == Available
                              && rows[id].visibleAt <= now && id !in Selected(rows, queue, now, max) ==>
              |Selected(rows, queue, now, max)| == max
              && forall k :: k in Selected(rows, queue, now, max) ==> k < id
  {
    ReadyExact(rows, queue, now);
    var ready, ids := Ready(rows, queue, now), Selected(rows, queue, now, max);
    forall q | 0 <= q < |ids| ensures ready[q] in ids {
      assert ids[q] == ready[q];
    }
    forall id: nat | id < |rows| && IsReady(rows[id], queue, now) && id !in ids
      ensures |ids| == max && forall k :: k in ids ==> k < id
    {
      assert id in ready;
      var p :| 0 <= p < |ready| && ready[p] == id;
    }
  }

  /** After a claim: exactly the selected rows changed, and how; the messages carry the new counts, in id order. */
  lemma ClaimIsExact(rows: seq<Row>, queue: string, now: int, timeout: int, max: nat, id: nat)
    requires id < |rows|
    ensures var messages := MessagesOf(rows, Selected(rows, queue, now, max));
            && |messages| <= max && forall i, j :: 0 <= i < j < |messages| ==> messages[i].handle < messages[j].handle
    ensures var ids := Selected(rows, queue, now, max);
            var after, messages := ClaimAll(rows, ids, now, timeout), MessagesOf(rows, ids);
            && (after[id] != rows[id] <==> id in ids)
            && (id in ids ==> after[id].status == Locked && after[id].deliveries == rows[id].deliveries + 1
                              && after[id].visibleAt == now + timeout && rows[id].status == Available)
            && after[id].body == rows[id].body && after[id].queue == rows[id].queue
            && after[id].reason == rows[id].reason
            && (id in ids <==> exists m :: m in messages && m.handle == id)
            && (forall m :: m in messages && m.handle == id ==>
                  m.deliveries == after[id].deliveries && m.body == after[id].body)
  {
    SelectedExact(rows, queue, now, max);
    var ids := Selected(rows, queue, now, max);
    var messages := MessagesOf(rows, ids);
    if id in ids {
      var p :| 0 <= p < |ids| && ids[p] == id;
      assert messages[p].handle == id && messages[p] in messages;
    }
  }

  // ---------------------------------------------------------------- the histogram

  function Count(rows: seq<Row>, queue: string, status: RowStatus): nat
  {
    if rows == [] then 0
    else
      var last := rows[|rows| - 1];
      Count(rows[..|rows| - 1], queue, status) + (if last.queue == queue && last.status == status then 1 else 0)
  }

  /** The ids of the rows of the queue in this status. */
  function IdsIn(rows: seq<Row>, queue: string, status: RowStatus): set<nat>
  {
    set id: nat | id < |rows| && rows[id].queue == queue && rows[id].status == status
  }

  lemma {:induction false} CountIsCardinality(rows: seq<Row>, queue: string, status: RowStatus)
    ensures Count(rows, queue, status) == |IdsIn(rows, queue, status)|
  {
    if rows != [] {
      var n := |rows| - 1;
      CountIsCardinality(rows[..n], queue, status);
      var before := IdsIn(rows[..n], queue, status);
      if rows[n].queue == queue && rows[n].status == status {
        assert IdsIn(rows, queue, status) == before + {n};
      } else {
        assert IdsIn(rows, queue, status) == before;
      }
    }
  }

  /** How many rows of the table are the queue's. */
  function InQueue(rows: seq<Row>, queue: string): nat
  {
    if rows == [] then 0
    else InQueue(rows[..|rows| - 1], queue) + (if rows[|rows| - 1].queue == queue then 1 else 0)
  }

  lemma {:induction false} HistogramSums(rows: seq<Row>, queue: string)
    ensures Count(rows, queue, Available) + Count(rows, queue, Locked) + Count(rows, queue, Completed)
            + Count(rows, queue, DeadLetter) == InQueue(rows, queue)
  {
    if rows != [] {
      HistogramSums(rows[..|rows| - 1], queue);
    }
  }

  /** The count depends on the rows' queues only. */
  lemma {:induction false} InQueueDependsOnQueues(a: seq<Row>, b: seq<Row>, queue: string)
    requires |a| == |b| && forall i :: 0 <= i < |a| ==> a[i].queue == b[i].queue
    ensures InQueue(a, queue) == InQueue(b, queue)
  {
    if a != [] {
      InQueueDependsOnQueues(a[..|a| - 1], b[..|b| - 1], queue);
    }
  }
}
