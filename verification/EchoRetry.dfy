/**
  An echo whose processing is cut short after the ledger answered it: does the retry still
  recognise it?

  The ledger is consulted first and the event completed last, so that a crash or a failure in
  between makes the queue try the event again.  Meanwhile no other message is processed
  (`EventQueueLaws.ClaimIsInTurn`), so the ledger only records sends.  A message the retry does
  not recognise is answered, unless the webhook names the robot itself as its sender.
*/
module EchoRetry {
  import opened Wrappers
  import opened EchoLedger

  /** A recorded send: a whole message or a streamed chunk. */
  datatype Key = Message(request: Name) | Piece(request: Name, chunk: nat)

  /** What a webhook says of itself. */
  datatype Echo = Echo(room: Name, messageId: Option<Name>, text: Option<Name>)

  /** The sends that may answer the echo by content. */
  function OpenSends(t: Tables, e: Echo, window: real, now: real): set<Key> {
    if e.text.None? then {}
    else
      (set k | k in t.messages && Open(t.messages[k], e.room, e.text.value, WindowCutoff(now, window), now) ::
         Message(k))
      + (set k | k in t.streams && Open(t.streams[k], e.room, e.text.value, WindowCutoff(now, window), now) ::
           Piece(k.0, k.1))
  }

  predicate KeepsRow<K>(rows: map<K, Row>, e: Echo, from: real, now: real)
    requires e.messageId.Some?
  {
    exists j ::
      j in rows && rows[j].messageId == e.messageId && rows[j].room == e.room && from <= rows[j].sentAt <= now
  }

  /** Something sent to the room under the echo's id is still remembered. */
  predicate KeepsId(t: Tables, e: Echo, window: real, now: real) {
    var from := RetentionCutoff(now, window);
    && e.messageId.Some?
    && (|| KeepsRow(t.messages, e, from, now)
        || (e.messageId.value in t.media && t.media[e.messageId.value].room == e.room
            && from <= t.media[e.messageId.value].sentAt <= now)
        || KeepsRow(t.streams, e, from, now))
  }

  /** One attempt at the event asks the ledger. */
  ghost predicate Asked(before: Tables, e: Echo, window: real, now: real, after: Tables, r: Option<Match>) {
    EchoStep(before, e.room, e.messageId, e.text, window, now, after, r)
  }

  // ---- one attempt ---------------------------------------------------------

  lemma KnownIff(t: Tables, e: Echo, window: real, now: real)
    ensures Known(Pruned(t, RetentionCutoff(now, window)), e.room, e.messageId, now) <==> KeepsId(t, e, window, now)
  {
    if e.messageId.Some? {
      RowIff(t.messages, e, RetentionCutoff(now, window), now);
      RowIff(t.streams, e, RetentionCutoff(now, window), now);
    }
  }

  lemma RowIff<K>(rows: map<K, Row>, e: Echo, from: real, now: real)
    requires e.messageId.Some?
    ensures HasId(Kept(rows, from), e.room, e.messageId.value, now) <==> KeepsRow(rows, e, from, now)
  {
    var kept := Kept(rows, from);
    if KeepsRow(rows, e, from, now) {
      var j :| j in rows && rows[j].messageId == e.messageId && rows[j].room == e.room && from <= rows[j].sentAt <= now;
      assert j in kept && kept[j] == rows[j];
    }
  }

  /** Pruning takes away nothing that could still answer, now or later. */
  lemma PrunedOpens(t: Tables, e: Echo, window: real, now: real, later: real)
    requires now <= later
    ensures OpenSends(Pruned(t, RetentionCutoff(now, window)), e, window, later) == OpenSends(t, e, window, later)
  {
    assert RetentionCutoff(now, window) <= WindowCutoff(later, window);
  }

  lemma OpensIff(t: Tables, e: Echo, window: real, now: real)
    requires e.text.Some?
    ensures var cut := WindowCutoff(now, window);
      OpenSends(t, e, window, now) != {}
      <==> AnyOpen(t.messages, e.room, e.text.value, cut, now) || AnyOpen(t.streams, e.room, e.text.value, cut, now)
  {
    var cut := WindowCutoff(now, window);
    if AnyOpen(t.messages, e.room, e.text.value, cut, now) {
      var k :| k in t.messages && Open(t.messages[k], e.room, e.text.value, cut, now);
      assert Message(k) in OpenSends(t, e, window, now);
    }
    if AnyOpen(t.streams, e.room, e.text.value, cut, now) {
      var k :| k in t.streams && Open(t.streams[k], e.room, e.text.value, cut, now);
      assert Piece(k.0, k.1) in OpenSends(t, e, window, now);
    }
  }

  /** An attempt recognises the echo by its id exactly when that is remembered, and otherwise by
      content exactly when some send is open. */
  lemma RecognisedIff(before: Tables, e: Echo, window: real, now: real, after: Tables, r: Option<Match>)
    requires Asked(before, e, window, now, after, r)
    ensures r == Some(ById) <==> KeepsId(before, e, window, now)
    ensures r.Some? <==> KeepsId(before, e, window, now) || OpenSends(before, e, window, now) != {}
  {
    KnownIff(before, e, window, now);
    PrunedOpens(before, e, window, now, now);
    if e.text.Some? {
      OpensIff(Pruned(before, RetentionCutoff(now, window)), e, window, now);
    }
    hide KeepsId, Known, Oldest, AnyOpen, Pruned;
  }

  /** An attempt that recognises the echo by content uses up one send; one that does so by id, or
      not at all, uses up none. */
  lemma AttemptUses(before: Tables, e: Echo, window: real, now: real, after: Tables, r: Option<Match>, later: real)
    returns (used: set<Key>)
    requires Asked(before, e, window, now, after, r) && now <= later
    ensures |used| == (if r == Some(ByContent) then 1 else 0) && used <= OpenSends(before, e, window, now)
    ensures OpenSends(after, e, window, later) == OpenSends(before, e, window, later) - used
  {
    var t, cut := Pruned(before, RetentionCutoff(now, window)), WindowCutoff(now, window);
    PrunedOpens(before, e, window, now, now);
    PrunedOpens(before, e, window, now, later);
    used := {};
    if r == Some(ByContent) {
      if AnyOpen(t.messages, e.room, e.text.value, cut, now) {
        var k :| Oldest(t.messages, ByRequest(), e.room, e.text.value, cut, now, k)
                 && after == t.(messages := Consumed(t.messages, k));
        MessageUsed(t, e, window, now, k, later);
        used := {Message(k)};
      } else {
        var k :| Oldest(t.streams, ByChunk(), e.room, e.text.value, cut, now, k)
                 && after == t.(streams := Consumed(t.streams, k));
        PieceUsed(t, e, window, now, k, later);
        used := {Piece(k.0, k.1)};
      }
    }
  }

  lemma MessageUsed(t: Tables, e: Echo, window: real, now: real, k: Name, later: real)
    requires e.text.Some? && k in t.messages
    requires Open(t.messages[k], e.room, e.text.value, WindowCutoff(now, window), now)
    ensures Message(k) in OpenSends(t, e, window, now)
    ensures OpenSends(t.(messages := Consumed(t.messages, k)), e, window, later)
         == OpenSends(t, e, window, later) - {Message(k)}
  {
  }

  lemma PieceUsed(t: Tables, e: Echo, window: real, now: real, k: (Name, nat), later: real)
    requires e.text.Some? && k in t.streams
    requires Open(t.streams[k], e.room, e.text.value, WindowCutoff(now, window), now)
    ensures Piece(k.0, k.1) in OpenSends(t, e, window, now)
    ensures OpenSends(t.(streams := Consumed(t.streams, k)), e, window, later)
         == OpenSends(t, e, window, later) - {Piece(k.0, k.1)}
  {
    var n := t.(streams := Consumed(t.streams, k));
    forall x | x in OpenSends(t, e, window, later) - {Piece(k.0, k.1)} ensures x in OpenSends(n, e, window, later) {
      if x.Piece? {
        assert (x.request, x.chunk) in n.streams;
      }
    }
  }

  // ---- the sends in between ------------------------------------------------

  datatype Record =
    | Whole(request: Name, room: Name, text: Name, messageId: Option<Name>, at: real)
    | Chunk(request: Name, chunk: nat, room: Name, text: Name, messageId: Option<Name>, at: real)

  function Recorded(t: Tables, window: real, s: Record): Tables {
    var from := RetentionCutoff(s.at, window);
    var row := Row(s.messageId, s.room, s.text, s.at, false);
    match s
    case Whole(request, _, _, _, _) => t.(messages := Inserted(Kept(t.messages, from), request, row))
    case Chunk(request, chunk, _, _, _, _) => t.(streams := Inserted(Kept(t.streams, from), (request, chunk), row))
  }

  function AllRecorded(t: Tables, window: real, sends: seq<Record>): Tables {
    if sends == [] then t
    else Recorded(AllRecorded(t, window, sends[..|sends| - 1]), window, sends[|sends| - 1])
  }

  /** The send has nothing to do with the echo. */
  predicate Unrelated(e: Echo, s: Record) {
    s.room == e.room ==>
      && (s.messageId.Some? ==> s.messageId != e.messageId)
      && (s.messageId.None? ==> Some(s.text) != e.text)
  }

  lemma InsertedRow<K>(rows: map<K, Row>, from: real, k: K, row: Row, j: K)
    ensures var n := Inserted(Kept(rows, from), k, row);
      && (j in rows && rows[j].sentAt >= from ==> j in n && n[j] == rows[j])
      && (j in n ==> (j in rows && n[j] == rows[j]) || n[j] == row)
  {
  }

  /** An unrelated send changes nothing for the echo. */
  lemma UnrelatedKeeps(t: Tables, window: real, s: Record, e: Echo, now: real)
    requires Unrelated(e, s) && s.at <= now
    ensures KeepsId(Recorded(t, window, s), e, window, now) <==> KeepsId(t, e, window, now)
    ensures OpenSends(Recorded(t, window, s), e, window, now) == OpenSends(t, e, window, now)
  {
    hide Inserted, Kept, KeepsRow, Open, WindowCutoff, RetentionCutoff;
    var row := Row(s.messageId, s.room, s.text, s.at, false);
    match s
    case Whole(request, _, _, _, _) =>
      UnrelatedRow(t.messages, window, request, row, e, now);
    case Chunk(request, chunk, _, _, _, _) =>
      UnrelatedRow(t.streams, window, (request, chunk), row, e, now);
  }

  lemma UnrelatedRow<K>(rows: map<K, Row>, window: real, k: K, row: Row, e: Echo, now: real)
    requires row.sentAt <= now
    requires row.room == e.room ==>
      (row.messageId.Some? ==> row.messageId != e.messageId) && (row.messageId.None? ==> Some(row.text) != e.text)
    ensures var n := Inserted(Kept(rows, RetentionCutoff(row.sentAt, window)), k, row);
      && (e.messageId.Some? ==>
            (KeepsRow(n, e, RetentionCutoff(now, window), now)
             <==> KeepsRow(rows, e, RetentionCutoff(now, window), now)))
      && (e.text.Some? ==> forall j ::
            (j in n && Open(n[j], e.room, e.text.value, WindowCutoff(now, window), now))
            <==> (j in rows && Open(rows[j], e.room, e.text.value, WindowCutoff(now, window), now)))
  {
    var from := RetentionCutoff(row.sentAt, window);
    assert from <= RetentionCutoff(now, window) <= WindowCutoff(now, window);
    forall j: K {
      InsertedRow(rows, from, k, row, j);
    }
    hide Inserted, Kept;
  }

  lemma {:induction false} AllUnrelatedKeep(t: Tables, window: real, sends: seq<Record>, e: Echo, now: real)
    requires forall i :: 0 <= i < |sends| ==> Unrelated(e, sends[i]) && sends[i].at <= now
    ensures var u := AllRecorded(t, window, sends);
      && (KeepsId(u, e, window, now) <==> KeepsId(t, e, window, now))
      && OpenSends(u, e, window, now) == OpenSends(t, e, window, now)
  {
    hide KeepsId, OpenSends, Recorded, Unrelated;
    if sends != [] {
      var front := sends[..|sends| - 1];
      AllUnrelatedKeep(t, window, front, e, now);
      UnrelatedKeeps(AllRecorded(t, window, front), window, sends[|sends| - 1], e, now);
    }
  }

  // ---- a send and its echo -------------------------------------------------

  /** The key of the send is new. */
  predicate Fresh(t: Tables, s: Record) {
    match s
    case Whole(request, _, _, _, _) => request !in t.messages
    case Chunk(request, chunk, _, _, _, _) => (request, chunk) !in t.streams
  }

  function KeyOf(s: Record): Key {
    match s
    case Whole(request, _, _, _, _) => Message(request)
    case Chunk(request, chunk, _, _, _, _) => Piece(request, chunk)
  }

  lemma RecordedOpens(t: Tables, window: real, s: Record, e: Echo, now: real)
    requires Fresh(t, s) && s.messageId.None? && s.room == e.room && e.text == Some(s.text) && s.at <= now
    ensures OpenSends(Recorded(t, window, s), e, window, now)
         == OpenSends(t, e, window, now) + if s.at >= WindowCutoff(now, window) then {KeyOf(s)} else {}
    ensures KeepsId(Recorded(t, window, s), e, window, now) <==> KeepsId(t, e, window, now)
  {
    var from := RetentionCutoff(s.at, window);
    var row := Row(s.messageId, s.room, s.text, s.at, false);
    assert from <= RetentionCutoff(now, window) <= WindowCutoff(now, window);
    match s
    case Whole(request, _, _, _, _) =>
      RecordedRow(t.messages, from, request, row, e, window, now);
    case Chunk(request, chunk, _, _, _, _) =>
      RecordedRow(t.streams, from, (request, chunk), row, e, window, now);
      assert forall x: Key :: x.Piece? ==> x == Piece((x.request, x.chunk).0, (x.request, x.chunk).1);
  }

  lemma RecordedRow<K>(rows: map<K, Row>, from: real, k: K, row: Row, e: Echo, window: real, now: real)
    requires k !in rows && row.messageId.None? && from <= RetentionCutoff(now, window) <= WindowCutoff(now, window)
    ensures var n := Inserted(Kept(rows, from), k, row);
      && k in n && n[k] == row
      && (forall j :: j in n && j != k ==> j in rows && n[j] == rows[j])
      && (forall j :: j in rows && rows[j].sentAt >= from ==> j in n && n[j] == rows[j])
      && (e.messageId.Some? ==>
            (KeepsRow(n, e, RetentionCutoff(now, window), now) <==> KeepsRow(rows, e, RetentionCutoff(now, window), now)))
  {
    var n := Inserted(Kept(rows, from), k, row);
    hide RetentionCutoff, WindowCutoff;
    if e.messageId.Some? && KeepsRow(rows, e, RetentionCutoff(now, window), now) {
      var j :| j in rows && rows[j].messageId == e.messageId && rows[j].room == e.room
               && RetentionCutoff(now, window) <= rows[j].sentAt <= now;
      assert j in n && n[j] == rows[j];
    }
  }

  /** The one send of a text, whole or streamed, without an id: its echo is recognised by content
      exactly while the window lasts. */
  lemma SendIsRecognisedIff(t: Tables, window: real, s: Record, e: Echo, now: real, after: Tables, r: Option<Match>)
    requires Fresh(t, s) && s.messageId.None? && s.room == e.room && e.text == Some(s.text) && s.at <= now
    requires !KeepsId(t, e, window, now) && OpenSends(t, e, window, now) == {}
    requires Asked(Recorded(t, window, s), e, window, now, after, r)
    ensures r == if now - s.at <= (if window > 0.0 then window else 0.0) then Some(ByContent) else None
  {
    RecordedOpens(t, window, s, e, now);
    RecognisedIff(Recorded(t, window, s), e, window, now, after, r);
    hide Recorded, Asked, KeepsId, OpenSends;
  }

  lemma RecordedId(t: Tables, window: real, s: Record, e: Echo, now: real)
    requires Fresh(t, s) && s.messageId.Some? && s.messageId == e.messageId && s.room == e.room && s.at <= now
    requires (forall k :: k in t.messages ==> t.messages[k].messageId != s.messageId)
          && (forall k :: k in t.streams ==> t.streams[k].messageId != s.messageId)
          && s.messageId.value !in t.media
    ensures KeepsId(Recorded(t, window, s), e, window, now) <==> s.at >= RetentionCutoff(now, window)
  {
    var u := Recorded(t, window, s);
    match s
    case Whole(request, _, _, _, _) => assert request in u.messages && u.messages[request].sentAt == s.at;
    case Chunk(request, chunk, _, _, _, _) =>
      assert (request, chunk) in u.streams && u.streams[(request, chunk)].sentAt == s.at;
  }

  /** A send whose id is new is recognised by that id for a day, or for the window if that is longer. */
  lemma IdIsRecognisedIff(t: Tables, window: real, s: Record, e: Echo, now: real, after: Tables, r: Option<Match>)
    requires Fresh(t, s) && s.messageId.Some? && s.messageId == e.messageId && s.room == e.room && s.at <= now
    requires (forall k :: k in t.messages ==> t.messages[k].messageId != s.messageId)
          && (forall k :: k in t.streams ==> t.streams[k].messageId != s.messageId)
          && s.messageId.value !in t.media
    requires Asked(Recorded(t, window, s), e, window, now, after, r)
    ensures r == Some(ById) <==> now - s.at <= 86400.0 || now - s.at <= window
  {
    RecordedId(t, window, s, e, now);
    RecognisedIff(Recorded(t, window, s), e, window, now, after, r);
    hide Recorded, Asked, KeepsId, OpenSends;
  }

  // ---- the retry -----------------------------------------------------------

  /** Nothing is recorded of the future. */
  predicate Past(t: Tables, now: real) {
    && (forall k :: k in t.messages ==> t.messages[k].sentAt <= now)
    && (forall k :: k in t.streams ==> t.streams[k].sentAt <= now)
    && (forall k :: k in t.media ==> t.media[k].sentAt <= now)
  }

  lemma AttemptKeepsId(before: Tables, e: Echo, window: real, now: real, after: Tables, r: Option<Match>, later: real)
    requires Asked(before, e, window, now, after, r) && Past(before, now) && now <= later
    ensures KeepsId(after, e, window, later) <==> KeepsId(before, e, window, later)
    ensures KeepsId(before, e, window, later) ==> KeepsId(before, e, window, now)
  {
    if e.messageId.Some? {
      var t := Pruned(before, RetentionCutoff(now, window));
      SameIds(before.messages, t.messages, after.messages, e, window, now, later);
      SameIds(before.streams, t.streams, after.streams, e, window, now, later);
    }
  }

  lemma SameIds<K>(
    rows: map<K, Row>, kept: map<K, Row>, after: map<K, Row>, e: Echo, window: real, now: real, later: real)
    requires e.messageId.Some? && now <= later && kept == Kept(rows, RetentionCutoff(now, window))
    requires after == kept || exists k :: k in kept && after == Consumed(kept, k)
    requires forall k :: k in rows ==> rows[k].sentAt <= now
    ensures KeepsRow(after, e, RetentionCutoff(later, window), later)
       <==> KeepsRow(rows, e, RetentionCutoff(later, window), later)
    ensures KeepsRow(rows, e, RetentionCutoff(later, window), later) ==>
      KeepsRow(rows, e, RetentionCutoff(now, window), now)
  {
    var from := RetentionCutoff(later, window);
    assert RetentionCutoff(now, window) <= from;
    forall j: K
      ensures j in rows && rows[j].sentAt >= from ==>
        j in after && after[j].messageId == rows[j].messageId && after[j].room == rows[j].room
        && after[j].sentAt == rows[j].sentAt
      ensures j in after ==>
        j in rows && after[j].messageId == rows[j].messageId && after[j].room == rows[j].room
        && after[j].sentAt == rows[j].sentAt
    {
    }
    hide Kept, Consumed, RetentionCutoff;
  }

  /** The retry of an echo that was recognised, after any unrelated sends: recognised by id, it is
      recognised again exactly as long as the id is remembered or another send is open; recognised
      by content, exactly when a send is open besides the one it used up. */
  lemma RetryIsRecognisedIff(
    before: Tables, e: Echo, window: real, first: real, between: Tables, r1: Option<Match>,
    sends: seq<Record>, second: real, after: Tables, r2: Option<Match>)
    returns (used: set<Key>)
    requires Past(before, first) && first <= second
    requires Asked(before, e, window, first, between, r1) && r1.Some?
    requires forall i :: 0 <= i < |sends| ==> Unrelated(e, sends[i]) && sends[i].at <= second
    requires Asked(AllRecorded(between, window, sends), e, window, second, after, r2)
    ensures used <= OpenSends(before, e, window, first)
    ensures r1 == Some(ById) ==>
      used == {} && (r2.Some? <==> KeepsId(before, e, window, second) || OpenSends(before, e, window, second) != {})
    ensures r1 == Some(ByContent) ==>
      |used| == 1 && (r2.Some? <==> OpenSends(before, e, window, second) - used != {})
  {
    hide KeepsId, OpenSends, Asked, Unrelated, Past, AllRecorded;
    RecognisedIff(before, e, window, first, between, r1);
    used := AttemptUses(before, e, window, first, between, r1, second);
    AttemptKeepsId(before, e, window, first, between, r1, second);
    AllUnrelatedKeep(between, window, sends, e, second);
    RecognisedIff(AllRecorded(between, window, sends), e, window, second, after, r2);
  }

  lemma OpensShrink(t: Tables, e: Echo, window: real, first: real, second: real)
    requires Past(t, first) && first <= second
    ensures OpenSends(t, e, window, second) <= OpenSends(t, e, window, first)
  {
  }

  /** One send, one echo: when the attempt that consumed the send is cut short, the retry never
      recognises the robot's own words. */
  lemma OneSendIsNotEnough(
    before: Tables, e: Echo, window: real, first: real, between: Tables,
    sends: seq<Record>, second: real, after: Tables, r2: Option<Match>)
    requires Past(before, first) && first <= second && |OpenSends(before, e, window, first)| == 1
    requires Asked(before, e, window, first, between, Some(ByContent))
    requires forall i :: 0 <= i < |sends| ==> Unrelated(e, sends[i]) && sends[i].at <= second
    requires Asked(AllRecorded(between, window, sends), e, window, second, after, r2)
    ensures r2 == None
  {
    var used := RetryIsRecognisedIff(before, e, window, first, between, Some(ByContent), sends, second, after, r2);
    OpensShrink(before, e, window, first, second);
    hide OpenSends, Asked, Unrelated, Past, AllRecorded;
    OnlyOne(OpenSends(before, e, window, first), used);
  }

  lemma OnlyOne(all: set<Key>, some: set<Key>)
    requires some <= all && |some| == |all|
    ensures some == all
  {
    assert all == some + (all - some);
  }

  /** Such a run: sent at 0, its echo consumed at 1, tried again at 2. */
  lemma AnsweredItself(room: Name, text: Name)
    ensures var e := Echo(room, None, Some(text));
      var sent := Recorded(Tables(map[], map[], map[]), 60.0, Whole(1, room, text, None, 0.0));
      var used := sent.(messages := Consumed(map[1 := Row(None, room, text, 0.0, false)], 1));
      && sent.messages == map[1 := Row(None, room, text, 0.0, false)]
      && Asked(sent, e, 60.0, 1.0, used, Some(ByContent))
      && Asked(used, e, 60.0, 2.0, used, None)
  {
    var none: map<Name, Row> := map[];
    var one := map[1 := Row(None, room, text, 0.0, false)];
    var sent := Tables(one, map[], map[]);
    assert none[1 := Row(None, room, text, 0.0, false)] == one;
    assert Recorded(Tables(map[], map[], map[]), 60.0, Whole(1, room, text, None, 0.0)) == sent by {
      assert Kept(none, RetentionCutoff(0.0, 60.0)) == none;
    }
    var used := sent.(messages := Consumed(one, 1));
    assert Pruned(sent, RetentionCutoff(1.0, 60.0)) == sent;
    assert Pruned(used, RetentionCutoff(2.0, 60.0)) == used;
    assert Open(one[1], room, text, WindowCutoff(1.0, 60.0), 1.0);
    assert Oldest(one, ByRequest(), room, text, WindowCutoff(1.0, 60.0), 1.0, 1);
  }
}
