/**
  The durable event queue: which row is claimed next, and what retries, dead letters and
  restarts do to it.
*/
module EventQueue {
  import opened Wrappers

  type Id = nat

  datatype EventType =
    | RecordingFinished | MessageReceived | RadarDetected | AccelDetected
    | MotionDue | MotionFinished | EmoTalkFinished | RecordingStarted
    | Scheduled | ReactionBankRefresh | MotionInvention | EventMemory | OtherEvent

  datatype Status = Pending | Processing | Completed | DeadLetter

  /** `rowid` is the order of insertion. */
  datatype Row = Row(
    kind: EventType, priority: int, receivedAt: real, rowid: nat,
    status: Status, attempts: nat, availableAt: real)

  const ACK_PRIORITY := 110
  const USER_PRIORITY := 100

  function EventPriority(k: EventType): int {
    match k
    case RecordingFinished => ACK_PRIORITY
    case MessageReceived => USER_PRIORITY
    case RadarDetected => 50
    case AccelDetected => 50
    case MotionDue => 40
    case MotionFinished => 40
    case EmoTalkFinished => 40
    case RecordingStarted => 40
    case Scheduled => -100
    case ReactionBankRefresh => -100
    case MotionInvention => -100
    case EventMemory => -100
    case OtherEvent => 0
  }

  /** Jobs with their own runner; the event worker never claims them. */
  predicate IsBackground(k: EventType) {
    k in {ReactionBankRefresh, MotionInvention, EventMemory}
  }

  predicate Done(r: Row) {
    r.status == Completed || r.status == DeadLetter
  }

  // ---- order ---------------------------------------------------------------

  predicate ArrivedBefore(a: Row, b: Row) {
    a.receivedAt < b.receivedAt || (a.receivedAt == b.receivedAt && a.rowid < b.rowid)
  }

  predicate MoreUrgent(a: Row, b: Row) {
    || a.priority > b.priority
    || (a.priority == b.priority
        && (a.availableAt < b.availableAt || (a.availableAt == b.availableAt && ArrivedBefore(a, b))))
  }

  predicate DistinctRows(rows: map<Id, Row>) {
    forall i, j :: i in rows && j in rows && i != j ==> rows[i].rowid != rows[j].rowid
  }

  /** `before` decides between any two different rows. */
  ghost predicate Decides(before: (Row, Row) -> bool) {
    && (forall a: Row, b: Row :: a.rowid != b.rowid ==> before(a, b) || before(b, a))
    && (forall a: Row, b: Row, c: Row :: before(a, b) && before(b, c) ==> before(a, c))
  }

  ghost predicate First(rows: map<Id, Row>, ready: Row -> bool, before: (Row, Row) -> bool, id: Id) {
    && id in rows && ready(rows[id])
    && forall j :: j in rows && j != id && ready(rows[j]) ==> before(rows[id], rows[j])
  }

  ghost predicate Selected(
    rows: map<Id, Row>, ready: Row -> bool, before: (Row, Row) -> bool, pick: Option<Id>)
  {
    if pick.Some? then First(rows, ready, before, pick.value)
    else forall j :: j in rows ==> !ready(rows[j])
  }

  /** `SELECT ... ORDER BY ... LIMIT 1`. */
  method Select(rows: map<Id, Row>, ready: Row -> bool, before: (Row, Row) -> bool)
    returns (pick: Option<Id>)
    requires DistinctRows(rows) && Decides(before)
    ensures Selected(rows, ready, before, pick)
  {
    pick := None;
    var todo := rows.Keys;
    while todo != {}
      invariant todo <= rows.Keys
      invariant pick.Some? ==> pick.value in rows && ready(rows[pick.value])
      invariant pick.None? ==> forall j :: j in rows && j !in todo ==> !ready(rows[j])
      invariant pick.Some? ==> forall j :: j in rows && j !in todo && j != pick.value && ready(rows[j]) ==>
        before(rows[pick.value], rows[j])
      decreases |todo|
    {
      var j :| j in todo;
      todo := todo - {j};
      if ready(rows[j]) && (pick.None? || before(rows[j], rows[pick.value])) {
        pick := Some(j);
      }
    }
  }

  function InArrivalOrder(): (Row, Row) -> bool {
    (a: Row, b: Row) => ArrivedBefore(a, b)
  }

  function InUrgencyOrder(): (Row, Row) -> bool {
    (a: Row, b: Row) => MoreUrgent(a, b)
  }

  lemma OrdersDecide()
    ensures Decides(InArrivalOrder()) && Decides(InUrgencyOrder())
  {
  }

  // ---- claiming ------------------------------------------------------------

  function AckReady(now: real): Row -> bool {
    (r: Row) => r.status == Pending && r.priority == ACK_PRIORITY && r.availableAt <= now
  }

  function UserWaiting(): Row -> bool {
    (r: Row) => r.status == Pending && r.priority == USER_PRIORITY
  }

  function OtherReady(now: real): Row -> bool {
    (r: Row) => r.status == Pending && r.availableAt <= now && !IsBackground(r.kind)
  }

  predicate NoneReady(rows: map<Id, Row>, ready: Row -> bool) {
    forall j :: j in rows ==> !ready(rows[j])
  }

  /** Acknowledgements first; then the head of the user lane, or nothing while that head is
      backing off; then whatever is most urgent. */
  ghost predicate Claimable(rows: map<Id, Row>, now: real, pick: Option<Id>) {
    if !NoneReady(rows, AckReady(now)) then
      pick.Some? && First(rows, AckReady(now), InArrivalOrder(), pick.value)
    else if !NoneReady(rows, UserWaiting()) then
      exists head ::
        && First(rows, UserWaiting(), InArrivalOrder(), head)
        && pick == if rows[head].availableAt > now then None else Some(head)
    else Selected(rows, OtherReady(now), InUrgencyOrder(), pick)
  }

  function Claimed(rows: map<Id, Row>, id: Id): map<Id, Row>
    requires id in rows
  {
    rows[id := rows[id].(status := Processing, attempts := rows[id].attempts + 1)]
  }

  function Enqueued(rows: map<Id, Row>, id: Id, kind: EventType, receivedAt: real, rowid: nat, now: real): map<Id, Row> {
    if id in rows then rows
    else rows[id := Row(kind, EventPriority(kind), receivedAt, rowid, Pending, 0, now)]
  }

  /** The cue of a motion is inserted with its chain, not as an event that came in, and gets the
      table's default priority. */
  function Cued(rows: map<Id, Row>, id: Id, dueAt: real, rowid: nat): map<Id, Row> {
    if id in rows then rows else rows[id := Row(MotionDue, 0, dueAt, rowid, Pending, 0, dueAt)]
  }

  /** Opening the table gives every row the priority of its type. */
  function Stamped(rows: map<Id, Row>): map<Id, Row> {
    map i | i in rows :: rows[i].(priority := EventPriority(rows[i].kind))
  }

  /** A processing row changes its status; any other row is left alone. */
  function Settled(rows: map<Id, Row>, id: Id, status: Status, availableAt: Option<real>): map<Id, Row> {
    if id in rows && rows[id].status == Processing then
      rows[id := rows[id].(status := status,
                           availableAt := if availableAt.Some? then availableAt.value else rows[id].availableAt)]
    else rows
  }

  function Recovered(rows: map<Id, Row>, now: real): map<Id, Row> {
    map i | i in rows ::
      if rows[i].status == Processing && !IsBackground(rows[i].kind)
      then rows[i].(status := Pending, availableAt := now) else rows[i]
  }

  function MaxReal(a: real, b: real): real {
    if a < b then b else a
  }

  class EventTable {
    var rows: map<Id, Row>
    var nextRow: nat

    ghost predicate Valid()
      reads this
    {
      DistinctRows(rows) && forall i :: i in rows ==> rows[i].rowid < nextRow
    }

    constructor ()
      ensures Valid() && rows == map[]
    {
      rows, nextRow := map[], 0;
    }

    method Enqueue(id: Id, kind: EventType, receivedAt: real, now: real) returns (inserted: bool)
      requires Valid()
      modifies this
      ensures Valid() && (inserted <==> id !in old(rows))
      ensures rows == Enqueued(old(rows), id, kind, receivedAt, old(nextRow), now)
    {
      inserted := id !in rows;
      if inserted {
        rows := rows[id := Row(kind, EventPriority(kind), receivedAt, nextRow, Pending, 0, now)];
        nextRow := nextRow + 1;
      }
    }

    method InsertCue(id: Id, dueAt: real)
      requires Valid()
      modifies this
      ensures Valid() && rows == Cued(old(rows), id, dueAt, old(nextRow))
    {
      if id !in rows {
        rows := rows[id := Row(MotionDue, 0, dueAt, nextRow, Pending, 0, dueAt)];
        nextRow := nextRow + 1;
      }
    }

    method Open()
      requires Valid()
      modifies this`rows
      ensures Valid() && rows == Stamped(old(rows))
    {
      rows := map i | i in rows :: rows[i].(priority := EventPriority(rows[i].kind));
    }

    method RecoverInterrupted(now: real)
      requires Valid()
      modifies this`rows
      ensures Valid() && rows == Recovered(old(rows), now)
    {
      rows := map i | i in rows ::
        if rows[i].status == Processing && !IsBackground(rows[i].kind)
        then rows[i].(status := Pending, availableAt := now) else rows[i];
    }

    method ClaimNext(now: real) returns (pick: Option<Id>)
      requires Valid()
      modifies this`rows
      ensures Valid() && Claimable(old(rows), now, pick)
      ensures rows == if pick.Some? then Claimed(old(rows), pick.value) else old(rows)
    {
      OrdersDecide();
      hide Decides, MoreUrgent, InUrgencyOrder, OtherReady;
      pick := Select(rows, AckReady(now), InArrivalOrder());
      if pick.None? {
        pick := Select(rows, UserWaiting(), InArrivalOrder());
        if pick.Some? {
          if rows[pick.value].availableAt > now {
            return None;
          }
        } else {
          pick := Select(rows, OtherReady(now), InUrgencyOrder());
        }
      }
      if pick.Some? {
        rows := Claimed(rows, pick.value);
      }
    }

    method Complete(id: Id)
      requires Valid()
      modifies this`rows
      ensures Valid() && rows == Settled(old(rows), id, Completed, None)
    {
      if id in rows && rows[id].status == Processing {
        rows := rows[id := rows[id].(status := Completed)];
      }
    }

    method Retry(id: Id, delay: real, now: real)
      requires Valid()
      modifies this`rows
      ensures Valid() && rows == Settled(old(rows), id, Pending, Some(now + MaxReal(0.0, delay)))
    {
      if id in rows && rows[id].status == Processing {
        rows := rows[id := rows[id].(status := Pending, availableAt := now + MaxReal(0.0, delay))];
      }
    }

    method DeadLetterEvent(id: Id)
      requires Valid()
      modifies this`rows
      ensures Valid() && rows == Settled(old(rows), id, DeadLetter, None)
    {
      if id in rows && rows[id].status == Processing {
        rows := rows[id := rows[id].(status := DeadLetter)];
      }
    }
  }
}
