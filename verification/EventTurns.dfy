/**
  Whose turn it is, said on the kinds of events: acknowledgements, then the user's messages, then
  what the robot felt, then what it is moving through, then the rest; and when a cue that is due
  is passed over.
*/
module EventTurns {
  import opened Wrappers
  import opened EventQueue
  import opened EventQueueLaws

  /** Every row has the priority it is given when it is enqueued. */
  predicate ByKind(rows: map<Id, Row>) {
    forall i :: i in rows ==> rows[i].priority == Enqueued(map[], i, rows[i].kind, 0.0, 0, 0.0)[i].priority
  }

  predicate Ready(r: Row, now: real) {
    r.status == Pending && r.availableAt <= now
  }

  predicate AckIsReady(rows: map<Id, Row>, now: real) {
    exists j :: j in rows && rows[j].kind == RecordingFinished && Ready(rows[j], now)
  }

  predicate UserIsWaiting(rows: map<Id, Row>) {
    exists j :: j in rows && rows[j].kind == MessageReceived && rows[j].status == Pending
  }

  /** The order in which the rest takes turns; `None` for the jobs that have a runner of their own. */
  function Turn(k: EventType): Option<nat> {
    if k == RadarDetected || k == AccelDetected then Some(0)
    else if k == MotionDue || k == MotionFinished || k == EmoTalkFinished || k == RecordingStarted then Some(1)
    else if k == OtherEvent then Some(2)
    else if k == Scheduled then Some(3)
    else None
  }

  /** An acknowledgement that is ready is claimed before anything else, the earliest first. */
  lemma AcksGoFirst(rows: map<Id, Row>, now: real, pick: Option<Id>, j: Id)
    requires ByKind(rows) && Claimable(rows, now, pick)
    requires j in rows && rows[j].kind == RecordingFinished && Ready(rows[j], now)
    ensures pick.Some? && pick.value in rows
    ensures var a, b := rows[pick.value], rows[j];
      && a.kind == RecordingFinished && Ready(a, now)
      && (pick.value == j || a.receivedAt < b.receivedAt || (a.receivedAt == b.receivedAt && a.rowid < b.rowid))
  {
    assert AckReady(now)(rows[j]);
  }

  /** Otherwise, while a user's message is pending, the earliest pending one is claimed, or nothing
      while that one is not yet available. */
  lemma UsersGoNext(rows: map<Id, Row>, now: real, pick: Option<Id>)
    requires ByKind(rows) && Claimable(rows, now, pick) && !AckIsReady(rows, now) && UserIsWaiting(rows)
    ensures exists head ::
      EarliestUser(rows, head) && (if rows[head].availableAt > now then pick == None else pick == Some(head))
  {
    var u :| u in rows && rows[u].kind == MessageReceived && rows[u].status == Pending;
    assert UserWaiting()(rows[u]);
    assert NoneReady(rows, AckReady(now));
    var head :| First(rows, UserWaiting(), InArrivalOrder(), head)
                && pick == if rows[head].availableAt > now then None else Some(head);
    HeadIsEarliest(rows, head);
  }

  /** The earliest of the user's messages that are pending. */
  predicate EarliestUser(rows: map<Id, Row>, head: Id) {
    && head in rows && rows[head].kind == MessageReceived && rows[head].status == Pending
    && forall j :: j in rows && j != head && rows[j].kind == MessageReceived && rows[j].status == Pending ==>
         || rows[head].receivedAt < rows[j].receivedAt
         || (rows[head].receivedAt == rows[j].receivedAt && rows[head].rowid < rows[j].rowid)
  }

  lemma HeadIsEarliest(rows: map<Id, Row>, head: Id)
    requires ByKind(rows) && First(rows, UserWaiting(), InArrivalOrder(), head)
    ensures EarliestUser(rows, head)
  {
    forall j | j in rows && rows[j].kind == MessageReceived && rows[j].status == Pending
      ensures UserWaiting()(rows[j])
    {
    }
  }

  /** Row `a` has its turn before `b`: by the turns of their kinds, then what has been available
      longer, then what arrived first. */
  predicate HasTurnBefore(a: Row, b: Row)
    requires Turn(a.kind).Some? && Turn(b.kind).Some?
  {
    || Turn(a.kind).value < Turn(b.kind).value
    || (Turn(a.kind) == Turn(b.kind)
        && (|| a.availableAt < b.availableAt
            || (a.availableAt == b.availableAt
                && (a.receivedAt < b.receivedAt || (a.receivedAt == b.receivedAt && a.rowid < b.rowid)))))
  }

  lemma UrgencyIsTurn(rows: map<Id, Row>, i: Id, j: Id)
    requires ByKind(rows) && i in rows && j in rows && MoreUrgent(rows[i], rows[j])
    requires Turn(rows[i].kind).Some? && Turn(rows[j].kind).Some?
    ensures HasTurnBefore(rows[i], rows[j])
  {
  }

  /** Otherwise the kinds take turns: radar and acceleration, then the signals of motions and
      recordings, then other events, and scheduled ones last.  The jobs with a runner of their own
      are never claimed. */
  lemma RestTakesTurns(rows: map<Id, Row>, now: real, pick: Option<Id>)
    requires ByKind(rows) && Claimable(rows, now, pick) && !AckIsReady(rows, now) && !UserIsWaiting(rows)
    ensures pick.None? ==> forall j :: j in rows && Turn(rows[j].kind).Some? ==> !Ready(rows[j], now)
    ensures pick.Some? ==>
      && pick.value in rows && Ready(rows[pick.value], now) && Turn(rows[pick.value].kind).Some?
      && forall j :: j in rows && j != pick.value && Ready(rows[j], now) && Turn(rows[j].kind).Some? ==>
           HasTurnBefore(rows[pick.value], rows[j])
  {
    RestIsSelected(rows, now, pick);
    hide ByKind, Claimable, MoreUrgent, HasTurnBefore;
    if pick.Some? {
      OthersHaveTurns(rows, now, pick.value);
      forall j | j in rows && j != pick.value && Ready(rows[j], now) && Turn(rows[j].kind).Some?
        ensures HasTurnBefore(rows[pick.value], rows[j])
      {
        assert OtherReady(now)(rows[j]);
        UrgencyIsTurn(rows, pick.value, j);
      }
    } else {
      forall j | j in rows && Turn(rows[j].kind).Some? ensures !Ready(rows[j], now) {
        assert !OtherReady(now)(rows[j]);
      }
    }
  }

  lemma RestIsSelected(rows: map<Id, Row>, now: real, pick: Option<Id>)
    requires ByKind(rows) && Claimable(rows, now, pick) && !AckIsReady(rows, now) && !UserIsWaiting(rows)
    ensures Selected(rows, OtherReady(now), InUrgencyOrder(), pick)
  {
    forall j | j in rows ensures !AckReady(now)(rows[j]) && !UserWaiting()(rows[j]) {
    }
    assert NoneReady(rows, AckReady(now)) && NoneReady(rows, UserWaiting());
  }

  lemma OthersHaveTurns(rows: map<Id, Row>, now: real, id: Id)
    requires ByKind(rows) && !AckIsReady(rows, now) && !UserIsWaiting(rows)
    requires id in rows && OtherReady(now)(rows[id])
    ensures Ready(rows[id], now) && Turn(rows[id].kind).Some?
  {
  }

  // ---- over whole runs -----------------------------------------------------

  /** Rows that come from anywhere else have the priority of their kind too. */
  predicate AllByKind(steps: seq<Step>) {
    forall i :: 0 <= i < |steps| && steps[i].Elsewhere? ==> ByKind(map[steps[i].id := steps[i].row])
  }

  lemma StepByKind(w: World, cfg: Config, s: Step)
    requires CanStep(w, s) && ByKind(w.rows) && (s.Elsewhere? ==> ByKind(map[s.id := s.row]))
    ensures ByKind(Next(w, cfg, s).rows)
  {
    match s
    case Claim(now, pick) =>
      if pick.Some? {
        PickIsPending(w.rows, now, pick.value);
      }
      hide Claimable;
    case Elsewhere(id, row) =>
      assert map[id := row][id] == row;
      hide Claimable;
    case Fail(now) =>
      hide Claimable, Backoff;
      FailureByKind(w.rows, w.worker.id, cfg.maxAttempts, Backoff(cfg.retryBase, w.rows[w.worker.id].attempts), now);
    case _ => hide Claimable, Backoff, AfterFailure;
  }

  lemma FailureByKind(rows: map<Id, Row>, id: Id, most: nat, delay: real, now: real)
    requires id in rows && ByKind(rows)
    ensures ByKind(AfterFailure(rows, id, most, delay, now))
  {
  }

  /** Nothing that happens to an event changes its place. */
  lemma {:induction false} RunByKind(w: World, cfg: Config, steps: seq<Step>)
    requires ByKind(w.rows) && CanRun(w, cfg, steps) && AllByKind(steps)
    ensures ByKind(Ran(w, cfg, steps).rows)
    decreases |steps|
  {
    if steps != [] {
      StepByKind(w, cfg, steps[0]);
      hide ByKind, Next, CanStep;
      RunByKind(Next(w, cfg, steps[0]), cfg, steps[1..]);
    }
  }

  // ---- cues ----------------------------------------------------------------

  /** Rows have the priorities of their kinds, but for cues inserted since the table was opened,
      `id` among them. */
  predicate NewCue(rows: map<Id, Row>, id: Id) {
    && id in rows && rows[id].kind == MotionDue && rows[id].priority == 0
    && forall i :: i in rows ==> ByKind(map[i := rows[i]]) || (rows[i].kind == MotionDue && rows[i].priority == 0)
  }

  /** Row `j` is ready and goes before a cue that has no place yet. */
  predicate Overtakes(rows: map<Id, Row>, now: real, id: Id, j: Id)
    requires id in rows
  {
    && j in rows && j != id && Ready(rows[j], now)
    && var a, b := rows[j], rows[id];
       || (Turn(a.kind) == Some(1) && a.priority != 0)
       || ((Turn(a.kind) == Some(2) || Turn(a.kind) == Some(1))
           && (|| a.availableAt < b.availableAt
               || (a.availableAt == b.availableAt
                   && (a.receivedAt < b.receivedAt || (a.receivedAt == b.receivedAt && a.rowid < b.rowid)))))
  }

  /** What each priority says about the kind, when only cues may lack theirs. */
  lemma KindsOf(rows: map<Id, Row>, id: Id, j: Id)
    requires NewCue(rows, id) && j in rows
    ensures var r := rows[j];
      && (r.priority == ACK_PRIORITY <==> r.kind == RecordingFinished)
      && (r.priority == USER_PRIORITY <==> r.kind == MessageReceived)
      && (r.priority > 0 && r.priority != ACK_PRIORITY && r.priority != USER_PRIORITY ==>
            Turn(r.kind) == Some(0) || Turn(r.kind) == Some(1))
      && (r.priority == 0 <==> r.kind == OtherEvent || (r.kind == MotionDue && r.priority == 0))
      && (Turn(r.kind) == Some(1) ==> r.priority >= 0)
  {
    if ByKind(map[j := rows[j]]) {
      assert map[j := rows[j]][j] == rows[j];
    }
  }

  lemma OpeningGivesKinds(rows: map<Id, Row>)
    ensures ByKind(Stamped(rows))
  {
  }

  /** When it would be the cue's turn after an opening, nothing is ready that goes before its kind. */
  lemma CueIsNext(rows: map<Id, Row>, now: real, id: Id)
    requires NewCue(rows, id) && Claimable(Stamped(rows), now, Some(id))
    ensures Ready(rows[id], now)
    ensures forall j :: j in rows ==>
      && !(rows[j].kind == RecordingFinished && Ready(rows[j], now))
      && !(rows[j].kind == MessageReceived && rows[j].status == Pending)
      && !(Turn(rows[j].kind) == Some(0) && Ready(rows[j], now))
  {
    var after := Stamped(rows);
    OpeningGivesKinds(rows);
    hide Claimable, ByKind;
    assert forall j :: j in rows ==> after[j] == rows[j].(priority := EventPriority(rows[j].kind));
    if j :| j in after && after[j].kind == RecordingFinished && Ready(after[j], now) {
      AcksGoFirst(after, now, Some(id), j);
    }
    if UserIsWaiting(after) {
      UsersGoNext(after, now, Some(id));
    }
    RestTakesTurns(after, now, Some(id));
    forall j | j in rows
      ensures !(rows[j].kind == RecordingFinished && Ready(rows[j], now))
      ensures !(rows[j].kind == MessageReceived && rows[j].status == Pending)
      ensures !(Turn(rows[j].kind) == Some(0) && Ready(rows[j], now))
    {
      assert after[j].kind == rows[j].kind;
    }
  }

  /** Then it is not claimed exactly when another signal of a motion or a recording is ready, or an
      event of another kind, or another such cue, that comes before it. */
  lemma CueIsPassedOverIff(rows: map<Id, Row>, now: real, pick: Option<Id>, id: Id)
    requires DistinctRows(rows) && NewCue(rows, id)
    requires Claimable(rows, now, pick) && Claimable(Stamped(rows), now, Some(id))
    ensures pick != Some(id) <==> exists j :: Overtakes(rows, now, id, j)
  {
    CueIsNext(rows, now, id);
    forall j | j in rows ensures !AckReady(now)(rows[j]) && !UserWaiting()(rows[j]) {
      KindsOf(rows, id, j);
    }
    assert NoneReady(rows, AckReady(now)) && NoneReady(rows, UserWaiting());
    assert Selected(rows, OtherReady(now), InUrgencyOrder(), pick);
    assert OtherReady(now)(rows[id]);
    hide Claimable, NoneReady, Stamped, NewCue;
    if j :| Overtakes(rows, now, id, j) {
      KindsOf(rows, id, j);
      assert OtherReady(now)(rows[j]);
      assert !MoreUrgent(rows[id], rows[j]);
    }
    if pick != Some(id) {
      KindsOf(rows, id, pick.value);
      assert MoreUrgent(rows[pick.value], rows[id]);
      assert Overtakes(rows, now, id, pick.value);
    }
  }

  /** A cue due at 1 is passed over at 3 for the end of a motion that came in at 2. */
  lemma CueIsPassedOver()
    ensures var cue, signal := Row(MotionDue, 0, 1.0, 0, Pending, 0, 1.0), Row(MotionFinished, 40, 2.0, 1, Pending, 0, 2.0);
      var rows := map[1 := cue, 2 := signal];
      && rows == Enqueued(Cued(map[], 1, 1.0, 0), 2, MotionFinished, 2.0, 1, 2.0)
      && Claimable(rows, 3.0, Some(2)) && Claimable(Stamped(rows), 3.0, Some(1))
  {
    var rows := map[1 := Row(MotionDue, 0, 1.0, 0, Pending, 0, 1.0), 2 := Row(MotionFinished, 40, 2.0, 1, Pending, 0, 2.0)];
    var after := Stamped(rows);
    assert after[1] == rows[1].(priority := 40) && after[2] == rows[2];
    assert OtherReady(3.0)(rows[2]) && OtherReady(3.0)(after[1]);
    assert First(rows, OtherReady(3.0), InUrgencyOrder(), 2);
    assert First(after, OtherReady(3.0), InUrgencyOrder(), 1);
  }
}
