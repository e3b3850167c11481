/**
  Consuming the oldest open send suppresses as many echoes as any pairing could.
*/
module EchoLedgerLaws {
  import opened Wrappers
  import opened EchoLedger

  /** A reply recorded as sent, or a webhook whose message id (if any) is unknown here. */
  datatype Event =
    | Sent(request: Name, room: Name, text: Name, messageId: Option<Name>, at: real)
    | Echoed(room: Name, text: Name, at: real)

  /** Times do not decrease, and each request sends one message. */
  ghost predicate Trace(events: seq<Event>) {
    && (forall i, j :: 0 <= i < j < |events| ==> events[i].at <= events[j].at)
    && (forall i, j :: 0 <= i < j < |events| && events[i].Sent? && events[j].Sent? ==>
          events[i].request != events[j].request)
  }

  /** One room, one text, and the correlation window. */
  datatype Query = Query(room: Name, text: Name, window: real)

  predicate IsSend(q: Query, e: Event) {
    e.Sent? && e.room == q.room && e.text == q.text && e.messageId.None?
  }

  predicate IsEcho(q: Query, e: Event) {
    e.Echoed? && e.room == q.room && e.text == q.text
  }

  /** Send `i` may answer echo `j`. */
  predicate Answers(q: Query, events: seq<Event>, i: nat, j: nat)
    requires i < |events| && j < |events|
  {
    i < j && IsSend(q, events[i]) && IsEcho(q, events[j])
    && WindowCutoff(events[j].at, q.window) <= events[i].at
  }

  /** `pairs` gives echoes (by position) distinct earlier sends inside the window. */
  ghost predicate Assignment(q: Query, events: seq<Event>, pairs: map<nat, Name>) {
    && (forall j :: j in pairs ==> j < |events| && exists i: nat ::
          i < |events| && Answers(q, events, i, j) && events[i].request == pairs[j])
    && (forall j, k :: j in pairs && k in pairs && j != k ==> pairs[j] != pairs[k])
  }

  // ---- the run -------------------------------------------------------------

  /** The row an echo consumes, if any. */
  ghost function Pick(rows: map<Name, Row>, room: Name, text: Name, window: real, now: real): (r: Option<Name>)
    ensures r.Some? ==> Oldest(rows, ByRequest(), room, text, WindowCutoff(now, window), now, r.value)
    ensures r.None? ==> !AnyOpen(rows, room, text, WindowCutoff(now, window), now)
  {
    PickExists(rows, room, text, WindowCutoff(now, window), now);
    if k :| Oldest(rows, ByRequest(), room, text, WindowCutoff(now, window), now, k) then Some(k)
    else None
  }

  lemma PickExists(rows: map<Name, Row>, room: Name, text: Name, cutoff: real, now: real)
    ensures AnyOpen(rows, room, text, cutoff, now) ==>
      exists k :: Oldest(rows, ByRequest(), room, text, cutoff, now, k)
  {
    var open := set k | k in rows && Open(rows[k], room, text, cutoff, now);
    if AnyOpen(rows, room, text, cutoff, now) {
      var some :| some in rows && Open(rows[some], room, text, cutoff, now);
      assert some in open;
      var k := OldestOf(rows, open);
      assert Oldest(rows, ByRequest(), room, text, cutoff, now, k);
    }
  }

  lemma {:induction false} OldestOf(rows: map<Name, Row>, among: set<Name>) returns (first: Name)
    requires among != {} && among <= rows.Keys
    ensures first in among
    ensures forall j :: j in among && j != first ==> Earlier(rows, ByRequest(), first, j)
    decreases |among|
  {
    first :| first in among;
    var rest := among - {first};
    assert among == rest + {first};
    if rest != {} {
      var j := OldestOf(rows, rest);
      if Earlier(rows, ByRequest(), j, first) {
        first := j;
      }
    }
  }

  ghost function AfterEvent(rows: map<Name, Row>, window: real, e: Event): map<Name, Row> {
    var kept := Kept(rows, RetentionCutoff(e.at, window));
    match e
    case Sent(request, room, text, messageId, at) =>
      Inserted(kept, request, Row(messageId, room, text, at, false))
    case Echoed(room, text, at) =>
      var p := Pick(kept, room, text, window, at);
      if p.Some? then Consumed(kept, p.value) else kept
  }

  /** The table of whole messages after the first `n` events. */
  ghost function Table(window: real, events: seq<Event>, n: nat): map<Name, Row>
    requires n <= |events|
  {
    if n == 0 then map[] else AfterEvent(Table(window, events, n - 1), window, events[n - 1])
  }

  /** The echoes suppressed among the first `n` events, with the sends they consumed. */
  ghost function Suppressed(q: Query, events: seq<Event>, n: nat): map<nat, Name>
    requires n <= |events|
  {
    if n == 0 then map[]
    else
      var before, e := Suppressed(q, events, n - 1), events[n - 1];
      if !IsEcho(q, e) then before
      else
        var kept := Kept(Table(q.window, events, n - 1), RetentionCutoff(e.at, q.window));
        var p := Pick(kept, e.room, e.text, q.window, e.at);
        if p.Some? then before[n - 1 := p.value] else before
  }

  /** The incoming-webhook method makes this step on whole messages whenever the id is unknown. */
  lemma EchoStepPicks(
    before: Tables, room: Name, messageId: Option<Name>, text: Name, window: real, now: real,
    after: Tables, r: Option<Match>)
    requires EchoStep(before, room, messageId, Some(text), window, now, after, r)
    requires !Known(Pruned(before, RetentionCutoff(now, window)), room, messageId, now)
    ensures after.messages == AfterEvent(before.messages, window, Echoed(room, text, now))
  {
    var kept := Kept(before.messages, RetentionCutoff(now, window));
    OrdersAreTotal();
    var cut := WindowCutoff(now, window);
    forall a, b | Oldest(kept, ByRequest(), room, text, cut, now, a)
                  && Oldest(kept, ByRequest(), room, text, cut, now, b)
      ensures a == b
    {
    }
  }

  // ---- sets of unanswered sends --------------------------------------------

  function Above(free: set<Name>, at: map<Name, real>, from: real): set<Name> {
    set r | r in free && r in at && at[r] >= from
  }

  /** `free` unanswered sends and `done` pairs leave at least as much open, from every later
      time on, as `other` and `paid`. */
  ghost predicate Ahead(free: set<Name>, done: nat, other: set<Name>, paid: nat, at: map<Name, real>, from: real) {
    forall t: real :: t >= from ==> |Above(free, at, t)| + done >= |Above(other, at, t)| + paid
  }

  function Without(s: set<Name>, o: Option<Name>): set<Name> {
    if o.Some? then s - {o.value} else s
  }

  function Count(o: Option<Name>): nat {
    if o.Some? then 1 else 0
  }

  lemma AboveWithout(s: set<Name>, at: map<Name, real>, o: Option<Name>, t: real)
    requires o.Some? ==> o.value in s && o.value in at
    ensures |Above(Without(s, o), at, t)|
         == |Above(s, at, t)| - (if o.Some? && at[o.value] >= t then 1 else 0)
  {
    if o.Some? {
      assert Above(Without(s, o), at, t) == Above(s, at, t) - {o.value};
    }
  }

  lemma AboveAnti(s: set<Name>, at: map<Name, real>, t: real, u: real)
    requires t <= u
    ensures Above(s, at, u) <= Above(s, at, t) && |Above(s, at, u)| <= |Above(s, at, t)|
  {
    var more := Above(s, at, t) - Above(s, at, u);
    assert Above(s, at, u) + more == Above(s, at, t);
  }

  /** The exchange argument: answering an echo with the oldest send inside the window keeps the
      greedy side ahead, whatever the other side answers it with. */
  lemma Exchange(free: set<Name>, done: nat, other: set<Name>, paid: nat, at: map<Name, real>,
                 from: real, mine: Option<Name>, theirs: Option<Name>)
    requires free <= at.Keys && other <= at.Keys
    requires Ahead(free, done, other, paid, at, from)
    requires mine.Some? ==> mine.value in Above(free, at, from)
    requires mine.Some? ==> forall r :: r in Above(free, at, from) ==> at[mine.value] <= at[r]
    requires mine.None? ==> Above(free, at, from) == {}
    requires theirs.Some? ==> theirs.value in Above(other, at, from)
    ensures Ahead(Without(free, mine), done + Count(mine), Without(other, theirs), paid + Count(theirs), at, from)
  {
    forall t: real | t >= from
      ensures |Above(Without(free, mine), at, t)| + done + Count(mine)
           >= |Above(Without(other, theirs), at, t)| + paid + Count(theirs)
    {
      AboveWithout(free, at, mine, t);
      AboveWithout(other, at, theirs, t);
      AboveAnti(free, at, from, t);
      AboveAnti(other, at, from, t);
      assert |Above(free, at, from)| + done >= |Above(other, at, from)| + paid;
      if theirs.Some? && at[theirs.value] < t {
        assert Above(other, at, t) <= Above(other, at, from) - {theirs.value};
        SubsetSize(Above(other, at, t), Above(other, at, from) - {theirs.value});
        if mine.None? || at[mine.value] >= t {
          assert Above(free, at, t) == Above(free, at, from);
        }
      }
    }
  }

  lemma SubsetSize(a: set<Name>, b: set<Name>)
    requires a <= b
    ensures |a| <= |b|
  {
    assert a + (b - a) == b;
  }

  // ---- the sends of one query ----------------------------------------------

  /** When each send of the query among the first `n` events was made. */
  function At(q: Query, events: seq<Event>, n: nat): map<Name, real>
    requires n <= |events|
  {
    if n == 0 then map[]
    else if IsSend(q, events[n - 1]) then
      At(q, events, n - 1)[events[n - 1].request := events[n - 1].at]
    else At(q, events, n - 1)
  }

  function Requests(events: seq<Event>, n: nat): set<Name>
    requires n <= |events|
  {
    if n == 0 then {}
    else if events[n - 1].Sent? then Requests(events, n - 1) + {events[n - 1].request}
    else Requests(events, n - 1)
  }

  lemma {:induction false} RequestsAre(events: seq<Event>, n: nat)
    requires n <= |events|
    ensures forall r :: r in Requests(events, n) <==>
      exists i :: 0 <= i < n && events[i].Sent? && events[i].request == r
  {
    if n > 0 {
      RequestsAre(events, n - 1);
    }
  }

  /** How the table mirrors the sends `at`: inside the window every send has its row, consumed
      exactly when an echo was charged to it, and every row of the query is one of the sends. */
  ghost predicate Mirrors(q: Query, table: map<Name, Row>, at: map<Name, real>, used: set<Name>,
                          known: set<Name>, last: real)
  {
    && (forall r :: r in at && at[r] >= WindowCutoff(last, q.window) ==>
          r in table && table[r] == Row(None, q.room, q.text, at[r], r in used))
    && (forall r :: r in table ==>
          table[r].room == q.room && table[r].text == q.text && table[r].messageId.None? ==>
            r in at && at[r] == table[r].sentAt)
    && (forall r :: r in at ==> at[r] <= last && r in known)
    && table.Keys <= known && used <= at.Keys
  }

  lemma SentMirrors(q: Query, table: map<Name, Row>, at: map<Name, real>, used: set<Name>,
                    known: set<Name>, last: real, e: Event)
    requires Mirrors(q, table, at, used, known, last)
    requires e.Sent? && e.request !in known && last <= e.at
    ensures Mirrors(q, AfterEvent(table, q.window, e), if IsSend(q, e) then at[e.request := e.at] else at,
                    used, known + {e.request}, e.at)
  {
  }

  lemma EchoMirrors(q: Query, table: map<Name, Row>, at: map<Name, real>, used: set<Name>,
                    known: set<Name>, last: real, e: Event)
    requires Mirrors(q, table, at, used, known, last)
    requires e.Echoed? && last <= e.at
    ensures
      var p := Pick(Kept(table, RetentionCutoff(e.at, q.window)), e.room, e.text, q.window, e.at);
      Mirrors(q, AfterEvent(table, q.window, e), at,
              if IsEcho(q, e) && p.Some? then used + {p.value} else used, known, e.at)
  {
    var kept := Kept(table, RetentionCutoff(e.at, q.window));
    var p := Pick(kept, e.room, e.text, q.window, e.at);
    assert Mirrors(q, kept, at, used, known, e.at);
    if p.Some? {
      assert Open(kept[p.value], e.room, e.text, WindowCutoff(e.at, q.window), e.at);
    }
  }

  ghost predicate Linked(q: Query, events: seq<Event>, n: nat, last: real)
    requires n <= |events|
  {
    && Mirrors(q, Table(q.window, events, n), At(q, events, n), Suppressed(q, events, n).Values,
               Requests(events, n), last)
    && forall j :: j in Suppressed(q, events, n) ==> j < n
  }

  lemma NextLinked(q: Query, events: seq<Event>, n: nat, last: real)
    requires Trace(events) && n < |events| && last <= events[n].at && Linked(q, events, n, last)
    ensures Linked(q, events, n + 1, events[n].at)
  {
    hide Mirrors, AfterEvent;
    var e := events[n];
    var table, at, done := Table(q.window, events, n), At(q, events, n), Suppressed(q, events, n);
    if e.Sent? {
      RequestsAre(events, n);
      SentMirrors(q, table, at, done.Values, Requests(events, n), last, e);
    } else {
      EchoMirrors(q, table, at, done.Values, Requests(events, n), last, e);
      var p := Pick(Kept(table, RetentionCutoff(e.at, q.window)), e.room, e.text, q.window, e.at);
      if IsEcho(q, e) && p.Some? {
        assert done[n := p.value].Values == done.Values + {p.value} by {
          NewKeyValues(done, n, p.value);
        }
      }
    }
  }

  lemma NewKeyValues(m: map<nat, Name>, k: nat, v: Name)
    requires k !in m
    ensures m[k := v].Values == m.Values + {v} && |m[k := v]| == |m| + 1
  {
    var n := m[k := v];
    assert n.Keys == m.Keys + {k};
    forall x | x in m.Values + {v} ensures x in n.Values {
      if x == v {
        assert n[k] == v;
      } else {
        var j :| j in m && m[j] == x;
        assert n[j] == x;
      }
    }
  }

  function Upto(pairs: map<nat, Name>, n: nat): map<nat, Name> {
    map j | j in pairs && j < n :: pairs[j]
  }

  /** The sends of the query that `pairs` has not used. */
  function Free(q: Query, events: seq<Event>, n: nat, pairs: map<nat, Name>): set<Name>
    requires n <= |events|
  {
    At(q, events, n).Keys - pairs.Values
  }

  ghost predicate Leads(q: Query, events: seq<Event>, n: nat, pairs: map<nat, Name>, last: real)
    requires n <= |events|
  {
    Ahead(Free(q, events, n, Suppressed(q, events, n)), |Suppressed(q, events, n)|,
          Free(q, events, n, Upto(pairs, n)), |Upto(pairs, n)|,
          At(q, events, n), WindowCutoff(last, q.window))
  }

  lemma NextLeads(q: Query, events: seq<Event>, n: nat, pairs: map<nat, Name>, last: real)
    requires Trace(events) && Assignment(q, events, pairs) && n < |events| && last <= events[n].at
    requires Linked(q, events, n, last) && Leads(q, events, n, pairs, last)
    ensures Leads(q, events, n + 1, pairs, events[n].at)
  {
    if IsEcho(q, events[n]) {
      EchoLeads(q, events, n, pairs, last);
    } else {
      OnlyEchoesPaired(q, events, n, pairs);
      if IsSend(q, events[n]) {
        SendLeads(q, events, n, pairs, last);
      } else {
        hide Trace, Assignment, Linked;
        assert Suppressed(q, events, n + 1) == Suppressed(q, events, n);
        assert At(q, events, n + 1) == At(q, events, n);
      }
    }
  }

  lemma OnlyEchoesPaired(q: Query, events: seq<Event>, n: nat, pairs: map<nat, Name>)
    requires Assignment(q, events, pairs) && n < |events| && !IsEcho(q, events[n])
    ensures Upto(pairs, n + 1) == Upto(pairs, n)
  {
  }

  lemma SendLeads(q: Query, events: seq<Event>, n: nat, pairs: map<nat, Name>, last: real)
    requires Trace(events) && Assignment(q, events, pairs) && n < |events| && last <= events[n].at
    requires Linked(q, events, n, last) && Leads(q, events, n, pairs, last)
    requires IsSend(q, events[n]) && Upto(pairs, n + 1) == Upto(pairs, n)
    ensures Leads(q, events, n + 1, pairs, events[n].at)
  {
    hide Ahead, Trace, Assignment, Mirrors, Table;
    var done, other, e := Suppressed(q, events, n), Upto(pairs, n), events[n];
    RequestIsNew(events, n);
    PairsAreEarlier(q, events, n, pairs);
    LinkedKeys(q, events, n, last);
    AheadSend(Free(q, events, n, done), |done|, Free(q, events, n, other), |other|, At(q, events, n),
              WindowCutoff(last, q.window), WindowCutoff(e.at, q.window), e.request, e.at);
    assert Free(q, events, n + 1, done) == Free(q, events, n, done) + {e.request};
    assert Free(q, events, n + 1, other) == Free(q, events, n, other) + {e.request};
  }

  lemma LinkedKeys(q: Query, events: seq<Event>, n: nat, last: real)
    requires n <= |events| && Linked(q, events, n, last)
    ensures At(q, events, n).Keys <= Requests(events, n)
    ensures Suppressed(q, events, n).Values <= At(q, events, n).Keys
  {
  }

  lemma RequestIsNew(events: seq<Event>, n: nat)
    requires Trace(events) && n < |events| && events[n].Sent?
    ensures events[n].request !in Requests(events, n)
  {
    RequestsAre(events, n);
  }

  /** A new send adds as much to both sides. */
  lemma AheadSend(free: set<Name>, done: nat, other: set<Name>, paid: nat, at: map<Name, real>,
                  from: real, later: real, r: Name, when: real)
    requires free <= at.Keys && other <= at.Keys && r !in at && from <= later
    requires Ahead(free, done, other, paid, at, from)
    ensures Ahead(free + {r}, done, other + {r}, paid, at[r := when], later)
  {
    var mine, theirs, then_ := free + {r}, other + {r}, at[r := when];
    forall t: real | t >= later
      ensures |Above(mine, then_, t)| + done >= |Above(theirs, then_, t)| + paid
    {
      AboveSend(free, at, r, when, t);
      AboveSend(other, at, r, when, t);
    }
  }

  lemma AboveSend(free: set<Name>, at: map<Name, real>, r: Name, when: real, t: real)
    requires free <= at.Keys && r !in at
    ensures |Above(free + {r}, at[r := when], t)| == |Above(free, at, t)| + (if when >= t then 1 else 0)
  {
    assert Above(free + {r}, at[r := when], t) == Above(free, at, t) + (if when >= t then {r} else {});
  }

  /** What an assignment uses before event `n` was sent before event `n`. */
  lemma PairsAreEarlier(q: Query, events: seq<Event>, n: nat, pairs: map<nat, Name>)
    requires Assignment(q, events, pairs) && n <= |events|
    ensures forall r :: r in Upto(pairs, n).Values ==> r in Requests(events, n)
  {
    RequestsAre(events, n);
    forall r | r in Upto(pairs, n).Values ensures r in Requests(events, n) {
      var j :| j in pairs && j < n && pairs[j] == r;
      var i: nat :| i < |events| && Answers(q, events, i, j) && events[i].request == pairs[j];
    }
  }

  lemma EchoLeads(q: Query, events: seq<Event>, n: nat, pairs: map<nat, Name>, last: real)
    requires Trace(events) && Assignment(q, events, pairs) && n < |events| && last <= events[n].at
    requires Linked(q, events, n, last) && Leads(q, events, n, pairs, last)
    requires IsEcho(q, events[n])
    ensures Leads(q, events, n + 1, pairs, events[n].at)
  {
    var e := events[n];
    var at, done, other := At(q, events, n), Suppressed(q, events, n), Upto(pairs, n);
    var free, spare, from := Free(q, events, n, done), Free(q, events, n, other), WindowCutoff(e.at, q.window);
    var kept := Kept(Table(q.window, events, n), RetentionCutoff(e.at, q.window));
    var mine := Pick(kept, e.room, e.text, q.window, e.at);
    var theirs := if n in pairs then Some(pairs[n]) else None;
    PickIsOldestFree(q, events, n, last);
    if n in pairs {
      TheirsIsSpare(q, events, n, pairs);
    }
    assert Ahead(free, |done|, spare, |other|, at, from);
    Exchange(free, |done|, spare, |other|, at, from, mine, theirs);
    assert n !in done;
    hide Ahead, Trace, Assignment, Linked, Above, Table, Kept;
    assert Suppressed(q, events, n + 1) == Plus(done, n, mine);
    PlusPair(done, n, mine, at.Keys);
    UptoNext(pairs, n);
    PlusPair(other, n, theirs, at.Keys);
  }

  function Plus(m: map<nat, Name>, n: nat, o: Option<Name>): map<nat, Name> {
    if o.Some? then m[n := o.value] else m
  }

  lemma PlusPair(m: map<nat, Name>, n: nat, o: Option<Name>, keys: set<Name>)
    requires n !in m
    ensures |Plus(m, n, o)| == |m| + Count(o)
    ensures keys - Plus(m, n, o).Values == Without(keys - m.Values, o)
  {
    if o.Some? {
      NewKeyValues(m, n, o.value);
    }
  }

  lemma UptoNext(pairs: map<nat, Name>, n: nat)
    ensures Upto(pairs, n + 1) == Plus(Upto(pairs, n), n, if n in pairs then Some(pairs[n]) else None)
  {
  }

  lemma PickIsOldestFree(q: Query, events: seq<Event>, n: nat, last: real)
    requires Trace(events) && n < |events| && last <= events[n].at && Linked(q, events, n, last)
    requires IsEcho(q, events[n])
    ensures
      var e := events[n];
      var at, from := At(q, events, n), WindowCutoff(e.at, q.window);
      var free := Above(Free(q, events, n, Suppressed(q, events, n)), at, from);
      var kept := Kept(Table(q.window, events, n), RetentionCutoff(e.at, q.window));
      var mine := Pick(kept, e.room, e.text, q.window, e.at);
      && (mine.Some? ==> mine.value in free && forall r :: r in free ==> at[mine.value] <= at[r])
      && (mine.None? ==> free == {})
  {
    var e := events[n];
    var at, from := At(q, events, n), WindowCutoff(e.at, q.window);
    var free := Above(Free(q, events, n, Suppressed(q, events, n)), at, from);
    var kept := Kept(Table(q.window, events, n), RetentionCutoff(e.at, q.window));
    assert forall r :: r in free ==> r in kept && Open(kept[r], e.room, e.text, from, e.at) && kept[r].sentAt == at[r];
    assert forall r :: r in kept && Open(kept[r], e.room, e.text, from, e.at) ==> r in free;
  }

  lemma TheirsIsSpare(q: Query, events: seq<Event>, n: nat, pairs: map<nat, Name>)
    requires Trace(events) && Assignment(q, events, pairs) && n < |events| && n in pairs
    ensures pairs[n] in Above(Free(q, events, n, Upto(pairs, n)), At(q, events, n),
                              WindowCutoff(events[n].at, q.window))
  {
    var i: nat :| i < |events| && Answers(q, events, i, n) && events[i].request == pairs[n];
    AtKeeps(q, events, i, n);
  }

  lemma {:induction false} AtKeeps(q: Query, events: seq<Event>, i: nat, n: nat)
    requires Trace(events) && i < n <= |events| && IsSend(q, events[i])
    ensures events[i].request in At(q, events, n) && At(q, events, n)[events[i].request] == events[i].at
  {
    if i < n - 1 {
      AtKeeps(q, events, i, n - 1);
    }
  }

  lemma {:induction false} StaysAhead(q: Query, events: seq<Event>, n: nat, pairs: map<nat, Name>)
    requires Trace(events) && Assignment(q, events, pairs) && 0 < n <= |events|
    ensures Linked(q, events, n, events[n - 1].at) && Leads(q, events, n, pairs, events[n - 1].at)
  {
    hide Linked, Leads, Trace, Assignment;
    var last := events[if n == 1 then 0 else n - 2].at;
    if n == 1 {
      Begins(q, events, pairs, last);
    } else {
      StaysAhead(q, events, n - 1, pairs);
    }
    InOrder(events, if n == 1 then 0 else n - 2, n - 1);
    NextLinked(q, events, n - 1, last);
    NextLeads(q, events, n - 1, pairs, last);
  }

  lemma InOrder(events: seq<Event>, i: nat, j: nat)
    requires Trace(events) && i <= j < |events|
    ensures events[i].at <= events[j].at
  {
  }

  lemma Begins(q: Query, events: seq<Event>, pairs: map<nat, Name>, last: real)
    ensures Linked(q, events, 0, last) && Leads(q, events, 0, pairs, last)
  {
    assert Upto(pairs, 0) == map[];
  }

  /** Over any trace, no assignment of echoes to distinct sends inside the window suppresses
      more echoes than consuming the oldest send does. */
  lemma GreedyIsMaximum(q: Query, events: seq<Event>, pairs: map<nat, Name>)
    requires Trace(events) && Assignment(q, events, pairs)
    ensures |pairs| <= |Suppressed(q, events, |events|)|
  {
    var n := |events|;
    assert Upto(pairs, n) == pairs;
    if n > 0 {
      StaysAhead(q, events, n, pairs);
      var beyond := events[n - 1].at + 1.0;
      var at, done := At(q, events, n), Suppressed(q, events, n);
      assert Above(Free(q, events, n, done), at, beyond) == {};
      assert Above(Free(q, events, n, pairs), at, beyond) == {};
    } else {
      assert pairs == map[];
    }
  }

  lemma {:induction false} AtIsSent(q: Query, events: seq<Event>, n: nat, r: Name) returns (i: nat)
    requires n <= |events| && r in At(q, events, n)
    ensures i < n && IsSend(q, events[i]) && events[i].request == r && events[i].at == At(q, events, n)[r]
  {
    if IsSend(q, events[n - 1]) && events[n - 1].request == r {
      i := n - 1;
    } else {
      i := AtIsSent(q, events, n - 1, r);
    }
  }

  lemma LinkedBefore(q: Query, events: seq<Event>, n: nat) returns (last: real)
    requires Trace(events) && n < |events|
    ensures last <= events[n].at && Linked(q, events, n, last)
  {
    hide Linked, Leads, Trace, Assignment;
    if n == 0 {
      last := events[0].at;
      Begins(q, events, map[], last);
    } else {
      last := events[n - 1].at;
      NothingAssigned(q, events);
      StaysAhead(q, events, n, map[]);
      InOrder(events, n - 1, n);
    }
  }

  lemma NothingAssigned(q: Query, events: seq<Event>)
    ensures Assignment(q, events, map[])
  {
  }

  /** The echoes that are suppressed form such an assignment themselves: each send suppresses
      at most one echo, and only one that came later and inside the window. */
  lemma {:induction false} GreedyIsAssignment(q: Query, events: seq<Event>, n: nat)
    requires Trace(events) && n <= |events|
    ensures Assignment(q, events, Suppressed(q, events, n))
  {
    hide Linked, Trace, Assignment, Kept, Table;
    if n == 0 {
      NothingAssigned(q, events);
    } else {
      GreedyIsAssignment(q, events, n - 1);
      var e := events[n - 1];
      var last := LinkedBefore(q, events, n - 1);
      var kept := Kept(Table(q.window, events, n - 1), RetentionCutoff(e.at, q.window));
      if IsEcho(q, e) && Pick(kept, e.room, e.text, q.window, e.at).Some? {
        var r := Pick(kept, e.room, e.text, q.window, e.at).value;
        PickIsOldestFree(q, events, n - 1, last);
        var i := AtIsSent(q, events, n - 1, r);
        AssignMore(q, events, Suppressed(q, events, n - 1), i, n - 1);
      }
    }
  }

  lemma AssignMore(q: Query, events: seq<Event>, pairs: map<nat, Name>, i: nat, n: nat)
    requires Assignment(q, events, pairs) && n < |events| && i < n && Answers(q, events, i, n)
    requires events[i].request !in pairs.Values
    ensures Assignment(q, events, pairs[n := events[i].request])
  {
    var more := pairs[n := events[i].request];
    forall j, k | j in more && k in more && j != k ensures more[j] != more[k] {
      assert j in pairs ==> pairs[j] in pairs.Values;
      assert k in pairs ==> pairs[k] in pairs.Values;
    }
  }

  // ---- over runs of the ledger ---------------------------------------------

  /** The tables as one operation found and left them, and what a webhook was told. */
  datatype Visit = Visit(messageId: Option<Name>, before: Tables, after: Tables, result: Option<Match>)

  /** A send is recorded among the whole messages; a webhook whose id is unknown makes its step. */
  ghost predicate Served(window: real, e: Event, v: Visit) {
    match e
    case Sent(request, room, text, messageId, at) =>
      v.after.messages
      == Inserted(Kept(v.before.messages, RetentionCutoff(at, window)), request, Row(messageId, room, text, at, false))
    case Echoed(room, text, at) =>
      && EchoStep(v.before, room, v.messageId, Some(text), window, at, v.after, v.result)
      && !Known(Pruned(v.before, RetentionCutoff(at, window)), room, v.messageId, at)
  }

  /** Operations on an empty ledger, one for each event.  Chunks and media may be recorded in
      between: only the whole messages are left as they were. */
  ghost predicate LedgerRun(window: real, events: seq<Event>, visits: seq<Visit>) {
    && |visits| == |events|
    && (forall i :: 0 <= i < |events| ==> Served(window, events[i], visits[i]))
    && (|visits| > 0 ==> visits[0].before.messages == map[])
    && (forall i :: 0 < i < |visits| ==> visits[i].before.messages == visits[i - 1].after.messages)
  }

  lemma ServedStep(window: real, e: Event, v: Visit)
    requires Served(window, e, v)
    ensures v.after.messages == AfterEvent(v.before.messages, window, e)
  {
    if e.Echoed? {
      hide AfterEvent, EchoStep;
      EchoStepPicks(v.before, e.room, v.messageId, e.text, window, e.at, v.after, v.result);
    }
  }

  lemma {:induction false} RunIsTable(window: real, events: seq<Event>, visits: seq<Visit>, n: nat)
    requires LedgerRun(window, events, visits) && n < |events|
    ensures visits[n].before.messages == Table(window, events, n)
  {
    hide Served, AfterEvent;
    if n > 0 {
      RunIsTable(window, events, visits, n - 1);
      ServedStep(window, events[n - 1], visits[n - 1]);
    }
  }

  /** An echo that the greedy rule answers is answered. */
  lemma {:induction false} SuppressedAreAnswered(q: Query, events: seq<Event>, visits: seq<Visit>, n: nat)
    requires LedgerRun(q.window, events, visits) && n <= |events|
    ensures forall j :: j in Suppressed(q, events, n) ==>
      j < n && IsEcho(q, events[j]) && visits[j].result == Some(ByContent)
  {
    hide Served, AfterEvent, Kept;
    if n > 0 {
      SuppressedAreAnswered(q, events, visits, n - 1);
      var e := events[n - 1];
      if IsEcho(q, e) {
        RunIsTable(q.window, events, visits, n - 1);
        assert Served(q.window, e, visits[n - 1]);
        var kept := Kept(Table(q.window, events, n - 1), RetentionCutoff(e.at, q.window));
        if Pick(kept, e.room, e.text, q.window, e.at).Some? {
          PickedIsAnswered(q, e, visits[n - 1]);
        }
      }
    }
  }

  lemma PickedIsAnswered(q: Query, e: Event, v: Visit)
    requires IsEcho(q, e) && Served(q.window, e, v)
    requires Pick(Kept(v.before.messages, RetentionCutoff(e.at, q.window)), e.room, e.text, q.window, e.at).Some?
    ensures v.result == Some(ByContent)
  {
    var kept := Kept(v.before.messages, RetentionCutoff(e.at, q.window));
    assert kept == Pruned(v.before, RetentionCutoff(e.at, q.window)).messages;
    assert AnyOpen(kept, e.room, e.text, WindowCutoff(e.at, q.window), e.at);
  }

  function Answered(q: Query, events: seq<Event>, visits: seq<Visit>): set<nat>
    requires |visits| == |events|
  {
    set j: nat | j < |events| && IsEcho(q, events[j]) && visits[j].result == Some(ByContent)
  }

  /** The ledger itself: over any run of its operations, no assignment of echoes to distinct sends
      inside the window suppresses more echoes than the ledger does. */
  lemma LedgerIsMaximum(q: Query, events: seq<Event>, visits: seq<Visit>, pairs: map<nat, Name>)
    requires Trace(events) && LedgerRun(q.window, events, visits) && Assignment(q, events, pairs)
    ensures |pairs| <= |Answered(q, events, visits)|
  {
    hide LedgerRun, Trace, Assignment, Suppressed;
    GreedyIsMaximum(q, events, pairs);
    SuppressedAreAnswered(q, events, visits, |events|);
    var done := Suppressed(q, events, |events|);
    assert |visits| == |events| by {
      AsMany(q.window, events, visits);
    }
    assert done.Keys <= Answered(q, events, visits);
    Fewer(done.Keys, Answered(q, events, visits));
  }

  lemma AsMany(window: real, events: seq<Event>, visits: seq<Visit>)
    requires LedgerRun(window, events, visits)
    ensures |visits| == |events|
  {
  }

  lemma Fewer(a: set<nat>, b: set<nat>)
    requires a <= b
    ensures |a| <= |b|
  {
    assert a + (b - a) == b;
  }
}
