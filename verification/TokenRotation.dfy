/**
  Sharing one rotating access token between concurrent callers.

  Each step is one stretch of code between suspension points.  Callers are numbers, used once.
  The server hands out access tokens it never handed out before.  Saving the new token is
  all-or-nothing, but it may raise after having succeeded.
*/
module TokenRotation {
  import opened Wrappers

  type Token = nat
  type Caller = nat

  // ---- the client's own state ----------------------------------------------

  class TokenClient {
    var token: Token
    var stored: Token

    constructor (first: Token)
      ensures token == first && stored == first
    {
      token, stored := first, first;
    }

    /** Inside the lock: is a refresh still needed? */
    method MustRefresh(observed: Token, force: bool, expired: bool) returns (must: bool)
      ensures must <==> Needed(token, observed, force, expired)
    {
      if token != observed {
        return false;
      }
      if !force && !expired {
        return false;
      }
      return true;
    }

    /** The durable save, which may raise after having succeeded. */
    method Store(rotated: Token, outcome: Save) returns (raised: bool)
      modifies this`stored
      ensures raised <==> !outcome.Done?
      ensures stored == if outcome.RaisedBefore? then old(stored) else rotated
    {
      if !outcome.RaisedBefore? {
        stored := rotated;
      }
      return !outcome.Done?;
    }

    /** The save finishes before the token is published: a save that raised publishes nothing. */
    method Publish(rotated: Token, outcome: Save) returns (ok: bool)
      modifies this
      ensures ok ==> token == rotated && stored == rotated
      ensures !ok ==> token == old(token) && stored in {old(stored), rotated}
      ensures ok <==> outcome.Done?
    {
      var raised := Store(rotated, outcome);
      if raised {
        return false;
      }
      token := rotated;
      return true;
    }
  }

  datatype Save = Done | RaisedBefore | RaisedAfter

  predicate Needed(token: Token, observed: Token, force: bool, expired: bool) {
    token == observed && (force || expired)
  }

  // ---- the protocol --------------------------------------------------------

  /** Where a caller is.  `rejected` is the token a 401 came back for, if any. */
  datatype Phase =
    | Ready(rejected: Option<Token>)
    | Wanting(observed: Token, force: bool, rejected: Option<Token>)     // waiting for the lock
    | Refreshing(observed: Token, rejected: Option<Token>)              // holding it, request in flight
    | Waiting(sent: Token, rejected: Option<Token>)                      // request in flight
    | Gone

  /** `limited` counts the 429 answers, `sends` the requests. */
  datatype Call = Call(phase: Phase, limited: nat, sends: nat)

  datatype Result = Open | Published | Failed

  /** One refresh request, made while `token` was the access token. */
  datatype Refresh = Refresh(token: Token, result: Result)

  datatype World = World(
    token: Token, stored: Token, everStored: set<Token>, issued: set<Token>,
    holder: Option<Caller>, calls: map<Caller, Call>,
    sent: seq<Token>, refreshes: seq<Refresh>)

  datatype Step =
    | Begin(c: Caller, expired: bool)
    | Enter(c: Caller, expired: bool)      // the lock is free
    | Rotated(c: Caller, newer: Token)
    | SaveRaised(c: Caller, newer: Token, kept: bool)
    | RefreshFailed(c: Caller)
    | Request(c: Caller)
    | Unauthorized(c: Caller)
    | Limited(c: Caller)
    | Answered(c: Caller)
    | Cancel(c: Caller)
    | Restart

  function Start(first: Token): World {
    World(first, first, {first}, {first}, None, map[], [], [])
  }

  predicate In(w: World, c: Caller) {
    c in w.calls && !w.calls[c].phase.Gone?
  }

  predicate CanStep(w: World, s: Step) {
    match s
    case Begin(c, _) => c !in w.calls
    case Enter(c, _) => In(w, c) && w.calls[c].phase.Wanting? && w.holder.None?
    case Rotated(c, newer) => In(w, c) && w.calls[c].phase.Refreshing? && newer !in w.issued
    case SaveRaised(c, newer, _) => In(w, c) && w.calls[c].phase.Refreshing? && newer !in w.issued
    case RefreshFailed(c) => In(w, c) && w.calls[c].phase.Refreshing?
    case Request(c) => In(w, c) && w.calls[c].phase.Ready?
    case Unauthorized(c) => In(w, c) && w.calls[c].phase.Waiting?
    case Limited(c) => In(w, c) && w.calls[c].phase.Waiting?
    case Answered(c) => In(w, c) && w.calls[c].phase.Waiting?
    case Cancel(c) => In(w, c)
    case Restart => true
  }

  function To(w: World, c: Caller, p: Phase): World
    requires c in w.calls
  {
    w.(calls := w.calls[c := w.calls[c].(phase := p)])
  }

  /** The last refresh request is the one in flight. */
  function Concluded(refreshes: seq<Refresh>, result: Result): seq<Refresh> {
    if refreshes == [] then [] else refreshes[..|refreshes| - 1] + [refreshes[|refreshes| - 1].(result := result)]
  }

  function Left(w: World, c: Caller): World
    requires c in w.calls
  {
    var v := To(w, c, Gone);
    if w.calls[c].phase.Refreshing? then v.(holder := None, refreshes := Concluded(w.refreshes, Failed)) else v
  }

  function Next(w: World, max: nat, s: Step): World
    requires CanStep(w, s)
  {
    match s
    case Begin(c, expired) =>
      w.(calls := w.calls[c := Call(if expired then Wanting(w.token, false, None) else Ready(None), 0, 0)])
    case Enter(c, expired) =>
      var p := w.calls[c].phase;
      if !Needed(w.token, p.observed, p.force, expired) then To(w, c, Ready(p.rejected))
      else To(w, c, Refreshing(p.observed, p.rejected))
           .(holder := Some(c), refreshes := w.refreshes + [Refresh(w.token, Open)])
    case Rotated(c, newer) =>
      To(w, c, Ready(w.calls[c].phase.rejected))
      .(token := newer, stored := newer, everStored := w.everStored + {newer}, issued := w.issued + {newer},
        holder := None, refreshes := Concluded(w.refreshes, Published))
    case SaveRaised(c, newer, kept) =>
      Left(w, c).(stored := if kept then newer else w.stored, issued := w.issued + {newer},
                  everStored := if kept then w.everStored + {newer} else w.everStored)
    case RefreshFailed(c) => Left(w, c)
    case Request(c) =>
      var call := w.calls[c];
      w.(sent := w.sent + [w.token],
         calls := w.calls[c := Call(Waiting(w.token, call.phase.rejected), call.limited, call.sends + 1)])
    case Unauthorized(c) =>
      var p := w.calls[c].phase;
      if p.rejected.Some? then To(w, c, Gone) else To(w, c, Wanting(p.sent, true, Some(p.sent)))
    case Limited(c) =>
      if w.calls[c].limited >= max then To(w, c, Gone)
      else w.(calls := w.calls[c := w.calls[c].(phase := Ready(w.calls[c].phase.rejected), limited := w.calls[c].limited + 1)])
    case Answered(c) => To(w, c, Gone)
    case Cancel(c) => Left(w, c)
    case Restart =>
      w.(token := w.stored, holder := None,
         refreshes := if w.holder.Some? then Concluded(w.refreshes, Failed) else w.refreshes,
         calls := map c | c in w.calls :: w.calls[c].(phase := Gone))
  }

  predicate CanRun(w: World, max: nat, steps: seq<Step>)
    decreases |steps|
  {
    steps == [] || (CanStep(w, steps[0]) && CanRun(Next(w, max, steps[0]), max, steps[1..]))
  }

  function Ran(w: World, max: nat, steps: seq<Step>): World
    requires CanRun(w, max, steps)
    decreases |steps|
  {
    if steps == [] then w else Ran(Next(w, max, steps[0]), max, steps[1..])
  }

  // ---- what every run keeps ------------------------------------------------

  /** The lock: its holder is the one caller refreshing, and its request is the open one. */
  ghost predicate LockOk(w: World) {
    && (forall c :: In(w, c) && w.calls[c].phase.Refreshing? ==>
          w.holder == Some(c) && w.calls[c].phase.observed == w.token)
    && (w.holder.Some? ==> In(w, w.holder.value) && w.calls[w.holder.value].phase.Refreshing?)
    && (forall i :: 0 <= i < |w.refreshes| && w.refreshes[i].result == Open ==>
          i == |w.refreshes| - 1 && w.holder.Some?)
    && (w.holder.Some? ==>
          w.refreshes != [] && w.refreshes[|w.refreshes| - 1] == Refresh(w.token, Open))
  }

  /** No access token is refreshed twice, unless an earlier attempt failed. */
  ghost predicate OneRefreshEach(w: World) {
    && (forall i :: 0 <= i < |w.refreshes| ==> w.refreshes[i].token in w.issued)
    && (forall i :: 0 <= i < |w.refreshes| && w.refreshes[i].result == Published ==> w.refreshes[i].token != w.token)
    && (forall i :: 0 <= i < |w.refreshes| && w.refreshes[i].result == Published ==> w.refreshes[i].token != w.stored)
    && (forall i, j :: 0 <= i < j < |w.refreshes| && w.refreshes[i].token == w.refreshes[j].token ==>
          w.refreshes[i].result == Failed)
  }

  /** What is sent, and what may be sent next, was in the durable store first. */
  ghost predicate StoredFirst(w: World) {
    && w.token in w.everStored && w.stored in w.everStored && w.everStored <= w.issued
    && (forall i :: 0 <= i < |w.sent| ==> w.sent[i] in w.everStored)
  }

  /** A call stops resending a rejected token, and gives up in bounded time. */
  ghost predicate CallOk(w: World, max: nat, c: Caller)
    requires c in w.calls
  {
    var call := w.calls[c];
    var p := call.phase;
    && call.limited <= max && call.sends <= max + 2
    && match p
       case Ready(rejected) =>
         && call.sends <= call.limited + (if rejected.Some? then 1 else 0)
         && (rejected.Some? ==> rejected.value != w.token && rejected.value in w.issued)
       case Wanting(observed, force, rejected) =>
         && call.sends <= call.limited + (if rejected.Some? then 1 else 0)
         && (rejected.Some? ==> force && observed == rejected.value && rejected.value in w.issued)
       case Refreshing(observed, rejected) =>
         && call.sends <= call.limited + (if rejected.Some? then 1 else 0)
         && (rejected.Some? ==> observed == rejected.value && rejected.value in w.issued)
       case Waiting(sent, rejected) =>
         && (rejected.Some? ==> rejected.value != w.token && rejected.value in w.issued)
         && call.sends <= call.limited + 1 + (if rejected.Some? then 1 else 0)
         && sent in w.issued && (rejected.Some? ==> rejected.value != sent)
       case Gone => true
  }

  ghost predicate CallsOk(w: World, max: nat) {
    forall c :: c in w.calls ==> CallOk(w, max, c)
  }

  ghost predicate Sound(w: World, max: nat) {
    LockOk(w) && OneRefreshEach(w) && StoredFirst(w) && CallsOk(w, max)
  }

  lemma NextLock(w: World, max: nat, s: Step)
    requires Sound(w, max) && CanStep(w, s)
    ensures LockOk(Next(w, max, s))
  {
    hide OneRefreshEach, StoredFirst, CallsOk;
  }

  /** A refresh begins only for a token that no refresh in flight or done was made for. */
  lemma EnterKeepsOne(w: World, max: nat, c: Caller, expired: bool)
    requires Sound(w, max) && CanStep(w, Enter(c, expired))
    ensures OneRefreshEach(Next(w, max, Enter(c, expired)))
  {
    hide CallsOk;
  }

  lemma RotatedKeepsOne(w: World, max: nat, c: Caller, newer: Token)
    requires Sound(w, max) && CanStep(w, Rotated(c, newer))
    ensures OneRefreshEach(Next(w, max, Rotated(c, newer)))
  {
    hide CallsOk;
  }

  lemma NextOne(w: World, max: nat, s: Step)
    requires Sound(w, max) && CanStep(w, s)
    ensures OneRefreshEach(Next(w, max, s))
  {
    match s
    case Enter(c, expired) => EnterKeepsOne(w, max, c, expired);
    case Rotated(c, newer) => RotatedKeepsOne(w, max, c, newer);
    case _ => hide CallsOk;
  }

  lemma NextStored(w: World, max: nat, s: Step)
    requires Sound(w, max) && CanStep(w, s)
    ensures StoredFirst(Next(w, max, s))
  {
    hide LockOk, OneRefreshEach, CallsOk;
  }

  lemma NextCalls(w: World, max: nat, s: Step)
    requires Sound(w, max) && CanStep(w, s)
    ensures CallsOk(Next(w, max, s), max)
  {
    hide OneRefreshEach;
  }

  lemma NextSound(w: World, max: nat, s: Step)
    requires Sound(w, max) && CanStep(w, s)
    ensures Sound(Next(w, max, s), max)
  {
    NextLock(w, max, s);
    NextOne(w, max, s);
    NextStored(w, max, s);
    NextCalls(w, max, s);
    hide Next, CanStep, LockOk, OneRefreshEach, StoredFirst, CallsOk;
  }

  lemma StartSound(first: Token, max: nat)
    ensures Sound(Start(first), max)
  {
  }

  lemma SoundMeans(w: World, max: nat)
    requires Sound(w, max)
    ensures forall i, j :: 0 <= i < j < |w.refreshes| && w.refreshes[i].token == w.refreshes[j].token ==>
      w.refreshes[i].result == Failed
    ensures forall i :: 0 <= i < |w.sent| ==> w.sent[i] in w.everStored
    ensures forall c :: c in w.calls ==> w.calls[c].sends <= max + 2
  {
    hide LockOk;
    forall c | c in w.calls ensures w.calls[c].sends <= max + 2 {
      assert CallOk(w, max, c);
    }
  }

  /** Over any interleaving of callers, failures, cancellations and restarts: one access token
      is refreshed successfully at most once, and again only after an attempt that failed; every
      token sent was durable first; and every call ends after at most max + 2 requests. */
  lemma {:induction false} RunSound(w: World, max: nat, steps: seq<Step>)
    requires Sound(w, max) && CanRun(w, max, steps)
    ensures Sound(Ran(w, max, steps), max)
    ensures var v := Ran(w, max, steps);
      && (forall i, j :: 0 <= i < j < |v.refreshes| && v.refreshes[i].token == v.refreshes[j].token ==>
            v.refreshes[i].result == Failed)
      && (forall i :: 0 <= i < |v.sent| ==> v.sent[i] in v.everStored)
      && (forall c :: c in v.calls ==> v.calls[c].sends <= max + 2)
    decreases |steps|
  {
    SoundMeans(w, max);
    hide Sound, Next, CanStep;
    if steps != [] {
      NextSound(w, max, steps[0]);
      RunSound(Next(w, max, steps[0]), max, steps[1..]);
    }
  }

  /** Two successful refreshes are of two different tokens. */
  lemma RefreshedOnce(w: World, max: nat, i: nat, j: nat)
    requires Sound(w, max) && i < j < |w.refreshes|
    requires w.refreshes[i].result == Published && w.refreshes[j].result != Failed
    ensures w.refreshes[i].token != w.refreshes[j].token
  {
    hide LockOk, StoredFirst, CallsOk;
  }

  /** When callers pile up behind one rejected or expired token, the first refreshes it and the
      rest find it done: entering the lock after a rotation asks for nothing. */
  lemma LatecomersDoNotRefresh(w: World, max: nat, c: Caller, newer: Token, d: Caller, expired: bool)
    requires Sound(w, max) && CanStep(w, Rotated(c, newer))
    requires In(w, d) && w.calls[d].phase.Wanting? && w.calls[d].phase.observed == w.token && w.token in w.issued
    ensures var v := Next(w, max, Rotated(c, newer));
      && CanStep(v, Enter(d, expired))
      && Next(v, max, Enter(d, expired)).refreshes == v.refreshes
      && Next(v, max, Enter(d, expired)).calls[d].phase == Ready(w.calls[d].phase.rejected)
  {
    hide OneRefreshEach, StoredFirst, CallsOk;
  }

  /** The request after a 401 carries another token than the one rejected. */
  lemma RejectedIsNotResent(w: World, max: nat, c: Caller)
    requires Sound(w, max) && CanStep(w, Request(c)) && w.calls[c].phase.rejected.Some?
    ensures var v := Next(w, max, Request(c));
      v.sent == w.sent + [w.token] && w.token != w.calls[c].phase.rejected.value && w.token in w.everStored
  {
    hide OneRefreshEach, LockOk;
    assert CallOk(w, max, c);
  }

  // ---- waiters that are late ------------------------------------------------

  /** `d` waits for the lock with a token that is no longer the current one. */
  ghost predicate Stale(w: World, d: Caller) {
    In(w, d) && w.calls[d].phase.Wanting? && w.calls[d].phase.observed != w.token && w.calls[d].phase.observed in w.issued
  }

  lemma NextStale(w: World, max: nat, s: Step, d: Caller)
    requires CanStep(w, s) && Stale(w, d) && (s.Enter? ==> s.c != d)
    ensures Stale(Next(w, max, s), d) || (d in Next(w, max, s).calls && Next(w, max, s).calls[d].phase.Gone?)
  {
  }

  lemma {:induction false} GoneStaysGone(w: World, max: nat, steps: seq<Step>, d: Caller)
    requires CanRun(w, max, steps) && d in w.calls && w.calls[d].phase.Gone?
    ensures var v := Ran(w, max, steps); d in v.calls && v.calls[d].phase.Gone?
    decreases |steps|
  {
    if steps != [] {
      GoneStaysGone(Next(w, max, steps[0]), max, steps[1..], d);
    }
  }

  /** However long it waits, and whatever other rotations, failures and cancellations come in
      between, such a caller asks for no refresh when it gets the lock. */
  lemma {:induction false} StaleWaiterAsksForNothing(
    w: World, max: nat, steps: seq<Step>, d: Caller, expired: bool)
    requires Stale(w, d) && CanRun(w, max, steps)
    requires forall i :: 0 <= i < |steps| && steps[i].Enter? ==> steps[i].c != d
    requires CanStep(Ran(w, max, steps), Enter(d, expired))
    ensures var v := Ran(w, max, steps);
      Next(v, max, Enter(d, expired)).refreshes == v.refreshes && Next(v, max, Enter(d, expired)).sent == v.sent
    decreases |steps|
  {
    if steps != [] {
      var v := Next(w, max, steps[0]);
      NextStale(w, max, steps[0], d);
      if Stale(v, d) {
        hide Next, CanStep, Stale;
        StaleWaiterAsksForNothing(v, max, steps[1..], d, expired);
      } else {
        GoneStaysGone(v, max, steps[1..], d);
      }
    }
  }

  // ---- when a refresh is made ----------------------------------------------

  /** A caller that gets the lock refreshes exactly when the token is still the one it saw, and was
      rejected or is expired. */
  lemma RefreshesIff(w: World, max: nat, c: Caller, expired: bool)
    requires CanStep(w, Enter(c, expired))
    ensures var p, v := w.calls[c].phase, Next(w, max, Enter(c, expired));
      var asks := w.token == p.observed && (p.force || expired);
      && v.refreshes == (if asks then w.refreshes + [Refresh(w.token, Open)] else w.refreshes)
      && v.holder == (if asks then Some(c) else None)
      && c in v.calls && (if asks then v.calls[c].phase.Refreshing? else v.calls[c].phase.Ready?)
  {
  }

  /** A token that comes back rejected is refreshed even when it has not expired, unless it was
      rotated meanwhile; a second rejection ends the call. */
  lemma RejectionForcesRefresh(w: World, max: nat, c: Caller)
    requires Sound(w, max) && CanStep(w, Unauthorized(c))
    ensures var p, v := w.calls[c].phase, Next(w, max, Unauthorized(c));
      if p.rejected.Some? then v.calls[c].phase == Gone && v.refreshes == w.refreshes
      else w.holder.None? ==>
             && CanStep(v, Enter(c, false))
             && Next(v, max, Enter(c, false)).refreshes
                == if w.token == p.sent then w.refreshes + [Refresh(p.sent, Open)] else w.refreshes
  {
    hide OneRefreshEach, StoredFirst, CallsOk;
  }

  /** A call that is turned away for the rate is tried again exactly as often as allowed. */
  lemma LimitedIsRetriedIff(w: World, max: nat, c: Caller)
    requires CanStep(w, Limited(c))
    ensures var v := Next(w, max, Limited(c));
      && c in v.calls
      && v.calls[c].phase == (if w.calls[c].limited < max then Ready(w.calls[c].phase.rejected) else Gone)
      && v.calls[c].limited == w.calls[c].limited + if w.calls[c].limited < max then 1 else 0
  {
  }

  /** A caller that finds the token expired waits for the lock, forcing nothing; any other may send
      at once, and every request is counted and waits for its answer. */
  lemma BeginsAndSends(w: World, max: nat, c: Caller, expired: bool)
    requires CanStep(w, Begin(c, expired))
    ensures var v := Next(w, max, Begin(c, expired));
      && v.sent == w.sent && v.refreshes == w.refreshes
      && if expired then
           w.holder.None? ==>
             && CanStep(v, Enter(c, false)) && Next(v, max, Enter(c, false)).refreshes == w.refreshes
             && CanStep(v, Enter(c, true)) && Next(v, max, Enter(c, true)).refreshes == w.refreshes + [Refresh(w.token, Open)]
         else
           && CanStep(v, Request(c))
           && Next(v, max, Request(c)).sent == w.sent + [w.token]
           && Next(v, max, Request(c)).calls == w.calls[c := Call(Waiting(w.token, None), 0, 1)]
  {
  }

  /** A save that raised leaves the token in use; after a restart the one that was kept is used,
      the new one exactly if the save had succeeded.  A restart ends every call. */
  lemma RestartUsesTheStored(w: World, max: nat, c: Caller, newer: Token, kept: bool)
    requires CanStep(w, SaveRaised(c, newer, kept))
    ensures var v := Next(w, max, SaveRaised(c, newer, kept));
      && v.token == w.token && v.calls[c].phase.Gone? && v.holder.None? && CanStep(v, Restart)
      && var u := Next(v, max, Restart);
         && u.token == (if kept then newer else w.stored) && u.stored == u.token
         && forall d :: d in u.calls ==> u.calls[d].phase.Gone?
  {
  }

  /** `c` does not send `spent`: it waits to have it refreshed, or another token is in use. */
  ghost predicate Spared(w: World, c: Caller, spent: Token) {
    && c in w.calls && spent in w.issued
    && match w.calls[c].phase
       case Wanting(observed, _, _) => observed == spent || w.token != spent
       case Refreshing(observed, _) => w.token == spent ==> observed == spent
       case Ready(_) => w.token != spent
       case Waiting(_, _) => w.token != spent
       case Gone => true
  }

  lemma NextSpared(w: World, max: nat, s: Step, c: Caller, spent: Token)
    requires CanStep(w, s) && Spared(w, c, spent) && (s.Enter? && s.c == c ==> s.expired)
    ensures Spared(Next(w, max, s), c, spent)
  {
  }

  lemma {:induction false} RunSpared(w: World, max: nat, steps: seq<Step>, c: Caller, spent: Token)
    requires CanRun(w, max, steps) && Spared(w, c, spent)
    requires forall i :: 0 <= i < |steps| && steps[i].Enter? && steps[i].c == c ==> steps[i].expired
    ensures Spared(Ran(w, max, steps), c, spent)
    decreases |steps|
  {
    hide Next, CanStep, Spared;
    if steps != [] {
      NextSpared(w, max, steps[0], c, spent);
      RunSpared(Next(w, max, steps[0]), max, steps[1..], c, spent);
    }
  }

  /** A caller that begins with an expired token never sends it, whatever the others do, as long as
      the token is still expired whenever the caller looks: it goes on with another, or not at all. */
  lemma ExpiredIsNotSent(w: World, max: nat, c: Caller, steps: seq<Step>)
    requires Sound(w, max) && CanStep(w, Begin(c, true)) && CanRun(Next(w, max, Begin(c, true)), max, steps)
    requires forall i :: 0 <= i < |steps| && steps[i].Enter? && steps[i].c == c ==> steps[i].expired
    requires CanStep(Ran(Next(w, max, Begin(c, true)), max, steps), Request(c))
    ensures var v := Ran(Next(w, max, Begin(c, true)), max, steps);
      Next(v, max, Request(c)).sent == v.sent + [v.token] && v.token != w.token
  {
    BeginSpares(w, max, c);
    hide Sound, Next, CanStep, Spared;
    RunSpared(Next(w, max, Begin(c, true)), max, steps, c, w.token);
    SparedSendsAnother(Ran(Next(w, max, Begin(c, true)), max, steps), max, c, w.token);
  }

  lemma BeginSpares(w: World, max: nat, c: Caller)
    requires Sound(w, max) && CanStep(w, Begin(c, true))
    ensures Spared(Next(w, max, Begin(c, true)), c, w.token)
  {
    hide LockOk, OneRefreshEach, CallsOk;
  }

  lemma SparedSendsAnother(w: World, max: nat, c: Caller, spent: Token)
    requires Spared(w, c, spent) && CanStep(w, Request(c))
    ensures Next(w, max, Request(c)).sent == w.sent + [w.token] && w.token != spent
  {
  }

  /** From the start. */
  lemma FromTheStart(first: Token, max: nat, steps: seq<Step>)
    requires CanRun(Start(first), max, steps)
    ensures var v := Ran(Start(first), max, steps);
      && (forall i, j :: 0 <= i < j < |v.refreshes| && v.refreshes[i].token == v.refreshes[j].token ==>
            v.refreshes[i].result == Failed)
      && (forall i :: 0 <= i < |v.sent| ==> v.sent[i] in v.everStored)
      && (forall c :: c in v.calls ==> v.calls[c].sends <= max + 2)
  {
    StartSound(first, max);
    hide Sound, Next, CanStep;
    RunSound(Start(first), max, steps);
  }
}
