/**
  Which turns come back, said on the places of the stored turns: the newest, the most similar, the
  best matching, and the deflections left out.
*/
module RecallLaws {
  import opened Wrappers
  import opened RankFusion
  import opened Retrieval

  // ---- choosing by place ---------------------------------------------------

  /** The elements at the places `keep` holds of, in order. */
  ghost function By<T>(ts: seq<T>, keep: nat -> bool): seq<T> {
    if ts == [] then []
    else
      var last := |ts| - 1;
      By(ts[..last], keep) + if keep(last) then [ts[last]] else []
  }

  /** How many later places below `n` are kept, */
  ghost function Newer(n: nat, keep: nat -> bool, k: nat): nat {
    |set j: nat | k < j < n && keep(j)|
  }

  /** and how many earlier ones. */
  ghost function Earlier(keep: nat -> bool, k: nat): nat {
    |set j: nat | j < k && keep(j)|
  }

  lemma {:induction false} ByAgree<T>(ts: seq<T>, keep: nat -> bool, also: nat -> bool)
    requires forall k: nat :: k < |ts| ==> keep(k) == also(k)
    ensures By(ts, keep) == By(ts, also)
  {
    if ts != [] {
      ByAgree(ts[..|ts| - 1], keep, also);
    }
  }

  lemma {:induction false} ByNone<T>(ts: seq<T>, keep: nat -> bool)
    requires forall k: nat :: k < |ts| ==> !keep(k)
    ensures By(ts, keep) == []
  {
    if ts != [] {
      ByNone(ts[..|ts| - 1], keep);
    }
  }

  /** A kept turn is one of the result, and nothing else is. */
  lemma {:induction false} ByIff(ts: seq<Turn>, keep: nat -> bool)
    requires DistinctTurns(ts)
    ensures forall k: nat :: k < |ts| ==> (ts[k] in By(ts, keep) <==> keep(k))
    ensures forall t :: t in By(ts, keep) ==> exists k: nat :: k < |ts| && ts[k] == t && keep(k)
  {
    if ts != [] {
      var last := |ts| - 1;
      var front := ts[..last];
      ByIff(front, keep);
      forall t | t in By(front, keep) ensures t.id != ts[last].id {
        var j: nat :| j < |front| && front[j] == t && keep(j);
        assert ts[j] == t;
      }
      forall k: nat | k < |ts| ensures ts[k] in By(ts, keep) <==> keep(k) {
        if k < last {
          assert front[k] == ts[k];
        }
      }
      forall t | t in By(ts, keep) ensures exists k: nat :: k < |ts| && ts[k] == t && keep(k) {
        if t in By(front, keep) {
          var k: nat :| k < |front| && front[k] == t && keep(k);
          assert ts[k] == t;
        }
      }
    }
  }

  lemma {:induction false} ByCount<T>(ts: seq<T>, keep: nat -> bool)
    ensures |By(ts, keep)| == Earlier(keep, |ts|)
  {
    if ts == [] {
      assert (set j: nat | j < 0 && keep(j)) == {};
    } else {
      var last := |ts| - 1;
      ByCount(ts[..last], keep);
      EarlierStep(keep, last);
    }
  }

  lemma EarlierStep(keep: nat -> bool, k: nat)
    ensures Earlier(keep, k + 1) == Earlier(keep, k) + if keep(k) then 1 else 0
  {
    var before, after := set j: nat | j < k && keep(j), set j: nat | j < k + 1 && keep(j);
    assert after == if keep(k) then before + {k} else before;
  }

  lemma NewerStep(n: nat, keep: nat -> bool, k: nat)
    requires k < n
    ensures Newer(n + 1, keep, k) == Newer(n, keep, k) + if keep(n) then 1 else 0
  {
    var before, after := set j: nat | k < j < n && keep(j), set j: nat | k < j < n + 1 && keep(j);
    assert after == if keep(n) then before + {n} else before;
  }

  /** Kept, with fewer than `n` kept after it among the first `m`. */
  ghost function Newest(m: nat, keep: nat -> bool, n: int): nat -> bool {
    (k: nat) => keep(k) && Newer(m, keep, k) < n
  }

  /** Kept, with fewer than `n` kept before it. */
  ghost function Foremost(keep: nat -> bool, n: int): nat -> bool {
    (k: nat) => keep(k) && Earlier(keep, k) < n
  }

  /** The last `n` of those kept are the ones with fewer than `n` kept after them. */
  lemma {:induction false} LastBy<T>(ts: seq<T>, keep: nat -> bool, n: int)
    ensures Last(By(ts, keep), n) == By(ts, Newest(|ts|, keep, n))
  {
    hide Last, Newer;
    var chosen := Newest(|ts|, keep, n);
    if ts == [] || n <= 0 {
      LastNone(By(ts, keep), n);
      forall k: nat | k < |ts| ensures !chosen(k) {
        assert Newer(|ts|, keep, k) >= 0;
      }
      ByNone(ts, chosen);
    } else {
      var last := |ts| - 1;
      var front := ts[..last];
      var fewer := if keep(last) then n - 1 else n;
      LastBy(front, keep, fewer);
      LastStep(By(front, keep), ts[last], n, keep(last));
      var before := Newest(last, keep, fewer);
      forall k: nat | k < last ensures before(k) == chosen(k) {
        NewerStep(last, keep, k);
      }
      ByAgree(front, before, chosen);
      NewerNone(last, keep);
      assert !keep(last) ==> By(ts, keep) == By(front, keep);
    }
  }

  lemma LastNone<T>(s: seq<T>, n: int)
    requires s == [] || n <= 0
    ensures Last(s, n) == []
  {
  }

  lemma LastStep<T>(s: seq<T>, x: T, n: int, own: bool)
    requires n > 0
    ensures Last(if own then s + [x] else s, n) == if own then Last(s, n - 1) + [x] else Last(s, n)
  {
  }

  lemma NewerNone(k: nat, keep: nat -> bool)
    ensures Newer(k + 1, keep, k) == 0
  {
    assert (set j: nat | k < j < k + 1 && keep(j)) == {};
  }

  /** The first `n` of those kept are the ones with fewer than `n` kept before them. */
  lemma {:induction false} TakeBy<T>(ts: seq<T>, keep: nat -> bool, n: int)
    ensures Take(By(ts, keep), n) == By(ts, Foremost(keep, n))
  {
    if ts != [] {
      var last := |ts| - 1;
      TakeBy(ts[..last], keep, n);
      ByCount(ts[..last], keep);
    }
  }

  // ---- what may be shown ---------------------------------------------------

  /** The turn at place `k` may be shown: it is of the room, in the period if there is one, and not
      among those shown already. */
  predicate MayShow(ts: seq<Turn>, room: nat, window: Option<Range>, exclude: set<Id>, k: nat) {
    && k < |ts| && ts[k].room == room && ts[k].id !in exclude
    && (window.Some? ==> window.value.lo <= ts[k].at && ts[k].at < window.value.hi)
  }

  ghost function Shown(ts: seq<Turn>, room: nat, window: Option<Range>, exclude: set<Id>): nat -> bool {
    (k: nat) => MayShow(ts, room, window, exclude, k)
  }

  ghost function Both(keep: nat -> bool, also: nat -> bool): nat -> bool {
    (k: nat) => keep(k) && also(k)
  }

  lemma {:induction false} MatchingBy(ts: seq<Turn>, keep: nat -> bool, room: nat, window: Option<Range>, exclude: set<Id>)
    ensures Matching(By(ts, keep), room, window, exclude) == By(ts, Both(keep, Shown(ts, room, window, exclude)))
  {
    var chosen := Both(keep, Shown(ts, room, window, exclude));
    if ts != [] {
      var last := |ts| - 1;
      var front := ts[..last];
      var before := Both(keep, Shown(front, room, window, exclude));
      MatchingBy(front, keep, room, window, exclude);
      forall k: nat | k < last ensures before(k) == chosen(k) {
        assert front[k] == ts[k];
      }
      ByAgree(front, before, chosen);
      var kept := By(front, keep);
      assert !keep(last) ==> By(ts, keep) == kept;
      MatchingStep(kept, ts[last], keep(last), room, window, exclude);
    }
  }

  lemma MatchingStep(kept: seq<Turn>, x: Turn, own: bool, room: nat, window: Option<Range>, exclude: set<Id>)
    ensures Matching(if own then kept + [x] else kept, room, window, exclude)
         == Matching(kept, room, window, exclude) + if own && Wanted(x, room, window, exclude) then [x] else []
  {
    assert (kept + [x])[..|kept|] == kept;
  }

  lemma {:induction false} ByAll<T>(ts: seq<T>, keep: nat -> bool)
    requires forall k: nat :: k < |ts| ==> keep(k)
    ensures By(ts, keep) == ts
  {
    if ts != [] {
      ByAll(ts[..|ts| - 1], keep);
      assert ts == ts[..|ts| - 1] + [ts[|ts| - 1]];
    }
  }

  lemma MatchingIs(ts: seq<Turn>, room: nat, window: Option<Range>, exclude: set<Id>)
    ensures Matching(ts, room, window, exclude) == By(ts, Shown(ts, room, window, exclude))
  {
    var all := (k: nat) => true;
    ByAll(ts, all);
    MatchingBy(ts, all, room, window, exclude);
    ByAgree(ts, Both(all, Shown(ts, room, window, exclude)), Shown(ts, room, window, exclude));
  }

  /** Text search gives the first `limit` of its ranking that may be shown, in the order of the
      ranking. */
  lemma TextSearchIs(q: Query, room: nat, limit: int, exclude: set<Id>, window: Option<Range>)
    ensures Lexical(q, room, limit, exclude, window)
         == By(q.ranking, Foremost(Shown(q.ranking, room, window, exclude), limit))
  {
    MatchingIs(q.ranking, room, window, exclude);
    TakeBy(q.ranking, Shown(q.ranking, room, window, exclude), limit);
  }

  /** The newest `n` turns of those that may be shown. */
  lemma NewestAre(store: seq<Turn>, room: nat, window: Option<Range>, exclude: set<Id>, n: int)
    ensures Last(Matching(store, room, window, exclude), n)
         == By(store, Newest(|store|, Shown(store, room, window, exclude), n))
  {
    MatchingIs(store, room, window, exclude);
    LastBy(store, Shown(store, room, window, exclude), n);
  }

  // ---- deflections ---------------------------------------------------------

  /** Kept, and not a deflection with a newer one kept, or seen, after it. */
  ghost function Thinned(ts: seq<Turn>, keep: nat -> bool, seen: bool): nat -> bool {
    (k: nat) => k < |ts| && keep(k) && !(ts[k].deflection && (seen || NewerDeflection(ts, keep, k)))
  }

  lemma {:induction false} KeptBy(ts: seq<Turn>, keep: nat -> bool, seen: bool)
    ensures Kept(By(ts, keep), seen) == By(ts, Thinned(ts, keep, seen))
  {
    hide NewerDeflection, Kept;
    var chosen := Thinned(ts, keep, seen);
    if ts == [] {
      NothingKept(seen);
    } else {
      var last := |ts| - 1;
      var front, x := ts[..last], ts[last];
      var later := seen || (keep(last) && x.deflection);
      KeptBy(front, keep, later);
      var before := Thinned(front, keep, later);
      forall k: nat | k < last ensures before(k) == chosen(k) {
        DeflectionStep(ts, keep, k);
      }
      ByAgree(front, before, chosen);
      var kept := By(front, keep);
      assert !keep(last) ==> By(ts, keep) == kept;
      NoneNewer(ts, keep);
      KeptStep(kept, x, seen, keep(last));
    }
  }

  lemma NothingKept(seen: bool)
    ensures Kept([], seen) == []
  {
  }

  lemma NoneNewer(ts: seq<Turn>, keep: nat -> bool)
    requires ts != []
    ensures !NewerDeflection(ts, keep, |ts| - 1)
  {
  }

  lemma KeptStep(kept: seq<Turn>, x: Turn, seen: bool, own: bool)
    ensures Kept(if own then kept + [x] else kept, seen)
         == Kept(kept, seen || (own && x.deflection)) + if own && !(x.deflection && seen) then [x] else []
  {
    assert (kept + [x])[..|kept|] == kept;
  }

  predicate NewerDeflection(ts: seq<Turn>, keep: nat -> bool, k: nat) {
    exists j: nat :: k < j < |ts| && keep(j) && ts[j].deflection
  }

  lemma DeflectionStep(ts: seq<Turn>, keep: nat -> bool, k: nat)
    requires k + 1 < |ts|
    ensures var last := |ts| - 1;
      NewerDeflection(ts, keep, k) <==> NewerDeflection(ts[..last], keep, k) || (keep(last) && ts[last].deflection)
  {
    var last := |ts| - 1;
    var front := ts[..last];
    if NewerDeflection(ts, keep, k) {
      var j: nat :| k < j < |ts| && keep(j) && ts[j].deflection;
      if j < last {
        assert front[j].deflection;
      }
    }
    if NewerDeflection(front, keep, k) {
      var j: nat :| k < j < |front| && keep(j) && front[j].deflection;
      assert ts[j].deflection;
    }
  }

  /** The recent turns: of the newest three times as many of the room as are asked for, all but the
      deflections with a newer one among them; and of those the newest that fit. */
  lemma RecentAre(store: seq<Turn>, room: nat, n: nat)
    ensures var near := Newest(|store|, Shown(store, room, None, {}), 3 * n);
      Last(Kept(Last(Matching(store, room, None, {}), n * OVERFETCH), false), n)
      == By(store, Newest(|store|, Thinned(store, near, false), n))
  {
    var near := Newest(|store|, Shown(store, room, None, {}), 3 * n);
    NewestAre(store, room, None, {}, n * OVERFETCH);
    assert n * OVERFETCH == 3 * n;
    KeptBy(store, near, false);
    LastBy(store, Thinned(store, near, false), n);
  }

  /** With one turn asked for, an even sample is the newest; with room for all it is all. */
  lemma SampleOfOne(rows: seq<Turn>, limit: int, r: seq<Turn>)
    requires Sample(rows, limit, r) && limit >= 1 && rows != []
    ensures limit == 1 ==> r == [rows[|rows| - 1]]
    ensures limit >= |rows| ==> r == rows
  {
    hide Pick;
  }

  // ---- vectors -------------------------------------------------------------

  /** The vector of the turn at place `k` is swept: the turn may be shown, has a vector, and fewer
      than the cap of such turns are newer. */
  ghost function InSweep(store: seq<Turn>, room: nat, s: Semantic, exclude: set<Id>, window: Option<Range>): nat -> bool {
    Newest(|store|, WithVector(store, room, s.vectors, exclude, window), s.scanCap)
  }

  ghost function WithVector(store: seq<Turn>, room: nat, vectors: map<Id, Option<real>>, exclude: set<Id>,
                            window: Option<Range>): nat -> bool {
    (k: nat) => MayShow(store, room, window, exclude, k) && store[k].id in vectors
  }

  ghost function HasVector(store: seq<Turn>, vectors: map<Id, Option<real>>): nat -> bool {
    (k: nat) => k < |store| && store[k].id in vectors
  }

  lemma {:induction false} VectorsBy(store: seq<Turn>, vectors: map<Id, Option<real>>)
    ensures WithVectors(store, vectors) == By(store, HasVector(store, vectors))
  {
    if store != [] {
      var front := store[..|store| - 1];
      VectorsBy(front, vectors);
      ByAgree(front, HasVector(front, vectors), HasVector(store, vectors));
    }
  }

  /** The turns whose vectors are swept. */
  lemma SweepIs(store: seq<Turn>, room: nat, s: Semantic, exclude: set<Id>, window: Option<Range>)
    ensures Last(Matching(WithVectors(store, s.vectors), room, window, exclude), s.scanCap)
         == By(store, InSweep(store, room, s, exclude, window))
  {
    var with := Both(HasVector(store, s.vectors), Shown(store, room, window, exclude));
    VectorsBy(store, s.vectors);
    MatchingBy(store, HasVector(store, s.vectors), room, window, exclude);
    ByAgree(store, with, WithVector(store, room, s.vectors, exclude, window));
    LastBy(store, WithVector(store, room, s.vectors, exclude, window), s.scanCap);
  }

  /** The places of the turns that are swept, can be read and are similar enough. */
  ghost function Hits(store: seq<Turn>, room: nat, s: Semantic, exclude: set<Id>, window: Option<Range>): (hits: set<nat>)
    ensures AreClose(store, s, hits)
  {
    set k: nat | k < |store| && InSweep(store, room, s, exclude, window)(k)
                 && store[k].id in s.vectors && Close((store[k].id, s.vectors[store[k].id]), s.floor)
  }

  predicate AreClose(store: seq<Turn>, s: Semantic, hits: set<nat>) {
    forall k :: k in hits ==>
      && k < |store| && store[k].id in s.vectors && s.vectors[store[k].id].Some?
      && s.vectors[store[k].id].value >= s.floor
  }

  /** The rows swept are those of the turns in the sweep, each with its own vector. */
  ghost predicate RowsOf(store: seq<Turn>, s: Semantic, hits: set<nat>, swept: seq<(Id, Option<real>)>)
    requires AreClose(store, s, hits)
  {
    && DistinctIds(swept)
    && (forall i :: 0 <= i < |swept| && Close(swept[i], s.floor) ==>
          exists k :: k in hits && swept[i] == (store[k].id, s.vectors[store[k].id]))
    && (forall k :: k in hits ==> exists i :: 0 <= i < |swept| && swept[i] == (store[k].id, s.vectors[store[k].id]))
  }

  lemma {:induction false} ByDistinct(ts: seq<Turn>, keep: nat -> bool)
    requires DistinctTurns(ts)
    ensures DistinctTurns(By(ts, keep))
  {
    if ts != [] {
      var front := ts[..|ts| - 1];
      ByDistinct(front, keep);
      ByIff(front, keep);
      forall t | t in By(front, keep) ensures t.id != ts[|ts| - 1].id {
        var j: nat :| j < |front| && front[j] == t && keep(j);
        assert ts[j] == t;
      }
    }
  }

  lemma SweptIs(store: seq<Turn>, room: nat, s: Semantic, exclude: set<Id>, window: Option<Range>)
    requires IsStore(store)
    ensures RowsOf(store, s, Hits(store, room, s, exclude, window), Swept(store, room, s, exclude, window))
  {
    var turns := Last(Matching(WithVectors(store, s.vectors), room, window, exclude), s.scanCap);
    var keep := InSweep(store, room, s, exclude, window);
    SweepIs(store, room, s, exclude, window);
    ByIff(store, keep);
    ByDistinct(store, keep);
    var swept := Swept(store, room, s, exclude, window);
    var hits := Hits(store, room, s, exclude, window);
    hide Matching, WithVectors, InSweep, Last;
    forall i | 0 <= i < |swept| && Close(swept[i], s.floor)
      ensures exists k :: k in hits && swept[i] == (store[k].id, s.vectors[store[k].id])
    {
      assert turns[i] in By(store, keep);
      var k: nat :| k < |store| && store[k] == turns[i] && keep(k);
      assert k in hits;
    }
    forall k | k in hits
      ensures exists i :: 0 <= i < |swept| && swept[i] == (store[k].id, s.vectors[store[k].id])
    {
      assert store[k] in turns;
      var i :| 0 <= i < |turns| && turns[i] == store[k];
      assert swept[i] == (store[k].id, s.vectors[store[k].id]);
    }
  }

  /** The similarities found are those of the hits. */
  ghost predicate ScoresOf(store: seq<Turn>, s: Semantic, hits: set<nat>, scores: map<Id, real>)
    requires AreClose(store, s, hits)
  {
    && (forall k :: k in hits ==> store[k].id in scores && scores[store[k].id] == s.vectors[store[k].id].value)
    && (forall x :: x in scores ==> exists k :: k in hits && store[k].id == x)
  }

  lemma SimilarAreHits(store: seq<Turn>, s: Semantic, hits: set<nat>, swept: seq<(Id, Option<real>)>)
    requires AreClose(store, s, hits) && RowsOf(store, s, hits, swept)
    ensures ScoresOf(store, s, hits, Similar(swept, s.floor))
  {
    SimilarIs(swept, s.floor);
    var scores := Similar(swept, s.floor);
    hide Similar;
    forall k | k in hits ensures store[k].id in scores && scores[store[k].id] == s.vectors[store[k].id].value {
      var i :| 0 <= i < |swept| && swept[i] == (store[k].id, s.vectors[store[k].id]);
      assert Close(swept[i], s.floor);
    }
    forall x | x in scores ensures exists k :: k in hits && store[k].id == x {
      var i :| 0 <= i < |swept| && swept[i].0 == x && Close(swept[i], s.floor);
    }
  }

  function IdAt(store: seq<Turn>): nat -> Id {
    (k: nat) => if k < |store| then store[k].id else 0
  }

  lemma HitIds(store: seq<Turn>, s: Semantic, hits: set<nat>, scores: map<Id, real>)
    requires AreClose(store, s, hits) && ScoresOf(store, s, hits, scores)
    ensures scores.Keys == set k | k in hits :: IdAt(store)(k)
  {
    var ids := set k | k in hits :: IdAt(store)(k);
    forall x | x in scores.Keys ensures x in ids {
      var k :| k in hits && store[k].id == x;
      assert IdAt(store)(k) == x;
    }
    forall x | x in ids ensures x in scores.Keys {
      var k :| k in hits && IdAt(store)(k) == x;
      assert store[k].id == x;
    }
  }

  lemma HitsDiffer(store: seq<Turn>, s: Semantic, hits: set<nat>)
    requires IsStore(store) && AreClose(store, s, hits)
    ensures forall i :: i in hits ==> i < |store|
    ensures forall i, j :: i in hits && j in hits && i != j ==> IdAt(store)(i) != IdAt(store)(j)
  {
  }

  lemma HitCount(store: seq<Turn>, s: Semantic, hits: set<nat>, scores: map<Id, real>)
    requires IsStore(store) && AreClose(store, s, hits) && ScoresOf(store, s, hits, scores)
    ensures |scores| == |hits|
  {
    hide ScoresOf, AreClose, IsStore, IdAt;
    HitIds(store, s, hits, scores);
    HitsDiffer(store, s, hits);
    ImageCount(|store|, hits, IdAt(store), scores.Keys);
    assert |scores| == |scores.Keys|;
  }

  /** Of the hits as many as there are up to the number of candidates, each once, none before or
      instead of a more similar one, or of one as similar with a higher id. */
  ghost predicate MostSimilarTurns(store: seq<Turn>, s: Semantic, hits: set<nat>, ids: seq<Id>)
    requires AreClose(store, s, hits)
  {
    && Distinct(ids)
    && (forall x :: x in ids ==> exists k :: k in hits && store[k].id == x)
    && |ids| == (if s.candidates <= 0 then 0 else Min(s.candidates, |hits|))
    && forall j, k :: j in hits && k in hits && j != k && PutBefore(ids, store[j].id, store[k].id) ==>
         var a, b := s.vectors[store[j].id].value, s.vectors[store[k].id].value;
         a > b || (a == b && store[j].id > store[k].id)
  }

  lemma BestAreHits(store: seq<Turn>, s: Semantic, hits: set<nat>, scores: map<Id, real>, ids: seq<Id>)
    requires IsStore(store) && AreClose(store, s, hits) && ScoresOf(store, s, hits, scores)
    requires Best(scores, s.candidates, ids)
    ensures MostSimilarTurns(store, s, hits, ids)
  {
    HitCount(store, s, hits, scores);
    BestIsDistinct(scores, s.candidates, ids);
    forall j, k | j in hits && k in hits && j != k && PutBefore(ids, store[j].id, store[k].id)
      ensures var a, b := s.vectors[store[j].id].value, s.vectors[store[k].id].value;
        a > b || (a == b && store[j].id > store[k].id)
    {
      PutBeforeOutranks(scores, s.candidates, ids, store[j].id, store[k].id);
    }
    hide Distinct, PutBefore;
  }

  /** Vector search gives the most similar of the newest stored vectors. */
  lemma SemanticIs(store: seq<Turn>, room: nat, s: Semantic, exclude: set<Id>, window: Option<Range>, ids: seq<Id>)
    requires IsStore(store) && VectorRanking(store, room, s, exclude, window, ids)
    ensures MostSimilarTurns(store, s, Hits(store, room, s, exclude, window), ids)
  {
    var hits, swept := Hits(store, room, s, exclude, window), Swept(store, room, s, exclude, window);
    if s.candidates > 0 && s.scanCap > 0 {
      SweptIs(store, room, s, exclude, window);
      SimilarAreHits(store, s, hits, swept);
      BestAreHits(store, s, hits, Similar(swept, s.floor), ids);
    } else if s.candidates > 0 {
      NothingSwept(store, room, s, exclude, window);
    }
    hide Swept, Similar, Hits, AreClose, RowsOf, Best;
  }

  lemma NothingSwept(store: seq<Turn>, room: nat, s: Semantic, exclude: set<Id>, window: Option<Range>)
    requires s.scanCap <= 0
    ensures Hits(store, room, s, exclude, window) == {}
  {
    forall k: nat ensures !InSweep(store, room, s, exclude, window)(k) {
      assert Newer(|store|, WithVector(store, room, s.vectors, exclude, window), k) >= 0;
    }
  }
}
