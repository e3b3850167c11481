/**
  What of the transcript is put before the model: the recent window, and older turns found by
  topic or by time.

  Text search is an arbitrary duplicate-free ranking of stored turns, vector search an
  arbitrary similarity per stored vector.  The store is the sequence a walk of its
  (created_at, id) index yields, oldest first.  How many turns are to be retrieved is not
  negative: the configuration refuses it.
*/
module Retrieval {
  import opened Wrappers
  import opened RankFusion

  datatype Turn = Turn(id: Id, room: nat, at: real, deflection: bool)

  /** From `lo` up to but not including `hi`. */
  datatype Range = Range(lo: real, hi: real)

  const SCAN_CAP := 200
  const OVERFETCH := 3

  function Ids(ts: seq<Turn>): set<Id> {
    set t | t in ts :: t.id
  }

  predicate DistinctTurns(ts: seq<Turn>) {
    forall i, j :: 0 <= i < j < |ts| ==> ts[i].id != ts[j].id
  }

  predicate Within(t: Turn, window: Option<Range>) {
    window.Some? ==> window.value.lo <= t.at < window.value.hi
  }

  predicate Wanted(t: Turn, room: nat, window: Option<Range>, exclude: set<Id>) {
    t.room == room && Within(t, window) && t.id !in exclude
  }

  /** The turns a query may return, in their own order. */
  function Matching(ts: seq<Turn>, room: nat, window: Option<Range>, exclude: set<Id>): (r: seq<Turn>)
    ensures forall t :: t in r <==> t in ts && Wanted(t, room, window, exclude)
  {
    if ts == [] then []
    else
      var last := ts[|ts| - 1];
      Matching(ts[..|ts| - 1], room, window, exclude)
      + if Wanted(last, room, window, exclude) then [last] else []
  }

  /** The newest `n` turns, oldest of them first. */
  function Last<T>(ts: seq<T>, n: int): seq<T> {
    if n <= 0 then [] else if n < |ts| then ts[|ts| - n..] else ts
  }

  lemma {:induction false} MatchingDistinct(ts: seq<Turn>, room: nat, window: Option<Range>, exclude: set<Id>)
    requires DistinctTurns(ts)
    ensures DistinctTurns(Matching(ts, room, window, exclude))
  {
    hide Wanted;
    if ts != [] {
      var front := ts[..|ts| - 1];
      MatchingDistinct(front, room, window, exclude);
      var before := Matching(front, room, window, exclude);
      forall i | 0 <= i < |before| ensures before[i].id != ts[|ts| - 1].id {
        assert before[i] in front;
      }
    }
  }

  lemma {:induction false} IdsCount(ts: seq<Turn>)
    requires DistinctTurns(ts)
    ensures |Ids(ts)| == |ts|
  {
    if ts != [] {
      var front, last := ts[..|ts| - 1], ts[|ts| - 1];
      IdsCount(front);
      assert ts == front + [last];
      assert Ids(ts) == Ids(front) + {last.id};
      assert last.id !in Ids(front);
    }
  }

  lemma MatchingIds(ts: seq<Turn>, room: nat, window: Option<Range>, exclude: set<Id>, more: set<Id>)
    ensures Ids(Matching(ts, room, window, exclude + more)) == Ids(Matching(ts, room, window, exclude)) - more
  {
    var fewer, all := Matching(ts, room, window, exclude + more), Matching(ts, room, window, exclude);
    forall i | i in Ids(all) - more ensures i in Ids(fewer) {
      var t :| t in all && t.id == i;
      assert t in fewer;
    }
    forall i | i in Ids(fewer) ensures i in Ids(all) - more {
      var t :| t in fewer && t.id == i;
      assert t in all;
    }
  }

  /** Excluding the ids of turns that matched leaves that many fewer matches. */
  lemma MatchingLeft(ts: seq<Turn>, room: nat, window: Option<Range>, exclude: set<Id>, taken: seq<Turn>)
    requires DistinctTurns(ts) && DistinctTurns(taken)
    requires forall t :: t in taken ==> t in Matching(ts, room, window, exclude)
    ensures |Matching(ts, room, window, exclude + Ids(taken))| == |Matching(ts, room, window, exclude)| - |taken|
  {
    var all, left := Matching(ts, room, window, exclude), Matching(ts, room, window, exclude + Ids(taken));
    MatchingDistinct(ts, room, window, exclude);
    MatchingDistinct(ts, room, window, exclude + Ids(taken));
    MatchingIds(ts, room, window, exclude, Ids(taken));
    hide Matching;
    IdsCount(all);
    IdsCount(left);
    IdsCount(taken);
    assert Ids(taken) <= Ids(all);
  }

  // ---- spreading over a period ---------------------------------------------

  /** `p / q`, rounded half to even. */
  function RoundDiv(p: nat, q: nat): (r: nat)
    requires q > 0
  {
    var f, rem := p / q, p % q;
    if 2 * rem < q then f else if 2 * rem > q then f + 1 else if f % 2 == 0 then f else f + 1
  }

  lemma RoundsToNearest(p: nat, q: nat)
    requires q > 0
    ensures 2 * p - q <= 2 * (q * RoundDiv(p, q)) <= 2 * p + q
  {
    var f, rem := p / q, p % q;
    assert p == q * f + rem;
    assert q * (f + 1) == q * f + q;
  }

  /** Halfway between two numbers, the even one. */
  lemma TiesGoToEven(p: nat, q: nat)
    requires q > 0 && (2 * (q * RoundDiv(p, q)) == 2 * p - q || 2 * (q * RoundDiv(p, q)) == 2 * p + q)
    ensures RoundDiv(p, q) % 2 == 0
  {
    RoundsDownOrUp(p, q, p / q, p % q, RoundDiv(p, q));
    TieIsHalf(p, q, q * (p / q), p % q, q * RoundDiv(p, q));
  }

  lemma RoundsDownOrUp(p: nat, q: nat, f: nat, rem: nat, r: nat)
    requires q > 0 && f == p / q && rem == p % q && (r == f || r == f + 1)
    ensures p == q * f + rem && (q * r == q * f || q * r == q * f + q)
  {
  }

  lemma TieIsHalf(p: nat, q: nat, below: nat, rem: nat, near: nat)
    requires rem < q && p == below + rem && (near == below || near == below + q)
    requires 2 * near == 2 * p - q || 2 * near == 2 * p + q
    ensures 2 * rem == q
  {
  }

  lemma RoundMonotone(p1: nat, p2: nat, q: nat)
    requires q > 0 && p2 > p1 + q
    ensures RoundDiv(p1, q) < RoundDiv(p2, q)
  {
    hide RoundDiv;
    RoundsToNearest(p1, q);
    RoundsToNearest(p2, q);
    var r1, r2 := RoundDiv(p1, q), RoundDiv(p2, q);
    if r2 <= r1 {
      TimesMonotone(q, r2, r1);
    }
  }

  lemma TimesMonotone(q: nat, a: nat, b: nat)
    requires a <= b
    ensures q * a <= q * b
  {
  }

  /** Index `i` of `limit` places spread evenly from 0 to `last`. */
  function Pick(i: nat, last: nat, limit: nat): nat
    requires limit >= 2
  {
    RoundDiv(i * last, limit - 1)
  }

  /** More places than picks: the picks rise strictly, from the first place to the last. */
  lemma {:induction false} PicksRise(last: nat, limit: nat, i: nat, j: nat)
    requires 2 <= limit <= last && i < j < limit
    ensures Pick(i, last, limit) < Pick(j, last, limit)
    decreases j
  {
    hide RoundDiv;
    if j == i + 1 {
      assert j * last == i * last + last;
      RoundMonotone(i * last, j * last, limit - 1);
    } else {
      PicksRise(last, limit, i, j - 1);
      assert j * last == (j - 1) * last + last;
      RoundMonotone((j - 1) * last, j * last, limit - 1);
    }
  }

  lemma PickEnds(last: nat, limit: nat)
    requires 2 <= limit <= last
    ensures Pick(0, last, limit) == 0 && Pick(limit - 1, last, limit) == last
  {
    var q := limit - 1;
    assert q * last == last * q;
    assert (last * q) / q == last && (last * q) % q == 0 by {
      Multiple(last, q);
    }
  }

  lemma QuotientIs(p: nat, q: nat, a: nat)
    requires q > 0 && p == a * q
    ensures p / q == a && p % q == 0
  {
    var f, rem := p / q, p % q;
    assert p == q * f + rem;
    assert q * (f + 1) == q * f + q && q * (a + 1) == q * a + q;
    if f + 1 <= a {
      TimesMonotone(q, f + 1, a);
    } else {
      TimesMonotone(q, a, f);
      if a + 1 <= f {
        TimesMonotone(q, a + 1, f);
      }
    }
  }

  lemma Multiple(a: nat, q: nat)
    requires q > 0
    ensures (a * q) / q == a && (a * q) % q == 0
  {
    QuotientIs(a * q, q, a);
  }

  lemma PickInside(last: nat, limit: nat, i: nat)
    requires 2 <= limit <= last && i < limit
    ensures Pick(i, last, limit) <= last
  {
    PickEnds(last, limit);
    if i < limit - 1 {
      PicksRise(last, limit, i, limit - 1);
    }
  }

  /** An even sample of `rows`: all of them if they fit, the newest alone if only one does. */
  ghost predicate Sample(rows: seq<Turn>, limit: int, r: seq<Turn>) {
    if limit <= 0 then r == []
    else if |rows| <= limit then r == rows
    else if limit == 1 then r == [rows[|rows| - 1]]
    else
      && |r| == limit
      && forall i: nat :: i < limit ==>
           Pick(i, |rows| - 1, limit) < |rows| && r[i] == rows[Pick(i, |rows| - 1, limit)]
  }

  method Spread(store: seq<Turn>, room: nat, window: Range, limit: int, exclude: set<Id>)
    returns (r: seq<Turn>)
    ensures Sample(Last(Matching(store, room, Some(window), exclude), SCAN_CAP), limit, r)
  {
    hide Matching, RoundDiv;
    if limit <= 0 {
      return [];
    }
    var rows := Last(Matching(store, room, Some(window), exclude), SCAN_CAP);
    if |rows| <= limit {
      return rows;
    }
    if limit == 1 {
      return [rows[|rows| - 1]];
    }
    var last := |rows| - 1;
    var picked: seq<nat> := [];
    for index := 0 to limit
      invariant |picked| == index
      invariant forall i: nat :: i < index ==> picked[i] == Pick(i, last, limit)
    {
      var pick := Pick(index, last, limit);
      forall i: nat | i < index ensures picked[i] != pick {
        PicksRise(last, limit, i, index);
      }
      if pick !in picked {
        picked := picked + [pick];
      }
    }
    forall i: nat | i < limit ensures picked[i] <= last {
      PickInside(last, limit, i);
    }
    return seq(|picked|, i requires 0 <= i < |picked| => rows[picked[i]]);
  }

  /** A pick is at most half a place from where even spacing would put it. */
  lemma PickIsNear(i: nat, last: nat, limit: nat)
    requires 2 <= limit
    ensures 2 * (i * last) - (limit - 1) <= 2 * ((limit - 1) * Pick(i, last, limit)) <= 2 * (i * last) + (limit - 1)
  {
    RoundsToNearest(i * last, limit - 1);
  }

  /** An even sample takes as many turns as fit, in order, each once; and from a longer list,
      two or more of them reach from its first to its last. */
  lemma SampleIsEven(rows: seq<Turn>, limit: int, r: seq<Turn>)
    requires DistinctTurns(rows) && Sample(rows, limit, r) && limit >= 0
    ensures |r| == Min(limit, |rows|) && DistinctTurns(r) && forall t :: t in r ==> t in rows
    ensures 2 <= limit <= |rows| ==> r[0] == rows[0] && r[|r| - 1] == rows[|rows| - 1]
  {
    hide Pick;
    if 2 <= limit < |rows| {
      var last := |rows| - 1;
      PickEnds(last, limit);
      forall i, j | 0 <= i < j < |r| ensures r[i].id != r[j].id {
        PicksRise(last, limit, i, j);
      }
    }
  }

  // ---- search --------------------------------------------------------------

  /** A store, with text search and vector search over it: `ranking` is what matches the query
      text, best first, and empty for a query with nothing to search for. */
  datatype Query = Query(ranking: seq<Turn>, searchable: bool)

  /** `None` in `vectors` is a vector that cannot be read. */
  datatype Semantic = Semantic(vectors: map<Id, Option<real>>, candidates: int, scanCap: int, floor: real)

  predicate IsStore(store: seq<Turn>) {
    DistinctTurns(store)
  }

  predicate QueryOk(store: seq<Turn>, q: Query) {
    && DistinctTurns(q.ranking) && (forall t :: t in q.ranking ==> t in store)
    && (!q.searchable ==> q.ranking == [])
  }

  function Lexical(q: Query, room: nat, limit: int, exclude: set<Id>, window: Option<Range>): seq<Turn> {
    Take(Matching(q.ranking, room, window, exclude), limit)
  }

  function IdList(ts: seq<Turn>): seq<Id> {
    seq(|ts|, i requires 0 <= i < |ts| => ts[i].id)
  }

  function WithVectors(ts: seq<Turn>, vectors: map<Id, Option<real>>): seq<Turn> {
    if ts == [] then []
    else
      var last := ts[|ts| - 1];
      WithVectors(ts[..|ts| - 1], vectors) + if last.id in vectors then [last] else []
  }

  lemma {:induction false} WithVectorsAreTurns(ts: seq<Turn>, vectors: map<Id, Option<real>>)
    ensures forall t :: t in WithVectors(ts, vectors) ==> t in ts && t.id in vectors
  {
    if ts != [] {
      WithVectorsAreTurns(ts[..|ts| - 1], vectors);
    }
  }

  lemma {:induction false} NoVectors(ts: seq<Turn>)
    ensures WithVectors(ts, map[]) == []
  {
    if ts != [] {
      NoVectors(ts[..|ts| - 1]);
    }
  }

  /** The vectors swept: the newest in range, no more than the cap. */
  function Swept(store: seq<Turn>, room: nat, s: Semantic, exclude: set<Id>, window: Option<Range>): seq<(Id, Option<real>)> {
    var rows := Last(Matching(WithVectors(store, s.vectors), room, window, exclude), s.scanCap);
    seq(|rows|, i requires 0 <= i < |rows| =>
      (rows[i].id, if rows[i].id in s.vectors then s.vectors[rows[i].id] else None))
  }

  lemma {:induction false} SimilarAreRows(rows: seq<(Id, Option<real>)>, floor: real, x: Id)
    requires x in Similar(rows, floor)
    ensures exists r :: r in rows && r.0 == x
  {
    if rows != [] {
      var front, last := rows[..|rows| - 1], rows[|rows| - 1];
      if x in Similar(front, floor) {
        SimilarAreRows(front, floor, x);
        var r :| r in front && r.0 == x;
        assert r in rows;
      } else {
        assert last in rows && last.0 == x;
      }
    }
  }

  lemma SweptAreWanted(store: seq<Turn>, room: nat, s: Semantic, exclude: set<Id>, window: Option<Range>, x: Id)
    requires x in Similar(Swept(store, room, s, exclude, window), s.floor)
    ensures x in Ids(Matching(store, room, window, exclude))
  {
    hide Matching, Similar, WithVectors, Wanted;
    var swept := Swept(store, room, s, exclude, window);
    SimilarAreRows(swept, s.floor, x);
    var t := SweptRow(store, room, s, exclude, window, x);
    WithVectorsAreTurns(store, s.vectors);
    assert t in Matching(store, room, window, exclude);
  }

  lemma SweptRow(store: seq<Turn>, room: nat, s: Semantic, exclude: set<Id>, window: Option<Range>, x: Id)
    returns (t: Turn)
    requires exists r :: r in Swept(store, room, s, exclude, window) && r.0 == x
    ensures t in Matching(WithVectors(store, s.vectors), room, window, exclude) && t.id == x
  {
    hide Matching, WithVectors;
    var rows := Last(Matching(WithVectors(store, s.vectors), room, window, exclude), s.scanCap);
    var r :| r in Swept(store, room, s, exclude, window) && r.0 == x;
    var i :| 0 <= i < |rows| && Swept(store, room, s, exclude, window)[i] == r;
    t := rows[i];
    assert t in rows;
  }

  /** The ranking a vector search gives: the most similar of the vectors swept. */
  ghost predicate VectorRanking(
    store: seq<Turn>, room: nat, s: Semantic, exclude: set<Id>, window: Option<Range>, ids: seq<Id>)
  {
    if s.candidates <= 0 || s.scanCap <= 0 then ids == []
    else Best(Similar(Swept(store, room, s, exclude, window), s.floor), s.candidates, ids)
  }

  /** A vector search finds nothing exactly when nothing swept is similar enough, or nothing is asked for. */
  lemma NoHitIff(store: seq<Turn>, room: nat, s: Semantic, exclude: set<Id>, window: Option<Range>, ids: seq<Id>)
    requires VectorRanking(store, room, s, exclude, window, ids)
    ensures ids == [] <==>
      s.candidates <= 0 || s.scanCap <= 0 || Similar(Swept(store, room, s, exclude, window), s.floor) == map[]
  {
    hide Swept, Similar;
  }

  method RetrieveSemantic(store: seq<Turn>, room: nat, s: Semantic, exclude: set<Id>, window: Option<Range>)
    returns (ids: seq<Id>)
    ensures VectorRanking(store, room, s, exclude, window, ids)
    ensures Distinct(ids) && forall x :: x in ids ==> x in Ids(Matching(store, room, window, exclude))
  {
    hide Swept, Similar, Matching;
    if s.candidates <= 0 || s.scanCap <= 0 {
      return [];
    }
    ids := RankBySimilarity(Swept(store, room, s, exclude, window), s.candidates, s.floor);
    forall x | x in ids ensures x in Ids(Matching(store, room, window, exclude)) {
      SweptAreWanted(store, room, s, exclude, window, x);
    }
  }

  /** The turn with an id. */
  function Find(ts: seq<Turn>, x: Id): (t: Turn)
    requires x in Ids(ts)
    ensures t in ts && t.id == x
  {
    var last := ts[|ts| - 1];
    if last.id == x then last
    else
      assert ts == ts[..|ts| - 1] + [last];
      Find(ts[..|ts| - 1], x)
  }

  lemma {:induction false} FindIsUnique(ts: seq<Turn>, t: Turn)
    requires DistinctTurns(ts) && t in ts
    ensures t.id in Ids(ts) && Find(ts, t.id) == t
  {
    var found := Find(ts, t.id);
    var i :| 0 <= i < |ts| && ts[i] == found;
    var j :| 0 <= j < |ts| && ts[j] == t;
  }

  /** The result of a search: distinct turns that were wanted, no more than asked for. */
  ghost predicate Found(store: seq<Turn>, room: nat, limit: int, exclude: set<Id>, window: Option<Range>, r: seq<Turn>) {
    && DistinctTurns(r) && |r| <= (if limit <= 0 then 0 else limit)
    && forall t :: t in r ==> t in Matching(store, room, window, exclude)
  }

  lemma LexicalIsFound(store: seq<Turn>, q: Query, room: nat, limit: int, exclude: set<Id>, window: Option<Range>)
    requires QueryOk(store, q)
    ensures Found(store, room, limit, exclude, window, Lexical(q, room, limit, exclude, window))
  {
    MatchingDistinct(q.ranking, room, window, exclude);
    hide Wanted;
  }

  /** Both searches, fused by rank; the text search alone when vectors found nothing. */
  ghost predicate Fused(
    q: Query, room: nat, limit: nat, exclude: set<Id>, s: Semantic, window: Option<Range>,
    vectorIds: seq<Id>, r: seq<Turn>)
  {
    var lexical := Lexical(q, room, s.candidates, exclude, window);
    if vectorIds == [] then r == Take(lexical, limit)
    else Best(Scores([IdList(lexical), vectorIds], RRF_K), limit, IdList(r))
  }

  ghost predicate HybridResult(
    store: seq<Turn>, q: Query, room: nat, limit: nat, exclude: set<Id>, s: Semantic, window: Option<Range>,
    r: seq<Turn>)
  {
    exists vectorIds ::
      VectorRanking(store, room, s, exclude, window, vectorIds)
      && Fused(q, room, limit, exclude, s, window, vectorIds, r)
  }

  method RetrieveHybrid(
    store: seq<Turn>, q: Query, room: nat, limit: nat, exclude: set<Id>, s: Semantic, window: Option<Range>)
    returns (r: seq<Turn>)
    requires IsStore(store) && QueryOk(store, q)
    ensures Found(store, room, limit, exclude, window, r)
    ensures HybridResult(store, q, room, limit, exclude, s, window, r)
  {
    hide Matching, Swept, Similar, Scores;
    var lexical := Lexical(q, room, s.candidates, exclude, window);
    LexicalIsFound(store, q, room, s.candidates, exclude, window);
    var vectorIds := RetrieveSemantic(store, room, s, exclude, window);
    if vectorIds == [] {
      r := Take(lexical, limit);
      assert Fused(q, room, limit, exclude, s, window, vectorIds, r);
      return;
    }
    var rankings := [IdList(lexical), vectorIds];
    var fused := ReciprocalRankFusion(rankings, limit, RRF_K);
    BestIsDistinct(Scores(rankings, RRF_K), limit, fused);
    forall x | x in fused ensures x in Ids(store) && Find(store, x) in Matching(store, room, window, exclude) {
      FusedIsWanted(store, room, exclude, window, lexical, vectorIds, limit, fused, x);
    }
    r := seq(|fused|, i requires 0 <= i < |fused| => Find(store, fused[i]));
    assert IdList(r) == fused;
    assert Fused(q, room, limit, exclude, s, window, vectorIds, r);
  }

  lemma FusedIsWanted(
    store: seq<Turn>, room: nat, exclude: set<Id>, window: Option<Range>,
    lexical: seq<Turn>, vectorIds: seq<Id>, limit: nat, fused: seq<Id>, x: Id)
    requires IsStore(store) && Best(Scores([IdList(lexical), vectorIds], RRF_K), limit, fused) && x in fused
    requires forall t :: t in lexical ==> t in Matching(store, room, window, exclude)
    requires forall y :: y in vectorIds ==> y in Ids(Matching(store, room, window, exclude))
    ensures x in Ids(store) && Find(store, x) in Matching(store, room, window, exclude)
  {
    var wanted := Matching(store, room, window, exclude);
    assert forall t :: t in wanted ==> t in store;
    hide Matching, Score;
    assert x in Ranked([IdList(lexical), vectorIds]);
    assert x in Ids(wanted) by {
      if x !in vectorIds {
        assert x in IdList(lexical);
        var i :| 0 <= i < |lexical| && lexical[i].id == x;
        assert lexical[i] in wanted;
      }
    }
    var t :| t in wanted && t.id == x;
    FindIsUnique(store, t);
  }

  ghost predicate RankedResult(
    store: seq<Turn>, q: Query, room: nat, limit: nat, exclude: set<Id>, semantic: Option<Semantic>,
    window: Option<Range>, r: seq<Turn>)
  {
    if semantic.None? || !q.searchable then r == Lexical(q, room, limit, exclude, window)
    else HybridResult(store, q, room, limit, exclude, semantic.value, window, r)
  }

  method RetrieveRanked(
    store: seq<Turn>, q: Query, room: nat, limit: nat, exclude: set<Id>, semantic: Option<Semantic>,
    window: Option<Range>)
    returns (r: seq<Turn>)
    requires IsStore(store) && QueryOk(store, q)
    ensures Found(store, room, limit, exclude, window, r)
    ensures RankedResult(store, q, room, limit, exclude, semantic, window, r)
  {
    if semantic.None? || !q.searchable {
      LexicalIsFound(store, q, room, limit, exclude, window);
      return Lexical(q, room, limit, exclude, window);
    }
    r := RetrieveHybrid(store, q, room, limit, exclude, semantic.value, window);
  }

  // ---- what a ranked search gives ------------------------------------------

  /** Only one list of turns is the result. */
  lemma RankedIsUnique(
    store: seq<Turn>, q: Query, room: nat, limit: nat, exclude: set<Id>, semantic: Option<Semantic>,
    window: Option<Range>, a: seq<Turn>, b: seq<Turn>)
    requires IsStore(store)
    requires Found(store, room, limit, exclude, window, a) && Found(store, room, limit, exclude, window, b)
    requires RankedResult(store, q, room, limit, exclude, semantic, window, a)
    requires RankedResult(store, q, room, limit, exclude, semantic, window, b)
    ensures a == b
  {
    if semantic.Some? && q.searchable {
      var s := semantic.value;
      var v := TheRanking(store, q, room, limit, exclude, s, window, a);
      var w := TheRanking(store, q, room, limit, exclude, s, window, b);
      SameRanking(store, room, s, exclude, window, v, w);
      if v != [] {
        var lexical := Lexical(q, room, s.candidates, exclude, window);
        hide Scores, Lexical;
        BestIsUnique(Scores([IdList(lexical), v], RRF_K), limit, IdList(a), IdList(b));
        SameTurns(store, a, b);
      }
    }
  }

  lemma TheRanking(
    store: seq<Turn>, q: Query, room: nat, limit: nat, exclude: set<Id>, s: Semantic, window: Option<Range>,
    r: seq<Turn>)
    returns (vectorIds: seq<Id>)
    requires HybridResult(store, q, room, limit, exclude, s, window, r)
    ensures VectorRanking(store, room, s, exclude, window, vectorIds)
    ensures Fused(q, room, limit, exclude, s, window, vectorIds, r)
  {
    vectorIds :|
      VectorRanking(store, room, s, exclude, window, vectorIds)
      && Fused(q, room, limit, exclude, s, window, vectorIds, r);
  }

  lemma SameRanking(
    store: seq<Turn>, room: nat, s: Semantic, exclude: set<Id>, window: Option<Range>, v: seq<Id>, w: seq<Id>)
    requires VectorRanking(store, room, s, exclude, window, v) && VectorRanking(store, room, s, exclude, window, w)
    ensures v == w
  {
    hide Swept, Similar;
    if s.candidates > 0 && s.scanCap > 0 {
      BestIsUnique(Similar(Swept(store, room, s, exclude, window), s.floor), s.candidates, v, w);
    }
  }

  lemma SameTurns(store: seq<Turn>, a: seq<Turn>, b: seq<Turn>)
    requires IsStore(store) && IdList(a) == IdList(b)
    requires (forall t :: t in a ==> t in store) && forall t :: t in b ==> t in store
    ensures a == b
  {
    assert |a| == |IdList(a)| == |b|;
    forall i | 0 <= i < |a| ensures a[i] == b[i] {
      assert a[i].id == IdList(a)[i] == b[i].id;
      FindIsUnique(store, a[i]);
      FindIsUnique(store, b[i]);
    }
  }

  function NonNegative(n: int): nat {
    if n < 0 then 0 else n
  }

  /** Vectors found nothing: the answer is what text search answers exactly when the candidates
      are as many as the limit, or as many as there are matches. */
  lemma TextAloneIff(
    store: seq<Turn>, q: Query, room: nat, limit: nat, exclude: set<Id>, s: Semantic, window: Option<Range>,
    r: seq<Turn>)
    requires HybridResult(store, q, room, limit, exclude, s, window, r)
    requires VectorRanking(store, room, s, exclude, window, [])
    ensures r == Lexical(q, room, limit, exclude, window)
       <==> NonNegative(s.candidates) >= Min(limit, |Matching(q.ranking, room, window, exclude)|)
  {
    var v := TheRanking(store, q, room, limit, exclude, s, window, r);
    SameRanking(store, room, s, exclude, window, v, []);
    var found := Matching(q.ranking, room, window, exclude);
    assert r == Take(Take(found, s.candidates), limit);
    hide Matching, HybridResult, VectorRanking;
    assert |r| == Min(limit, Min(NonNegative(s.candidates), |found|));
  }

  /** Two turns match, two are asked for, no vector is stored, one candidate is configured: one
      turn comes back, where text search gives both. */
  lemma FewerThanTextAlone(a: Turn, b: Turn, s: Semantic)
    requires a.id != b.id && a.room == b.room && s.vectors == map[] && s.candidates == 1
    ensures var q := Query([a, b], true);
      && HybridResult([a, b], q, a.room, 2, {}, s, None, [a])
      && Lexical(q, a.room, 2, {}, None) == [a, b]
  {
    var q := Query([a, b], true);
    assert [a, b][..1] == [a] && [a][..0] == [];
    assert Matching([a], a.room, None, {}) == [a];
    assert Matching([a, b], a.room, None, {}) == [a, b];
    NoVectors([a, b]);
    assert Swept([a, b], a.room, s, {}, None) == [];
    hide Matching;
    assert VectorRanking([a, b], a.room, s, {}, None, []);
    assert Fused(q, a.room, 2, {}, s, None, [], [a]);
  }

  /** A vector hit: as many turns as the two rankings hold together, up to the limit. */
  lemma FusedCount(
    q: Query, room: nat, limit: nat, exclude: set<Id>, s: Semantic, window: Option<Range>,
    vectorIds: seq<Id>, r: seq<Turn>)
    requires Fused(q, room, limit, exclude, s, window, vectorIds, r)
    ensures vectorIds != [] ==>
      |r| == Min(limit, |Ids(Lexical(q, room, s.candidates, exclude, window)) + Elements(vectorIds)|)
    ensures vectorIds == [] ==>
      |r| == Min(limit, |Lexical(q, room, s.candidates, exclude, window)|)
  {
    if vectorIds != [] {
      var lexical := Lexical(q, room, s.candidates, exclude, window);
      hide Lexical, Best;
      var rankings := [IdList(lexical), vectorIds];
      RankedTwo(lexical, vectorIds);
      assert Scores(rankings, RRF_K).Keys == Ids(lexical) + Elements(vectorIds);
      BestCount(Scores(rankings, RRF_K), limit, IdList(r));
    }
  }

  lemma BestCount(scores: map<Id, real>, limit: nat, ids: seq<Id>)
    requires Best(scores, limit, ids)
    ensures |ids| == Min(limit, |scores.Keys|)
  {
  }

  lemma RankedTwo(lexical: seq<Turn>, vectorIds: seq<Id>)
    ensures Ranked([IdList(lexical), vectorIds]) == Ids(lexical) + Elements(vectorIds)
  {
    var ids := IdList(lexical);
    RankedGrows([ids], vectorIds);
    RankedGrows([], ids);
    assert [] + [ids] == [ids] && [ids] + [vectorIds] == [ids, vectorIds];
    assert Elements(ids) == Ids(lexical) by {
      forall x | x in Ids(lexical) ensures x in Elements(ids) {
        var t :| t in lexical && t.id == x;
        var i :| 0 <= i < |lexical| && lexical[i] == t;
        assert ids[i] == x;
      }
    }
  }

  /** A turn that both searches put above another one comes before it in the answer. */
  lemma AgreementIsKept(
    q: Query, room: nat, limit: nat, exclude: set<Id>, s: Semantic, window: Option<Range>,
    vectorIds: seq<Id>, r: seq<Turn>, i: nat, j: nat)
    requires vectorIds != [] && Distinct(vectorIds) && DistinctTurns(q.ranking)
    requires Fused(q, room, limit, exclude, s, window, vectorIds, r) && i < |r| && j < |r|
    requires r[i].id != r[j].id
    requires var lexical := IdList(Lexical(q, room, s.candidates, exclude, window));
      Above(lexical, r[i].id, r[j].id) && Above(vectorIds, r[i].id, r[j].id)
    ensures i < j
  {
    var turns := Lexical(q, room, s.candidates, exclude, window);
    MatchingDistinct(q.ranking, room, window, exclude);
    assert Distinct(IdList(turns));
    var rankings := [IdList(turns), vectorIds];
    hide Lexical, Above, Scores, Matching;
    var ids := IdList(r);
    assert ids[i] == r[i].id && ids[j] == r[j].id;
    BestAreRanked(rankings, limit, ids, i);
    FusionKeepsAgreement(rankings, limit, RRF_K, ids, r[i].id, r[j].id);
    BestIsDistinct(Scores(rankings, RRF_K), limit, ids);
  }

  lemma BestAreRanked(rankings: seq<seq<Id>>, limit: nat, ids: seq<Id>, i: nat)
    requires Best(Scores(rankings, RRF_K), limit, ids) && i < |ids|
    ensures ids[i] in Ranked(rankings)
  {
  }

  // ---- by time -------------------------------------------------------------

  /** Topic first, then a spread of what else the period holds. */
  ghost predicate TemporalParts(
    store: seq<Turn>, q: Query, room: nat, window: Range, limit: nat, exclude: set<Id>,
    semantic: Option<Semantic>, first: seq<Turn>, r: seq<Turn>)
  {
    && RankedResult(store, q, room, limit, exclude, semantic, Some(window), first)
    && Found(store, room, limit, exclude, Some(window), first)
    && first <= r
    && Sample(Last(Matching(store, room, Some(window), exclude + Ids(first)), SCAN_CAP),
              limit - |first|, r[|first|..])
  }

  ghost predicate TemporalResult(
    store: seq<Turn>, q: Query, room: nat, window: Range, limit: nat, exclude: set<Id>,
    semantic: Option<Semantic>, r: seq<Turn>)
  {
    if limit == 0 then r == []
    else exists first :: TemporalParts(store, q, room, window, limit, exclude, semantic, first, r)
  }

  method RetrieveTemporal(
    store: seq<Turn>, q: Query, room: nat, window: Range, limit: nat, exclude: set<Id>,
    semantic: Option<Semantic>)
    returns (r: seq<Turn>)
    requires IsStore(store) && QueryOk(store, q)
    ensures TemporalResult(store, q, room, window, limit, exclude, semantic, r)
    ensures Found(store, room, limit, exclude, Some(window), r)
    ensures 0 < limit <= 200 ==> |r| == Min(limit, |Matching(store, room, Some(window), exclude)|)
  {
    hide Matching, Lexical, QueryOk, Sample, HybridResult;
    if limit == 0 {
      return [];
    }
    var first := RetrieveRanked(store, q, room, limit, exclude, semantic, Some(window));
    var rest := Spread(store, room, window, limit - |first|, exclude + Ids(first));
    r := first + rest;
    assert r[|first|..] == rest;
    assert TemporalParts(store, q, room, window, limit, exclude, semantic, first, r);
    PeriodIsAnswered(store, q, room, window, limit, exclude, semantic, first, r);
  }

  /** Distinct turns of the period, and as many as it holds or as were asked for, exactly unless
      more than the scan cap is still wanted after the topical ones and is there. */
  lemma PeriodIsAnswered(
    store: seq<Turn>, q: Query, room: nat, window: Range, limit: nat, exclude: set<Id>,
    semantic: Option<Semantic>, first: seq<Turn>, r: seq<Turn>)
    requires IsStore(store) && limit > 0
    requires TemporalParts(store, q, room, window, limit, exclude, semantic, first, r)
    ensures Found(store, room, limit, exclude, Some(window), r)
    ensures var n := Min(limit, |Matching(store, room, Some(window), exclude)|);
      |first| <= n && (|r| == n <==> n - |first| <= 200)
  {
    hide Matching, Sample, RankedResult;
    var rest := r[|first|..];
    var rows := Matching(store, room, Some(window), exclude + Ids(first));
    MatchingLeft(store, room, Some(window), exclude, first);
    MatchingDistinct(store, room, Some(window), exclude + Ids(first));
    LastIsDistinct(rows, SCAN_CAP);
    SampleIsEven(Last(rows, SCAN_CAP), limit - |first|, rest);
    TwoParts(store, room, window, exclude, first, rest);
    assert r == first + rest;
  }

  /** Only one list of turns is the answer. */
  lemma TemporalIsUnique(
    store: seq<Turn>, q: Query, room: nat, window: Range, limit: nat, exclude: set<Id>,
    semantic: Option<Semantic>, a: seq<Turn>, b: seq<Turn>)
    requires IsStore(store)
    requires TemporalResult(store, q, room, window, limit, exclude, semantic, a)
    requires TemporalResult(store, q, room, window, limit, exclude, semantic, b)
    ensures a == b
  {
    hide TemporalParts;
    if limit > 0 {
      var f :| TemporalParts(store, q, room, window, limit, exclude, semantic, f, a);
      var g :| TemporalParts(store, q, room, window, limit, exclude, semantic, g, b);
      PartsAreUnique(store, q, room, window, limit, exclude, semantic, f, a, g, b);
    }
  }

  lemma PartsAreUnique(
    store: seq<Turn>, q: Query, room: nat, window: Range, limit: nat, exclude: set<Id>,
    semantic: Option<Semantic>, f: seq<Turn>, a: seq<Turn>, g: seq<Turn>, b: seq<Turn>)
    requires IsStore(store)
    requires TemporalParts(store, q, room, window, limit, exclude, semantic, f, a)
    requires TemporalParts(store, q, room, window, limit, exclude, semantic, g, b)
    ensures f == g && a == b
  {
    hide IsStore, Matching, Sample, RankedResult, Found, Last;
    RankedIsUnique(store, q, room, limit, exclude, semantic, Some(window), f, g);
    var rows := Last(Matching(store, room, Some(window), exclude + Ids(f)), SCAN_CAP);
    SampleIsUnique(rows, limit - |f|, a[|f|..], b[|f|..]);
    Rejoin(f, a);
    Rejoin(f, b);
  }

  lemma Rejoin(f: seq<Turn>, r: seq<Turn>)
    requires f <= r
    ensures r == f + r[|f|..]
  {
  }

  lemma SampleIsUnique(rows: seq<Turn>, limit: int, a: seq<Turn>, b: seq<Turn>)
    requires Sample(rows, limit, a) && Sample(rows, limit, b)
    ensures a == b
  {
    hide Pick;
  }

  /** The topical ones, counted by the searches themselves. */
  lemma TopicalCount(
    store: seq<Turn>, q: Query, room: nat, limit: nat, exclude: set<Id>, semantic: Option<Semantic>,
    window: Option<Range>, vectorIds: seq<Id>, r: seq<Turn>)
    requires RankedResult(store, q, room, limit, exclude, semantic, window, r)
    requires semantic.Some? ==> VectorRanking(store, room, semantic.value, exclude, window, vectorIds)
    ensures |r| ==
      if semantic.None? || !q.searchable then |Lexical(q, room, limit, exclude, window)|
      else
        var lexical := Lexical(q, room, semantic.value.candidates, exclude, window);
        Min(limit, if vectorIds == [] then |lexical| else |Ids(lexical) + Elements(vectorIds)|)
  {
    hide Lexical, Fused, VectorRanking;
    if semantic.Some? && q.searchable {
      var s := semantic.value;
      var v := TheRanking(store, q, room, limit, exclude, s, window, r);
      SameRanking(store, room, s, exclude, window, v, vectorIds);
      FusedCount(q, room, limit, exclude, s, window, v, r);
    }
  }

  /** A day of `n` turns. */
  function Day(n: nat): (r: seq<Turn>)
    ensures |r| == n && forall i :: 0 <= i < n ==> r[i] == Turn(i, 0, i as real, false)
  {
    if n == 0 then [] else Day(n - 1) + [Turn(n - 1, 0, (n - 1) as real, false)]
  }

  lemma {:induction false} AllWanted(ts: seq<Turn>, room: nat, window: Option<Range>, exclude: set<Id>)
    requires forall i :: 0 <= i < |ts| ==> Wanted(ts[i], room, window, exclude)
    ensures Matching(ts, room, window, exclude) == ts
  {
    if ts != [] {
      var front, last := ts[..|ts| - 1], ts[|ts| - 1];
      assert Wanted(last, room, window, exclude);
      LastMatches(ts, room, window, exclude);
      hide Matching, Wanted;
      AllWanted(front, room, window, exclude);
      assert front + [last] == ts;
    }
  }

  lemma LastMatches(ts: seq<Turn>, room: nat, window: Option<Range>, exclude: set<Id>)
    requires ts != [] && Wanted(ts[|ts| - 1], room, window, exclude)
    ensures Matching(ts, room, window, exclude)
         == Matching(ts[..|ts| - 1], room, window, exclude) + [ts[|ts| - 1]]
  {
  }

  /** Asked for a whole day of more turns than the cap, without a topic: the newest 200 come
      back and nothing else can. */
  lemma OnlyTheCapComesBack(n: nat, first: seq<Turn>, r: seq<Turn>)
    requires n > 200
    ensures IsStore(Day(n)) && Matching(Day(n), 0, Some(Range(0.0, n as real)), {}) == Day(n)
    ensures TemporalParts(Day(n), Query([], false), 0, Range(0.0, n as real), n, {}, None, first, r)
       <==> first == [] && r == Last(Day(n), SCAN_CAP)
    ensures |Last(Day(n), SCAN_CAP)| == 200 < n
  {
    hide Day;
    var day, period := Day(n), Range(0.0, n as real);
    assert forall i :: 0 <= i < |day| ==> Wanted(day[i], 0, Some(period), {});
    AllWanted(day, 0, Some(period), {});
    assert Lexical(Query([], false), 0, n, {}, Some(period)) == [];
    assert {} + Ids([]) == {};
    hide Matching;
    assert r[0..] == r;
  }

  lemma LastIsDistinct(ts: seq<Turn>, n: nat)
    requires DistinctTurns(ts)
    ensures DistinctTurns(Last(ts, n)) && |Last(ts, n)| == Min(n, |ts|) && forall t :: t in Last(ts, n) ==> t in ts
  {
  }

  lemma TwoParts(store: seq<Turn>, room: nat, window: Range, exclude: set<Id>, first: seq<Turn>, rest: seq<Turn>)
    requires DistinctTurns(first) && DistinctTurns(rest)
    requires forall t :: t in first ==> t in Matching(store, room, Some(window), exclude)
    requires forall t :: t in rest ==> t in Matching(store, room, Some(window), exclude + Ids(first))
    ensures DistinctTurns(first + rest)
    ensures forall t :: t in first + rest ==> t in Matching(store, room, Some(window), exclude)
  {
    forall t | t in rest ensures t.id !in Ids(first) && t in Matching(store, room, Some(window), exclude) {
    }
    hide Matching;
    var r := first + rest;
    forall i, j | 0 <= i < j < |r| ensures r[i].id != r[j].id {
      if i < |first| <= j {
        assert r[j] == rest[j - |first|];
        assert r[i].id in Ids(first);
      }
    }
  }

  // ---- the recent window ---------------------------------------------------

  /** Every turn but the deflections older than the newest deflection. */
  function Kept(ts: seq<Turn>, seen: bool): seq<Turn> {
    if ts == [] then []
    else
      var last := ts[|ts| - 1];
      if last.deflection && seen then Kept(ts[..|ts| - 1], seen)
      else Kept(ts[..|ts| - 1], seen || last.deflection) + [last]
  }

  /** The newest `limit` turns, carrying at most one deflection, the newest. */
  method ThinDeflections(ts: seq<Turn>, limit: nat) returns (r: seq<Turn>)
    requires limit >= 1
    ensures r == Last(Kept(ts, false), limit)
  {
    r := [];
    var seen := false;
    var i := |ts|;
    assert ts[..i] == ts;
    while i > 0 && |r| < limit
      invariant 0 <= i <= |ts| && |r| <= limit
      invariant Kept(ts, false) == Kept(ts[..i], seen) + r
    {
      i := i - 1;
      assert ts[..i + 1][..i] == ts[..i];
      if ts[i].deflection && seen {
        continue;
      }
      seen := seen || ts[i].deflection;
      r := [ts[i]] + r;
    }
  }

  function Deflections(ts: seq<Turn>): nat {
    if ts == [] then 0
    else Deflections(ts[..|ts| - 1]) + if ts[|ts| - 1].deflection then 1 else 0
  }

  lemma {:induction false} KeptHasOne(ts: seq<Turn>, seen: bool)
    ensures Deflections(Kept(ts, seen)) == if seen || Deflections(ts) == 0 then 0 else 1
    ensures forall t :: t in Kept(ts, seen) ==> t in ts
    ensures forall t :: t in ts && !t.deflection ==> t in Kept(ts, seen)
  {
    if ts != [] {
      var front, last := ts[..|ts| - 1], ts[|ts| - 1];
      KeptHasOne(front, seen);
      KeptHasOne(front, seen || last.deflection);
      var before := Kept(front, seen || last.deflection);
      assert (before + [last])[..|before|] == before;
      if !(last.deflection && seen) {
        assert Kept(ts, seen) == before + [last];
      }
    }
  }

  /** Asking again changes nothing: a deflection older than another one might as well not have
      been stored. */
  lemma {:induction false} OlderDeflectionVanishes(a: seq<Turn>, d: Turn, b: seq<Turn>, seen: bool)
    requires d.deflection && (seen || Deflections(b) > 0)
    ensures Kept(a + [d] + b, seen) == Kept(a + b, seen)
    decreases |b|
  {
    if b == [] {
      assert a + [d] + b == a + [d] && a + b == a;
      assert (a + [d])[..|a|] == a;
    } else {
      var front, last := b[..|b| - 1], b[|b| - 1];
      assert (a + [d] + b)[..|a + [d] + b| - 1] == a + [d] + front;
      assert (a + b)[..|a + b| - 1] == a + front;
      OlderDeflectionVanishes(a, d, front, seen || last.deflection);
    }
  }

  // ---- the whole context ---------------------------------------------------

  lemma {:induction false} KeptDistinct(ts: seq<Turn>, seen: bool)
    requires DistinctTurns(ts)
    ensures DistinctTurns(Kept(ts, seen)) && forall t :: t in Kept(ts, seen) ==> t in ts
  {
    if ts != [] {
      var front, last := ts[..|ts| - 1], ts[|ts| - 1];
      KeptDistinct(front, seen);
      KeptDistinct(front, seen || last.deflection);
      var before := Kept(front, seen || last.deflection);
      forall i | 0 <= i < |before| ensures before[i].id != last.id {
        assert before[i] in front;
      }
    }
  }

  /** The recent turns and the retrieved ones: never more than asked for, all of the room, no
      turn twice, and a period that holds anything not recent is answered from inside it. */
  method Context(
    store: seq<Turn>, room: nat, recentTurns: int, retrievedTurns: nat,
    window: Option<Range>, query: Query, residue: Query, semantic: Option<Semantic>)
    returns (recent: seq<Turn>, retrieved: seq<Turn>)
    requires IsStore(store) && QueryOk(store, query) && QueryOk(store, residue)
    ensures recentTurns > 0 ==>
      recent == Last(Kept(Last(Matching(store, room, None, {}), recentTurns * OVERFETCH), false), recentTurns)
    ensures recentTurns <= 0 ==> recent == []
    ensures DistinctTurns(recent + retrieved) && forall t :: t in recent + retrieved ==> t in store && t.room == room
    ensures |retrieved| <= retrievedTurns
    ensures window.None? ==>
      RankedResult(store, query, room, retrievedTurns, Ids(recent), semantic, None, retrieved)
    ensures window.Some? ==>
      || (&& retrieved != []
          && TemporalResult(store, residue, room, window.value, retrievedTurns, Ids(recent), semantic, retrieved))
      || (&& TemporalResult(store, residue, room, window.value, retrievedTurns, Ids(recent), semantic, [])
          && RankedResult(store, residue, room, retrievedTurns, Ids(recent), semantic, None, retrieved))
    ensures window.Some? && 0 < retrievedTurns <= 200 ==>
      var n := |Matching(store, room, window, Ids(recent))|;
      n > 0 ==> |retrieved| == Min(retrievedTurns, n) && forall t :: t in retrieved ==> Within(t, window)
  {
    recent := [];
    MatchingDistinct(store, room, None, {});
    if recentTurns > 0 {
      var rows := Last(Matching(store, room, None, {}), recentTurns * OVERFETCH);
      LastIsDistinct(Matching(store, room, None, {}), recentTurns * OVERFETCH);
      recent := ThinDeflections(rows, recentTurns);
      KeptDistinct(rows, false);
      LastIsDistinct(Kept(rows, false), recentTurns);
    }
    assert forall t :: t in recent ==> t in store && t.room == room;
    var exclude := Ids(recent);
    hide Matching, Lexical, Kept, QueryOk, RankedResult, TemporalResult;
    retrieved := [];
    if window.Some? {
      retrieved := RetrieveTemporal(store, residue, room, window.value, retrievedTurns, exclude, semantic);
      FoundIsFresh(store, room, retrievedTurns, window, recent, retrieved);
    }
    if retrieved == [] {
      retrieved := RetrieveRanked(store, if window.None? then query else residue, room, retrievedTurns,
                                  exclude, semantic, None);
      FoundIsFresh(store, room, retrievedTurns, None, recent, retrieved);
    }
  }

  lemma FoundIsFresh(
    store: seq<Turn>, room: nat, limit: int, window: Option<Range>, recent: seq<Turn>, r: seq<Turn>)
    requires Found(store, room, limit, Ids(recent), window, r) && DistinctTurns(recent)
    ensures DistinctTurns(recent + r)
    ensures forall t :: t in r ==> t in store && t.room == room && Within(t, window)
  {
    forall t | t in r ensures t.id !in Ids(recent) {
      assert t in Matching(store, room, window, Ids(recent));
    }
    hide Matching;
    var all := recent + r;
    forall i, j | 0 <= i < j < |all| ensures all[i].id != all[j].id {
      if i < |recent| <= j {
        assert all[j] == r[j - |recent|] && all[j] in r;
        assert all[i].id in Ids(recent);
      }
    }
  }
}
