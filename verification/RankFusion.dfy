/**
  Ranking by similarity, and fusing two rankings by position alone.

  Turn ids are compared and used to break ties; scores are exact reals.
*/
module RankFusion {
  import opened Wrappers

  type Id = nat

  const RRF_K: nat := 60

  function Min(a: int, b: int): int {
    if b < a then b else a
  }

  /** The first `n` elements, or all of them. */
  function Take<T>(s: seq<T>, n: int): seq<T> {
    if n <= 0 then [] else if n < |s| then s[..n] else s
  }

  predicate Distinct(ids: seq<Id>) {
    forall i, j :: 0 <= i < j < |ids| ==> ids[i] != ids[j]
  }

  function Elements(ids: seq<Id>): set<Id> {
    set x | x in ids
  }

  // ---- sorting scores ------------------------------------------------------

  /** Higher score first; between equals, the higher id. */
  predicate Outranks(scores: map<Id, real>, a: Id, b: Id)
    requires a in scores && b in scores
  {
    scores[a] > scores[b] || (scores[a] == scores[b] && a > b)
  }

  /** Best first. */
  ghost predicate InOrder(scores: map<Id, real>, ids: seq<Id>) {
    && (forall i :: 0 <= i < |ids| ==> ids[i] in scores)
    && forall i, j :: 0 <= i < j < |ids| ==> Outranks(scores, ids[i], ids[j])
  }

  /** `ids` are the best `limit` of the scored ids, best first. */
  ghost predicate Best(scores: map<Id, real>, limit: int, ids: seq<Id>) {
    && InOrder(scores, ids)
    && |ids| == (if limit <= 0 then 0 else Min(limit, |scores|))
    && forall i, x :: 0 <= i < |ids| && x in scores && x !in ids ==> Outranks(scores, ids[i], x)
  }

  /** The position of `x` in an ordered list. */
  method Place(scores: map<Id, real>, ids: seq<Id>, x: Id) returns (n: nat)
    requires InOrder(scores, ids) && x in scores && x !in ids
    ensures n <= |ids| && InOrder(scores, ids[..n] + [x] + ids[n..])
  {
    n := 0;
    while n < |ids| && Outranks(scores, ids[n], x)
      invariant n <= |ids|
      invariant forall i :: 0 <= i < n ==> Outranks(scores, ids[i], x)
    {
      n := n + 1;
    }
  }

  method Sorted(scores: map<Id, real>) returns (ids: seq<Id>)
    ensures InOrder(scores, ids) && |ids| == |scores| && forall x :: x in ids <==> x in scores
  {
    ids := [];
    var todo := scores.Keys;
    while todo != {}
      invariant todo <= scores.Keys && |ids| + |todo| == |scores|
      invariant InOrder(scores, ids)
      invariant forall x :: x in ids <==> x in scores && x !in todo
      decreases |todo|
    {
      var x :| x in todo;
      var n := Place(scores, ids, x);
      ids := ids[..n] + [x] + ids[n..];
      todo := todo - {x};
    }
  }

  lemma PrefixIsBest(scores: map<Id, real>, ids: seq<Id>, limit: int)
    requires InOrder(scores, ids) && |ids| == |scores| && forall x :: x in ids <==> x in scores
    ensures Best(scores, limit, Take(ids, limit))
  {
    var taken := Take(ids, limit);
    forall i, x | 0 <= i < |taken| && x in scores && x !in taken ensures Outranks(scores, taken[i], x) {
      var j :| 0 <= j < |ids| && ids[j] == x;
      assert forall n :: 0 <= n < |taken| ==> taken[n] == ids[n];
    }
  }

  lemma BestIsDistinct(scores: map<Id, real>, limit: int, ids: seq<Id>)
    requires Best(scores, limit, ids)
    ensures Distinct(ids)
  {
  }

  // ---- similarity ----------------------------------------------------------

  /** The rows that can be compared and are similar enough. */
  function Similar(rows: seq<(Id, Option<real>)>, floor: real): map<Id, real> {
    if rows == [] then map[]
    else
      var (id, similarity) := rows[|rows| - 1];
      var before := Similar(rows[..|rows| - 1], floor);
      if similarity.Some? && similarity.value >= floor then before[id := similarity.value] else before
  }

  /** Each id has one row. */
  predicate DistinctIds(rows: seq<(Id, Option<real>)>) {
    forall i, j :: 0 <= i < j < |rows| ==> rows[i].0 != rows[j].0
  }

  /** The row can be read and is similar enough. */
  predicate Close(row: (Id, Option<real>), floor: real) {
    row.1.Some? && row.1.value >= floor
  }

  /** `x` stands before `y`, or alone. */
  ghost predicate PutBefore(ids: seq<Id>, x: Id, y: Id) {
    x in ids && (y in ids ==> exists p, q :: 0 <= p < q < |ids| && ids[p] == x && ids[q] == y)
  }

  /** Rows similar enough, as many as there are up to the limit, each once, and none before or
      instead of a more similar one, or of one as similar with a higher id. */
  ghost predicate MostSimilar(rows: seq<(Id, Option<real>)>, limit: int, floor: real, ids: seq<Id>) {
    && Distinct(ids)
    && (forall x :: x in ids ==> exists i :: 0 <= i < |rows| && rows[i].0 == x && Close(rows[i], floor))
    && |ids| == (if limit <= 0 then 0 else Min(limit, |set i: nat | i < |rows| && Close(rows[i], floor)|))
    && forall i, j :: 0 <= i < |rows| && 0 <= j < |rows| && i != j
                      && Close(rows[i], floor) && Close(rows[j], floor) && PutBefore(ids, rows[i].0, rows[j].0) ==>
         || rows[i].1.value > rows[j].1.value
         || (rows[i].1.value == rows[j].1.value && rows[i].0 > rows[j].0)
  }

  lemma {:induction false} SimilarIs(rows: seq<(Id, Option<real>)>, floor: real)
    requires DistinctIds(rows)
    ensures forall x :: x in Similar(rows, floor) ==> exists i :: 0 <= i < |rows| && rows[i].0 == x && Close(rows[i], floor)
    ensures forall i :: 0 <= i < |rows| && Close(rows[i], floor) ==>
      rows[i].0 in Similar(rows, floor) && Similar(rows, floor)[rows[i].0] == rows[i].1.value
  {
    if rows != [] {
      var front := rows[..|rows| - 1];
      SimilarIs(front, floor);
      forall x | x in Similar(rows, floor)
        ensures exists i :: 0 <= i < |rows| && rows[i].0 == x && Close(rows[i], floor)
      {
        if x in Similar(front, floor) {
          var i :| 0 <= i < |front| && front[i].0 == x && Close(front[i], floor);
          assert rows[i].0 == x && Close(rows[i], floor);
        } else {
          assert rows[|rows| - 1].0 == x && Close(rows[|rows| - 1], floor);
        }
      }
      forall i | 0 <= i < |rows| && Close(rows[i], floor)
        ensures rows[i].0 in Similar(rows, floor) && Similar(rows, floor)[rows[i].0] == rows[i].1.value
      {
        if i < |front| {
          assert front[i] == rows[i];
        }
      }
    }
  }

  /** As many ids as indices. */
  lemma {:induction false} ImageCount(n: nat, indices: set<nat>, id: nat -> Id, ids: set<Id>)
    requires forall i :: i in indices ==> i < n
    requires forall i, j :: i in indices && j in indices && i != j ==> id(i) != id(j)
    requires ids == set i | i in indices :: id(i)
    ensures |ids| == |indices|
  {
    if n == 0 {
      assert indices == {};
      assert ids == {};
    } else {
      var rest := indices - {n - 1};
      var others := set j | j in rest :: id(j);
      ImageCount(n - 1, rest, id, others);
      if n - 1 in indices {
        assert ids == others + {id(n - 1)} && id(n - 1) !in others;
      } else {
        assert rest == indices && others == ids;
      }
    }
  }

  lemma CloseCount(rows: seq<(Id, Option<real>)>, floor: real)
    requires DistinctIds(rows)
    ensures |Similar(rows, floor)| == |set i: nat | i < |rows| && Close(rows[i], floor)|
  {
    var scores := Similar(rows, floor);
    SimilarIs(rows, floor);
    hide Similar;
    var close := set i: nat | i < |rows| && Close(rows[i], floor);
    var id := (i: nat) => if i < |rows| then rows[i].0 else 0;
    var keys := set i | i in close :: id(i);
    forall x | x in scores.Keys ensures x in keys {
      var i :| 0 <= i < |rows| && rows[i].0 == x && Close(rows[i], floor);
      assert i in close && id(i) == x;
    }
    forall x | x in keys ensures x in scores.Keys {
      var i :| i in close && id(i) == x;
    }
    assert scores.Keys == keys;
    ImageCount(|rows|, close, id, scores.Keys);
    assert |scores| == |scores.Keys|;
  }

  lemma BestAreMostSimilar(rows: seq<(Id, Option<real>)>, limit: int, floor: real, ids: seq<Id>)
    requires DistinctIds(rows) && Best(Similar(rows, floor), limit, ids)
    ensures MostSimilar(rows, limit, floor, ids)
  {
    var scores := Similar(rows, floor);
    SimilarIs(rows, floor);
    CloseCount(rows, floor);
    BestIsDistinct(scores, limit, ids);
    hide Similar, DistinctIds;
    forall i, j | 0 <= i < |rows| && 0 <= j < |rows| && i != j
      && Close(rows[i], floor) && Close(rows[j], floor) && PutBefore(ids, rows[i].0, rows[j].0)
      ensures rows[i].1.value > rows[j].1.value
              || (rows[i].1.value == rows[j].1.value && rows[i].0 > rows[j].0)
    {
      PutBeforeOutranks(scores, limit, ids, rows[i].0, rows[j].0);
    }
  }

  lemma PutBeforeOutranks(scores: map<Id, real>, limit: int, ids: seq<Id>, x: Id, y: Id)
    requires Best(scores, limit, ids) && x in scores && y in scores && PutBefore(ids, x, y)
    ensures Outranks(scores, x, y)
  {
    if y !in ids {
      var p :| 0 <= p < |ids| && ids[p] == x;
    }
  }

  /** Top rows by similarity.  An unreadable vector has no similarity and is skipped. */
  method RankBySimilarity(rows: seq<(Id, Option<real>)>, limit: int, floor: real) returns (ids: seq<Id>)
    ensures Best(Similar(rows, floor), limit, ids)
    ensures DistinctIds(rows) ==> MostSimilar(rows, limit, floor, ids)
  {
    var scored: map<Id, real> := map[];
    for i := 0 to |rows|
      invariant scored == Similar(rows[..i], floor)
    {
      assert rows[..i + 1][..i] == rows[..i];
      var (id, similarity) := rows[i];
      if similarity.Some? && similarity.value >= floor {
        scored := scored[id := similarity.value];
      }
    }
    assert rows[..|rows|] == rows;
    var order := Sorted(scored);
    PrefixIsBest(scored, order, limit);
    ids := Take(order, limit);
    if DistinctIds(rows) {
      BestAreMostSimilar(rows, limit, floor, ids);
    }
  }

  // ---- fusion --------------------------------------------------------------

  function Weight(k: nat, position: nat): (w: real)
    ensures w > 0.0
  {
    1.0 / (k + position + 1) as real
  }

  lemma WeightFalls(k: nat, p: nat, q: nat)
    requires p < q
    ensures Weight(k, p) > Weight(k, q)
  {
    var a, b := (k + p + 1) as real, (k + q + 1) as real;
    var x, y := 1.0 / a, 1.0 / b;
    assert x * a == 1.0 && y * b == 1.0;
    if x <= y {
      assert (y - x) * a >= 0.0;
      assert y * (b - a) > 0.0;
    }
  }

  /** What the first `n` places of one ranking contribute to `x`. */
  function ScoreIn(ranking: seq<Id>, x: Id, k: nat, n: nat): (s: real)
    requires n <= |ranking|
    ensures s >= 0.0
  {
    if n == 0 then 0.0
    else ScoreIn(ranking, x, k, n - 1) + if ranking[n - 1] == x then Weight(k, n - 1) else 0.0
  }

  function Score(rankings: seq<seq<Id>>, x: Id, k: nat): (s: real)
    ensures s >= 0.0
  {
    if rankings == [] then 0.0
    else
      var last := rankings[|rankings| - 1];
      Score(rankings[..|rankings| - 1], x, k) + ScoreIn(last, x, k, |last|)
  }

  function Ranked(rankings: seq<seq<Id>>): set<Id> {
    set r, x | r in rankings && x in r :: x
  }

  function Scores(rankings: seq<seq<Id>>, k: nat): map<Id, real> {
    map x | x in Ranked(rankings) :: Score(rankings, x, k)
  }

  lemma {:induction false} UnrankedScoresNothing(ranking: seq<Id>, x: Id, k: nat, n: nat)
    requires n <= |ranking| && x !in ranking[..n]
    ensures ScoreIn(ranking, x, k, n) == 0.0
  {
    if n > 0 {
      assert forall y :: y in ranking[..n - 1] ==> y in ranking[..n];
      assert ranking[n - 1] in ranking[..n];
      UnrankedScoresNothing(ranking, x, k, n - 1);
    }
  }

  lemma {:induction false} AbsentScoresNothing(rankings: seq<seq<Id>>, x: Id, k: nat)
    requires x !in Ranked(rankings)
    ensures Score(rankings, x, k) == 0.0
  {
    if rankings != [] {
      var front, last := rankings[..|rankings| - 1], rankings[|rankings| - 1];
      assert last in rankings && forall r :: r in front ==> r in rankings;
      AbsentScoresNothing(front, x, k);
      assert last[..|last|] == last;
      UnrankedScoresNothing(last, x, k, |last|);
    }
  }

  /** The score so far: whole rankings before this one, and the first places of this one. */
  function Partial(done: seq<seq<Id>>, ranking: seq<Id>, x: Id, k: nat, n: nat): real
    requires n <= |ranking|
  {
    Score(done, x, k) + ScoreIn(ranking, x, k, n)
  }

  /** Count one ranking in. */
  method AddRanking(before: map<Id, real>, done: seq<seq<Id>>, ranking: seq<Id>, k: nat)
    returns (scores: map<Id, real>)
    requires before == Scores(done, k)
    ensures scores == Scores(done + [ranking], k)
  {
    hide Weight, Score, ScoreIn;
    scores := before;
    forall x | x !in Ranked(done) ensures Score(done, x, k) == 0.0 {
      AbsentScoresNothing(done, x, k);
    }
    Untouched(done, ranking, k);
    for n := 0 to |ranking|
      invariant scores.Keys == Ranked(done) + Elements(ranking[..n])
      invariant forall x :: x in scores ==> scores[x] == Partial(done, ranking, x, k, n)
    {
      var id := ranking[n];
      assert ranking[..n + 1] == ranking[..n] + [id];
      Advance(done, ranking, id, k, n);
      forall x | x in scores && x != id
        ensures Partial(done, ranking, x, k, n + 1) == Partial(done, ranking, x, k, n)
      {
        Advance(done, ranking, x, k, n);
      }
      scores := scores[id := (if id in scores then scores[id] else 0.0) + Weight(k, n)];
    }
    assert ranking[..|ranking|] == ranking;
    Counted(done, ranking, k, scores);
  }

  lemma Untouched(done: seq<seq<Id>>, ranking: seq<Id>, k: nat)
    ensures forall x :: Partial(done, ranking, x, k, 0) == Score(done, x, k)
  {
  }

  /** One more place: it adds its weight to the id found there, and nothing to the others. */
  lemma Advance(done: seq<seq<Id>>, ranking: seq<Id>, x: Id, k: nat, n: nat)
    requires n < |ranking|
    ensures Partial(done, ranking, x, k, n + 1)
         == Partial(done, ranking, x, k, n) + if ranking[n] == x then Weight(k, n) else 0.0
    ensures x !in Ranked(done) && x !in ranking[..n] ==> Partial(done, ranking, x, k, n) == 0.0
  {
    if x !in Ranked(done) && x !in ranking[..n] {
      AbsentScoresNothing(done, x, k);
      UnrankedScoresNothing(ranking, x, k, n);
    }
  }

  lemma Counted(done: seq<seq<Id>>, ranking: seq<Id>, k: nat, scores: map<Id, real>)
    requires scores.Keys == Ranked(done) + Elements(ranking)
    requires forall x :: x in scores ==> scores[x] == Partial(done, ranking, x, k, |ranking|)
    ensures scores == Scores(done + [ranking], k)
  {
    var all := done + [ranking];
    assert all[..|all| - 1] == done && all[|all| - 1] == ranking;
    RankedGrows(done, ranking);
    hide Ranked, ScoreIn;
  }

  lemma RankedGrows(done: seq<seq<Id>>, ranking: seq<Id>)
    ensures Ranked(done + [ranking]) == Ranked(done) + Elements(ranking)
  {
    var all := done + [ranking];
    assert ranking in all && forall r :: r in all <==> r in done || r == ranking;
  }

  /** Fuse rankings by position alone: the best by summed weight, ties to the higher id. */
  method ReciprocalRankFusion(rankings: seq<seq<Id>>, limit: int, k: nat) returns (ids: seq<Id>)
    ensures Best(Scores(rankings, k), limit, ids)
  {
    var scores: map<Id, real> := map[];
    hide Score;
    assert Ranked(rankings[..0]) == {};
    for i := 0 to |rankings|
      invariant scores == Scores(rankings[..i], k)
    {
      scores := AddRanking(scores, rankings[..i], rankings[i], k);
      assert rankings[..i + 1] == rankings[..i] + [rankings[i]];
    }
    assert rankings[..|rankings|] == rankings;
    var order := Sorted(scores);
    PrefixIsBest(scores, order, limit);
    ids := Take(order, limit);
  }

  // ---- what fusion means ---------------------------------------------------

  /** The score an id has from one duplicate-free ranking is the weight of its place. */
  lemma {:induction false} OnePlace(ranking: seq<Id>, p: nat, k: nat, n: nat)
    requires Distinct(ranking) && p < |ranking| && n <= |ranking|
    ensures ScoreIn(ranking, ranking[p], k, n) == if p < n then Weight(k, p) else 0.0
  {
    hide Weight;
    if n > 0 {
      OnePlace(ranking, p, k, n - 1);
    }
  }

  /** `x` stands above `y` in the ranking, or `y` is not in it at all. */
  ghost predicate Above(ranking: seq<Id>, x: Id, y: Id) {
    y in ranking ==> exists p: nat, q: nat :: p < q < |ranking| && ranking[p] == x && ranking[q] == y
  }

  lemma AboveScoresMore(ranking: seq<Id>, x: Id, y: Id, k: nat)
    requires Distinct(ranking) && Above(ranking, x, y)
    ensures ScoreIn(ranking, x, k, |ranking|) >= ScoreIn(ranking, y, k, |ranking|)
    ensures y in ranking ==> ScoreIn(ranking, x, k, |ranking|) > ScoreIn(ranking, y, k, |ranking|)
  {
    hide Weight;
    if y in ranking {
      var p: nat, q: nat :| p < q < |ranking| && ranking[p] == x && ranking[q] == y;
      OnePlace(ranking, p, k, |ranking|);
      OnePlace(ranking, q, k, |ranking|);
      WeightFalls(k, p, q);
    } else {
      assert ranking[..|ranking|] == ranking;
      UnrankedScoresNothing(ranking, y, k, |ranking|);
    }
  }

  lemma {:induction false} AboveInAll(rankings: seq<seq<Id>>, x: Id, y: Id, k: nat)
    requires forall r :: r in rankings ==> Distinct(r) && Above(r, x, y)
    ensures Score(rankings, x, k) >= Score(rankings, y, k)
    ensures y in Ranked(rankings) ==> Score(rankings, x, k) > Score(rankings, y, k)
  {
    hide Above, Distinct, ScoreIn;
    if rankings != [] {
      var front, last := rankings[..|rankings| - 1], rankings[|rankings| - 1];
      assert last in rankings && forall r :: r in front ==> r in rankings;
      assert front + [last] == rankings;
      RankedGrows(front, last);
      AboveInAll(front, x, y, k);
      AboveScoresMore(last, x, y, k);
    }
  }

  /** An id above another wherever that one is ranked is above it in the fusion too. */
  lemma FusionKeepsAgreement(rankings: seq<seq<Id>>, limit: int, k: nat, ids: seq<Id>, x: Id, y: Id)
    requires Best(Scores(rankings, k), limit, ids)
    requires forall r :: r in rankings ==> Distinct(r) && Above(r, x, y)
    requires x in Ranked(rankings) && y in ids
    ensures exists i: nat, j: nat :: i < j < |ids| && ids[i] == x && ids[j] == y
  {
    hide Ranked, Above, Distinct;
    AboveInAll(rankings, x, y, k);
    var scores := Scores(rankings, k);
    var j: nat :| j < |ids| && ids[j] == y;
    assert y in scores && Outranks(scores, x, y);
    assert x in ids;
    var i: nat :| i < |ids| && ids[i] == x;
    assert i < j;
  }

  /** A ranking fused with empty ones is that ranking, cut to the limit. */
  lemma FusionOfOne(ranking: seq<Id>, limit: int, k: nat, ids: seq<Id>)
    requires Distinct(ranking) && Best(Scores([ranking, []], k), limit, ids)
    ensures ids == Take(ranking, limit)
  {
    var scores := Scores([ranking, []], k);
    OneRankingScores(ranking, k);
    assert InOrder(scores, ranking) by {
      forall i, j | 0 <= i < j < |ranking| ensures Outranks(scores, ranking[i], ranking[j]) {
        WeightFalls(k, i, j);
      }
    }
    DistinctCount(ranking);
    assert scores.Keys == Elements(ranking);
    hide Scores, Weight;
    PrefixIsBest(scores, ranking, limit);
    BestIsUnique(scores, limit, ids, Take(ranking, limit));
  }

  lemma OneRankingScores(ranking: seq<Id>, k: nat)
    requires Distinct(ranking)
    ensures Ranked([ranking, []]) == Elements(ranking)
    ensures forall p :: 0 <= p < |ranking| ==> Score([ranking, []], ranking[p], k) == Weight(k, p)
  {
    hide Weight;
    var none: seq<Id> := [];
    RankedGrows([], ranking);
    RankedGrows([ranking], none);
    assert [] + [ranking] == [ranking] && [ranking] + [none] == [ranking, none];
    assert Ranked([]) == {};
    forall p | 0 <= p < |ranking| ensures Score([ranking, none], ranking[p], k) == Weight(k, p) {
      OnePlace(ranking, p, k, |ranking|);
      assert [ranking, none][..1] == [ranking] && [ranking][..0] == [];
      assert Score([ranking], ranking[p], k) == Weight(k, p);
    }
  }

  lemma {:induction false} DistinctCount(ids: seq<Id>)
    requires Distinct(ids)
    ensures |Elements(ids)| == |ids|
  {
    if ids != [] {
      var front, last := ids[..|ids| - 1], ids[|ids| - 1];
      DistinctCount(front);
      assert ids == front + [last] && last !in front;
      assert Elements(ids) == Elements(front) + {last};
    }
  }

  /** Scores and a limit leave no choice. */
  lemma BestIsUnique(scores: map<Id, real>, limit: int, a: seq<Id>, b: seq<Id>)
    requires Best(scores, limit, a) && Best(scores, limit, b)
    ensures a == b
  {
    SamePrefix(scores, limit, a, b, |a|);
    assert a[..|a|] == a && b[..|a|] == b;
  }

  lemma {:induction false} SamePrefix(scores: map<Id, real>, limit: int, a: seq<Id>, b: seq<Id>, n: nat)
    requires Best(scores, limit, a) && Best(scores, limit, b) && n <= |a|
    ensures a[..n] == b[..n]
  {
    if n > 0 {
      SamePrefix(scores, limit, a, b, n - 1);
      var p := n - 1;
      AtMostAsGood(scores, limit, a, b, p);
      AtMostAsGood(scores, limit, b, a, p);
      assert a[..n] == a[..p] + [a[p]] && b[..n] == b[..p] + [b[p]];
    }
  }

  /** After an equal start, the next of one list is not outranked by the next of the other. */
  lemma AtMostAsGood(scores: map<Id, real>, limit: int, a: seq<Id>, b: seq<Id>, p: nat)
    requires Best(scores, limit, a) && Best(scores, limit, b) && p < |a| && a[..p] == b[..p]
    ensures a[p] == b[p] || Outranks(scores, a[p], b[p])
  {
    var x := b[p];
    if x in a {
      assert forall i :: 0 <= i < p ==> a[i] == a[..p][i] == b[i];
    }
  }

  // ---- agreement against rank ----------------------------------------------

  /** What two duplicate-free rankings give an id. */
  lemma TwoPlaces(a: seq<Id>, b: seq<Id>, x: Id, k: nat)
    requires Distinct(a) && Distinct(b)
    ensures forall p, q :: 0 <= p < |a| && 0 <= q < |b| && a[p] == x == b[q] ==>
      Score([a, b], x, k) == Weight(k, p) + Weight(k, q)
    ensures forall p :: 0 <= p < |a| && a[p] == x && x !in b ==> Score([a, b], x, k) == Weight(k, p)
    ensures forall q :: 0 <= q < |b| && b[q] == x && x !in a ==> Score([a, b], x, k) == Weight(k, q)
  {
    hide Weight;
    assert [a, b][..1] == [a] && [a][..0] == [];
    assert a[..|a|] == a && b[..|b|] == b;
    assert Score([a, b], x, k) == ScoreIn(a, x, k, |a|) + ScoreIn(b, x, k, |b|) by {
      assert Score([a], x, k) == Score([], x, k) + ScoreIn(a, x, k, |a|);
    }
    forall p | 0 <= p < |a| && a[p] == x ensures ScoreIn(a, x, k, |a|) == Weight(k, p) {
      OnePlace(a, p, k, |a|);
    }
    forall q | 0 <= q < |b| && b[q] == x ensures ScoreIn(b, x, k, |b|) == Weight(k, q) {
      OnePlace(b, q, k, |b|);
    }
    if x !in a {
      UnrankedScoresNothing(a, x, k, |a|);
    }
    if x !in b {
      UnrankedScoresNothing(b, x, k, |b|);
    }
  }

  lemma WeightsOf61()
    ensures Weight(RRF_K, 0) == 1.0 / 61.0 && Weight(RRF_K, 60) == 1.0 / 121.0 && Weight(RRF_K, 61) == 1.0 / 122.0
  {
  }

  lemma WeightsFall(k: nat, p: nat, q: nat)
    requires p <= q
    ensures Weight(k, p) >= Weight(k, q)
  {
    hide Weight;
    if p < q {
      WeightFalls(k, p, q);
    }
  }

  lemma BothIsLarge(a: seq<Id>, b: seq<Id>, x: Id, p: nat, q: nat)
    requires Distinct(a) && Distinct(b) && p < |a| && q < |b| && a[p] == x == b[q] && p <= 60 && q <= 60
    ensures Score([a, b], x, RRF_K) > 1.0 / 61.0
  {
    hide Weight, Distinct;
    TwoPlaces(a, b, x, RRF_K);
    WeightsOf61();
    WeightsFall(RRF_K, p, 60);
    WeightsFall(RRF_K, q, 60);
  }

  /** An id that both searches have among their first 61 beats every id that only one of them has,
      were it the very first there. */
  lemma BothBeatOne(a: seq<Id>, b: seq<Id>, limit: int, ids: seq<Id>, x: Id, y: Id, p: nat, q: nat)
    requires Distinct(a) && Distinct(b) && Best(Scores([a, b], RRF_K), limit, ids)
    requires p < |a| && q < |b| && a[p] == x == b[q] && p <= 60 && q <= 60
    requires (y in a) != (y in b)
    ensures y in ids ==> PutBefore(ids, x, y)
  {
    var scores := Scores([a, b], RRF_K);
    RankedOfTwo(a, b);
    assert x in scores && y in scores && x != y;
    BothIsLarge(a, b, x, p, q);
    SingleIsSmall(a, b, y);
    assert scores[x] > scores[y];
    hide Scores, Distinct;
    if y in ids {
      HigherStandsBefore(scores, limit, ids, x, y);
    }
  }

  lemma RankedOfTwo(a: seq<Id>, b: seq<Id>)
    ensures forall x :: x in Ranked([a, b]) <==> x in a || x in b
  {
    assert [a, b][0] == a && [a, b][1] == b;
  }

  lemma HigherStandsBefore(scores: map<Id, real>, limit: int, ids: seq<Id>, x: Id, y: Id)
    requires Best(scores, limit, ids) && x in scores && y in ids && x != y
    requires y in scores && Outranks(scores, x, y)
    ensures PutBefore(ids, x, y)
  {
    var j :| 0 <= j < |ids| && ids[j] == y;
    assert x in ids;
    var i :| 0 <= i < |ids| && ids[i] == x;
    assert i < j;
  }

  lemma SingleIsSmall(a: seq<Id>, b: seq<Id>, y: Id)
    requires Distinct(a) && Distinct(b) && (y in a) != (y in b)
    ensures Score([a, b], y, RRF_K) <= 1.0 / 61.0
  {
    hide Weight, Distinct;
    TwoPlaces(a, b, y, RRF_K);
    WeightsOf61();
    var r := if y in a then a else b;
    var p :| 0 <= p < |r| && r[p] == y;
    WeightsFall(RRF_K, 0, p);
  }

  /** At place 62 in both it does no better than the first of one of them: the higher id wins. */
  lemma Place62IsATie(a: seq<Id>, b: seq<Id>, x: Id, y: Id)
    requires Distinct(a) && Distinct(b) && |a| > 61 && |b| > 61 && a[61] == x == b[61]
    requires a[0] == y && y !in b
    ensures Score([a, b], x, RRF_K) == Score([a, b], y, RRF_K)
  {
    TwoPlaces(a, b, x, RRF_K);
    TwoPlaces(a, b, y, RRF_K);
    WeightsOf61();
  }
}
