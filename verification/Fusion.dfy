/**
 Reciprocal rank fusion of two ranked lists (crates/core-api/src/search_hybrid.rs). Scores
 and weights are reals; a rank is a 32-bit number counted from 1.
 */
module Fusion {
  import opened Prelude
  import opened Sorting

  type DocId = string

  const RRF_K: real := 60.0
  const U32_MAX: nat := 0xFFFF_FFFF

  datatype Hit = Hit(id: DocId, score: real, bm25Rank: Option<nat>, vectorRank: Option<nat>)

  /** Where `id` first occurs. */
  function FirstIndex(list: seq<DocId>, id: DocId): (r: Option<nat>)
    ensures r.Some? <==> id in list
    ensures r.Some? ==> r.value < |list| && list[r.value] == id && id !in list[..r.value]
  {
    if list == [] then None
    else if list[0] == id then Some(0)
    else
      var rest := FirstIndex(list[1..], id);
      if rest.None? then None else
        assert list[..rest.value + 1] == [list[0]] + list[1..][..rest.value];
        Some(rest.value + 1)
  }

  /** The 1-based rank of the first occurrence, saturated to 32 bits. */
  function RankIn(list: seq<DocId>, id: DocId): Option<nat> {
    var i := FirstIndex(list, id);
    if i.None? then None else Some(Min(i.value + 1, U32_MAX))
  }

  /** A list that does not contain the document contributes nothing. */
  function Term(weight: real, rank: Option<nat>): real {
    if rank.None? then 0.0 else weight / (RRF_K + rank.value as real)
  }

  datatype Query = Query(bm25: seq<DocId>, vector: seq<DocId>, bm25Weight: real, vectorWeight: real) {
    function Swapped(): Query {
      Query(vector, bm25, vectorWeight, bm25Weight)
    }
  }

  function HitFor(q: Query, id: DocId, b: Option<nat>, v: Option<nat>): Hit {
    Hit(id, Term(q.bm25Weight, b) + Term(q.vectorWeight, v), b, v)
  }

  function HitOf(q: Query, id: DocId): Hit {
    HitFor(q, id, RankIn(q.bm25, id), RankIn(q.vector, id))
  }

  // ----- the order -----

  predicate LexLe(a: DocId, b: DocId) {
    a == [] || (b != [] && (a[0] < b[0] || (a[0] == b[0] && LexLe(a[1..], b[1..]))))
  }

  lemma {:induction false} LexTotal(a: DocId, b: DocId)
    ensures LexLe(a, b) || LexLe(b, a)
    ensures LexLe(a, b) && LexLe(b, a) ==> a == b
  {
    if a != [] && b != [] && a[0] == b[0] {
      LexTotal(a[1..], b[1..]);
      assert a == [a[0]] + a[1..] && b == [b[0]] + b[1..];
    }
  }

  lemma {:induction false} LexTransitive(a: DocId, b: DocId, c: DocId)
    requires LexLe(a, b) && LexLe(b, c)
    ensures LexLe(a, c)
  {
    if a != [] && a[0] == b[0] == c[0] {
      LexTransitive(a[1..], b[1..], c[1..]);
    }
  }

  /** Higher score first, then the smaller id. */
  predicate HitLe(a: Hit, b: Hit) {
    a.score > b.score || (a.score == b.score && LexLe(a.id, b.id))
  }

  const hitLe: (Hit, Hit) -> bool := (a, b) => HitLe(a, b)

  lemma HitLeIsTotal()
    ensures TotalPreorder(hitLe)
  {
    forall a, b ensures hitLe(a, b) || hitLe(b, a) { LexTotal(a.id, b.id); }
    forall a, b, c | hitLe(a, b) && hitLe(b, c) ensures hitLe(a, c) {
      if a.score == b.score == c.score { LexTransitive(a.id, b.id, c.id); }
    }
  }

  // ----- what the result is -----

  function IdsOf(hits: seq<Hit>): set<DocId> {
    set h | h in hits :: h.id
  }

  function Union(q: Query): set<DocId> {
    (set d | d in q.bm25) + (set d | d in q.vector)
  }

  /** Each document of `ids` once, with its own ranks and score. */
  ghost predicate Unsorted(q: Query, ids: set<DocId>, hits: seq<Hit>) {
    && IdsOf(hits) == ids
    && (forall i, j :: 0 <= i < j < |hits| ==> hits[i].id != hits[j].id)
    && (forall h :: h in hits ==> h == HitOf(q, h.id))
  }

  /** Each document of either list once, with its own ranks and score, in order. */
  ghost predicate IsFusion(q: Query, hits: seq<Hit>) {
    Unsorted(q, Union(q), hits) && Sorted(hitLe, hits)
  }

  lemma SameHits(q: Query, a: seq<Hit>, b: seq<Hit>, h: Hit)
    requires IsFusion(q, a) && IsFusion(q, b)
    ensures multiset(a)[h] <= multiset(b)[h]
  {
    if h in multiset(a) {
      assert h.id in IdsOf(a);
      assert h.id in IdsOf(b);
      var g :| g in b && g.id == h.id;
      assert h in b;
      AtMostOnce(a, h);
    }
  }

  lemma {:induction false} AtMostOnce(a: seq<Hit>, h: Hit)
    requires forall i, j :: 0 <= i < j < |a| ==> a[i].id != a[j].id
    ensures multiset(a)[h] <= 1
  {
    if a != [] {
      AtMostOnce(a[1..], h);
      assert a == [a[0]] + a[1..];
      if a[0] == h {
        assert h !in a[1..];
      }
    }
  }

  /** The result is determined: the order in which the hash map is walked cannot show. */
  lemma FusionIsUnique(q: Query, a: seq<Hit>, b: seq<Hit>)
    requires IsFusion(q, a) && IsFusion(q, b)
    ensures a == b
  {
    forall h ensures multiset(a)[h] == multiset(b)[h] {
      SameHits(q, a, b, h);
      SameHits(q, b, a, h);
    }
    assert multiset(a) == multiset(b);
    forall x, y | x in a && y in a && hitLe(x, y) && hitLe(y, x) ensures x == y {
      LexTotal(x.id, y.id);
    }
    SortedUnique(hitLe, a, b);
  }

  // ----- the code -----

  type Ranks = map<DocId, (Option<nat>, Option<nat>)>

  lemma {:induction false} FirstIndexIs(list: seq<DocId>, id: DocId, k: nat)
    requires k < |list| && list[k] == id && id !in list[..k]
    ensures FirstIndex(list, id) == Some(k)
  {
    if k > 0 {
      assert list[..k][0] == list[0];
      assert list[..k][1..] == list[1..][..k - 1];
      FirstIndexIs(list[1..], id, k - 1);
    }
  }

  /** One more list element gives a rank to a document that had none, and changes no other. */
  lemma RankAppend(prev: seq<DocId>, x: DocId, d: DocId)
    ensures RankIn(prev + [x], d) ==
              if d == x && d !in prev then Some(Min(|prev| + 1, U32_MAX)) else RankIn(prev, d)
  {
    if d in prev {
      var k := FirstIndex(prev, d).value;
      assert (prev + [x])[..k] == prev[..k];
      FirstIndexIs(prev + [x], d, k);
    } else if d == x {
      assert (prev + [x])[..|prev|] == prev;
      FirstIndexIs(prev + [x], d, |prev|);
    }
  }

  ghost predicate RanksOk(ranks: Ranks, bm25: seq<DocId>, vector: seq<DocId>) {
    && (forall d :: d in ranks <==> d in bm25 || d in vector)
    && forall d :: d in ranks ==> ranks[d] == (RankIn(bm25, d), RankIn(vector, d))
  }

  function Entry(ranks: Ranks, x: DocId): (Option<nat>, Option<nat>) {
    if x in ranks then ranks[x] else (None, None)
  }

  /** One turn of the first loop: the first rank seen is kept. */
  function TouchBm25(ranks: Ranks, x: DocId, i: nat): Ranks {
    var e := Entry(ranks, x);
    ranks[x := if e.0.None? then (Some(Min(i + 1, U32_MAX)), e.1) else e]
  }

  /** One turn of the second loop. */
  function TouchVector(ranks: Ranks, x: DocId, i: nat): Ranks {
    var e := Entry(ranks, x);
    ranks[x := if e.1.None? then (e.0, Some(Min(i + 1, U32_MAX))) else e]
  }

  lemma Bm25Turn(ranks: Ranks, list: seq<DocId>, i: nat)
    requires i < |list| && RanksOk(ranks, list[..i], [])
    ensures RanksOk(TouchBm25(ranks, list[i], i), list[..i + 1], [])
  {
    var prev, x, after := list[..i], list[i], TouchBm25(ranks, list[i], i);
    assert list[..i + 1] == prev + [x];
    forall d | d in after ensures after[d] == (RankIn(prev + [x], d), RankIn([], d)) {
      RankAppend(prev, x, d);
    }
  }

  lemma VectorTurn(ranks: Ranks, bm25: seq<DocId>, list: seq<DocId>, i: nat)
    requires i < |list| && RanksOk(ranks, bm25, list[..i])
    ensures RanksOk(TouchVector(ranks, list[i], i), bm25, list[..i + 1])
  {
    var prev, x, after := list[..i], list[i], TouchVector(ranks, list[i], i);
    assert list[..i + 1] == prev + [x];
    forall d | d in after ensures after[d] == (RankIn(bm25, d), RankIn(prev + [x], d)) {
      RankAppend(prev, x, d);
    }
  }

  /** The loop over the first list. */
  method FillBm25(list: seq<DocId>) returns (ranks: Ranks)
    ensures RanksOk(ranks, list, [])
  {
    ranks := map[];
    for i := 0 to |list|
      invariant RanksOk(ranks, list[..i], [])
    {
      Bm25Turn(ranks, list, i);
      ranks := TouchBm25(ranks, list[i], i);
    }
    assert list[..|list|] == list;
  }

  /** The loop over the second list. */
  method FillVector(filled: Ranks, bm25: seq<DocId>, list: seq<DocId>) returns (ranks: Ranks)
    requires RanksOk(filled, bm25, [])
    ensures RanksOk(ranks, bm25, list)
  {
    ranks := filled;
    assert list[..0] == [];
    for i := 0 to |list|
      invariant RanksOk(ranks, bm25, list[..i])
    {
      VectorTurn(ranks, bm25, list, i);
      ranks := TouchVector(ranks, list[i], i);
    }
    assert list[..|list|] == list;
  }

  lemma UnsortedTurn(q: Query, ids: set<DocId>, hits: seq<Hit>, id: DocId)
    requires Unsorted(q, ids, hits) && id !in ids
    ensures Unsorted(q, ids + {id}, hits + [HitOf(q, id)])
  {
    var after := hits + [HitOf(q, id)];
    forall d ensures d in IdsOf(after) <==> d in ids + {id} {
      if d in ids {
        var h :| h in hits && h.id == d;
        assert h in after;
      } else if d == id {
        assert after[|hits|] in after;
      }
    }
    forall i | 0 <= i < |hits| ensures hits[i].id != id {
      assert hits[i].id in IdsOf(hits);
    }
  }

  /** Walks the rank map in any order. */
  method CollectHits(q: Query, ranks: Ranks) returns (hits: seq<Hit>)
    requires RanksOk(ranks, q.bm25, q.vector)
    ensures Unsorted(q, Union(q), hits)
  {
    hits := [];
    var left := ranks.Keys;
    while left != {}
      invariant left <= ranks.Keys
      invariant Unsorted(q, ranks.Keys - left, hits)
      decreases left
    {
      var id :| id in left;
      UnsortedTurn(q, ranks.Keys - left, hits, id);
      assert ranks.Keys - left + {id} == ranks.Keys - (left - {id});
      var (b, v) := ranks[id];
      hits := hits + [HitFor(q, id, b, v)];
      left := left - {id};
    }
    assert ranks.Keys - {} == ranks.Keys == Union(q);
  }

  /** Fills the rank map from both lists, walks it in any order, sorts. */
  method FuseRanks(q: Query) returns (fused: seq<Hit>)
    ensures IsFusion(q, fused)
  {
    var ranks := FillBm25(q.bm25);
    ranks := FillVector(ranks, q.bm25, q.vector);
    var hits := CollectHits(q, ranks);
    fused := Sort(hitLe, hits);
    SortedFusion(q, hits);
  }

  lemma SortedFusion(q: Query, hits: seq<Hit>)
    requires Unsorted(q, Union(q), hits)
    ensures IsFusion(q, Sort(hitLe, hits))
  {
    var s := Sort(hitLe, hits);
    HitLeIsTotal();
    SortSorts(hitLe, hits);
    SortPermutes(hitLe, hits);
    forall h ensures h in s <==> h in hits {
      assert h in multiset(s) <==> h in multiset(hits);
    }
    assert IdsOf(s) == IdsOf(hits);
    forall i, j | 0 <= i < j < |s| ensures s[i].id != s[j].id {
      if s[i].id == s[j].id {
        assert s[i] == s[j];
        AtMostOnce(hits, s[i]);
        TwiceCounts(s, i, j);
      }
    }
  }

  lemma TwiceCounts(s: seq<Hit>, i: nat, j: nat)
    requires i < j < |s| && s[i] == s[j]
    ensures multiset(s)[s[i]] >= 2
  {
    assert s == s[..i] + [s[i]] + s[i + 1..j] + [s[j]] + s[j + 1..];
  }

  // ----- what the order means -----

  /** A document's rank in a list is the position of its first occurrence, counted from 1, as far as 32 bits go. */
  predicate RankedBy(rank: Option<nat>, list: seq<DocId>, id: DocId) {
    && (rank.Some? <==> id in list)
    && forall i :: 0 <= i < |list| && list[i] == id && id !in list[..i] ==>
         rank == Some(if i + 1 <= 4_294_967_295 then i + 1 else 4_294_967_295)
  }

  lemma RankIsFirst(list: seq<DocId>, id: DocId)
    ensures RankedBy(RankIn(list, id), list, id)
  {
    forall i | 0 <= i < |list| && list[i] == id && id !in list[..i]
      ensures RankIn(list, id) == Some(Min(i + 1, U32_MAX))
    {
      FirstIndexIs(list, id, i);
    }
  }

  /** Every fused document, in figures: weight over 60 plus rank, from each list that contains it. */
  lemma FusedInFigures(q: Query, hits: seq<Hit>, h: Hit)
    requires IsFusion(q, hits) && h in hits
    ensures RankedBy(h.bm25Rank, q.bm25, h.id) && RankedBy(h.vectorRank, q.vector, h.id)
    ensures h.score == (if h.id in q.bm25 then q.bm25Weight / (60.0 + h.bm25Rank.value as real) else 0.0)
                     + (if h.id in q.vector then q.vectorWeight / (60.0 + h.vectorRank.value as real) else 0.0)
  {
    assert h == HitOf(q, h.id);
    RankIsFirst(q.bm25, h.id);
    RankIsFirst(q.vector, h.id);
  }

  /** The order of ids: a proper prefix comes first, and otherwise the first different character decides. */
  lemma {:induction false} LexInFigures(a: DocId, b: DocId, k: nat)
    requires k <= |a| && k <= |b| && a[..k] == b[..k]
    requires (k == |a| && k < |b|) || (k < |a| && k < |b| && a[k] < b[k])
    ensures LexLe(a, b) && !LexLe(b, a)
  {
    if k > 0 {
      assert a[0] == a[..k][0] == b[..k][0] == b[0];
      assert a[1..][..k - 1] == a[..k][1..] && b[1..][..k - 1] == b[..k][1..];
      LexInFigures(a[1..], b[1..], k - 1);
    }
  }

  /** In every list that contains `b`, `a` comes strictly first. */
  predicate Ahead(list: seq<DocId>, a: DocId, b: DocId) {
    b in list ==> a in list && FirstIndex(list, a).value < FirstIndex(list, b).value
  }

  lemma SmallerRankScoresMore(w: real, x: nat, y: nat)
    requires w > 0.0 && x < y
    ensures w / (RRF_K + x as real) > w / (RRF_K + y as real) > 0.0
  {
    var p, r := RRF_K + x as real, RRF_K + y as real;
    var u, v := w / p, w / r;
    assert u * p == w && v * r == w;
    assert v > 0.0;
    assert v * p < v * r;
    Cancel(u, v, p);
  }

  lemma Cancel(u: real, v: real, p: real)
    requires p > 0.0 && u * p > v * p
    ensures u > v
  {
  }

  lemma TermAhead(list: seq<DocId>, w: real, a: DocId, b: DocId)
    requires w > 0.0 && Ahead(list, a, b)
    ensures Term(w, RankIn(list, a)) >= Term(w, RankIn(list, b))
    ensures RankIn(list, a) != RankIn(list, b) ==> Term(w, RankIn(list, a)) > Term(w, RankIn(list, b))
  {
    if b in list {
      var x, y := RankIn(list, a).value, RankIn(list, b).value;
      assert x <= y;
      if x < y { SmallerRankScoresMore(w, x, y); }
    } else if a in list {
      SmallerRankScoresMore(w, RankIn(list, a).value, RankIn(list, a).value + 1);
    }
  }

  /** Ranks of two documents can only coincide beyond the 32-bit range. */
  lemma RanksDiffer(list: seq<DocId>, a: DocId, b: DocId)
    requires Ahead(list, a, b) && b in list && |list| <= U32_MAX
    ensures RankIn(list, a) != RankIn(list, b)
  {
  }

  /**
   With positive weights, a document that is strictly ahead of another in every list that contains
   the other never scores less, and it comes before the other in the fused result if and only
   if some rank of the two differs or its id is the smaller one. With lists of at most
   2^32 - 1 entries a rank always differs, so it always comes first.
   */
  lemma AheadEverywherePrecedes(q: Query, hits: seq<Hit>, i: nat, j: nat)
    requires q.bm25Weight > 0.0 && q.vectorWeight > 0.0 && IsFusion(q, hits)
    requires i < |hits| && j < |hits|
    requires Ahead(q.bm25, hits[i].id, hits[j].id) && Ahead(q.vector, hits[i].id, hits[j].id)
    ensures hits[i].score >= hits[j].score
    ensures i < j <==> hits[i].bm25Rank != hits[j].bm25Rank || hits[i].vectorRank != hits[j].vectorRank
                       || LexLe(hits[i].id, hits[j].id)
    ensures |q.bm25| <= U32_MAX && |q.vector| <= U32_MAX ==> i < j && hits[i].score > hits[j].score
  {
    var a, b := hits[i], hits[j];
    assert a == HitOf(q, a.id) && b == HitOf(q, b.id);
    TermAhead(q.bm25, q.bm25Weight, a.id, b.id);
    TermAhead(q.vector, q.vectorWeight, a.id, b.id);
    assert b.id in IdsOf(hits);
    if |q.bm25| <= U32_MAX && |q.vector| <= U32_MAX {
      if b.id in q.bm25 { RanksDiffer(q.bm25, a.id, b.id); } else { RanksDiffer(q.vector, a.id, b.id); }
    }
    LexTotal(a.id, b.id);
    assert i < j ==> hitLe(hits[i], hits[j]);
    assert j < i ==> hitLe(hits[j], hits[i]);
  }

  function SwapHit(h: Hit): Hit {
    Hit(h.id, h.score, h.vectorRank, h.bm25Rank)
  }

  function SwapAll(hits: seq<Hit>): seq<Hit> {
    seq(|hits|, i requires 0 <= i < |hits| => SwapHit(hits[i]))
  }

  lemma SwapKeepsIds(hits: seq<Hit>)
    ensures IdsOf(SwapAll(hits)) == IdsOf(hits)
  {
    var swapped := SwapAll(hits);
    forall d ensures d in IdsOf(swapped) <==> d in IdsOf(hits) {
      if d in IdsOf(hits) {
        var i :| 0 <= i < |hits| && hits[i].id == d;
        assert swapped[i] in swapped && swapped[i].id == d;
      }
    }
  }

  lemma SwapIsFusion(q: Query, hits: seq<Hit>)
    requires IsFusion(q, hits)
    ensures IsFusion(q.Swapped(), SwapAll(hits))
  {
    var swapped := SwapAll(hits);
    SwapKeepsIds(hits);
    assert Union(q.Swapped()) == Union(q);
    forall h | h in swapped ensures h == HitOf(q.Swapped(), h.id) {
      var i :| 0 <= i < |swapped| && swapped[i] == h;
      assert hits[i] == HitOf(q, h.id);
    }
    forall i, j | 0 <= i < j < |swapped| ensures hitLe(swapped[i], swapped[j]) {
      assert hitLe(hits[i], hits[j]);
    }
  }

  /** Exchanging the lists together with their weights only exchanges the two rank fields. */
  lemma SwappingOnlySwapsRanks(q: Query, hits: seq<Hit>, other: seq<Hit>)
    requires IsFusion(q, hits) && IsFusion(q.Swapped(), other)
    ensures other == SwapAll(hits)
  {
    SwapIsFusion(q, hits);
    FusionIsUnique(q.Swapped(), SwapAll(hits), other);
  }
}
