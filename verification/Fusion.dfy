/** Reciprocal rank fusion (nexus/rag/fusion.py), over reals. Chunks are represented by their ids. */
module Fusion {
  type Ranking = seq<string>

  /** What the loop over the lists builds up, and the ids in order of first appearance. */
  datatype Tally = Tally(scores: map<string, real>, counts: map<string, nat>, order: seq<string>)

  function Weight(k: nat, rank: nat): real
    requires rank >= 1
  {
    1.0 / (k + rank) as real
  }

  /** Place `rank` of a list is worth one in (k + rank). */
  lemma WeightMeans(k: nat, rank: nat)
    requires rank >= 1
    ensures Weight(k, rank) * (k + rank) as real == 1.0
  {
  }

  function ScoreIn(t: Tally, id: string): real {
    if id in t.scores then t.scores[id] else 0.0
  }

  function CountIn(t: Tally, id: string): nat {
    if id in t.counts then t.counts[id] else 0
  }

  // ---------- What one id earns ----------

  /** Over the first `n` places of one list. */
  function Earned(ranked: Ranking, n: nat, k: nat, id: string): real
    requires n <= |ranked|
  {
    if n == 0 then 0.0
    else Earned(ranked, n - 1, k, id) + if ranked[n - 1] == id then Weight(k, n) else 0.0
  }

  function Score(lists: seq<Ranking>, k: nat, id: string): real {
    if lists == [] then 0.0
    else Score(lists[..|lists| - 1], k, id) + Earned(lists[|lists| - 1], |lists[|lists| - 1]|, k, id)
  }

  function Places(ranked: Ranking, n: nat, id: string): nat
    requires n <= |ranked|
  {
    if n == 0 then 0 else Places(ranked, n - 1, id) + if ranked[n - 1] == id then 1 else 0
  }

  function Count(lists: seq<Ranking>, id: string): nat {
    if lists == [] then 0
    else Count(lists[..|lists| - 1], id) + Places(lists[|lists| - 1], |lists[|lists| - 1]|, id)
  }

  /** The ids in order of first appearance. */
  function Appearances(lists: seq<Ranking>, ranked: Ranking, n: nat): seq<string>
    requires n <= |ranked|
    decreases |lists|, n
  {
    if n > 0 then
      var before := Appearances(lists, ranked, n - 1);
      if ranked[n - 1] in before then before else before + [ranked[n - 1]]
    else if lists == [] then []
    else Appearances(lists[..|lists| - 1], lists[|lists| - 1], |lists[|lists| - 1]|)
  }

  function Flat(lists: seq<Ranking>): seq<string> {
    if lists == [] then [] else Flat(lists[..|lists| - 1]) + lists[|lists| - 1]
  }

  ghost predicate FirstBefore(flat: seq<string>, a: string, b: string) {
    exists p :: 0 <= p < |flat| && flat[p] == a && b !in flat[..p + 1]
  }

  /** Every id of `flat` once, in the order in which they turn up. */
  ghost predicate InOrderOf(order: seq<string>, flat: seq<string>) {
    && (forall id :: id in order <==> id in flat)
    && forall i, j :: 0 <= i < j < |order| ==> FirstBefore(flat, order[i], order[j])
  }

  lemma NextInOrder(order: seq<string>, flat: seq<string>, id: string)
    requires InOrderOf(order, flat)
    ensures InOrderOf(if id in order then order else order + [id], flat + [id])
  {
    var longer := if id in order then order else order + [id];
    forall i, j | 0 <= i < j < |longer|
      ensures FirstBefore(flat + [id], longer[i], longer[j])
    {
      if j < |order| {
        StillBefore(flat, id, order[i], order[j]);
      } else {
        assert order[i] in order;
        var p :| 0 <= p < |flat| && flat[p] == order[i];
        NewIsLater(flat, p, id);
      }
    }
    hide FirstBefore;
  }

  lemma StillBefore(flat: seq<string>, id: string, a: string, b: string)
    requires FirstBefore(flat, a, b)
    ensures FirstBefore(flat + [id], a, b)
  {
    var p :| 0 <= p < |flat| && flat[p] == a && b !in flat[..p + 1];
    assert (flat + [id])[p] == a && (flat + [id])[..p + 1] == flat[..p + 1];
  }

  lemma NewIsLater(flat: seq<string>, p: nat, id: string)
    requires p < |flat| && id !in flat
    ensures FirstBefore(flat + [id], flat[p], id)
  {
    assert (flat + [id])[p] == flat[p] && (flat + [id])[..p + 1] == flat[..p + 1];
  }

  /** Ids are taken list by list, in the order of first appearance. */
  lemma {:induction false} AppearancesMean(lists: seq<Ranking>, ranked: Ranking, n: nat)
    requires n <= |ranked|
    ensures InOrderOf(Appearances(lists, ranked, n), Flat(lists) + ranked[..n])
    decreases |lists|, n
  {
    hide InOrderOf, Flat;
    if n > 0 {
      AppearancesMean(lists, ranked, n - 1);
      NextInOrder(Appearances(lists, ranked, n - 1), Flat(lists) + ranked[..n - 1], ranked[n - 1]);
      assert Flat(lists) + ranked[..n - 1] + [ranked[n - 1]] == Flat(lists) + ranked[..n];
    } else if lists == [] {
      NothingInOrder();
      assert Flat(lists) + ranked[..0] == [];
    } else {
      var m := |lists| - 1;
      AppearancesMean(lists[..m], lists[m], |lists[m]|);
      FlatLast(lists);
      assert Flat(lists[..m]) + lists[m][..|lists[m]|] == Flat(lists) + ranked[..0];
    }
  }

  lemma NothingInOrder()
    ensures InOrderOf([], []) && Flat([]) == []
  {
  }

  lemma FlatLast(lists: seq<Ranking>)
    requires lists != []
    ensures Flat(lists) == Flat(lists[..|lists| - 1]) + lists[|lists| - 1]
  {
  }

  ghost predicate Distinct(ids: seq<string>) {
    forall i, j :: 0 <= i < j < |ids| ==> ids[i] != ids[j]
  }

  /** The tally after all of `lists` and the first `n` places of `ranked`. */
  ghost predicate Tallied(t: Tally, lists: seq<Ranking>, ranked: Ranking, n: nat, k: nat)
    requires n <= |ranked|
  {
    && (forall id :: ScoreIn(t, id) == Score(lists, k, id) + Earned(ranked, n, k, id))
    && (forall id :: CountIn(t, id) == Count(lists, id) + Places(ranked, n, id))
    && t.order == Appearances(lists, ranked, n) && Distinct(t.order)
    && (forall id :: id in t.order <==> CountIn(t, id) > 0)
  }

  function Counted(t: Tally, k: nat, id: string, rank: nat): Tally
    requires rank >= 1
  {
    Tally(t.scores[id := ScoreIn(t, id) + Weight(k, rank)],
          t.counts[id := CountIn(t, id) + 1],
          if id in t.order then t.order else t.order + [id])
  }

  lemma CountedNext(t: Tally, lists: seq<Ranking>, ranked: Ranking, n: nat, k: nat)
    requires n < |ranked| && Tallied(t, lists, ranked, n, k)
    ensures Tallied(Counted(t, k, ranked[n], n + 1), lists, ranked, n + 1, k)
  {
    var t' := Counted(t, k, ranked[n], n + 1);
    forall id
      ensures ScoreIn(t', id) == Score(lists, k, id) + Earned(ranked, n + 1, k, id)
      ensures CountIn(t', id) == Count(lists, id) + Places(ranked, n + 1, id)
      ensures id in t'.order <==> CountIn(t', id) > 0
    {
      assert ScoreIn(t, id) == Score(lists, k, id) + Earned(ranked, n, k, id);
      assert CountIn(t, id) == Count(lists, id) + Places(ranked, n, id);
      hide Weight, Score, Count;
    }
    assert Distinct(t'.order);
    hide Earned, Places, Score, Count, Counted, ScoreIn, CountIn;
  }

  lemma NextList(t: Tally, lists: seq<Ranking>, i: nat, k: nat)
    requires i < |lists| && Tallied(t, lists[..i], lists[i], |lists[i]|, k)
    ensures Tallied(t, lists[..i + 1], [], 0, k)
  {
    assert lists[..i + 1][..i] == lists[..i];
  }

  method TallyUp(lists: seq<Ranking>, k: nat) returns (t: Tally)
    ensures Tallied(t, lists, [], 0, k)
  {
    t := Tally(map[], map[], []);
    hide Score, Earned, Count, Places, Counted;
    assert Tallied(t, lists[..0], [], 0, k) by { NothingTallied(k); }
    for i := 0 to |lists|
      invariant Tallied(t, lists[..i], [], 0, k)
    {
      var ranked := lists[i];
      StartList(t, lists[..i], ranked, k);
      for n := 0 to |ranked|
        invariant Tallied(t, lists[..i], ranked, n, k)
      {
        CountedNext(t, lists[..i], ranked, n, k);
        t := Counted(t, k, ranked[n], n + 1);
      }
      NextList(t, lists, i, k);
    }
    assert lists[..|lists|] == lists;
  }

  lemma NothingTallied(k: nat)
    ensures Tallied(Tally(map[], map[], []), [], [], 0, k)
  {
  }

  lemma StartList(t: Tally, lists: seq<Ranking>, ranked: Ranking, k: nat)
    requires Tallied(t, lists, [], 0, k)
    ensures Tallied(t, lists, ranked, 0, k)
  {
  }

  // ---------- The order ----------

  /** By score, then by the number of lists. */
  predicate AtLeast(t: Tally, a: string, b: string) {
    || ScoreIn(t, a) > ScoreIn(t, b)
    || (ScoreIn(t, a) == ScoreIn(t, b) && CountIn(t, a) >= CountIn(t, b))
  }

  ghost predicate Ordered(t: Tally, ids: seq<string>) {
    forall i, j :: 0 <= i < j < |ids| ==> AtLeast(t, ids[i], ids[j])
  }

  /** Behind everything that is at least as good: equal ids keep their order. */
  function Insert(t: Tally, ids: seq<string>, id: string): seq<string> {
    if ids == [] then [id]
    else
      var last := ids[|ids| - 1];
      if AtLeast(t, last, id) then ids + [id] else Insert(t, ids[..|ids| - 1], id) + [last]
  }

  /** The stable descending sort. */
  function Sort(t: Tally, ids: seq<string>): seq<string> {
    if ids == [] then [] else Insert(t, Sort(t, ids[..|ids| - 1]), ids[|ids| - 1])
  }

  lemma {:induction false} InsertPermutes(t: Tally, ids: seq<string>, id: string)
    ensures multiset(Insert(t, ids, id)) == multiset(ids) + multiset{id}
  {
    if ids != [] {
      var n := |ids| - 1;
      InsertPermutes(t, ids[..n], id);
      assert ids == ids[..n] + [ids[n]];
    }
  }

  /** Where the elements of an insertion come from. */
  lemma InsertedFrom(t: Tally, ids: seq<string>, id: string, i: nat)
    requires i < |Insert(t, ids, id)|
    ensures Insert(t, ids, id)[i] == id || Insert(t, ids, id)[i] in ids
  {
    InsertPermutes(t, ids, id);
    var all := Insert(t, ids, id);
    assert all[i] in multiset(all);
    assert all[i] in multiset(ids) + multiset{id};
  }

  lemma {:induction false} InsertOrders(t: Tally, ids: seq<string>, id: string)
    requires Ordered(t, ids)
    ensures Ordered(t, Insert(t, ids, id))
  {
    if ids != [] && !AtLeast(t, ids[|ids| - 1], id) {
      var n := |ids| - 1;
      var last := ids[n];
      InsertOrders(t, ids[..n], id);
      var front := Insert(t, ids[..n], id);
      forall i | 0 <= i < |front| ensures AtLeast(t, front[i], last) {
        InsertedFrom(t, ids[..n], id, i);
      }
      hide AtLeast;
    } else if ids != [] {
      forall i | 0 <= i < |ids| ensures AtLeast(t, ids[i], id) {
        assert i < |ids| - 1 ==> AtLeast(t, ids[i], ids[|ids| - 1]);
      }
      hide AtLeast;
    }
  }

  lemma {:induction false} SortPermutes(t: Tally, ids: seq<string>)
    ensures multiset(Sort(t, ids)) == multiset(ids) && Ordered(t, Sort(t, ids))
  {
    if ids != [] {
      var n := |ids| - 1;
      SortPermutes(t, ids[..n]);
      InsertPermutes(t, Sort(t, ids[..n]), ids[n]);
      InsertOrders(t, Sort(t, ids[..n]), ids[n]);
      assert ids == ids[..n] + [ids[n]];
    }
  }

  /** A list that is in order already stays as it is. */
  lemma {:induction false} SortKeepsOrdered(t: Tally, ids: seq<string>)
    requires Ordered(t, ids)
    ensures Sort(t, ids) == ids
  {
    if ids != [] {
      var n := |ids| - 1;
      SortKeepsOrdered(t, ids[..n]);
      assert n > 0 ==> AtLeast(t, ids[n - 1], ids[n]);
      assert ids == ids[..n] + [ids[n]];
    }
  }

  /** `a` stands before `b`. */
  ghost predicate Before(ids: seq<string>, a: string, b: string) {
    exists p, q :: 0 <= p < q < |ids| && ids[p] == a && ids[q] == b
  }

  lemma BeforeLonger(front: seq<string>, id: string, a: string, b: string)
    ensures Before(front, a, b) || (a in front && b == id) ==> Before(front + [id], a, b)
  {
    var ids := front + [id];
    if p, q :| 0 <= p < q < |front| && front[p] == a && front[q] == b {
      assert ids[p] == a && ids[q] == b;
    }
    if a in front && b == id {
      var p :| 0 <= p < |front| && front[p] == a;
      assert ids[p] == a && ids[|front|] == b;
    }
  }

  /** Inserting keeps the order, and puts the new id behind everything at least as good. */
  lemma {:induction false} InsertKeepsOrder(t: Tally, ids: seq<string>, id: string, i: nat, j: nat)
    requires i < j < |Insert(t, ids, id)|
    ensures
      var a, b := Insert(t, ids, id)[i], Insert(t, ids, id)[j];
      Before(ids, a, b) || (b == id && a in ids) || (a == id && !AtLeast(t, b, id))
  {
    hide AtLeast, Before;
    var n := |ids| - 1;
    if AtLeast(t, ids[n], id) {
      var a, b := (ids + [id])[i], (ids + [id])[j];
      if j <= n { BeforeMeans(ids, i, j); }
    } else if j < |Insert(t, ids, id)| - 1 {
      InsertKeepsOrder(t, ids[..n], id, i, j);
      var a, b := Insert(t, ids, id)[i], Insert(t, ids, id)[j];
      BeforeLonger(ids[..n], ids[n], a, b);
      assert ids == ids[..n] + [ids[n]];
    } else {
      var a := Insert(t, ids, id)[i];
      InsertedFrom(t, ids[..n], id, i);
      BeforeLonger(ids[..n], ids[n], a, ids[n]);
      assert ids == ids[..n] + [ids[n]];
    }
  }

  lemma BeforeMeans(ids: seq<string>, i: nat, j: nat)
    requires i < j < |ids|
    ensures Before(ids, ids[i], ids[j])
  {
  }

  /** The sort is stable: what it cannot tell apart stays in order. */
  lemma {:induction false} SortIsStable(t: Tally, ids: seq<string>, i: nat, j: nat)
    requires i < j < |Sort(t, ids)|
    requires AtLeast(t, Sort(t, ids)[j], Sort(t, ids)[i])
    ensures Before(ids, Sort(t, ids)[i], Sort(t, ids)[j])
  {
    hide AtLeast, Before, Insert;
    var n := |ids| - 1;
    var front := Sort(t, ids[..n]);
    var a, b := Sort(t, ids)[i], Sort(t, ids)[j];
    InsertKeepsOrder(t, front, ids[n], i, j);
    SortPermutes(t, ids[..n]);
    assert a in multiset(front) <==> a in multiset(ids[..n]);
    if Before(front, a, b) {
      var p, q := Positions(front, a, b);
      SortIsStable(t, ids[..n], p, q);
    }
    BeforeLonger(ids[..n], ids[n], a, b);
    assert ids == ids[..n] + [ids[n]];
  }

  lemma Positions(ids: seq<string>, a: string, b: string) returns (p: nat, q: nat)
    requires Before(ids, a, b)
    ensures p < q < |ids| && ids[p] == a && ids[q] == b
  {
    p, q :| p < q < |ids| && ids[p] == a && ids[q] == b;
  }

  lemma DistinctFromMultiset(a: seq<string>, b: seq<string>)
    requires multiset(a) == multiset(b) && Distinct(b)
    ensures Distinct(a) && (forall id :: id in a <==> id in b) && |a| == |b|
  {
    forall id ensures multiset(b)[id] <= 1 {
      AtMostOnce(b, id);
    }
    forall i, j | 0 <= i < j < |a| ensures a[i] != a[j] {
      if a[i] == a[j] {
        Twice(a, i, j);
      }
    }
    forall id ensures id in a <==> id in b {
      assert id in multiset(a) <==> id in multiset(b);
    }
    assert |multiset(a)| == |multiset(b)|;
  }

  lemma {:induction false} AtMostOnce(ids: seq<string>, id: string)
    requires Distinct(ids)
    ensures multiset(ids)[id] <= 1
  {
    if ids != [] {
      var n := |ids| - 1;
      AtMostOnce(ids[..n], id);
      assert ids == ids[..n] + [ids[n]];
      if ids[n] == id {
        assert id !in ids[..n];
      }
    }
  }

  lemma Twice(ids: seq<string>, i: nat, j: nat)
    requires i < j < |ids| && ids[i] == ids[j]
    ensures multiset(ids)[ids[i]] >= 2
  {
    assert ids == ids[..j] + ids[j..];
    assert ids[i] in ids[..j] && ids[j] in ids[j..];
  }

  // ---------- Fusion ----------

  /** `ids[:n]`, which for a negative `n` drops from the end. */
  function First(ids: seq<string>, n: int): (r: seq<string>)
    ensures |r| <= |ids| && r == ids[..|r|]
    ensures n >= 0 ==> |r| == n || (|r| == |ids| && |ids| < n)
    ensures n < 0 ==> |r| == |ids| + n || (r == [] && |ids| + n < 0)
  {
    if n >= |ids| then ids
    else if n >= 0 then ids[..n]
    else if |ids| + n >= 0 then ids[..|ids| + n]
    else []
  }

  /** The ids of all lists in order of first appearance. */
  function FirstSeen(lists: seq<Ranking>): seq<string> {
    Appearances(lists, [], 0)
  }

  /** By score, then by count, then by first appearance. */
  ghost predicate Ahead(lists: seq<Ranking>, k: nat, a: string, b: string) {
    || Score(lists, k, a) > Score(lists, k, b)
    || (&& Score(lists, k, a) == Score(lists, k, b)
        && (Count(lists, a) > Count(lists, b)
            || (Count(lists, a) == Count(lists, b) && Before(FirstSeen(lists), a, b))))
  }

  /** Distinct ids, best first, and exactly those that appear. */
  ghost predicate IsFusion(lists: seq<Ranking>, k: nat, all: seq<string>) {
    && Distinct(all)
    && (forall id :: id in all <==> Count(lists, id) > 0)
    && Ranked(lists, k, all)
  }

  ghost predicate Ranked(lists: seq<Ranking>, k: nat, all: seq<string>) {
    forall i, j :: 0 <= i < j < |all| ==> Ahead(lists, k, all[i], all[j])
  }

  lemma NotAheadOfEachOther(lists: seq<Ranking>, k: nat, a: string, b: string)
    requires Distinct(FirstSeen(lists)) && Ahead(lists, k, a, b)
    ensures !Ahead(lists, k, b, a)
  {
    hide Score, Count, FirstSeen;
    if Before(FirstSeen(lists), a, b) && Before(FirstSeen(lists), b, a) {
      var p, q := Positions(FirstSeen(lists), a, b);
      var r, s := Positions(FirstSeen(lists), b, a);
    }
  }

  lemma {:induction false} RankedUnique(lists: seq<Ranking>, k: nat, a: seq<string>, b: seq<string>)
    requires Distinct(FirstSeen(lists)) && Distinct(a) && Distinct(b)
    requires Ranked(lists, k, a) && Ranked(lists, k, b) && forall id :: id in a <==> id in b
    ensures a == b
  {
    hide Ahead, FirstSeen;
    assert b != [] ==> b[0] in b;
    if a != [] {
      assert a[0] in b;
      assert b[0] in a;
      if a[0] != b[0] {
        var i :| 0 <= i < |b| && b[i] == a[0];
        var j :| 0 <= j < |a| && a[j] == b[0];
        assert Ahead(lists, k, b[0], b[i]) && Ahead(lists, k, a[0], a[j]);
        NotAheadOfEachOther(lists, k, a[0], b[0]);
      }
      TailSame(a, b);
      RankedUnique(lists, k, a[1..], b[1..]);
    }
  }

  lemma NotInTail(ids: seq<string>)
    requires Distinct(ids) && ids != []
    ensures ids[0] !in ids[1..]
  {
    assert forall i :: 1 <= i < |ids| ==> ids[1..][i - 1] == ids[i];
  }

  lemma TailSame(a: seq<string>, b: seq<string>)
    requires a != [] && b != [] && a[0] == b[0] && Distinct(a) && Distinct(b) && forall id :: id in a <==> id in b
    ensures forall id :: id in a[1..] <==> id in b[1..]
  {
    NotInTail(a);
    NotInTail(b);
    assert a == [a[0]] + a[1..] && b == [b[0]] + b[1..];
    hide Distinct;
    forall id ensures id in a[1..] <==> id in b[1..] {
      assert id in a <==> id == a[0] || id in a[1..];
      assert id in b <==> id == b[0] || id in b[1..];
    }
  }

  /** The lists determine the fused order. */
  lemma FusionUnique(lists: seq<Ranking>, k: nat, a: seq<string>, b: seq<string>)
    requires IsFusion(lists, k, a) && IsFusion(lists, k, b)
    ensures a == b
  {
    hide Ahead;
    SeenOnce(lists, [], 0);
    RankedUnique(lists, k, a, b);
  }

  lemma {:induction false} SeenOnce(lists: seq<Ranking>, ranked: Ranking, n: nat)
    requires n <= |ranked|
    ensures Distinct(Appearances(lists, ranked, n))
    decreases |lists|, n
  {
    if n > 0 {
      SeenOnce(lists, ranked, n - 1);
    } else if lists != [] {
      SeenOnce(lists[..|lists| - 1], lists[|lists| - 1], |lists[|lists| - 1]|);
    }
  }

  method Fuse(lists: seq<Ranking>, k: nat, topN: int) returns (fused: seq<string>)
    ensures exists all :: IsFusion(lists, k, all) && fused == First(all, topN)
    ensures |lists| == 1 && Distinct(lists[0]) ==> fused == First(lists[0], topN)
  {
    var t := TallyUp(lists, k);
    var ordered := Sort(t, t.order);
    fused := First(ordered, topN);
    TallyIsFusion(t, lists, k);
    if |lists| == 1 && Distinct(lists[0]) {
      hide IsFusion, Tallied;
      SingleList(t, lists, k);
    }
  }

  lemma TallyMeans(t: Tally, lists: seq<Ranking>, k: nat, id: string)
    requires Tallied(t, lists, [], 0, k)
    ensures ScoreIn(t, id) == Score(lists, k, id) && CountIn(t, id) == Count(lists, id)
    ensures id in t.order <==> Count(lists, id) > 0
  {
    assert Earned([], 0, k, id) == 0.0 && Places([], 0, id) == 0;
  }

  lemma TallyIsFusion(t: Tally, lists: seq<Ranking>, k: nat)
    requires Tallied(t, lists, [], 0, k)
    ensures IsFusion(lists, k, Sort(t, t.order))
  {
    var all := Sort(t, t.order);
    SortPermutes(t, t.order);
    DistinctFromMultiset(all, t.order);
    assert forall i, j :: 0 <= i < j < |all| ==> AtLeast(t, all[i], all[j]);
    hide Sort, Score, Count, Before, Ordered;
    forall id ensures id in all <==> Count(lists, id) > 0 {
      TallyMeans(t, lists, k, id);
    }
    forall i, j | 0 <= i < j < |all| ensures Ahead(lists, k, all[i], all[j]) {
      TallyMeans(t, lists, k, all[i]);
      TallyMeans(t, lists, k, all[j]);
      if AtLeast(t, all[j], all[i]) {
        SortIsStable(t, t.order, i, j);
      }
    }
  }

  // ---------- A single list ----------

  lemma WeightDecreases(k: nat, r: nat, s: nat)
    requires 1 <= r < s
    ensures 0.0 < Weight(k, s) < Weight(k, r)
  {
    Reciprocal((k + r) as real, (k + s) as real);
  }

  lemma Reciprocal(x: real, y: real)
    requires 0.0 < x < y
    ensures 0.0 < 1.0 / y < 1.0 / x
  {
    var p, q := 1.0 / x, 1.0 / y;
    Inverse(p, x);
    Inverse(q, y);
    Products(p, q, x, y);
  }

  lemma Inverse(p: real, x: real)
    requires x > 0.0 && p * x == 1.0
    ensures p > 0.0
  {
  }

  lemma Products(p: real, q: real, x: real, y: real)
    requires 0.0 < x < y && p * x == 1.0 && q * y == 1.0 && p > 0.0 && q > 0.0
    ensures q < p
  {
    assert q * x < q * y;
    assert (p - q) * x > 0.0;
  }

  /** In a list without repetition an id earns one place's weight, or nothing. */
  lemma {:induction false} EarnedOnce(ranked: Ranking, n: nat, k: nat, i: nat)
    requires Distinct(ranked) && n <= |ranked| && i < |ranked|
    ensures Earned(ranked, n, k, ranked[i]) == if i < n then Weight(k, i + 1) else 0.0
  {
    if n > 0 {
      EarnedOnce(ranked, n - 1, k, i);
    }
  }

  lemma {:induction false} EarnedNothing(ranked: Ranking, n: nat, k: nat, id: string)
    requires n <= |ranked| && id !in ranked
    ensures Earned(ranked, n, k, id) == 0.0
  {
    if n > 0 {
      EarnedNothing(ranked, n - 1, k, id);
    }
  }

  lemma {:induction false} AppearancesOfOne(ranked: Ranking, n: nat)
    requires Distinct(ranked) && n <= |ranked|
    ensures Appearances([], ranked, n) == ranked[..n]
  {
    if n > 0 {
      AppearancesOfOne(ranked, n - 1);
      assert ranked[n - 1] !in ranked[..n - 1];
      assert ranked[..n] == ranked[..n - 1] + [ranked[n - 1]];
    }
  }

  /** One list without repetition comes back as it was. */
  lemma SingleList(t: Tally, lists: seq<Ranking>, k: nat)
    requires Tallied(t, lists, [], 0, k) && |lists| == 1 && Distinct(lists[0])
    ensures Sort(t, t.order) == lists[0]
  {
    var ranked := lists[0];
    assert lists[..0] == [];
    AppearancesOfOne(ranked, |ranked|);
    assert ranked[..|ranked|] == ranked;
    assert t.order == ranked;
    forall i, j | 0 <= i < j < |ranked| ensures AtLeast(t, ranked[i], ranked[j]) {
      TallyMeans(t, lists, k, ranked[i]);
      TallyMeans(t, lists, k, ranked[j]);
      EarnedOnce(ranked, |ranked|, k, i);
      EarnedOnce(ranked, |ranked|, k, j);
      assert Score(lists[..0], k, ranked[i]) == 0.0;
      assert Score(lists[..0], k, ranked[j]) == 0.0;
      WeightDecreases(k, i + 1, j + 1);
    }
    SortKeepsOrdered(t, ranked);
  }

  // ---------- Unanimity ----------

  /** In this list `b`, if there, has `a` above it. */
  ghost predicate Above(ranked: Ranking, a: string, b: string) {
    b in ranked ==> exists i, j :: 0 <= i < j < |ranked| && ranked[i] == a && ranked[j] == b
  }

  lemma AboveEarnsMore(ranked: Ranking, k: nat, a: string, b: string)
    requires Distinct(ranked) && Above(ranked, a, b)
    ensures Earned(ranked, |ranked|, k, b) <= Earned(ranked, |ranked|, k, a)
    ensures b in ranked ==> Earned(ranked, |ranked|, k, b) < Earned(ranked, |ranked|, k, a)
  {
    if b in ranked {
      var i, j :| 0 <= i < j < |ranked| && ranked[i] == a && ranked[j] == b;
      EarnedOnce(ranked, |ranked|, k, i);
      EarnedOnce(ranked, |ranked|, k, j);
      WeightDecreases(k, i + 1, j + 1);
    } else {
      EarnedNothing(ranked, |ranked|, k, b);
      if a in ranked {
        var i :| 0 <= i < |ranked| && ranked[i] == a;
        EarnedOnce(ranked, |ranked|, k, i);
        WeightDecreases(k, i + 1, i + 2);
      } else {
        EarnedNothing(ranked, |ranked|, k, a);
      }
    }
  }

  lemma {:induction false} AboveScoresMore(lists: seq<Ranking>, k: nat, a: string, b: string)
    requires forall i :: 0 <= i < |lists| ==> Distinct(lists[i]) && Above(lists[i], a, b)
    ensures Score(lists, k, b) <= Score(lists, k, a)
    ensures Count(lists, b) > 0 ==> Score(lists, k, b) < Score(lists, k, a)
  {
    if lists != [] {
      var last := lists[|lists| - 1];
      AboveScoresMore(lists[..|lists| - 1], k, a, b);
      AboveEarnsMore(last, k, a, b);
      if b !in last {
        NoPlaces(last, |last|, b);
      }
    }
  }

  lemma {:induction false} NoPlaces(ranked: Ranking, n: nat, id: string)
    requires n <= |ranked| && id !in ranked
    ensures Places(ranked, n, id) == 0
  {
    if n > 0 {
      NoPlaces(ranked, n - 1, id);
    }
  }

  /** A list without repetition counts an id once. */
  lemma {:induction false} PlacesOnce(ranked: Ranking, n: nat, i: nat)
    requires Distinct(ranked) && n <= |ranked| && i < |ranked|
    ensures Places(ranked, n, ranked[i]) == if i < n then 1 else 0
  {
    if n > 0 {
      PlacesOnce(ranked, n - 1, i);
    }
  }

  lemma {:induction false} ScoredAppears(lists: seq<Ranking>, k: nat, id: string)
    requires Score(lists, k, id) > 0.0
    ensures Count(lists, id) > 0
  {
    var last := lists[|lists| - 1];
    EarnedMeansPlaced(last, |last|, k, id);
    if Earned(last, |last|, k, id) <= 0.0 {
      ScoredAppears(lists[..|lists| - 1], k, id);
    }
  }

  lemma {:induction false} EarnedMeansPlaced(ranked: Ranking, n: nat, k: nat, id: string)
    requires n <= |ranked|
    ensures Earned(ranked, n, k, id) > 0.0 ==> Places(ranked, n, id) > 0
  {
    if n > 0 {
      EarnedMeansPlaced(ranked, n - 1, k, id);
    }
  }

  lemma {:induction false} ScoreNotNegative(lists: seq<Ranking>, k: nat, id: string)
    ensures Score(lists, k, id) >= 0.0
  {
    if lists != [] {
      ScoreNotNegative(lists[..|lists| - 1], k, id);
      EarnedNotNegative(lists[|lists| - 1], |lists[|lists| - 1]|, k, id);
    }
  }

  lemma {:induction false} EarnedNotNegative(ranked: Ranking, n: nat, k: nat, id: string)
    requires n <= |ranked|
    ensures Earned(ranked, n, k, id) >= 0.0
  {
    if n > 0 {
      EarnedNotNegative(ranked, n - 1, k, id);
      WeightDecreases(k, n, n + 1);
    }
  }

  lemma WorseComesLater(lists: seq<Ranking>, k: nat, all: seq<string>, i: nat, j: nat)
    requires IsFusion(lists, k, all) && i < |all| && j < |all|
    requires Score(lists, k, all[j]) < Score(lists, k, all[i])
    ensures i < j
  {
    assert forall p, q :: 0 <= p < q < |all| ==> Ahead(lists, k, all[p], all[q]);
  }

  /** If `a` stands above `b` in every list that has `b`, it comes before `b`. */
  lemma Unanimity(lists: seq<Ranking>, k: nat, all: seq<string>, a: string, b: string)
    requires IsFusion(lists, k, all) && b in all
    requires forall i :: 0 <= i < |lists| ==> Distinct(lists[i]) && Above(lists[i], a, b)
    ensures exists i, j :: 0 <= i < j < |all| && all[i] == a && all[j] == b
  {
    AboveScoresMore(lists, k, a, b);
    ScoreNotNegative(lists, k, b);
    ScoredAppears(lists, k, a);
    assert a in all;
    var i :| 0 <= i < |all| && all[i] == a;
    var j :| 0 <= j < |all| && all[j] == b;
    WorseComesLater(lists, k, all, i, j);
  }
}
