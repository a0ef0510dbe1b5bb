/** The area under the ROC curve by rank sums, in exact arithmetic: it is the pairwise count. */
module RankSum {
  import opened Common

  // Twice the pairwise count, so that ties count whole numbers

  /** 2 for a win, 1 for a tie. */
  function Beats(x: real, y: real): nat { if y < x then 2 else if y == x then 1 else 0 }

  function Wins(x: real, ys: seq<real>): nat {
    if ys == [] then 0 else Wins(x, ys[..|ys| - 1]) + Beats(x, ys[|ys| - 1])
  }

  function Cross(xs: seq<real>, ys: seq<real>): nat {
    if xs == [] then 0 else Cross(xs[..|xs| - 1], ys) + Wins(xs[|xs| - 1], ys)
  }

  lemma WinsSnoc(x: real, ys: seq<real>, y: real)
    ensures Wins(x, ys + [y]) == Wins(x, ys) + Beats(x, y)
  {
    assert (ys + [y])[..|ys|] == ys;
  }

  lemma {:induction false} WinsConcat(x: real, ys: seq<real>, zs: seq<real>)
    ensures Wins(x, ys + zs) == Wins(x, ys) + Wins(x, zs)
  {
    if zs == [] {
      assert ys + zs == ys;
    } else {
      assert (ys + zs)[..|ys + zs| - 1] == ys + zs[..|zs| - 1];
      WinsConcat(x, ys, zs[..|zs| - 1]);
    }
  }

  lemma {:induction false} WinsPermuted(x: real, ys: seq<real>, zs: seq<real>)
    requires multiset(ys) == multiset(zs)
    ensures Wins(x, ys) == Wins(x, zs)
  {
    if ys == [] {
      assert multiset(zs) == multiset{};
      assert zs == [];
    } else {
      var y := ys[|ys| - 1];
      assert y in multiset(ys) && y in zs;
      var k :| 0 <= k < |zs| && zs[k] == y;
      var rest := zs[..k] + zs[k + 1..];
      assert ys == ys[..|ys| - 1] + [y];
      assert zs == zs[..k] + ([y] + zs[k + 1..]);
      assert multiset(rest) == multiset(zs) - multiset{y};
      WinsPermuted(x, ys[..|ys| - 1], rest);
      WinsConcat(x, zs[..k], zs[k + 1..]);
      WinsConcat(x, zs[..k], [y] + zs[k + 1..]);
      WinsConcat(x, [y], zs[k + 1..]);
    }
  }

  lemma {:induction false} CrossConcatLeft(ws: seq<real>, xs: seq<real>, ys: seq<real>)
    ensures Cross(ws + xs, ys) == Cross(ws, ys) + Cross(xs, ys)
  {
    if xs == [] {
      assert ws + xs == ws;
    } else {
      assert (ws + xs)[..|ws + xs| - 1] == ws + xs[..|xs| - 1];
      CrossConcatLeft(ws, xs[..|xs| - 1], ys);
    }
  }

  lemma {:induction false} CrossSnocRight(xs: seq<real>, ys: seq<real>, y: real)
    ensures Cross(xs, ys + [y]) == Cross(xs, ys) + Cross(xs, [y])
  {
    if xs != [] {
      CrossSnocRight(xs[..|xs| - 1], ys, y);
      WinsSnoc(xs[|xs| - 1], ys, y);
      WinsSnoc(xs[|xs| - 1], [], y);
      assert [] + [y] == [y];
    }
  }

  /** Each pair is decided once: what one side does not win the other does. */
  lemma {:induction false} EveryPairDecided(xs: seq<real>, ys: seq<real>)
    ensures Cross(xs, ys) + Cross(ys, xs) == 2 * |xs| * |ys|
    decreases |xs|
  {
    if xs == [] {
      NothingToWin(ys);
    } else {
      var front, x := xs[..|xs| - 1], xs[|xs| - 1];
      EveryPairDecided(front, ys);
      assert front + [x] == xs;
      CrossSnocRight(ys, front, x);
      AgainstOne(x, ys);
    }
  }

  lemma {:induction false} NothingToWin(ys: seq<real>)
    ensures Cross(ys, []) == 0
  {
    if ys != [] { NothingToWin(ys[..|ys| - 1]); }
  }

  lemma {:induction false} AgainstOne(x: real, ys: seq<real>)
    ensures Wins(x, ys) + Cross(ys, [x]) == 2 * |ys|
  {
    if ys != [] {
      AgainstOne(x, ys[..|ys| - 1]);
      WinsSnoc(ys[|ys| - 1], [], x);
      assert [] + [x] == [x];
    }
  }

  lemma AgainstThemselves(xs: seq<real>)
    ensures Cross(xs, xs) == |xs| * |xs|
  {
    EveryPairDecided(xs, xs);
  }

  // Scores by label

  function Select(scores: seq<real>, labels: seq<int>, wanted: int, n: nat): seq<real>
    requires n <= |scores| && n <= |labels|
  {
    if n == 0 then []
    else Select(scores, labels, wanted, n - 1) + if labels[n - 1] == wanted then [scores[n - 1]] else []
  }

  /** Twice the ranks of the positives, when a rank is one more than what the score beats. */
  function PositiveRanks(scores: seq<real>, labels: seq<int>, n: nat): nat
    requires n <= |scores| && n <= |labels|
  {
    if n == 0 then 0
    else PositiveRanks(scores, labels, n - 1) + if labels[n - 1] == 1 then Wins(scores[n - 1], scores) + 1 else 0
  }

  lemma {:induction false} RanksAreWins(scores: seq<real>, labels: seq<int>, n: nat)
    requires n <= |scores| && n <= |labels|
    ensures var pos := Select(scores, labels, 1, n); PositiveRanks(scores, labels, n) == Cross(pos, scores) + |pos|
  {
    if n > 0 {
      RanksAreWins(scores, labels, n - 1);
      var front := Select(scores, labels, 1, n - 1);
      assert front + [] == front;
      CrossConcatLeft(front, [scores[n - 1]], scores);
      assert [scores[n - 1]][..0] == [];
    }
  }

  /** The first `n` labels are 0 or 1. */
  predicate Binary(labels: seq<int>, n: nat)
    requires n <= |labels|
  {
    forall i :: 0 <= i < n ==> labels[i] == 0 || labels[i] == 1
  }

  lemma SelectStep(scores: seq<real>, labels: seq<int>, wanted: int, n: nat, xs: seq<real>)
    requires 0 < n <= |scores| && n <= |labels|
    ensures Cross(xs, Select(scores, labels, wanted, n)) ==
      Cross(xs, Select(scores, labels, wanted, n - 1)) + if labels[n - 1] == wanted then Cross(xs, [scores[n - 1]]) else 0
  {
    var front := Select(scores, labels, wanted, n - 1);
    CrossSnocRight(xs, front, scores[n - 1]);
    assert front + [] == front;
  }

  lemma {:induction false} SplitByLabel(scores: seq<real>, labels: seq<int>, n: nat, xs: seq<real>)
    requires n <= |scores| && n <= |labels| && Binary(labels, n)
    ensures Cross(xs, scores[..n]) == Cross(xs, Select(scores, labels, 1, n)) + Cross(xs, Select(scores, labels, 0, n))
  {
    if n == 0 {
      NothingToWin(xs);
    } else {
      SplitByLabel(scores, labels, n - 1, xs);
      SelectStep(scores, labels, 1, n, xs);
      SelectStep(scores, labels, 0, n, xs);
      assert scores[..n] == scores[..n - 1] + [scores[n - 1]];
      CrossSnocRight(xs, scores[..n - 1], scores[n - 1]);
    }
  }

  /** The rank-sum identity, doubled: the positives' ranks, less what they would be against each other
      alone, are their wins over the negatives. */
  lemma RankSumIdentity(scores: seq<real>, labels: seq<int>)
    requires |scores| <= |labels| && Binary(labels, |scores|)
    ensures var n := |scores|; var pos, neg := Select(scores, labels, 1, n), Select(scores, labels, 0, n);
      PositiveRanks(scores, labels, n) == Cross(pos, neg) + |pos| * (|pos| + 1)
  {
    var n := |scores|;
    var pos := Select(scores, labels, 1, n);
    RanksAreWins(scores, labels, n);
    SplitByLabel(scores, labels, n, pos);
    assert scores[..n] == scores;
    AgainstThemselves(pos);
  }

  // Averaged ranks of the sorted scores

  predicate Indices(s: seq<nat>, n: nat) { forall t :: 0 <= t < |s| ==> s[t] < n }

  /** Indices in stable order of score. */
  function Insert(scores: seq<real>, s: seq<nat>, v: nat): (r: seq<nat>)
    requires v < |scores| && Indices(s, |scores|)
    ensures Indices(r, |scores|)
  {
    if s == [] || scores[s[|s| - 1]] <= scores[v] then s + [v]
    else Insert(scores, s[..|s| - 1], v) + [s[|s| - 1]]
  }

  function Order(scores: seq<real>, n: nat): (r: seq<nat>)
    requires n <= |scores|
    ensures Indices(r, |scores|)
  {
    if n == 0 then [] else Insert(scores, Order(scores, n - 1), n - 1)
  }

  function Pick(scores: seq<real>, s: seq<nat>): seq<real>
    requires Indices(s, |scores|)
  {
    seq(|s|, t requires 0 <= t < |s| => scores[s[t]])
  }

  predicate Ascending(ys: seq<real>) { forall i, j :: 0 <= i < j < |ys| ==> ys[i] <= ys[j] }

  /** Everything in `ys` is at most `x`. */
  predicate Below(ys: seq<real>, x: real) { forall i :: 0 <= i < |ys| ==> ys[i] <= x }

  lemma AscendingSnoc(ys: seq<real>, x: real)
    ensures Ascending(ys + [x]) <==> Ascending(ys) && Below(ys, x)
  {
    var zs := ys + [x];
    if Ascending(zs) {
      forall i, j | 0 <= i < j < |ys| ensures ys[i] <= ys[j] { assert zs[i] <= zs[j]; }
      forall i | 0 <= i < |ys| ensures ys[i] <= x { assert zs[i] <= zs[|ys|]; }
    }
  }

  lemma {:induction false} InsertSorts(scores: seq<real>, s: seq<nat>, v: nat)
    requires v < |scores| && Indices(s, |scores|) && Ascending(Pick(scores, s))
    ensures Ascending(Pick(scores, Insert(scores, s, v)))
    ensures forall x :: Below(Pick(scores, s), x) && scores[v] <= x ==> Below(Pick(scores, Insert(scores, s, v)), x)
  {
    if s == [] || scores[s[|s| - 1]] <= scores[v] {
      assert Pick(scores, s + [v]) == Pick(scores, s) + [scores[v]];
      assert s != [] ==> forall i :: 0 <= i < |s| ==> Pick(scores, s)[i] <= Pick(scores, s)[|s| - 1];
      AscendingSnoc(Pick(scores, s), scores[v]);
    } else {
      var front, last := s[..|s| - 1], s[|s| - 1];
      assert Pick(scores, s) == Pick(scores, front) + [scores[last]];
      AscendingSnoc(Pick(scores, front), scores[last]);
      InsertSorts(scores, front, v);
      var r := Insert(scores, front, v);
      assert Pick(scores, r + [last]) == Pick(scores, r) + [scores[last]];
      AscendingSnoc(Pick(scores, r), scores[last]);
      forall x | Below(Pick(scores, s), x) && scores[v] <= x ensures Below(Pick(scores, r + [last]), x) {
        assert Pick(scores, s)[|s| - 1] <= x;
        assert forall i :: 0 <= i < |front| ==> Pick(scores, front)[i] == Pick(scores, s)[i];
        assert Below(Pick(scores, front), x);
      }
    }
  }

  lemma {:induction false} InsertIndices(scores: seq<real>, s: seq<nat>, v: nat)
    requires v < |scores| && Indices(s, |scores|)
    ensures multiset(Insert(scores, s, v)) == multiset(s) + multiset{v}
  {
    if s != [] && scores[s[|s| - 1]] > scores[v] {
      InsertIndices(scores, s[..|s| - 1], v);
      assert s == s[..|s| - 1] + [s[|s| - 1]];
    }
  }

  lemma PickSnoc(scores: seq<real>, s: seq<nat>, v: nat)
    requires v < |scores| && Indices(s, |scores|)
    ensures Pick(scores, s + [v]) == Pick(scores, s) + [scores[v]]
    ensures multiset(Pick(scores, s + [v])) == multiset(Pick(scores, s)) + multiset{scores[v]}
  {
    assert Pick(scores, s + [v]) == Pick(scores, s) + [scores[v]];
  }

  lemma {:induction false} InsertPicks(scores: seq<real>, s: seq<nat>, v: nat)
    requires v < |scores| && Indices(s, |scores|)
    ensures multiset(Pick(scores, Insert(scores, s, v))) == multiset(Pick(scores, s)) + multiset{scores[v]}
  {
    if s == [] || scores[s[|s| - 1]] <= scores[v] {
      PickSnoc(scores, s, v);
    } else {
      var front, last := s[..|s| - 1], s[|s| - 1];
      InsertPicks(scores, front, v);
      PickSnoc(scores, Insert(scores, front, v), last);
      PickSnoc(scores, front, last);
      assert s == front + [last];
    }
  }

  lemma {:induction false} OrderAscends(scores: seq<real>, n: nat)
    requires n <= |scores|
    ensures Ascending(Pick(scores, Order(scores, n)))
  {
    if n > 0 {
      OrderAscends(scores, n - 1);
      InsertSorts(scores, Order(scores, n - 1), n - 1);
    }
  }

  lemma {:induction false} OrderContents(scores: seq<real>, n: nat)
    requires n <= |scores|
    ensures multiset(Pick(scores, Order(scores, n))) == multiset(scores[..n])
  {
    if n > 0 {
      OrderContents(scores, n - 1);
      InsertPicks(scores, Order(scores, n - 1), n - 1);
      assert scores[..n] == scores[..n - 1] + [scores[n - 1]];
    }
  }

  lemma OrderSorts(scores: seq<real>)
    ensures var ys := Pick(scores, Order(scores, |scores|));
      Ascending(ys) && multiset(ys) == multiset(scores) && |Order(scores, |scores|)| == |scores|
  {
    OrderAscends(scores, |scores|);
    OrderContents(scores, |scores|);
    assert scores[..|scores|] == scores;
    SameSize(Pick(scores, Order(scores, |scores|)), scores);
  }

  lemma OrderUnfolds(scores: seq<real>, n: nat)
    requires n <= |scores|
    ensures Order(scores, n) == if n == 0 then [] else Insert(scores, Order(scores, n - 1), n - 1)
  {
  }

  /** Each index below `n` once. */
  lemma {:induction false} OrderCovers(scores: seq<real>, n: nat, v: nat)
    requires n <= |scores|
    ensures multiset(Order(scores, n))[v] == if v < n then 1 else 0
  {
    hide Order, Insert;
    OrderUnfolds(scores, n);
    if n > 0 {
      OrderCovers(scores, n - 1, v);
      InsertCount(scores, Order(scores, n - 1), n - 1, v);
    }
  }

  lemma InsertCount(scores: seq<real>, s: seq<nat>, v: nat, w: nat)
    requires v < |scores| && Indices(s, |scores|)
    ensures multiset(Insert(scores, s, v))[w] == multiset(s)[w] + if w == v then 1 else 0
  {
    InsertIndices(scores, s, v);
  }

  lemma OrderIsPermutation(scores: seq<real>, n: nat)
    requires n <= |scores|
    ensures Distinct(Order(scores, n)) && forall v: nat :: v < n ==> v in Order(scores, n)
  {
    var o := Order(scores, n);
    forall v: nat | v < n ensures v in o {
      OrderCovers(scores, n, v);
      assert multiset(o)[v] == 1;
    }
    forall i, j | 0 <= i < j < |o| ensures o[i] != o[j] {
      OrderCovers(scores, n, o[j]);
      OnceMeansNotEarlier(o, i, j);
    }
  }

  lemma OnceMeansNotEarlier(o: seq<nat>, i: nat, j: nat)
    requires i < j < |o| && multiset(o)[o[j]] <= 1
    ensures o[i] != o[j]
  {
    assert o == o[..j] + [o[j]] + o[j + 1..];
    assert o[i] in o[..j];
    assert multiset(o)[o[j]] == multiset(o[..j])[o[j]] + 1 + multiset(o[j + 1..])[o[j]];
  }

  lemma SameSize(xs: seq<real>, ys: seq<real>)
    requires multiset(xs) == multiset(ys)
    ensures |xs| == |ys|
  {
    assert |multiset(xs)| == |multiset(ys)|;
  }

  /** In ascending order a score beats all before its group of equals and ties with the group. */
  lemma {:induction false} WinsInOrder(ys: seq<real>, i: nat, j: nat, n: nat)
    requires i <= j < |ys| && Ascending(ys) && n <= |ys|
    requires forall t :: i <= t <= j ==> ys[t] == ys[i]
    requires i > 0 ==> ys[i - 1] < ys[i]
    requires j + 1 < |ys| ==> ys[i] < ys[j + 1]
    ensures Wins(ys[i], ys[..n]) == if n <= i then 2 * n else if n <= j + 1 then i + n else i + j + 1
  {
    if n > 0 {
      WinsInOrder(ys, i, j, n - 1);
      BeatsInOrder(ys, i, j, n - 1);
      WinsNext(ys, ys[i], n);
    }
  }

  lemma WinsNext(ys: seq<real>, x: real, n: nat)
    requires 0 < n <= |ys|
    ensures Wins(x, ys[..n]) == Wins(x, ys[..n - 1]) + Beats(x, ys[n - 1])
  {
    assert ys[..n] == ys[..n - 1] + [ys[n - 1]];
    WinsSnoc(x, ys[..n - 1], ys[n - 1]);
  }

  lemma BeatsInOrder(ys: seq<real>, i: nat, j: nat, t: nat)
    requires i <= j < |ys| && Ascending(ys) && t < |ys|
    requires forall t :: i <= t <= j ==> ys[t] == ys[i]
    requires i > 0 ==> ys[i - 1] < ys[i]
    requires j + 1 < |ys| ==> ys[i] < ys[j + 1]
    ensures Beats(ys[i], ys[t]) == if t < i then 2 else if t <= j then 1 else 0
  {
    assert t < i ==> ys[t] <= ys[i - 1];
    assert t > j ==> ys[j + 1] <= ys[t];
  }

  lemma WinsOfGroup(ys: seq<real>, scores: seq<real>, i: nat, j: nat)
    requires i <= j < |ys| && Ascending(ys) && multiset(ys) == multiset(scores)
    requires forall t :: i <= t <= j ==> ys[t] == ys[i]
    requires i > 0 ==> ys[i - 1] != ys[i]
    requires j + 1 < |ys| ==> ys[j + 1] != ys[i]
    ensures Wins(ys[i], scores) == i + j + 1
  {
    WinsInOrder(ys, i, j, |ys|);
    assert ys[..|ys|] == ys;
    WinsPermuted(ys[i], ys, scores);
  }

  /** So the averaged rank of a group of ties, doubled, is one more than what its score beats. */
  lemma AveragedRank(scores: seq<real>, o: seq<nat>, i: nat, j: nat)
    requires Indices(o, |scores|) && Ascending(Pick(scores, o)) && multiset(Pick(scores, o)) == multiset(scores)
    requires i <= j < |o| && forall t :: i <= t <= j ==> scores[o[t]] == scores[o[i]]
    requires i > 0 ==> scores[o[i - 1]] != scores[o[i]]
    requires j + 1 < |o| ==> scores[o[j + 1]] != scores[o[i]]
    ensures forall t :: i <= t <= j ==> Wins(scores[o[t]], scores) + 1 == i + j + 2
  {
    var ys := Pick(scores, o);
    assert forall t :: 0 <= t < |o| ==> ys[t] == scores[o[t]];
    WinsOfGroup(ys, scores, i, j);
  }

  // The loops

  datatype Area = NeedsBothLabels | Misaligned | Area(value: real)

  /** Doubled averaged ranks of all scores. */
  method Ranks(scores: seq<real>) returns (ranks: array<nat>)
    ensures fresh(ranks) && ranks.Length == |scores|
    ensures forall i :: 0 <= i < |scores| ==> ranks[i] == Wins(scores[i], scores) + 1
  {
    var order := Order(scores, |scores|);
    OrderSorts(scores);
    OrderIsPermutation(scores, |scores|);
    ranks := new nat[|scores|](_ => 0);
    var i := 0;
    while i < |order|
      invariant 0 <= i <= |order|
      invariant 0 < i < |order| ==> scores[order[i - 1]] != scores[order[i]]
      invariant forall t :: 0 <= t < i ==> ranks[order[t]] == Wins(scores[order[t]], scores) + 1
    {
      var j := i;
      while j + 1 < |order| && scores[order[j + 1]] == scores[order[i]]
        invariant i <= j < |order| && forall t :: i <= t <= j ==> scores[order[t]] == scores[order[i]]
      {
        j := j + 1;
      }
      AveragedRank(scores, order, i, j);
      Assign(ranks, order, i, j, i + j + 2);
      i := j + 1;
    }
    forall v | 0 <= v < |scores| ensures ranks[v] == Wins(scores[v], scores) + 1 {
      assert order[IndexOf(order, v)] == v;
    }
  }

  method Assign(ranks: array<nat>, order: seq<nat>, i: nat, j: nat, rank: nat)
    requires i <= j < |order| && Distinct(order) && forall t :: 0 <= t < |order| ==> order[t] < ranks.Length
    modifies ranks
    ensures forall t :: i <= t <= j ==> ranks[order[t]] == rank
    ensures forall t :: 0 <= t < |order| && (t < i || t > j) ==> ranks[order[t]] == old(ranks[order[t]])
  {
    for t := i to j + 1
      invariant forall u :: i <= u < t ==> ranks[order[u]] == rank
      invariant forall u :: 0 <= u < |order| && (u < i || u >= t) ==> ranks[order[u]] == old(ranks[order[u]])
    {
      ranks[order[t]] := rank;
    }
  }

  method SelectLabel(scores: seq<real>, labels: seq<int>, wanted: int) returns (chosen: seq<real>)
    ensures var n := if |scores| <= |labels| then |scores| else |labels|; chosen == Select(scores, labels, wanted, n)
  {
    chosen := [];
    var n := if |scores| <= |labels| then |scores| else |labels|;
    for i := 0 to n
      invariant chosen == Select(scores, labels, wanted, i)
    {
      if labels[i] == wanted { chosen := chosen + [scores[i]]; }
    }
  }

  /** For 0/1 labels the result is exactly the share of positive-negative pairs the positive wins, a tie
      counting one half. Fewer labels than scores is an indexing error, met only when both labels occur. */
  method Auc(scores: seq<real>, labels: seq<int>) returns (r: Area)
    ensures var n := if |scores| <= |labels| then |scores| else |labels|;
      var pos, neg := Select(scores, labels, 1, n), Select(scores, labels, 0, n);
      && (r.NeedsBothLabels? <==> pos == [] || neg == [])
      && (r.Misaligned? <==> pos != [] && neg != [] && |labels| < |scores|)
      && (r.Area? && Binary(labels, |scores|) ==>
            r.value == Cross(pos, neg) as real / (2 * |pos| * |neg|) as real)
  {
    var pos := SelectLabel(scores, labels, 1);
    var neg := SelectLabel(scores, labels, 0);
    if pos == [] || neg == [] { return NeedsBothLabels; }
    var ranks := Ranks(scores);
    var rankPos := 0;
    for i := 0 to |scores|
      invariant i <= |labels|
      invariant rankPos == PositiveRanks(scores, labels, i)
    {
      if i >= |labels| { return Misaligned; }
      if labels[i] == 1 { rankPos := rankPos + ranks[i]; }
    }
    if Binary(labels, |scores|) { RankSumIdentity(scores, labels); }
    assert |pos| > 0 && |neg| > 0;
    Positive(|pos|, |neg|);
    var numerator: int := rankPos - |pos| * (|pos| + 1);
    r := Area(numerator as real / (2 * |pos| * |neg|) as real);
  }

  lemma Positive(m: nat, n: nat)
    requires m > 0 && n > 0
    ensures 2 * m * n > 0
  {
  }

  /** The area lies between 0 and 1, and exchanging the classes mirrors it. */
  lemma AreaMirrors(pos: seq<real>, neg: seq<real>)
    requires pos != [] && neg != []
    ensures 2 * |pos| * |neg| > 0 && 2 * |neg| * |pos| > 0
    ensures 0.0 <= Cross(pos, neg) as real / (2 * |pos| * |neg|) as real <= 1.0
    ensures Cross(pos, neg) as real / (2 * |pos| * |neg|) as real + Cross(neg, pos) as real / (2 * |neg| * |pos|) as real == 1.0
  {
    EveryPairDecided(pos, neg);
    Mirrors(Cross(pos, neg), Cross(neg, pos), |pos|, |neg|);
  }

  lemma Mirrors(won: nat, lost: nat, m: nat, n: nat)
    requires m > 0 && n > 0 && won + lost == 2 * m * n
    ensures 2 * m * n > 0 && 2 * n * m > 0
    ensures 0.0 <= won as real / (2 * m * n) as real <= 1.0
    ensures won as real / (2 * m * n) as real + lost as real / (2 * n * m) as real == 1.0
  {
    Positive(m, n);
    assert 2 * n * m == 2 * m * n;
    Shares(won, lost, 2 * m * n);
  }

  lemma Shares(won: nat, lost: nat, pairs: nat)
    requires pairs > 0 && won + lost == pairs
    ensures won as real / pairs as real + lost as real / pairs as real == 1.0
    ensures 0.0 <= won as real / pairs as real <= 1.0
  {
    ShareOf(won as real, lost as real, pairs as real);
  }

  lemma ShareOf(x: real, y: real, p: real)
    requires p > 0.0 && x >= 0.0 && y >= 0.0 && x + y == p
    ensures x / p + y / p == 1.0 && 0.0 <= x / p <= 1.0
  {
    var q, r := x / p, y / p;
    Quotient(x, p);
    Quotient(y, p);
    assert q * p == x && r * p == y;
    SumToOne(q, r, x, y, p);
    AtMostOne(q, r);
  }

  lemma AtMostOne(x: real, y: real)
    requires x + y == 1.0 && y >= 0.0
    ensures x <= 1.0
  {
  }

  lemma SumToOne(q: real, r: real, x: real, y: real, p: real)
    requires p > 0.0 && q * p == x && r * p == y && x + y == p
    ensures q + r == 1.0
  {
    Distributes(q, r, p);
    SameFactor(q + r, 1.0, p);
  }

  lemma Distributes(x: real, y: real, p: real)
    ensures (x + y) * p == x * p + y * p
  {
  }

  lemma Quotient(x: real, p: real)
    requires p > 0.0 && x >= 0.0
    ensures x / p * p == x && x / p >= 0.0
  {
  }

  lemma SameFactor(x: real, y: real, p: real)
    requires p > 0.0 && x * p == y * p
    ensures x == y
  {
    assert (x - y) * p == 0.0;
  }
}
