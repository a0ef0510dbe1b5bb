/** The two-row edit distance computes the cheapest edit script, and is a metric. */
module EditDistance {
  import opened Common

  datatype Edit<T> = Keep(t: T) | Insert(t: T) | Delete(t: T) | Replace(from: T, to: T)

  type Script<T> = seq<Edit<T>>

  function Source<T>(s: Script<T>): seq<T> {
    if s == [] then []
    else
      var e := s[|s| - 1];
      Source(s[..|s| - 1]) + match e { case Keep(t) => [t] case Insert(_) => [] case Delete(t) => [t] case Replace(from, _) => [from] }
  }

  function Result<T>(s: Script<T>): seq<T> {
    if s == [] then []
    else
      var e := s[|s| - 1];
      Result(s[..|s| - 1]) + match e { case Keep(t) => [t] case Insert(t) => [t] case Delete(_) => [] case Replace(_, to) => [to] }
  }

  function Cost<T>(s: Script<T>): nat {
    if s == [] then 0 else Cost(s[..|s| - 1]) + if s[|s| - 1].Keep? then 0 else 1
  }

  ghost predicate Turns<T(!new)>(s: Script<T>, a: seq<T>, b: seq<T>) { Source(s) == a && Result(s) == b }

  lemma Snoc<T>(s: Script<T>, e: Edit<T>)
    ensures Source(s + [e]) == Source(s) + match e { case Keep(t) => [t] case Insert(_) => [] case Delete(t) => [t] case Replace(from, _) => [from] }
    ensures Result(s + [e]) == Result(s) + match e { case Keep(t) => [t] case Insert(t) => [t] case Delete(_) => [] case Replace(_, to) => [to] }
    ensures Cost(s + [e]) == Cost(s) + if e.Keep? then 0 else 1
  {
    assert (s + [e])[..|s|] == s;
  }

  function Min(x: nat, y: nat): nat { if x <= y then x else y }

  /** The recurrence the table follows. */
  function Distance<T(==)>(a: seq<T>, b: seq<T>): (d: nat)
    decreases |a| + |b|
  {
    if a == [] then |b|
    else if b == [] then |a|
    else
      var c, e := a[..|a| - 1], b[..|b| - 1];
      Min(Min(Distance(c, b) + 1, Distance(a, e) + 1), Distance(c, e) + if a[|a| - 1] != b[|b| - 1] then 1 else 0)
  }

  // It is reached

  /** One more edit at the end of a script. */
  lemma Extended<T(!new)>(s: Script<T>, c: seq<T>, e: seq<T>, last: Edit<T>, a: seq<T>, b: seq<T>)
    requires Turns(s, c, e)
    requires a == c + match last { case Keep(t) => [t] case Insert(_) => [] case Delete(t) => [t] case Replace(from, _) => [from] }
    requires b == e + match last { case Keep(t) => [t] case Insert(t) => [t] case Delete(_) => [] case Replace(_, to) => [to] }
    ensures Turns(s + [last], a, b) && Cost(s + [last]) == Cost(s) + if last.Keep? then 0 else 1
  {
    Snoc(s, last);
  }

  /** The last edit of a cheapest script, and the prefixes it leaves. */
  lemma LastEdit<T>(a: seq<T>, b: seq<T>) returns (c: seq<T>, e: seq<T>, last: Edit<T>)
    requires a != [] || b != []
    ensures |c| + |e| < |a| + |b|
    ensures a == c + match last { case Keep(t) => [t] case Insert(_) => [] case Delete(t) => [t] case Replace(from, _) => [from] }
    ensures b == e + match last { case Keep(t) => [t] case Insert(t) => [t] case Delete(_) => [] case Replace(_, to) => [to] }
    ensures Distance(a, b) == Distance(c, e) + if last.Keep? then 0 else 1
  {
    c, e := a, b;
    if a == [] || (b != [] && Distance(a, b) == Distance(a, b[..|b| - 1]) + 1) {
      e, last := b[..|b| - 1], Insert(b[|b| - 1]);
    } else if b == [] || Distance(a, b) == Distance(a[..|a| - 1], b) + 1 {
      c, last := a[..|a| - 1], Delete(a[|a| - 1]);
    } else {
      c, e := a[..|a| - 1], b[..|b| - 1];
      last := if a[|a| - 1] == b[|b| - 1] then Edit.Keep(a[|a| - 1]) else Replace(a[|a| - 1], b[|b| - 1]);
    }
  }

  lemma {:induction false} CheapestScript<T(!new)>(a: seq<T>, b: seq<T>) returns (s: Script<T>)
    ensures Turns(s, a, b) && Cost(s) == Distance(a, b)
    decreases |a| + |b|
  {
    if a == [] && b == [] {
      s := [];
    } else {
      var c, e, last := LastEdit(a, b);
      s := CheapestScript(c, e);
      Extended(s, c, e, last, a, b);
      s := s + [last];
    }
  }

  // It is a lower bound

  lemma OneMore<T>(a: seq<T>, b: seq<T>, x: T)
    ensures Distance(a + [x], b) <= Distance(a, b) + 1
    ensures Distance(a, b + [x]) <= Distance(a, b) + 1
    ensures Distance(a + [x], b + [x]) <= Distance(a, b)
  {
    assert (a + [x])[..|a|] == a && (b + [x])[..|b|] == b;
  }

  lemma OneEach<T>(a: seq<T>, b: seq<T>, x: T, y: T)
    ensures Distance(a + [x], b + [y]) <= Distance(a, b) + 1
  {
    assert (a + [x])[..|a|] == a && (b + [y])[..|b|] == b;
  }

  lemma {:induction false} NoScriptCheaper<T>(s: Script<T>)
    ensures Distance(Source(s), Result(s)) <= Cost(s)
  {
    if s != [] {
      var front, e := s[..|s| - 1], s[|s| - 1];
      NoScriptCheaper(front);
      match e
      case Keep(t) => OneMore(Source(front), Result(front), t);
      case Insert(t) => assert Source(front) + [] == Source(front); OneMore(Source(front), Result(front), t);
      case Delete(t) => assert Result(front) + [] == Result(front); OneMore(Source(front), Result(front), t);
      case Replace(x, y) => OneEach(Source(front), Result(front), x, y);
    }
  }

  /** The distance is the least cost over all edit scripts between the two lists. */
  lemma DistanceIsLeast<T(!new)>(a: seq<T>, b: seq<T>)
    ensures exists s: Script<T> :: Turns(s, a, b) && Cost(s) == Distance(a, b)
    ensures forall s: Script<T> :: Turns(s, a, b) ==> Distance(a, b) <= Cost(s)
  {
    var s := CheapestScript(a, b);
    forall t: Script<T> | Turns(t, a, b) ensures Distance(a, b) <= Cost(t) { NoScriptCheaper(t); }
  }

  // Symmetry

  function Undo<T>(e: Edit<T>): Edit<T> {
    match e
    case Keep(t) => Keep(t)
    case Insert(t) => Delete(t)
    case Delete(t) => Insert(t)
    case Replace(x, y) => Replace(y, x)
  }

  function Undone<T>(s: Script<T>): Script<T> {
    if s == [] then [] else Undone(s[..|s| - 1]) + [Undo(s[|s| - 1])]
  }

  lemma {:induction false} UndoneTurnsBack<T>(s: Script<T>)
    ensures Source(Undone(s)) == Result(s) && Result(Undone(s)) == Source(s) && Cost(Undone(s)) == Cost(s)
  {
    if s != [] {
      UndoneTurnsBack(s[..|s| - 1]);
      Snoc(Undone(s[..|s| - 1]), Undo(s[|s| - 1]));
    }
  }

  lemma NotFarther<T(!new)>(a: seq<T>, b: seq<T>)
    ensures Distance(b, a) <= Distance(a, b)
  {
    var s := CheapestScript(a, b);
    UndoneTurnsBack(s);
    NoScriptCheaper(Undone(s));
  }

  lemma Symmetric<T(!new)>(a: seq<T>, b: seq<T>)
    ensures Distance(a, b) == Distance(b, a)
  {
    NotFarther(a, b);
    NotFarther(b, a);
  }

  // Identity

  lemma {:induction false} OnlyKeeps<T>(s: Script<T>)
    requires Cost(s) == 0
    ensures Source(s) == Result(s)
  {
    if s != [] { OnlyKeeps(s[..|s| - 1]); }
  }

  lemma {:induction false} SelfDistance<T>(a: seq<T>)
    ensures Distance(a, a) == 0
  {
    if a != [] {
      SelfDistance(a[..|a| - 1]);
      OneMore(a[..|a| - 1], a[..|a| - 1], a[|a| - 1]);
      assert a[..|a| - 1] + [a[|a| - 1]] == a;
    }
  }

  lemma ZeroExactlyWhenEqual<T(!new)>(a: seq<T>, b: seq<T>)
    ensures Distance(a, b) == 0 <==> a == b
  {
    SelfDistance(a);
    var s := CheapestScript(a, b);
    if Distance(a, b) == 0 { OnlyKeeps(s); }
  }

  // The triangle inequality: scripts compose

  /** What two edits of the same middle token amount to. */
  function Join<T>(first: Edit<T>, second: Edit<T>): Script<T> {
    match (first, second)
    case (Keep(t), _) => [second]
    case (Insert(_), Keep(t)) => [Insert(t)]
    case (Insert(_), Delete(_)) => []
    case (Insert(_), Replace(_, to)) => [Insert(to)]
    case (Replace(from, _), Keep(t)) => [first]
    case (Replace(from, _), Delete(_)) => [Delete(from)]
    case (Replace(from, _), Replace(_, to)) => [Replace(from, to)]
    case (_, _) => [first]
  }

  function Composed<T>(s: Script<T>, t: Script<T>): Script<T>
    decreases |s| + |t|
  {
    if s != [] && s[|s| - 1].Delete? then Composed(s[..|s| - 1], t) + [s[|s| - 1]]
    else if t != [] && t[|t| - 1].Insert? then Composed(s, t[..|t| - 1]) + [t[|t| - 1]]
    else if s == [] || t == [] then []
    else Composed(s[..|s| - 1], t[..|t| - 1]) + Join(s[|s| - 1], t[|t| - 1])
  }

  lemma {:induction false} ComposedTurns<T>(s: Script<T>, t: Script<T>)
    requires Result(s) == Source(t)
    ensures var u := Composed(s, t);
      Source(u) == Source(s) && Result(u) == Result(t) && Cost(u) <= Cost(s) + Cost(t)
    decreases |s| + |t|
  {
    if s != [] && s[|s| - 1].Delete? {
      ComposedTurns(s[..|s| - 1], t);
      Snoc(Composed(s[..|s| - 1], t), s[|s| - 1]);
    } else if t != [] && t[|t| - 1].Insert? {
      ComposedTurns(s, t[..|t| - 1]);
      Snoc(Composed(s, t[..|t| - 1]), t[|t| - 1]);
    } else if s != [] && t != [] {
      var p, q, e, f := s[..|s| - 1], t[..|t| - 1], s[|s| - 1], t[|t| - 1];
      assert Result(s)[..|Result(s)| - 1] == Result(p) && Source(t)[..|Source(t)| - 1] == Source(q);
      ComposedTurns(p, q);
      JoinTurns(Composed(p, q), e, f);
    }
  }

  lemma JoinTurns<T>(u: Script<T>, e: Edit<T>, f: Edit<T>)
    requires !e.Delete? && !f.Insert?
    requires (match e { case Keep(x) => x case Insert(x) => x case Replace(_, x) => x case Delete(x) => x })
          == (match f { case Keep(x) => x case Delete(x) => x case Replace(x, _) => x case Insert(x) => x })
    ensures Source(u + Join(e, f)) == Source(u) + match e { case Keep(t) => [t] case Insert(_) => [] case Delete(t) => [t] case Replace(from, _) => [from] }
    ensures Result(u + Join(e, f)) == Result(u) + match f { case Keep(t) => [t] case Insert(t) => [t] case Delete(_) => [] case Replace(_, to) => [to] }
    ensures Cost(u + Join(e, f)) <= Cost(u) + (if e.Keep? then 0 else 1) + if f.Keep? then 0 else 1
  {
    var j := Join(e, f);
    if j == [] {
      assert u + j == u;
    } else {
      assert j == [j[0]];
      Snoc(u, j[0]);
    }
  }

  lemma Triangle<T(!new)>(a: seq<T>, b: seq<T>, c: seq<T>)
    ensures Distance(a, c) <= Distance(a, b) + Distance(b, c)
  {
    var s := CheapestScript(a, b);
    var t := CheapestScript(b, c);
    ComposedTurns(s, t);
    NoScriptCheaper(Composed(s, t));
  }

  // The two-row loop

  /** Row `i` of the table, up to column `n`. */
  ghost predicate IsRow<T(!new)>(row: seq<nat>, a: seq<T>, b: seq<T>, i: nat, n: nat)
    requires i <= |a| && n <= |b|
  {
    |row| == n + 1 && forall j :: 0 <= j <= n ==> row[j] == Distance(a[..i], b[..j])
  }

  method TokenDistance<T(==, !new)>(a: seq<T>, b: seq<T>) returns (d: nat)
    ensures d == Distance(a, b)
  {
    var prev: seq<nat> := seq(|b| + 1, j requires 0 <= j <= |b| => j);
    for i := 1 to |a| + 1
      invariant IsRow(prev, a, b, i - 1, |b|)
    {
      prev := NextRow(prev, a, b, i);
    }
    assert a[..|a|] == a && b[..|b|] == b;
    d := prev[|prev| - 1];
  }

  method NextRow<T(==, !new)>(prev: seq<nat>, a: seq<T>, b: seq<T>, i: nat) returns (cur: seq<nat>)
    requires 0 < i <= |a| && IsRow(prev, a, b, i - 1, |b|)
    ensures IsRow(cur, a, b, i, |b|)
  {
    cur := [i];
    for j := 1 to |b| + 1
      invariant IsRow(cur, a, b, i, j - 1)
    {
      Cell(a, b, i, j);
      var change := if a[i - 1] != b[j - 1] then 1 else 0;
      var next := Min(Min(prev[j] + 1, cur[j - 1] + 1), prev[j - 1] + change);
      assert next == Distance(a[..i], b[..j]);
      cur := cur + [next];
    }
  }

  lemma Cell<T>(a: seq<T>, b: seq<T>, i: nat, j: nat)
    requires 0 < i <= |a| && 0 < j <= |b|
    ensures Distance(a[..i], b[..j]) ==
      Min(Min(Distance(a[..i - 1], b[..j]) + 1, Distance(a[..i], b[..j - 1]) + 1),
          Distance(a[..i - 1], b[..j - 1]) + if a[i - 1] != b[j - 1] then 1 else 0)
  {
    assert a[..i][..i - 1] == a[..i - 1] && b[..j][..j - 1] == b[..j - 1];
  }

  // Word error rate

  function EditsUpTo<T(==)>(hyps: seq<seq<T>>, refs: seq<seq<T>>, n: nat): nat
    requires n <= |hyps| && n <= |refs|
  {
    if n == 0 then 0 else EditsUpTo(hyps, refs, n - 1) + Distance(hyps[n - 1], refs[n - 1])
  }

  function WordsUpTo<T>(refs: seq<seq<T>>, n: nat): nat
    requires n <= |refs|
  {
    if n == 0 then 0 else WordsUpTo(refs, n - 1) + |refs[n - 1]|
  }

  datatype Rate = Undefined | Rate(edits: nat, words: nat)

  /** Total edits over total reference words, over the pairs that both lists have. */
  method WordErrorRate<T(==, !new)>(hyps: seq<seq<T>>, refs: seq<seq<T>>) returns (rate: Rate)
    ensures var n := if |hyps| <= |refs| then |hyps| else |refs|;
      rate == if WordsUpTo(refs, n) == 0 then Undefined else Rate(EditsUpTo(hyps, refs, n), WordsUpTo(refs, n))
  {
    var edits, words := 0, 0;
    var n := if |hyps| <= |refs| then |hyps| else |refs|;
    for i := 0 to n
      invariant edits == EditsUpTo(hyps, refs, i) && words == WordsUpTo(refs, i)
    {
      var d := TokenDistance(hyps[i], refs[i]);
      edits := edits + d;
      words := words + |refs[i]|;
    }
    return if words == 0 then Undefined else Rate(edits, words);
  }

  /** A transcript is free of errors exactly when every pair agrees word for word. */
  lemma {:induction false} NoEditsExactly<T(!new)>(hyps: seq<seq<T>>, refs: seq<seq<T>>, n: nat)
    requires n <= |hyps| && n <= |refs|
    ensures EditsUpTo(hyps, refs, n) == 0 <==> hyps[..n] == refs[..n]
  {
    if n > 0 {
      NoEditsExactly(hyps, refs, n - 1);
      ZeroExactlyWhenEqual(hyps[n - 1], refs[n - 1]);
      assert hyps[..n] == hyps[..n - 1] + [hyps[n - 1]] && refs[..n] == refs[..n - 1] + [refs[n - 1]];
    }
  }
}
