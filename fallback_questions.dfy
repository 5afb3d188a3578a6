/**
 * The offline fall-back of the interview question service: fixed question
 * banks (some mentioning the role), each shuffled with Fisher–Yates; one
 * question per requested category; random fill from the requested
 * categories up to five questions; padding with behavioural questions.
 * Also the language-name table and the canned feedback used when the
 * feedback service is unreachable.
 *
 * `Math.random()` is a Stream: the i-th result is `rand(start + i)`.
 */
module FallbackQuestions {
  import opened Common

  // ---------------------------------------------------------------------
  // Fisher–Yates shuffle
  // ---------------------------------------------------------------------

  function Swap<T>(s: seq<T>, i: nat, j: nat): (r: seq<T>)
    requires i < |s| && j < |s|
    ensures |r| == |s|
  {
    s[i := s[j]][j := s[i]]
  }

  /**
   * The result of the shuffle loop from position i down to 1, the draw for
   * position m being rand(k + (i - m)): position m is swapped with
   * position floor(draw * (m + 1)).
   */
  function FisherYates<T>(s: seq<T>, i: int, rand: Stream, k: nat): (r: seq<T>)
    requires i < |s|
    ensures |r| == |s|
    decreases i
  {
    if i <= 0 then s
    else FisherYates(Swap(s, i, ScaledIndex(rand(k), i + 1)), i - 1, rand, k + 1)
  }

  lemma SwapPermutes<T>(s: seq<T>, i: nat, j: nat)
    requires i < |s| && j < |s|
    ensures multiset(Swap(s, i, j)) == multiset(s)
  {
  }

  /** The shuffle only reorders: the result is a permutation of its input. */
  lemma {:induction false} FisherYatesPermutes<T>(s: seq<T>, i: int, rand: Stream, k: nat)
    requires i < |s|
    ensures multiset(FisherYates(s, i, rand, k)) == multiset(s)
    decreases i
  {
    if i > 0 {
      var j := ScaledIndex(rand(k), i + 1);
      var t := Swap(s, i, j);
      assert FisherYates(s, i, rand, k) == FisherYates(t, i - 1, rand, k + 1);
      SwapPermutes(s, i, j);
      FisherYatesPermutes(t, i - 1, rand, k + 1);
    }
  }

  /** A list of at most one element is never reordered. */
  lemma ShuffleShort<T>(s: seq<T>, rand: Stream, k: nat)
    requires |s| <= 1
    ensures FisherYates(s, |s| - 1, rand, k) == s
  {
  }

  /** With every draw 0, each position is swapped with the front: a left rotation by one. */
  lemma {:induction false} ShuffleZeroDraws(s: seq<int>, rand: Stream, k: nat)
    requires |s| == 3
    requires forall m :: rand(m) == 0.0
    ensures FisherYates(s, 2, rand, k) == [s[1], s[2], s[0]]
  {
    var s1 := Swap(s, 2, ScaledIndex(rand(k), 3));
    assert s1 == [s[2], s[1], s[0]];
    var s2 := Swap(s1, 1, ScaledIndex(rand(k + 1), 2));
    assert s2 == [s[1], s[2], s[0]];
  }

  /** The swap loop of `shuffle`, on the copied array, from the last position down to 1. */
  method ShuffleInPlace(a: array<string>, rand: Stream, start: nat) returns (next: nat)
    modifies a
    ensures a[..] == FisherYates(old(a[..]), a.Length - 1, rand, start)
    ensures next == start + Max(a.Length - 1, 0)
  {
    next := start;
    if a.Length == 0 {
      return;
    }
    var i: nat := a.Length - 1;
    ghost var goal := FisherYates(a[..], a.Length - 1, rand, start);
    while i > 0
      invariant i < a.Length
      invariant next == start + (a.Length - 1 - i)
      invariant FisherYates(a[..], i, rand, next) == goal
    {
      var j := ScaledIndex(rand(next), i + 1);
      a[i], a[j] := a[j], a[i];
      next := next + 1;
      i := i - 1;
    }
  }

  /**
   * `shuffle(array)`: copy the list into a fresh array and swap from the
   * back; the argument is a value and so is unchanged. Uses |xs| - 1 draws.
   */
  method Shuffle(xs: seq<string>, rand: Stream, start: nat) returns (r: seq<string>, next: nat)
    ensures r == FisherYates(xs, |xs| - 1, rand, start)
    ensures multiset(r) == multiset(xs) && |r| == |xs|
    ensures next == start + Max(|xs| - 1, 0)
  {
    var a := new string[|xs|](k requires 0 <= k < |xs| => xs[k]);
    assert a[..] == xs;
    next := ShuffleInPlace(a, rand, start);
    r := a[..];
    FisherYatesPermutes(xs, |xs| - 1, rand, start);
  }

  // ---------------------------------------------------------------------
  // The shuffled pools
  // ---------------------------------------------------------------------

  /** The keys of `questionMap`, in the order the pools are shuffled. */
  const Keys: seq<string> := [
    "behavioral", "technical", "coding", "leadership", "problemsolving",
    "communication", "teamwork", "projectmanagement", "systemdesign", "cultural"]

  lemma KeysDistinct()
    ensures NoRepeats(Keys)
  {
  }

  function KeyIndex(c: string): (i: nat)
    requires c in Keys
    ensures i < |Keys| && Keys[i] == c
  {
    if c == Keys[0] then 0 else if c == Keys[1] then 1 else if c == Keys[2] then 2
    else if c == Keys[3] then 3 else if c == Keys[4] then 4 else if c == Keys[5] then 5
    else if c == Keys[6] then 6 else if c == Keys[7] then 7 else if c == Keys[8] then 8 else 9
  }

  /** The draw at which the shuffle of bank i starts: each earlier bank uses |bank| - 1 draws. */
  function ShuffleStart(banks: seq<seq<string>>, i: nat): nat
    requires i <= |banks|
  {
    if i == 0 then 0 else ShuffleStart(banks, i - 1) + Max(|banks[i - 1]| - 1, 0)
  }

  /** The map after the first n pools are built, pool j from bank j under keys[j]. */
  function PoolsUpTo(keys: seq<string>, banks: seq<seq<string>>, rand: Stream, start: nat, n: nat): (m: map<string, seq<string>>)
    requires n <= |banks| == |keys|
  {
    if n == 0 then map[]
    else
      var b := banks[n - 1];
      PoolsUpTo(keys, banks, rand, start, n - 1)[keys[n - 1] := FisherYates(b, |b| - 1, rand, start + ShuffleStart(banks, n - 1))]
  }

  /** The pools of `questionMap` right after it is built: one under each key. */
  function Pools(banks: seq<seq<string>>, rand: Stream, start: nat): (m: map<string, seq<string>>)
    requires |banks| == |Keys|
    ensures forall c :: c in m <==> c in Keys
  {
    PoolsKeys(Keys, banks, rand, start);
    PoolsUpTo(Keys, banks, rand, start, |Keys|)
  }

  /** With distinct keys, the pool under keys[i] is bank i shuffled. */
  lemma {:induction false} PoolsUpToAt(keys: seq<string>, banks: seq<seq<string>>, rand: Stream, start: nat, n: nat, i: nat)
    requires n <= |banks| == |keys| && i < n && NoRepeats(keys)
    ensures keys[i] in PoolsUpTo(keys, banks, rand, start, n)
    ensures PoolsUpTo(keys, banks, rand, start, n)[keys[i]]
         == FisherYates(banks[i], |banks[i]| - 1, rand, start + ShuffleStart(banks, i))
  {
    if i < n - 1 {
      assert keys[i] != keys[n - 1];
      PoolsUpToAt(keys, banks, rand, start, n - 1, i);
    }
  }

  /** No pool is built under a name that is not a key. */
  lemma {:induction false} PoolsUpToOnlyKeys(keys: seq<string>, banks: seq<seq<string>>, rand: Stream, start: nat, n: nat, c: string)
    requires n <= |banks| == |keys|
    requires c in PoolsUpTo(keys, banks, rand, start, n)
    ensures c in keys
  {
    if c != keys[n - 1] {
      PoolsUpToOnlyKeys(keys, banks, rand, start, n - 1, c);
    }
  }

  /** The pools are built under exactly the keys. */
  lemma PoolsKeys(keys: seq<string>, banks: seq<seq<string>>, rand: Stream, start: nat)
    requires |banks| == |keys|
    ensures forall c :: c in PoolsUpTo(keys, banks, rand, start, |keys|) <==> c in keys
  {
    var m := PoolsUpTo(keys, banks, rand, start, |keys|);
    forall c ensures c in m <==> c in keys {
      if c in m {
        PoolsUpToOnlyKeys(keys, banks, rand, start, |keys|, c);
      } else if c in keys {
        var i :| 0 <= i < |keys| && keys[i] == c;
        PoolsUpToIncludes(keys, banks, rand, start, |keys|, i);
      }
    }
  }

  /** Each of the first n keys has a pool, distinct or not. */
  lemma {:induction false} PoolsUpToIncludes(keys: seq<string>, banks: seq<seq<string>>, rand: Stream, start: nat, n: nat, i: nat)
    requires n <= |banks| == |keys| && i < n
    ensures keys[i] in PoolsUpTo(keys, banks, rand, start, n)
  {
    if i < n - 1 {
      PoolsUpToIncludes(keys, banks, rand, start, n - 1, i);
    }
  }

  /** The pool under Keys[i] is a permutation of bank i. */
  lemma PoolPermutesBank(banks: seq<seq<string>>, rand: Stream, start: nat, i: nat)
    requires |banks| == |Keys| && i < |Keys|
    ensures Keys[i] in Pools(banks, rand, start)
    ensures multiset(Pools(banks, rand, start)[Keys[i]]) == multiset(banks[i])
  {
    KeysDistinct();
    PoolsUpToPermutes(Keys, banks, rand, start, i);
  }

  lemma PoolsUpToPermutes(keys: seq<string>, banks: seq<seq<string>>, rand: Stream, start: nat, i: nat)
    requires |banks| == |keys| && i < |keys| && NoRepeats(keys)
    ensures keys[i] in PoolsUpTo(keys, banks, rand, start, |keys|)
    ensures multiset(PoolsUpTo(keys, banks, rand, start, |keys|)[keys[i]]) == multiset(banks[i])
  {
    PoolsUpToAt(keys, banks, rand, start, |keys|, i);
    FisherYatesPermutes(banks[i], |banks[i]| - 1, rand, start + ShuffleStart(banks, i));
  }

  /**
   * Building `questionMap`: the ten pools are shuffled one after another, in
   * key order, each continuing the stream where the previous one stopped.
   */
  method BuildQuestionMap(banks: seq<seq<string>>, rand: Stream, start: nat)
    returns (questionMap: map<string, seq<string>>, next: nat)
    requires |banks| == |Keys|
    ensures questionMap == Pools(banks, rand, start)
    ensures next == start + ShuffleStart(banks, |Keys|)
  {
    questionMap := map[];
    next := start;
    for i := 0 to |Keys|
      invariant next == start + ShuffleStart(banks, i)
      invariant questionMap == PoolsUpTo(Keys, banks, rand, start, i)
    {
      var pool;
      pool, next := Shuffle(banks[i], rand, next);
      questionMap := questionMap[Keys[i] := pool];
    }
  }
  // ---------------------------------------------------------------------
  // Consuming the pools
  // ---------------------------------------------------------------------

  /** How many entries of xs equal c. */
  function Count(xs: seq<string>, c: string): nat
  {
    if xs == [] then 0 else Count(xs[..|xs| - 1], c) + (if xs[|xs| - 1] == c then 1 else 0)
  }

  /** The questions of q whose type in t is c, in order. */
  function Project(q: seq<string>, t: seq<string>, c: string): (r: seq<string>)
    requires |q| == |t|
    ensures |r| == Count(t, c)
  {
    if q == [] then []
    else Project(q[..|q| - 1], t[..|t| - 1], c) + (if t[|t| - 1] == c then [q[|q| - 1]] else [])
  }

  lemma ProjectSnoc(q: seq<string>, t: seq<string>, x: string, y: string, c: string)
    requires |q| == |t|
    ensures Project(q + [x], t + [y], c) == Project(q, t, c) + (if y == c then [x] else [])
    ensures Count(t + [y], c) == Count(t, c) + (if y == c then 1 else 0)
  {
    assert (q + [x])[..|q|] == q;
    assert (t + [y])[..|t|] == t;
  }

  /**
   * Nothing is lost or drawn twice: for every key, the questions taken so
   * far with that type, followed by the remaining pool, are the original
   * pool. So each pool is consumed from the front, one question at a time.
   */
  ghost predicate Conserved(pools0: map<string, seq<string>>, q: seq<string>, t: seq<string>,
                            pools: map<string, seq<string>>)
  {
    |q| == |t| && pools.Keys == pools0.Keys
    && (forall i :: 0 <= i < |t| ==> t[i] in pools0)
    && forall c :: c in pools0 ==> pools0[c] == Project(q, t, c) + pools[c]
  }

  /** Taking the front question of a pool keeps the pools conserved. */
  lemma TakePreserves(pools0: map<string, seq<string>>, q: seq<string>, t: seq<string>,
                      pools: map<string, seq<string>>, c: string)
    requires Conserved(pools0, q, t, pools)
    requires c in pools && |pools[c]| > 0
    ensures Conserved(pools0, q + [pools[c][0]], t + [c], pools[c := pools[c][1..]])
  {
    var x := pools[c][0];
    var q', t', pools' := q + [x], t + [c], pools[c := pools[c][1..]];
    assert pools'.Keys == pools0.Keys;
    forall i | 0 <= i < |t'| ensures t'[i] in pools0 {
      if i < |t| { assert t'[i] == t[i]; }
    }
    assert pools[c] == [x] + pools'[c];
    forall d | d in pools0
      ensures pools0[d] == Project(q', t', d) + pools'[d]
    {
      TakeKeepsPool(pools0[d], q, t, x, c, d, pools[d], pools'[d]);
    }
  }

  /**
   * Taking x, the front of pool c, keeps pool d split between taken and
   * remaining questions: rest and rest' are d's remaining pool before and after.
   */
  lemma TakeKeepsPool(pool0: seq<string>, q: seq<string>, t: seq<string>, x: string, c: string, d: string,
                      rest: seq<string>, rest': seq<string>)
    requires |q| == |t| && pool0 == Project(q, t, d) + rest
    requires d == c ==> rest == [x] + rest'
    requires d != c ==> rest' == rest
    ensures pool0 == Project(q + [x], t + [c], d) + rest'
  {
    ProjectSnoc(q, t, x, c, d);
    if d == c {
      assert (Project(q, t, d) + [x]) + rest' == Project(q, t, d) + ([x] + rest');
    }
  }

  /**
   * The categories the first pass takes a question for: a requested
   * category that is a key, as long as fewer earlier requests of it than
   * its pool holds questions have been served.
   */
  function FirstPassTypes(cs: seq<string>, pools0: map<string, seq<string>>): (r: seq<string>)
    ensures |r| <= |Known(cs, pools0)|
    ensures forall i :: 0 <= i < |r| ==> r[i] in pools0 && r[i] in cs
  {
    if cs == [] then []
    else
      var init, c := cs[..|cs| - 1], cs[|cs| - 1];
      assert forall x :: x in init ==> x in cs;
      FirstPassTypes(init, pools0) + (if c in pools0 && Count(init, c) < |pools0[c]| then [c] else [])
  }

  /** The requested categories that are keys of the pools, in request order. */
  function Known(cs: seq<string>, pools0: map<string, seq<string>>): seq<string>
  {
    if cs == [] then []
    else Known(cs[..|cs| - 1], pools0) + (if cs[|cs| - 1] in pools0 then [cs[|cs| - 1]] else [])
  }

  lemma {:induction false} CountAbsent(xs: seq<string>, c: string)
    requires c !in xs
    ensures Count(xs, c) == 0
  {
    if xs != [] {
      CountAbsent(xs[..|xs| - 1], c);
    }
  }

  /**
   * Without repeated requests, the first pass takes exactly one question
   * for each requested category that has a pool, in request order.
   */
  lemma {:induction false} FirstPassWithoutRepeats(cs: seq<string>, pools0: map<string, seq<string>>)
    requires NoRepeats(cs)
    requires forall c :: c in pools0 ==> |pools0[c]| > 0
    ensures FirstPassTypes(cs, pools0) == Known(cs, pools0)
  {
    if cs != [] {
      var init, c := cs[..|cs| - 1], cs[|cs| - 1];
      FirstPassWithoutRepeats(init, pools0);
      assert c !in init;
      CountAbsent(init, c);
    }
  }

  lemma CountSnoc(xs: seq<string>, y: string)
    ensures forall c :: Count(xs + [y], c) == Count(xs, c) + (if y == c then 1 else 0)
  {
    assert (xs + [y])[..|xs|] == xs;
  }

  lemma FirstPassTypesSnoc(cs: seq<string>, y: string, pools0: map<string, seq<string>>)
    ensures FirstPassTypes(cs + [y], pools0)
         == FirstPassTypes(cs, pools0) + (if y in pools0 && Count(cs, y) < |pools0[y]| then [y] else [])
  {
    assert (cs + [y])[..|cs|] == cs;
  }

  /**
   * What the first pass has done after serving the requests cs: the pools
   * are conserved, the types taken are FirstPassTypes(cs), and each
   * category was served as often as requested, up to its pool's size.
   */
  ghost predicate FirstPassDone(pools0: map<string, seq<string>>, cs: seq<string>, q: seq<string>,
                                t: seq<string>, m: map<string, seq<string>>)
  {
    Conserved(pools0, q, t, m)
    && t == FirstPassTypes(cs, pools0)
    && forall c :: c in pools0 ==> Count(t, c) == Min(Count(cs, c), |pools0[c]|)
  }

  /** The questions, their types and the pools, as the selection passes leave them. */
  datatype Drawn = Drawn(questions: seq<string>, types: seq<string>, pools: map<string, seq<string>>)

  /** Serving category c: the front of its pool moves to the questions, if the pool has one. */
  function Serve(d: Drawn, c: string): (r: Drawn)
    ensures c in d.pools && |d.pools[c]| > 0 ==>
      r == Drawn(d.questions + [d.pools[c][0]], d.types + [c], d.pools[c := d.pools[c][1..]])
    ensures !(c in d.pools && |d.pools[c]| > 0) ==> r == d
  {
    if c in d.pools && |d.pools[c]| > 0
    then Drawn(d.questions + [d.pools[c][0]], d.types + [c], d.pools[c := d.pools[c][1..]])
    else d
  }

  /** The first pass as a function of the requests: each one served in turn, last one last. */
  function FirstPassOf(cs: seq<string>, pools0: map<string, seq<string>>): Drawn
  {
    if cs == [] then Drawn([], [], pools0)
    else Serve(FirstPassOf(cs[..|cs| - 1], pools0), cs[|cs| - 1])
  }

  /** Serving a category whose pool has a question keeps FirstPassDone. */
  lemma ServeTakes(pools0: map<string, seq<string>>, cs: seq<string>, d: Drawn, c: string)
    requires FirstPassDone(pools0, cs, d.questions, d.types, d.pools)
    requires c in d.pools && |d.pools[c]| > 0
    ensures var r := Serve(d, c); FirstPassDone(pools0, cs + [c], r.questions, r.types, r.pools)
  {
    CountSnoc(cs, c);
    FirstPassTypesSnoc(cs, c, pools0);
    TakePreserves(pools0, d.questions, d.types, d.pools, c);
    CountSnoc(d.types, c);
  }

  /** Serving a category with no pool, or an empty one, changes nothing and keeps FirstPassDone. */
  lemma ServeSkips(pools0: map<string, seq<string>>, cs: seq<string>, d: Drawn, c: string)
    requires FirstPassDone(pools0, cs, d.questions, d.types, d.pools)
    requires !(c in d.pools && |d.pools[c]| > 0)
    ensures var r := Serve(d, c); FirstPassDone(pools0, cs + [c], r.questions, r.types, r.pools)
  {
    CountSnoc(cs, c);
    FirstPassTypesSnoc(cs, c, pools0);
    assert c in pools0 ==> |pools0[c]| == Count(d.types, c);
  }

  /**
   * What the first pass promises: the pools are conserved, the types taken
   * are FirstPassTypes, and each category is served as often as requested,
   * up to its pool's size.
   */
  lemma {:induction false} FirstPassOfDone(cs: seq<string>, pools0: map<string, seq<string>>)
    ensures var d := FirstPassOf(cs, pools0); FirstPassDone(pools0, cs, d.questions, d.types, d.pools)
  {
    if cs != [] {
      var init, c := cs[..|cs| - 1], cs[|cs| - 1];
      FirstPassOfDone(init, pools0);
      var d := FirstPassOf(init, pools0);
      assert cs == init + [c];
      if c in d.pools && |d.pools[c]| > 0 {
        ServeTakes(pools0, init, d, c);
      } else {
        ServeSkips(pools0, init, d, c);
      }
    }
  }

  /** One request of the first pass: take the front of the category's pool if it has one. */
  method FirstPassStep(questions: seq<string>, types: seq<string>, questionMap: map<string, seq<string>>,
                       category: string)
    returns (questions': seq<string>, types': seq<string>, questionMap': map<string, seq<string>>)
    ensures Drawn(questions', types', questionMap') == Serve(Drawn(questions, types, questionMap), category)
  {
    if category in questionMap && |questionMap[category]| > 0 {
      questions' := questions + [questionMap[category][0]];
      types' := types + [category];
      questionMap' := questionMap[category := questionMap[category][1..]];
    } else {
      questions', types', questionMap' := questions, types, questionMap;
    }
  }

  /**
   * The first pass: for each requested category, in order, if its pool is
   * present and not empty, take the pool's front question.
   */
  method FirstPass(categories: seq<string>, pools0: map<string, seq<string>>)
    returns (questions: seq<string>, types: seq<string>, questionMap: map<string, seq<string>>)
    ensures Drawn(questions, types, questionMap) == FirstPassOf(categories, pools0)
  {
    questions, types, questionMap := [], [], pools0;
    for idx := 0 to |categories|
      invariant Drawn(questions, types, questionMap) == FirstPassOf(categories[..idx], pools0)
    {
      assert categories[..idx + 1][..idx] == categories[..idx];
      questions, types, questionMap := FirstPassStep(questions, types, questionMap, categories[idx]);
    }
    assert categories[..|categories|] == categories;
  }

  /** `categories.filter((c) => questionMap[c] && questionMap[c].length > 0)`. */
  function WithQuestions(cs: seq<string>, pools: map<string, seq<string>>): seq<string>
  {
    if cs == [] then []
    else (if cs[0] in pools && |pools[cs[0]]| > 0 then [cs[0]] else []) + WithQuestions(cs[1..], pools)
  }

  /** A category is listed exactly when it was requested and its pool is not empty. */
  lemma {:induction false} WithQuestionsMembers(cs: seq<string>, pools: map<string, seq<string>>)
    ensures forall c :: c in WithQuestions(cs, pools) <==> c in cs && c in pools && |pools[c]| > 0
  {
    if cs != [] {
      WithQuestionsMembers(cs[1..], pools);
      assert forall c :: c in cs <==> c == cs[0] || c in cs[1..];
    }
  }

  /** The list keeps the requests' order, so requests without repeats give a list without repeats. */
  lemma {:induction false} WithQuestionsNoRepeats(cs: seq<string>, pools: map<string, seq<string>>)
    requires NoRepeats(cs)
    ensures NoRepeats(WithQuestions(cs, pools))
  {
    if cs != [] {
      WithQuestionsNoRepeats(cs[1..], pools);
      WithQuestionsMembers(cs[1..], pools);
      var rest := WithQuestions(cs[1..], pools);
      assert cs[0] !in cs[1..] by {
        forall k | 0 <= k < |cs[1..]| ensures cs[1..][k] != cs[0] {
          assert cs[1..][k] == cs[k + 1];
        }
      }
      var r := WithQuestions(cs, pools);
      if cs[0] in pools && |pools[cs[0]]| > 0 {
        assert r == [cs[0]] + rest;
        forall i, j | 0 <= i < j < |r| ensures r[i] != r[j] {
          if i == 0 {
            assert r[j] == rest[j - 1];
            assert rest[j - 1] in rest;
          } else {
            assert r[i] == rest[i - 1] && r[j] == rest[j - 1];
          }
        }
      } else {
        assert r == rest;
      }
    }
  }

  /** With no category requested twice, the list of categories with questions Tracks the pools. */
  lemma WithQuestionsTracks(cs: seq<string>, pools: map<string, seq<string>>)
    requires NoRepeats(cs)
    ensures Tracks(cs, WithQuestions(cs, pools), pools)
  {
    WithQuestionsMembers(cs, pools);
    WithQuestionsNoRepeats(cs, pools);
  }

  /** Every listed category is a requested one. */
  lemma WithQuestionsWithin(cs: seq<string>, pools: map<string, seq<string>>)
    ensures Within(WithQuestions(cs, pools), cs)
  {
    WithQuestionsMembers(cs, pools);
    var r := WithQuestions(cs, pools);
    assert forall k :: 0 <= k < |r| ==> r[k] in r;
  }

  /** Removing the entry at idx from a list without repeats removes exactly that value. */
  lemma SpliceRemoves(xs: seq<string>, idx: nat)
    requires idx < |xs| && NoRepeats(xs)
    ensures NoRepeats(xs[..idx] + xs[idx + 1..])
    ensures forall c :: c in xs[..idx] + xs[idx + 1..] <==> c in xs && c != xs[idx]
  {
    var r := xs[..idx] + xs[idx + 1..];
    assert forall k :: 0 <= k < |r| ==> r[k] == if k < idx then xs[k] else xs[k + 1];
    forall c | c in xs && c != xs[idx] ensures c in r {
      var k :| 0 <= k < |xs| && xs[k] == c;
      if k < idx { assert r[k] == c; } else { assert r[k - 1] == c; }
    }
  }

  /**
   * What the fill loop knows about `availableCategories` when no category
   * is requested twice: it has no repeats, and it holds exactly the
   * requested categories whose pools still have questions.
   */
  ghost predicate Tracks(categories: seq<string>, available: seq<string>, questionMap: map<string, seq<string>>)
  {
    NoRepeats(available)
    && (forall c :: c in available ==> c in questionMap && |questionMap[c]| > 0)
    && (forall c :: c in categories && c in questionMap && |questionMap[c]| > 0 ==> c in available)
  }

  /** Every entry left after a splice was an entry before it. */
  lemma SpliceSubset(xs: seq<string>, idx: nat)
    requires idx < |xs|
    ensures forall c :: c in xs[..idx] + xs[idx + 1..] ==> c in xs
  {
    forall c | c in xs[..idx] + xs[idx + 1..] ensures c in xs {
      if c in xs[..idx] {
        var k :| 0 <= k < idx && xs[..idx][k] == c;
        assert xs[k] == c;
      } else {
        var k :| 0 <= k < |xs| - idx - 1 && xs[idx + 1..][k] == c;
        assert xs[idx + 1 + k] == c;
      }
    }
  }

  /** One fill step keeps Tracks: the drawn entry is spliced out exactly when its pool empties. */
  lemma TakeTracks(categories: seq<string>, available: seq<string>, questionMap: map<string, seq<string>>, idx: nat)
    requires Tracks(categories, available, questionMap) && idx < |available|
    ensures var c := available[idx];
      var m := questionMap[c := questionMap[c][1..]];
      Tracks(categories, if |m[c]| == 0 then available[..idx] + available[idx + 1..] else available, m)
  {
    var c := available[idx];
    var m := questionMap[c := questionMap[c][1..]];
    if |m[c]| == 0 {
      SpliceRemoves(available, idx);
    }
  }

  /**
   * One fill round on entry idx of the list of categories: serve that
   * category, and splice the entry out once its pool is empty.
   */
  function FillRound(d: Drawn, available: seq<string>, idx: nat): (r: (Drawn, seq<string>))
    requires idx < |available|
    ensures r.0 == Serve(d, available[idx])
    ensures |r.1| <= |available|
  {
    var c := available[idx];
    var d' := Serve(d, c);
    if c in d.pools && |d.pools[c]| > 0 && |d'.pools[c]| == 0
    then (d', available[..idx] + available[idx + 1..])
    else (d', available)
  }

  /**
   * Up to `slots` fill rounds, draw next choosing the entry
   * floor(rand(next) * |available|), stopping once the list is empty;
   * also the position of the next unused draw.
   */
  function FillRounds(d: Drawn, available: seq<string>, slots: nat, rand: Stream, next: nat): (r: (Drawn, nat))
    decreases slots
  {
    if slots == 0 || available == [] then (d, next)
    else
      var step := FillRound(d, available, ScaledIndex(rand(next), |available|));
      FillRounds(step.0, step.1, slots - 1, rand, next + 1)
  }

  /** The fill phase: rounds for the missing 5 - |questions|, over the requested categories with questions. */
  function FillOf(categories: seq<string>, d: Drawn, rand: Stream, start: nat): (Drawn, nat)
  {
    if |d.questions| < 5
    then FillRounds(d, WithQuestions(categories, d.pools), 5 - |d.questions|, rand, start)
    else (d, start)
  }

  /** The fill rounds keep the pools conserved: each takes from the front of a pool. */
  lemma {:induction false} FillRoundsConserve(pools0: map<string, seq<string>>, d: Drawn, available: seq<string>,
                                              slots: nat, rand: Stream, next: nat)
    requires Conserved(pools0, d.questions, d.types, d.pools)
    ensures var r := FillRounds(d, available, slots, rand, next).0;
      Conserved(pools0, r.questions, r.types, r.pools)
    decreases slots
  {
    if slots > 0 && available != [] {
      var idx := ScaledIndex(rand(next), |available|);
      var c := available[idx];
      if c in d.pools && |d.pools[c]| > 0 {
        TakePreserves(pools0, d.questions, d.types, d.pools, c);
      }
      var step := FillRound(d, available, idx);
      FillRoundsConserve(pools0, step.0, step.1, slots - 1, rand, next + 1);
    }
  }

  /** Every entry of xs is one of the requested categories. */
  ghost predicate Within(xs: seq<string>, categories: seq<string>)
  {
    forall k :: 0 <= k < |xs| ==> xs[k] in categories
  }

  /** Splicing an entry out keeps Within. */
  lemma WithinSplice(xs: seq<string>, idx: nat, categories: seq<string>)
    requires Within(xs, categories) && idx < |xs|
    ensures Within(xs[..idx] + xs[idx + 1..], categories)
  {
    var r := xs[..idx] + xs[idx + 1..];
    assert forall k :: 0 <= k < |r| ==> r[k] == if k < idx then xs[k] else xs[k + 1];
  }

  /** The fill rounds only add questions of the listed, hence requested, categories. */
  lemma {:induction false} FillRoundsTyped(categories: seq<string>, d: Drawn, available: seq<string>,
                                           slots: nat, rand: Stream, next: nat)
    requires Within(d.types, categories) && Within(available, categories)
    ensures Within(FillRounds(d, available, slots, rand, next).0.types, categories)
    decreases slots
  {
    if slots > 0 && available != [] {
      var idx := ScaledIndex(rand(next), |available|);
      var c := available[idx];
      WithinSplice(available, idx, categories);
      assert Within(d.types + [c], categories) by {
        assert forall k :: 0 <= k < |d.types| ==> (d.types + [c])[k] == d.types[k];
      }
      var step := FillRound(d, available, idx);
      FillRoundsTyped(categories, step.0, step.1, slots - 1, rand, next + 1);
    }
  }

  /** The fill rounds keep the earlier questions and use one draw, and add at most one question, per round. */
  lemma {:induction false} FillRoundsExtend(d: Drawn, available: seq<string>, slots: nat, rand: Stream, next: nat)
    ensures var r := FillRounds(d, available, slots, rand, next);
      && d.questions <= r.0.questions && d.types <= r.0.types
      && |r.0.questions| <= |d.questions| + slots
      && next <= r.1 <= next + slots
    decreases slots
  {
    if slots > 0 && available != [] {
      var step := FillRound(d, available, ScaledIndex(rand(next), |available|));
      FillRoundsExtend(step.0, step.1, slots - 1, rand, next + 1);
    }
  }

  /**
   * While the list holds exactly the categories with questions left, every
   * round adds a question; so the rounds stop short only once every
   * requested pool is empty.
   */
  lemma {:induction false} FillRoundsExhaust(categories: seq<string>, d: Drawn, available: seq<string>,
                                             slots: nat, rand: Stream, next: nat)
    requires Tracks(categories, available, d.pools)
    ensures var r := FillRounds(d, available, slots, rand, next).0;
      |r.questions| < |d.questions| + slots ==>
        forall c :: c in categories && c in r.pools ==> r.pools[c] == []
    decreases slots
  {
    if slots > 0 && available != [] {
      var idx := ScaledIndex(rand(next), |available|);
      TakeTracks(categories, available, d.pools, idx);
      var step := FillRound(d, available, idx);
      assert |step.0.questions| == |d.questions| + 1;
      FillRoundsExhaust(categories, step.0, step.1, slots - 1, rand, next + 1);
    }
  }

  /**
   * One round of the fill loop: draw next chooses an entry of
   * `availableCategories`; take the front question of that category's
   * pool, if it has one, and splice the entry out once the pool is empty.
   */
  method FillStep(questions: seq<string>, types: seq<string>, questionMap: map<string, seq<string>>,
                  available: seq<string>, rand: Stream, next: nat)
    returns (questions': seq<string>, types': seq<string>, questionMap': map<string, seq<string>>,
             available': seq<string>)
    requires available != []
    ensures (Drawn(questions', types', questionMap'), available')
         == FillRound(Drawn(questions, types, questionMap), available, ScaledIndex(rand(next), |available|))
  {
    var randomCategoryIndex := ScaledIndex(rand(next), |available|);
    questions', types', questionMap', available' := questions, types, questionMap, available;
    var category := available[randomCategoryIndex];
    if category in questionMap && |questionMap[category]| > 0 {
      questions' := questions + [questionMap[category][0]];
      types' := types + [category];
      questionMap' := questionMap[category := questionMap[category][1..]];
      if |questionMap'[category]| == 0 {
        available' := available[..randomCategoryIndex] + available[randomCategoryIndex + 1..];
      }
    }
  }

  /** A round taken on the drawn entry leaves the remaining rounds to do. */
  lemma FillRoundsAdvance(d: Drawn, available: seq<string>, slots: nat, rand: Stream, next: nat,
                          d': Drawn, available': seq<string>)
    requires slots > 0 && available != []
    requires (d', available') == FillRound(d, available, ScaledIndex(rand(next), |available|))
    ensures FillRounds(d', available', slots - 1, rand, next + 1) == FillRounds(d, available, slots, rand, next)
  {
  }

  /** With no rounds left, or no category listed, nothing more is drawn. */
  lemma FillRoundsDone(d: Drawn, available: seq<string>, slots: nat, rand: Stream, next: nat)
    requires slots == 0 || available == []
    ensures FillRounds(d, available, slots, rand, next) == (d, next)
  {
  }

  /**
   * The fill loop: at most `slots` rounds, each drawing an entry of
   * `availableCategories` uniformly, stopping early once the list is empty.
   */
  method FillLoop(questions0: seq<string>, types0: seq<string>, questionMap0: map<string, seq<string>>,
                  available0: seq<string>, slots: nat, rand: Stream, start: nat)
    returns (questions: seq<string>, types: seq<string>, questionMap: map<string, seq<string>>, next: nat)
    ensures (Drawn(questions, types, questionMap), next)
         == FillRounds(Drawn(questions0, types0, questionMap0), available0, slots, rand, start)
  {
    questions, types, questionMap, next := questions0, types0, questionMap0, start;
    var availableCategories := available0;
    var i := 0;
    while i < slots && |availableCategories| > 0
      invariant 0 <= i <= slots
      invariant FillRounds(Drawn(questions, types, questionMap), availableCategories, slots - i, rand, next)
             == FillRounds(Drawn(questions0, types0, questionMap0), available0, slots, rand, start)
    {
      ghost var before, listed, rounds: nat := Drawn(questions, types, questionMap), availableCategories, slots - i;
      questions, types, questionMap, availableCategories :=
        FillStep(questions, types, questionMap, availableCategories, rand, next);
      FillRoundsAdvance(before, listed, rounds, rand, next, Drawn(questions, types, questionMap), availableCategories);
      next := next + 1;
      i := i + 1;
      assert slots - i == rounds - 1;
    }
    FillRoundsDone(Drawn(questions, types, questionMap), availableCategories, slots - i, rand, next);
  }

  /**
   * The fill phase: when fewer than 5 questions are held, the requested
   * categories whose pools still have questions are listed, and up to
   * 5 - |questions| further questions are drawn from them.
   */
  method FillPass(categories: seq<string>, questions0: seq<string>, types0: seq<string>,
                  questionMap0: map<string, seq<string>>, rand: Stream, start: nat)
    returns (questions: seq<string>, types: seq<string>, questionMap: map<string, seq<string>>, next: nat)
    ensures (Drawn(questions, types, questionMap), next)
         == FillOf(categories, Drawn(questions0, types0, questionMap0), rand, start)
  {
    var remainingSlots := 5 - |questions0|;
    if remainingSlots > 0 {
      var availableCategories := WithQuestions(categories, questionMap0);
      questions, types, questionMap, next :=
        FillLoop(questions0, types0, questionMap0, availableCategories, remainingSlots, rand, start);
    } else {
      questions, types, questionMap, next := questions0, types0, questionMap0, start;
    }
  }

  /** With fewer than five questions the fill phase is the fill rounds over the categories with questions. */
  lemma FillOfRounds(categories: seq<string>, d: Drawn, rand: Stream, start: nat)
    requires |d.questions| < 5
    ensures FillOf(categories, d, rand, start)
         == FillRounds(d, WithQuestions(categories, d.pools), 5 - |d.questions|, rand, start)
  {
  }

  /** The fill phase keeps the pools conserved. */
  lemma FillOfConserve(pools0: map<string, seq<string>>, categories: seq<string>, d: Drawn, rand: Stream, start: nat)
    requires Conserved(pools0, d.questions, d.types, d.pools)
    ensures var r := FillOf(categories, d, rand, start).0; Conserved(pools0, r.questions, r.types, r.pools)
  {
    if |d.questions| < 5 {
      FillOfRounds(categories, d, rand, start);
      FillRoundsConserve(pools0, d, WithQuestions(categories, d.pools), 5 - |d.questions|, rand, start);
    }
  }

  /** The fill phase only adds questions of requested categories. */
  lemma FillOfTyped(categories: seq<string>, d: Drawn, rand: Stream, start: nat)
    requires Within(d.types, categories)
    ensures Within(FillOf(categories, d, rand, start).0.types, categories)
  {
    if |d.questions| < 5 {
      FillOfRounds(categories, d, rand, start);
      WithQuestionsWithin(categories, d.pools);
      FillRoundsTyped(categories, d, WithQuestions(categories, d.pools), 5 - |d.questions|, rand, start);
    }
  }

  /**
   * The fill phase keeps the earlier questions; with five or more it draws
   * nothing, otherwise it ends with at most five, using at most one draw
   * per missing question.
   */
  lemma FillOfExtend(categories: seq<string>, d: Drawn, rand: Stream, start: nat)
    ensures var r := FillOf(categories, d, rand, start);
      && d.questions <= r.0.questions && d.types <= r.0.types
      && (|d.questions| >= 5 ==> r == (d, start))
      && (|d.questions| < 5 ==> |r.0.questions| <= 5 && start <= r.1 <= start + 5 - |d.questions|)
  {
    if |d.questions| < 5 {
      FillOfRounds(categories, d, rand, start);
      FillRoundsExtend(d, WithQuestions(categories, d.pools), 5 - |d.questions|, rand, start);
    }
  }

  /** When no category is requested twice, ending the fill phase short of five means every requested pool is empty. */
  lemma FillOfExhaust(categories: seq<string>, d: Drawn, rand: Stream, start: nat)
    requires NoRepeats(categories)
    ensures var r := FillOf(categories, d, rand, start).0;
      |r.questions| < 5 ==> forall c :: c in categories && c in r.pools ==> r.pools[c] == []
  {
    if |d.questions| < 5 {
      FillOfRounds(categories, d, rand, start);
      WithQuestionsTracks(categories, d.pools);
      FillRoundsExhaust(categories, d, WithQuestions(categories, d.pools), 5 - |d.questions|, rand, start);
    }
  }

  /** `Tell me about your experience as a ${role}.`, the padding used once the behavioural bank is spent. */
  function ExperienceQuestion(role: string): string
  {
    "Tell me about your experience as a " + role + "."
  }

  /** The m questions padding appends: the bank in order, then the experience question. */
  function Padding(role: string, bank: seq<string>, m: nat): (r: seq<string>)
    ensures |r| == m
    ensures m <= |bank| ==> r == bank[..m]
    ensures forall i :: 0 <= i < m ==> r[i] == if i < |bank| then bank[i] else ExperienceQuestion(role)
  {
    seq(m, i requires 0 <= i < m => if i < |bank| then bank[i] else ExperienceQuestion(role))
  }

  /**
   * The padding loop: while fewer than 5 questions are held, append the
   * front of the (unshuffled) behavioural list and shift it off, or the
   * experience question once the list is empty.
   */
  method Pad(role: string, questions0: seq<string>, types0: seq<string>, behavioralQuestions0: seq<string>)
    returns (questions: seq<string>, types: seq<string>)
    ensures questions == questions0 + Padding(role, behavioralQuestions0, Max(5 - |questions0|, 0))
    ensures types == types0 + seq(Max(5 - |questions0|, 0), _ => "behavioral")
  {
    questions, types := questions0, types0;
    var behavioralQuestions := behavioralQuestions0;
    ghost var m := Max(5 - |questions0|, 0);
    while |questions| < 5
      invariant |questions0| <= |questions| == |questions0| + (|types| - |types0|)
      invariant |questions| - |questions0| <= m
      invariant questions == questions0 + Padding(role, behavioralQuestions0, |questions| - |questions0|)
      invariant types == types0 + seq(|questions| - |questions0|, _ => "behavioral")
      invariant behavioralQuestions == if |questions| - |questions0| <= |behavioralQuestions0|
        then behavioralQuestions0[|questions| - |questions0|..] else []
      decreases 5 - |questions|
    {
      ghost var n := |questions| - |questions0|;
      if |behavioralQuestions| > 0 {
        questions := questions + [behavioralQuestions[0]];
        types := types + ["behavioral"];
        behavioralQuestions := behavioralQuestions[1..];
      } else {
        questions := questions + [ExperienceQuestion(role)];
        types := types + ["behavioral"];
      }
      assert questions == questions0 + Padding(role, behavioralQuestions0, n + 1) by {
        assert Padding(role, behavioralQuestions0, n + 1) == Padding(role, behavioralQuestions0, n) + [Padding(role, behavioralQuestions0, n + 1)[n]];
      }
      assert seq(n + 1, _ => "behavioral") == seq(n, _ => "behavioral") + ["behavioral"];
    }
  }

  // ---------------------------------------------------------------------
  // generateFallbackQuestions
  // ---------------------------------------------------------------------

  lemma {:induction false} ProjectContains(q: seq<string>, t: seq<string>, i: nat)
    requires |q| == |t| && i < |q|
    ensures q[i] in Project(q, t, t[i])
  {
    if i < |q| - 1 {
      ProjectContains(q[..|q| - 1], t[..|t| - 1], i);
    }
  }

  /** Every question drawn from a pool belongs to the bank that pool was shuffled from. */
  lemma DrawnFromBank(banks: seq<seq<string>>, rand: Stream, start: nat, q: seq<string>, t: seq<string>,
                      pools: map<string, seq<string>>, i: nat)
    requires |banks| == |Keys|
    requires Conserved(Pools(banks, rand, start), q, t, pools) && i < |q|
    ensures t[i] in Keys && q[i] in banks[KeyIndex(t[i])]
  {
    var pools0 := Pools(banks, rand, start);
    ProjectContains(q, t, i);
    assert q[i] in pools0[t[i]];
    PoolPermutesBank(banks, rand, start, KeyIndex(t[i]));
    assert q[i] in multiset(pools0[Keys[KeyIndex(t[i])]]);
  }

  /** The questions drawn so far of each type are a prefix of that type's original pool. */
  lemma DrawnArePrefixes(pools0: map<string, seq<string>>, q: seq<string>, t: seq<string>,
                         pools: map<string, seq<string>>)
    requires Conserved(pools0, q, t, pools)
    ensures forall c :: c in pools0 ==> Project(q, t, c) <= pools0[c]
  {
    forall c | c in pools0 ensures Project(q, t, c) <= pools0[c] {
      assert pools0[c] == Project(q, t, c) + pools[c];
    }
  }

  /** Every drawn question belongs to the bank of its type. */
  lemma AllDrawnFromBanks(banks: seq<seq<string>>, rand: Stream, start: nat, q: seq<string>, t: seq<string>,
                          pools: map<string, seq<string>>)
    requires |banks| == |Keys|
    requires Conserved(Pools(banks, rand, start), q, t, pools)
    ensures forall i :: 0 <= i < |q| ==> t[i] in Keys && q[i] in banks[KeyIndex(t[i])]
  {
    forall i | 0 <= i < |q| ensures t[i] in Keys && q[i] in banks[KeyIndex(t[i])] {
      DrawnFromBank(banks, rand, start, q, t, pools, i);
    }
  }

  /** A pool that is empty at the end had all of its bank drawn. */
  lemma ExhaustedPool(banks: seq<seq<string>>, rand: Stream, start: nat, q: seq<string>, t: seq<string>,
                      pools: map<string, seq<string>>, c: string)
    requires |banks| == |Keys| && c in Keys
    requires Conserved(Pools(banks, rand, start), q, t, pools) && pools[c] == []
    ensures |Project(q, t, c)| == |banks[KeyIndex(c)]|
  {
    var pools0 := Pools(banks, rand, start);
    var k := KeyIndex(c);
    PoolPermutesBank(banks, rand, start, k);
    assert |multiset(pools0[c])| == |banks[k]|;
    assert pools0[c] == Project(q, t, c) + pools[c];
  }

  /** The drawn questions padded to five with the bank, in order, typed behavioural; and the next draw. */
  function Padded(f: Drawn, next: nat, role: string, bank: seq<string>): (seq<string>, seq<string>, nat)
  {
    var m := Max(5 - |f.questions|, 0);
    (f.questions + Padding(role, bank, m), f.types + seq(m, _ => "behavioral"), next)
  }

  /**
   * The shape of a padded selection s of the drawn questions f: the drawn
   * questions in front, then the bank's first questions typed behavioural,
   * five in all unless more were drawn; the next draw is passed on.
   */
  ghost predicate PaddedShape(s: (seq<string>, seq<string>, nat), f: Drawn, next: nat, bank: seq<string>)
  {
    && |f.questions| == |f.types|
    && |s.0| == |s.1| == Max(5, |f.questions|)
    && s.0[..|f.questions|] == f.questions && s.1[..|f.questions|] == f.types
    && |s.0| - |f.questions| <= |bank|
    && s.0[|f.questions|..] == bank[..|s.0| - |f.questions|]
    && (forall i :: |f.questions| <= i < |s.1| ==> s.1[i] == "behavioral")
    && s.2 == next
  }

  /** Padding keeps the drawn questions in front and adds the bank's first questions as behavioural ones. */
  lemma PaddedFacts(f: Drawn, next: nat, role: string, bank: seq<string>)
    requires |f.questions| == |f.types| && |bank| >= 5
    ensures PaddedShape(Padded(f, next, role, bank), f, next, bank)
  {
    var m := Max(5 - |f.questions|, 0);
    var s := Padded(f, next, role, bank);
    assert s.0[|f.questions|..] == Padding(role, bank, m);
    assert forall i :: |f.questions| <= i < |s.1| ==> s.1[i] == seq(m, _ => "behavioral")[i - |f.questions|];
  }

  /** The questions drawn from the pools: the first pass, then the fill phase from draw start on. */
  function Filled(pools0: map<string, seq<string>>, categories: seq<string>, rand: Stream, start: nat): (Drawn, nat)
  {
    FillOf(categories, FirstPassOf(categories, pools0), rand, start)
  }

  /**
   * The selection as a function of the pools and the draws: the first
   * pass, the fill phase from draw start on, then the padding; also the
   * position of the next unused draw.
   */
  function Selection(pools0: map<string, seq<string>>, role: string, categories: seq<string>,
                     bank: seq<string>, rand: Stream, start: nat): (seq<string>, seq<string>, nat)
  {
    var f := Filled(pools0, categories, rand, start);
    Padded(f.0, f.1, role, bank)
  }

  /**
   * What the questions f drawn from the pools pools0, with next draw next,
   * satisfy: they come off the front of the pools and have requested
   * types; they start with one question per category the first pass
   * serves; the fill phase adds questions up to five, one draw each, and
   * stops short of five only once every requested pool is empty (when no
   * category is requested twice).
   */
  ghost predicate FilledShape(pools0: map<string, seq<string>>, categories: seq<string>, start: nat, f: Drawn, next: nat)
  {
    var first := FirstPassTypes(categories, pools0);
    && Conserved(pools0, f.questions, f.types, f.pools)
    && Within(f.types, categories)
    && first <= f.types
    && (|first| >= 5 ==> |f.questions| == |first| && next == start)
    && (|first| < 5 ==> |f.questions| <= 5 && start <= next <= start + 5 - |first|)
    && (|f.questions| < 5 && NoRepeats(categories) ==>
          forall c :: c in categories && c in f.pools ==> f.pools[c] == [])
  }

  /** The questions drawn from the pools, first pass then fill phase, have the FilledShape. */
  lemma FilledFacts(pools0: map<string, seq<string>>, categories: seq<string>, rand: Stream, start: nat)
    ensures var f := Filled(pools0, categories, rand, start);
      FilledShape(pools0, categories, start, f.0, f.1)
  {
    var d := FirstPassOf(categories, pools0);
    FirstPassOfDone(categories, pools0);
    assert Within(d.types, categories);
    FillOfConserve(pools0, categories, d, rand, start);
    FillOfTyped(categories, d, rand, start);
    FillOfExtend(categories, d, rand, start);
    if NoRepeats(categories) {
      FillOfExhaust(categories, d, rand, start);
    }
  }

  /**
   * The shape of a selection s with drawn questions f: five questions,
   * more only when the first pass serves more than five categories; its
   * start is one question per served category; the drawn questions come
   * off the front of the pools, have requested types, and stop short of
   * five only once every requested pool is empty (when no category is
   * requested twice); the rest is the padding bank in order, typed
   * behavioural; at most five draws are used.
   */
  ghost predicate SelectionShape(pools0: map<string, seq<string>>, categories: seq<string>, bank: seq<string>,
                                 start: nat, s: (seq<string>, seq<string>, nat), f: Drawn)
  {
    var first := FirstPassTypes(categories, pools0);
    && |s.0| == |s.1| == Max(5, |first|)
    && |first| <= |f.questions| <= |s.0|
    && s.1[..|first|] == first
    && s.0[..|f.questions|] == f.questions && s.1[..|f.questions|] == f.types
    && Conserved(pools0, f.questions, f.types, f.pools)
    && Within(f.types, categories)
    && |s.0| - |f.questions| <= |bank|
    && s.0[|f.questions|..] == bank[..|s.0| - |f.questions|]
    && (forall i :: |f.questions| <= i < |s.1| ==> s.1[i] == "behavioral")
    && (|f.questions| < 5 && NoRepeats(categories) ==>
          forall c :: c in categories && c in f.pools ==> f.pools[c] == [])
    && start <= s.2 <= start + 5
  }

  /** Padding drawn questions of the FilledShape gives the SelectionShape. */
  lemma PaddedSelection(pools0: map<string, seq<string>>, categories: seq<string>, bank: seq<string>,
                        start: nat, s: (seq<string>, seq<string>, nat), f: Drawn, next: nat)
    requires FilledShape(pools0, categories, start, f, next)
    requires PaddedShape(s, f, next, bank)
    ensures SelectionShape(pools0, categories, bank, start, s, f)
  {
    var first := FirstPassTypes(categories, pools0);
    assert |first| <= |f.types|;
    assert s.1[..|first|] == s.1[..|f.questions|][..|first|];
  }

  /** The Selection has the SelectionShape, with the questions drawn from the pools as its drawn part. */
  lemma SelectionFacts(pools0: map<string, seq<string>>, role: string, categories: seq<string>,
                       bank: seq<string>, rand: Stream, start: nat)
    requires |bank| >= 5
    ensures SelectionShape(pools0, categories, bank, start,
                           Selection(pools0, role, categories, bank, rand, start),
                           Filled(pools0, categories, rand, start).0)
  {
    var f := Filled(pools0, categories, rand, start);
    FilledFacts(pools0, categories, rand, start);
    PaddedFacts(f.0, f.1, role, bank);
    PaddedSelection(pools0, categories, bank, start, Padded(f.0, f.1, role, bank), f.0, f.1);
  }

  /**
   * The selection part of `generateFallbackQuestions`, once `questionMap`
   * holds the pools pools0: serve each requested category once, fill at
   * random, pad from `behavioralQuestions`; the result is the Selection
   * of the pools and the draws.
   */
  method SelectFromPools(pools0: map<string, seq<string>>, role: string, categories: seq<string>,
                         behavioralQuestions: seq<string>, rand: Stream, start: nat)
    returns (questions: seq<string>, types: seq<string>, next: nat)
    ensures (questions, types, next) == Selection(pools0, role, categories, behavioralQuestions, rand, start)
  {
    var q1, t1, m1 := FirstPass(categories, pools0);
    var q2, t2, m2, afterFill := FillPass(categories, q1, t1, m1, rand, start);
    questions, types := Pad(role, q2, t2, behavioralQuestions);
    next := afterFill;
  }

  lemma BehavioralIsKeyZero()
    ensures "behavioral" in Keys && KeyIndex("behavioral") == 0
  {
  }

  /**
   * `generateFallbackQuestions` over given banks (bank i stored under
   * Keys[i], bank 0 the behavioural one): shuffle every bank into the
   * question map, then select; the result is the Selection of the shuffled
   * pools, with the draws after the shuffles.
   */
  method SelectFromBanks(banks: seq<seq<string>>, role: string, categories: seq<string>, rand: Stream, start: nat)
    returns (questions: seq<string>, types: seq<string>, next: nat)
    requires |banks| == |Keys|
    ensures (questions, types, next)
         == Selection(Pools(banks, rand, start), role, categories, banks[0], rand, start + ShuffleStart(banks, |Keys|))
  {
    var questionMap, afterShuffle := BuildQuestionMap(banks, rand, start);
    questions, types, next := SelectFromPools(questionMap, role, categories, banks[0], rand, afterShuffle);
  }

  /**
   * The shape of a selection s from the shuffled banks, with drawn
   * questions f (bank 0 at least five long): five questions, more only
   * when the first pass serves more than five categories; its start is one
   * question per served category; the drawn questions of each type come
   * off the front of its shuffled pool; every question belongs to the bank
   * of its type; the padding is the behavioural bank in its original
   * order; when no category is requested twice, stopping short of five
   * means each requested bank was used up.
   */
  ghost predicate BankShape(banks: seq<seq<string>>, rand: Stream, start: nat, categories: seq<string>,
                            after: nat, s: (seq<string>, seq<string>, nat), f: Drawn)
    requires |banks| == |Keys| && |banks[0]| >= 5
  {
    var pools0 := Pools(banks, rand, start);
    var first := FirstPassTypes(categories, pools0);
    && |s.0| == |s.1| == Max(5, |first|)
    && |first| <= |f.questions| <= |s.0|
    && s.1[..|first|] == first
    && s.0[..|f.questions|] == f.questions && s.1[..|f.questions|] == f.types
    && Within(f.types, categories)
    && (forall c :: c in Keys ==> Project(f.questions, f.types, c) <= pools0[c])
    && |s.0| - |f.questions| <= |banks[0]|
    && s.0[|f.questions|..] == banks[0][..|s.0| - |f.questions|]
    && (forall i :: |f.questions| <= i < |s.1| ==> s.1[i] == "behavioral")
    && (forall i :: 0 <= i < |s.0| ==> s.1[i] in Keys && s.0[i] in banks[KeyIndex(s.1[i])])
    && (|f.questions| < 5 && NoRepeats(categories) ==>
          forall c :: c in categories && c in Keys ==> |Project(f.questions, f.types, c)| == |banks[KeyIndex(c)]|)
    && after <= s.2 <= after + 5
  }

  /** A selection of the SelectionShape from the shuffled banks has the BankShape. */
  lemma SelectionFromBanks(banks: seq<seq<string>>, rand: Stream, start: nat, categories: seq<string>,
                           after: nat, s: (seq<string>, seq<string>, nat), f: Drawn)
    requires |banks| == |Keys| && |banks[0]| >= 5
    requires SelectionShape(Pools(banks, rand, start), categories, banks[0], after, s, f)
    ensures BankShape(banks, rand, start, categories, after, s, f)
  {
    var pools0 := Pools(banks, rand, start);
    var q, t := f.questions, f.types;
    DrawnArePrefixes(pools0, q, t, f.pools);
    AllDrawnFromBanks(banks, rand, start, q, t, f.pools);
    BehavioralIsKeyZero();
    forall i | 0 <= i < |s.0|
      ensures s.1[i] in Keys && s.0[i] in banks[KeyIndex(s.1[i])]
    {
      if i < |q| {
        assert s.0[i] == q[i] && s.1[i] == t[i];
      } else {
        assert s.0[i] == s.0[|q|..][i - |q|];
      }
    }
    forall c | |q| < 5 && NoRepeats(categories) && c in categories && c in Keys
      ensures |Project(q, t, c)| == |banks[KeyIndex(c)]|
    {
      ExhaustedPool(banks, rand, start, q, t, f.pools, c);
    }
  }

  /** The Selection of the shuffled banks has the BankShape, with the draws after the shuffles. */
  lemma BankSelectionFacts(banks: seq<seq<string>>, role: string, categories: seq<string>, rand: Stream, start: nat)
    requires |banks| == |Keys| && |banks[0]| >= 5
    ensures var pools0 := Pools(banks, rand, start);
      var after := start + ShuffleStart(banks, |Keys|);
      BankShape(banks, rand, start, categories, after,
                Selection(pools0, role, categories, banks[0], rand, after),
                Filled(pools0, categories, rand, after).0)
  {
    var pools0 := Pools(banks, rand, start);
    var after := start + ShuffleStart(banks, |Keys|);
    SelectionFacts(pools0, role, categories, banks[0], rand, after);
    SelectionFromBanks(banks, rand, start, categories, after,
                       Selection(pools0, role, categories, banks[0], rand, after),
                       Filled(pools0, categories, rand, after).0);
  }

  // ---------------------------------------------------------------------
  // Language names and canned feedback
  // ---------------------------------------------------------------------

  /** The language table of `getLanguageName`. */
  const Languages: map<string, string> := map[
    "en" := "English", "es" := "Spanish", "fr" := "French", "de" := "German",
    "zh" := "Chinese", "ja" := "Japanese", "hi" := "Hindi", "ar" := "Arabic",
    "pt" := "Portuguese", "ru" := "Russian"]

  /** `languages[langCode] || "English"`: the listed name, English for any other code. */
  function GetLanguageName(langCode: string): (name: string)
    ensures name in Languages.Values
    ensures langCode !in Languages ==> name == "English"
  {
    assert Languages["en"] == "English";
    if langCode in Languages then Languages[langCode] else "English"
  }

  /** The name-to-code direction of the table, written out independently. */
  const LanguageCodes: map<string, string> := map[
    "English" := "en", "Spanish" := "es", "French" := "fr", "German" := "de",
    "Chinese" := "zh", "Japanese" := "ja", "Hindi" := "hi", "Arabic" := "ar",
    "Portuguese" := "pt", "Russian" := "ru"]

  /** The lookup is one-to-one on the listed codes: the name gives the code back. */
  lemma LanguageNameRoundTrip(langCode: string)
    requires langCode in Languages
    ensures GetLanguageName(langCode) in LanguageCodes
    ensures LanguageCodes[GetLanguageName(langCode)] == langCode
  {
  }

  /** "English" is the answer exactly for "en" and for unlisted codes. */
  lemma EnglishIsTheDefault(langCode: string)
    ensures GetLanguageName(langCode) == "English" <==> langCode == "en" || langCode !in Languages
  {
  }

  const FeedbackOptions: seq<string> := [
    "Your answer addressed the question, but could benefit from more specific examples. Consider using the STAR method (Situation, Task, Action, Result) to structure your response more effectively.",
    "You made some good points in your answer. To strengthen it further, try quantifying your achievements with specific metrics or results where possible.",
    "Your response shows your experience, but could be more concise. Try focusing on the most relevant aspects of your experience that directly answer the question.",
    "You demonstrated good technical knowledge. To improve, consider explaining how your technical skills translated to business impact or team success.",
    "Your answer was thoughtful, but could benefit from better structure. Start with a brief overview, then provide details, and end with a concise summary of your main point."
  ]

  /** The feedback returned when the feedback service fails: option floor(r * 5). */
  function FallbackFeedback(r: Draw): (feedback: string)
    ensures feedback in FeedbackOptions
  {
    FeedbackOptions[ScaledIndex(r, |FeedbackOptions|)]
  }

  /** Every canned option can be returned: the draw k / 5 selects option k. */
  lemma FallbackFeedbackReaches(k: nat)
    requires k < |FeedbackOptions|
    ensures 0.0 <= k as real / 5.0 < 1.0
    ensures FallbackFeedback(k as real / 5.0) == FeedbackOptions[k]
  {
    ScaledIndexReaches(k, 5);
  }


  // ---------------------------------------------------------------------
  // The question banks of `generateFallbackQuestions`
  // ---------------------------------------------------------------------

  /** A bank entry: fixed text, or text with the role inserted between two parts. */
  datatype Template = Plain(text: string) | WithRole(before: string, after: string)

  function Render(t: Template, role: string): (r: string)
    ensures t.Plain? ==> r == t.text
    ensures t.WithRole? ==>
      |r| == |t.before| + |role| + |t.after| && r[..|t.before|] == t.before && r[|t.before| + |role|..] == t.after
  {
    match t
    case Plain(text) => text
    case WithRole(before, after) =>
      assert (before + role + after)[|before| + |role|..] == after;
      before + role + after
  }

  /** How many questions bank i holds: 8 for the first four keys, 4 for the others. */
  function BankSize(i: nat): nat
  {
    if i < 4 then 8 else 4
  }

  lemma BankSizes()
    ensures |BankTemplates| == |Keys|
    ensures forall i :: 0 <= i < |Keys| ==> |BankTemplates[i]| == BankSize(i)
  {
  }

  /** The ten banks for this role, bank i being the one stored under Keys[i]. */
  function Banks(role: string): (banks: seq<seq<string>>)
    ensures |banks| == |Keys|
    ensures forall i :: 0 <= i < |Keys| ==> |banks[i]| == BankSize(i)
  {
    BankSizes();
    seq(|Keys|, i requires 0 <= i < |Keys| =>
      seq(BankSize(i), j requires 0 <= j < BankSize(i) => Render(BankTemplates[i][j], role)))
  }

  /** The bank of questions stored under key c. */
  function BankOf(role: string, c: string): seq<string>
    requires c in Keys
  {
    Banks(role)[KeyIndex(c)]
  }

  /** The shuffles use 7 draws for each of the four large banks and 3 for each other one: 46 in all. */
  lemma {:induction false} ShuffleStartOfSizes(banks: seq<seq<string>>, i: nat)
    requires |banks| == |Keys| && i <= |Keys|
    requires forall j :: 0 <= j < |Keys| ==> |banks[j]| == BankSize(j)
    ensures ShuffleStart(banks, i) == if i <= 4 then 7 * i else 28 + 3 * (i - 4)
  {
    if i > 0 {
      ShuffleStartOfSizes(banks, i - 1);
    }
  }

  /**
   * The BankShape of a selection (questions, types, next) written out
   * with drawn = |f.questions|, the number of questions drawn from the
   * shuffled pools.
   */
  lemma DrawnSelection(banks: seq<seq<string>>, rand: Stream, start: nat, categories: seq<string>, after: nat,
                       questions: seq<string>, types: seq<string>, next: nat, f: Drawn)
    requires |banks| == |Keys| && |banks[0]| >= 5
    requires BankShape(banks, rand, start, categories, after, (questions, types, next), f)
    ensures var drawn := |f.questions|;
      var pools0 := Pools(banks, rand, start);
      var first := FirstPassTypes(categories, pools0);
      && |questions| == |types| == Max(5, |first|)
      && types[..|first|] == first
      && |first| <= drawn <= |questions|
      && (forall i :: 0 <= i < drawn ==> types[i] in categories)
      && (forall c :: c in Keys ==> Project(questions[..drawn], types[..drawn], c) <= pools0[c])
      && questions[drawn..] == banks[0][..|questions| - drawn]
      && (forall i :: drawn <= i < |types| ==> types[i] == "behavioral")
      && (forall i :: 0 <= i < |questions| ==> types[i] in Keys && questions[i] in banks[KeyIndex(types[i])])
      && (drawn < 5 && NoRepeats(categories) ==>
            forall c :: c in categories && c in Keys ==>
              |Project(questions[..drawn], types[..drawn], c)| == |banks[KeyIndex(c)]|)
      && (categories == [] ==> questions == banks[0][..5])
      && after <= next <= after + 5
  {
    var drawn := |f.questions|;
    assert questions[..drawn] == f.questions && types[..drawn] == f.types;
    assert forall i :: 0 <= i < drawn ==> types[i] == f.types[i];
    if categories == [] {
      assert f.types == [];
      assert questions == questions[0..];
    }
  }

  /**
   * What the selection from banks of the sizes of Banks(role) promises,
   * the shuffles taking 46 draws and drawn being the number of questions
   * drawn from the shuffled pools.
   */
  lemma SizedBankSelection(banks: seq<seq<string>>, role: string, categories: seq<string>, rand: Stream, start: nat,
                           questions: seq<string>, types: seq<string>, next: nat, drawn: nat)
    requires |banks| == |Keys| && forall j :: 0 <= j < |Keys| ==> |banks[j]| == BankSize(j)
    requires (questions, types, next)
          == Selection(Pools(banks, rand, start), role, categories, banks[0], rand, start + ShuffleStart(banks, |Keys|))
    requires drawn == |Filled(Pools(banks, rand, start), categories, rand, start + 46).0.questions|
    ensures var pools0 := Pools(banks, rand, start);
      var first := FirstPassTypes(categories, pools0);
      && |questions| == |types| == Max(5, |first|)
      && types[..|first|] == first
      && |first| <= drawn <= |questions|
      && (forall i :: 0 <= i < drawn ==> types[i] in categories)
      && (forall c :: c in Keys ==> Project(questions[..drawn], types[..drawn], c) <= pools0[c])
      && questions[drawn..] <= banks[0]
      && (forall i :: drawn <= i < |types| ==> types[i] == "behavioral")
      && (forall i :: 0 <= i < |questions| ==> types[i] in Keys && questions[i] in banks[KeyIndex(types[i])])
      && (drawn < 5 && NoRepeats(categories) ==>
            forall c :: c in categories && c in Keys ==>
              |Project(questions[..drawn], types[..drawn], c)| == |banks[KeyIndex(c)]|)
      && (categories == [] ==> questions == banks[0][..5])
      && start + 46 <= next <= start + 51
  {
    ShuffleStartOfSizes(banks, |Keys|);
    BankSelectionFacts(banks, role, categories, rand, start);
    var f := Filled(Pools(banks, rand, start), categories, rand, start + 46).0;
    DrawnSelection(banks, rand, start, categories, start + 46, questions, types, next, f);
  }

  /**
   * `generateFallbackQuestions(role, categories)`, the draws of
   * `Math.random()` being rand(start), rand(start + 1), ... The result is
   * the Selection of the banks of Banks(role) shuffled from draw start on,
   * with the draws the 46 shuffle draws leave: five questions, more only when the first pass
   * serves more than five categories; its start is one question per served
   * category; the first `drawn` questions come off the front of the
   * shuffled pools and have requested types; every question belongs to the
   * bank of its type; the rest is the behavioural bank in order; when no
   * category is requested twice, stopping short of five means each
   * requested bank was used up; the shuffles take 46 draws and the fill
   * phase at most five.
   */
  method GenerateFallbackQuestions(role: string, categories: seq<string>, rand: Stream, start: nat)
    returns (questions: seq<string>, types: seq<string>, next: nat, ghost drawn: nat)
    ensures (questions, types, next)
         == Selection(Pools(Banks(role), rand, start), role, categories, Banks(role)[0], rand, start + 46)
    ensures drawn == |Filled(Pools(Banks(role), rand, start), categories, rand, start + 46).0.questions|
    ensures |questions| == |types|
    ensures |questions| == Max(5, |FirstPassTypes(categories, Pools(Banks(role), rand, start))|)
    ensures types[..|FirstPassTypes(categories, Pools(Banks(role), rand, start))|]
         == FirstPassTypes(categories, Pools(Banks(role), rand, start))
    ensures |FirstPassTypes(categories, Pools(Banks(role), rand, start))| <= drawn <= |questions|
    ensures forall i :: 0 <= i < drawn ==> types[i] in categories
    ensures forall c :: c in Keys ==>
      Project(questions[..drawn], types[..drawn], c) <= Pools(Banks(role), rand, start)[c]
    ensures questions[drawn..] <= BankOf(role, "behavioral")
    ensures forall i :: drawn <= i < |types| ==> types[i] == "behavioral"
    ensures forall i :: 0 <= i < |questions| ==> types[i] in Keys && questions[i] in BankOf(role, types[i])
    ensures drawn < 5 && NoRepeats(categories) ==>
      forall c :: c in categories && c in Keys ==>
        |Project(questions[..drawn], types[..drawn], c)| == |BankOf(role, c)|
    ensures categories == [] ==> questions == BankOf(role, "behavioral")[..5]
    ensures start + 46 <= next <= start + 51
  {
    var banks := Banks(role);
    ShuffleStartOfSizes(banks, |Keys|);
    BehavioralIsKeyZero();
    questions, types, next := SelectFromBanks(banks, role, categories, rand, start);
    drawn := |Filled(Pools(banks, rand, start), categories, rand, start + 46).0.questions|;
    SizedBankSelection(banks, role, categories, rand, start, questions, types, next, drawn);
  }

  /** The question templates of each bank, in key order; `${role}` marks where the role is inserted. */
  const BankTemplates: seq<seq<Template>> := [
    // behavioral
    [
      WithRole("Tell me about a challenging situation you faced as a ", " and how you resolved it."),
      WithRole("Describe a time when you had to make a difficult decision in your role as a ", "."),
      WithRole("Share an example of when you had to adapt quickly to changes in a project as a ", "."),
      WithRole("How have you handled disagreements with team members or stakeholders in your ", " position?"),
      WithRole("What's the most innovative solution you've implemented as a ", "?"),
      WithRole("Describe a situation where you had to work under pressure to meet a deadline in your ", " work."),
      WithRole("Tell me about a time you received critical feedback as a ", " and how you responded to it."),
      WithRole("How have you prioritized competing tasks and responsibilities in your ", " position?")
    ],
    // technical
    [
      WithRole("What technical skills do you consider most important for a ", " and why?"),
      WithRole("How do you stay updated with the latest technologies and methodologies relevant to the ", " position?"),
      WithRole("Describe a technical challenge you encountered as a ", " and how you solved it."),
      WithRole("What tools or frameworks do you find most effective in your work as a ", "?"),
      Plain("How would you explain a complex technical concept to a non-technical stakeholder?"),
      WithRole("What's your approach to debugging a complex issue in a ", " context?"),
      WithRole("How do you ensure code quality and maintainability in your projects as a ", "?"),
      WithRole("Describe your experience with [technology relevant to ", "] and how you've applied it.")
    ],
    // coding
    [
      Plain("Implement a function that finds all duplicate elements in an array."),
      Plain("Write a function to determine if a string is a palindrome, considering only alphanumeric characters and ignoring case."),
      Plain("Implement a function that merges two sorted arrays into a single sorted array."),
      Plain("Create a function that returns the nth number in the Fibonacci sequence using an efficient approach."),
      Plain("Write a function to find the longest substring without repeating characters."),
      Plain("Implement a basic calculator that can perform addition, subtraction, multiplication, and division."),
      Plain("Create a function that determines if a binary tree is balanced."),
      Plain("Implement a function that performs a deep clone of a JavaScript object.")
    ],
    // leadership
    [
      WithRole("Describe your leadership style and how it has evolved in your role as a ", "."),
      Plain("Tell me about a time when you had to lead a team through a difficult situation."),
      Plain("How do you motivate team members who are struggling with their tasks?"),
      Plain("Describe a situation where you had to provide constructive feedback to a team member."),
      Plain("How have you handled conflicts within your team?"),
      Plain("Tell me about a time when you had to make an unpopular decision as a leader."),
      Plain("How do you delegate responsibilities effectively?"),
      Plain("Describe how you've mentored or developed someone on your team.")
    ],
    // problemsolving
    [
      WithRole("Describe a complex problem you solved as a ", "."),
      Plain("How do you approach breaking down large problems into manageable tasks?"),
      Plain("Tell me about a time when you had to think outside the box to solve an issue."),
      Plain("How do you validate your solutions to problems?")
    ],
    // communication
    [
      Plain("How do you ensure effective communication across different teams?"),
      Plain("Describe a situation where your communication skills helped resolve a conflict."),
      Plain("How do you tailor your communication style for different audiences?"),
      Plain("Tell me about a time when miscommunication led to a problem and how you fixed it.")
    ],
    // teamwork
    [
      Plain("Describe your role in a successful team project."),
      Plain("How do you contribute to creating a positive team environment?"),
      Plain("Tell me about a time when you had to work with someone difficult."),
      Plain("How do you ensure everyone's voice is heard in a team setting?")
    ],
    // projectmanagement
    [
      Plain("How do you track progress on projects you manage?"),
      Plain("Describe how you handle scope changes in the middle of a project."),
      Plain("How do you prioritize tasks when managing multiple projects?"),
      Plain("Tell me about a project that didn't go as planned and how you handled it.")
    ],
    // systemdesign
    [
      Plain("Describe how you would design a scalable system for [relevant to role]."),
      Plain("How do you approach making architectural decisions?"),
      Plain("Describe a system you designed and the trade-offs you considered."),
      Plain("How do you ensure reliability and performance in your system designs?")
    ],
    // cultural
    [
      Plain("How do you contribute to a positive work culture?"),
      Plain("Describe how you've adapted to different company cultures in your career."),
      Plain("What type of work environment brings out your best performance?"),
      Plain("How do you handle situations that conflict with your values?")
    ]
  ]
}
