/**
 * The pure pipeline behind `compilePatterns`: flatten the patterns of every
 * category, sort them by descending priority, and keep (paired with its
 * replacement) each pattern whose expression compiles.
 */
module PatternCompiler {
  import opened PatternTypes
  import opened Regex

  /** Every pattern of every category, category by category (`flatMap`). */
  function Flatten(categories: seq<PatternCategory>): (ps: seq<SecurePattern>)
    ensures forall c, p :: c in categories && p in c.patterns ==> p in ps
    ensures forall p :: p in ps ==> exists c :: c in categories && p in c.patterns
  {
    if categories == [] then []
    else categories[0].patterns + Flatten(categories[1..])
  }

  /** Flattening distributes over appending categories. */
  lemma {:induction false} FlattenAppend(a: seq<PatternCategory>, b: seq<PatternCategory>)
    ensures Flatten(a + b) == Flatten(a) + Flatten(b)
    decreases |a|
  {
    if a == [] {
      assert a + b == b;
    } else {
      assert (a + b)[1..] == a[1..] + b;
      FlattenAppend(a[1..], b);
    }
  }

  /** Priorities never increase along `ps`. */
  ghost predicate SortedByPriority(ps: seq<SecurePattern>)
  {
    forall i, j :: 0 <= i < j < |ps| ==> ps[i].priority >= ps[j].priority
  }

  /** Insert `p` into a list sorted by descending priority. */
  function Insert(p: SecurePattern, ps: seq<SecurePattern>): (r: seq<SecurePattern>)
    requires SortedByPriority(ps)
    ensures SortedByPriority(r)
    ensures multiset(r) == multiset(ps) + multiset{p}
    ensures r[0] == p || (ps != [] && r[0] == ps[0])
  {
    if ps == [] || p.priority >= ps[0].priority then
      [p] + ps
    else
      var rest := Insert(p, ps[1..]);
      assert ps == [ps[0]] + ps[1..];
      InsertBelowHead(ps[0], rest);
      assert ([ps[0]] + rest)[0] == ps[0];
      [ps[0]] + rest
  }

  /** Putting `x` before a sorted list whose head has lower or equal
      priority keeps it sorted. */
  lemma InsertBelowHead(x: SecurePattern, rest: seq<SecurePattern>)
    requires SortedByPriority(rest)
    requires rest != [] ==> rest[0].priority <= x.priority
    ensures SortedByPriority([x] + rest)
  {
  }

  /** A sort that `sorted { $0.priority > $1.priority }` may be: every
      result has non-increasing priorities and is a rearrangement of its
      input. The order among equal priorities is left open. */
  ghost predicate IsPrioritySort(sort: seq<SecurePattern> -> seq<SecurePattern>)
  {
    forall ps :: SortedByPriority(sort(ps)) && multiset(sort(ps)) == multiset(ps)
  }

  /** One such sort, by insertion. It is only a witness that priority sorts
      exist; the compiler below works with any of them. */
  function SortByPriority(ps: seq<SecurePattern>): (r: seq<SecurePattern>)
    ensures SortedByPriority(r)
    ensures multiset(r) == multiset(ps)
  {
    if ps == [] then []
    else
      assert ps == [ps[0]] + ps[1..];
      Insert(ps[0], SortByPriority(ps[1..]))
  }

  /** The patterns whose expression compiles, in their order. */
  function Compilable(engine: RegexEngine, ps: seq<SecurePattern>): (r: seq<SecurePattern>)
    ensures |r| <= |ps|
    ensures forall p :: p in r <==> p in ps && engine.compiles(p.pattern)
  {
    if ps == [] then []
    else if engine.compiles(ps[0].pattern) then [ps[0]] + Compilable(engine, ps[1..])
    else Compilable(engine, ps[1..])
  }

  /** The compiled entry of a pattern: its matcher and its own replacement. */
  function ToMatcher(p: SecurePattern): (m: Matcher)
    ensures m.expression == p.pattern && m.template == p.replacement
  {
    Matcher(p.pattern, p.replacement)
  }

  /** `ToMatcher` applied along a list. */
  function Matchers(ps: seq<SecurePattern>): (r: seq<Matcher>)
    ensures |r| == |ps|
    ensures forall i :: 0 <= i < |ps| ==> r[i] == ToMatcher(ps[i])
  {
    if ps == [] then [] else [ToMatcher(ps[0])] + Matchers(ps[1..])
  }

  /** The `compactMap` step: for each pattern in order, its matcher if the
      expression compiles, nothing otherwise. No error is raised. */
  function CompactMap(engine: RegexEngine, ps: seq<SecurePattern>): (r: seq<Matcher>)
    ensures |r| <= |ps|
    ensures forall i :: 0 <= i < |r| ==> engine.compiles(r[i].expression)
  {
    if ps == [] then []
    else if engine.compiles(ps[0].pattern) then [ToMatcher(ps[0])] + CompactMap(engine, ps[1..])
    else CompactMap(engine, ps[1..])
  }

  /** Insertion sort is a priority sort. */
  lemma SortByPriorityIsPrioritySort()
    ensures IsPrioritySort(ps => SortByPriority(ps))
  {
  }

  /** The whole `compilePatterns` pipeline, as a function of the categories
      under a fixed priority sort: every matcher it yields comes from a
      pattern whose expression compiles. */
  function Compile(engine: RegexEngine, sort: seq<SecurePattern> -> seq<SecurePattern>,
                   categories: seq<PatternCategory>): (r: seq<Matcher>)
    ensures forall i :: 0 <= i < |r| ==> engine.compiles(r[i].expression)
  {
    CompactMap(engine, sort(Flatten(categories)))
  }

  /** The sorted patterns that survive compilation, in compiled order. */
  function Survivors(engine: RegexEngine, sort: seq<SecurePattern> -> seq<SecurePattern>,
                     categories: seq<PatternCategory>): seq<SecurePattern>
  {
    Compilable(engine, sort(Flatten(categories)))
  }

  /** `compactMap` is filtering followed by pairing. */
  lemma {:induction false} CompactMapIsMatchersOfCompilable(engine: RegexEngine, ps: seq<SecurePattern>)
    ensures CompactMap(engine, ps) == Matchers(Compilable(engine, ps))
    decreases |ps|
  {
    if ps != [] {
      CompactMapIsMatchersOfCompilable(engine, ps[1..]);
      if engine.compiles(ps[0].pattern) {
        var t := Compilable(engine, ps[1..]);
        assert ([ps[0]] + t)[1..] == t;
      }
    }
  }

  /** Filtering keeps the order, so it keeps a list sorted. */
  lemma {:induction false} CompilableSorted(engine: RegexEngine, ps: seq<SecurePattern>)
    requires SortedByPriority(ps)
    ensures SortedByPriority(Compilable(engine, ps))
    decreases |ps|
  {
    if ps != [] {
      CompilableSorted(engine, ps[1..]);
      var t := Compilable(engine, ps[1..]);
      forall k | 0 <= k < |t| ensures t[k].priority <= ps[0].priority {
        assert t[k] in ps[1..];
      }
    }
  }

  /** How often a pattern occurs after filtering. */
  lemma {:induction false} CompilableCount(engine: RegexEngine, ps: seq<SecurePattern>, x: SecurePattern)
    ensures multiset(Compilable(engine, ps))[x] == if engine.compiles(x.pattern) then multiset(ps)[x] else 0
    decreases |ps|
  {
    if ps != [] {
      CompilableCount(engine, ps[1..], x);
      assert ps == [ps[0]] + ps[1..];
    }
  }

  /** Filtering maps permutations to permutations. */
  lemma CompilablePermutation(engine: RegexEngine, a: seq<SecurePattern>, b: seq<SecurePattern>)
    requires multiset(a) == multiset(b)
    ensures multiset(Compilable(engine, a)) == multiset(Compilable(engine, b))
  {
    forall x ensures multiset(Compilable(engine, a))[x] == multiset(Compilable(engine, b))[x] {
      CompilableCount(engine, a, x);
      CompilableCount(engine, b, x);
    }
  }

  /** Pairing distributes over concatenation. */
  lemma {:induction false} MatchersAppend(a: seq<SecurePattern>, b: seq<SecurePattern>)
    ensures Matchers(a + b) == Matchers(a) + Matchers(b)
  {
  }

  /** Removing one occurrence of the head of `a` from a permutation `b`
      of it leaves a permutation of the rest of `a`. */
  lemma RemoveMatching(a: seq<SecurePattern>, b: seq<SecurePattern>, i: nat)
    requires multiset(a) == multiset(b) && a != [] && i < |b| && b[i] == a[0]
    ensures multiset(a[1..]) == multiset(b[..i] + b[i + 1..])
  {
    assert a == [a[0]] + a[1..];
    assert b == b[..i] + [b[i]] + b[i + 1..];
    calc {
      multiset(a[1..]);
      multiset(a) - multiset{a[0]};
      multiset(b) - multiset{a[0]};
      multiset(b[..i]) + multiset(b[i + 1..]);
      multiset(b[..i] + b[i + 1..]);
    }
  }

  /** Pairing a list split around index `i`. */
  lemma MatchersSplit(b: seq<SecurePattern>, i: nat)
    requires i < |b|
    ensures Matchers(b) == Matchers(b[..i]) + [ToMatcher(b[i])] + Matchers(b[i + 1..])
  {
    var left, right := Matchers(b[..i]), Matchers(b[i + 1..]);
    var r := left + [ToMatcher(b[i])] + right;
    forall k | 0 <= k < |b| ensures r[k] == Matchers(b)[k] {
      if k < i {
        assert r[k] == left[k];
      } else if k > i {
        assert r[k] == right[k - i - 1];
      }
    }
  }

  /** Pairing maps permutations to permutations. */
  lemma {:induction false} MatchersPermutation(a: seq<SecurePattern>, b: seq<SecurePattern>)
    requires multiset(a) == multiset(b)
    ensures multiset(Matchers(a)) == multiset(Matchers(b))
    decreases |a|
  {
    if a == [] {
      assert |b| == |multiset(b)| == 0;
    } else {
      assert a[0] in multiset(b);
      var i :| 0 <= i < |b| && b[i] == a[0];
      var b1, b2 := b[..i], b[i + 1..];
      RemoveMatching(a, b, i);
      MatchersPermutation(a[1..], b1 + b2);
      MatchersSplit(b, i);
      MatchersAppend(b1, b2);
      assert Matchers(a) == [ToMatcher(a[0])] + Matchers(a[1..]);
    }
  }

  /** The compiled list is the survivors, sorted by descending priority,
      each paired with its own replacement; the survivors are exactly the
      flattened patterns whose expression compiles, rearranged. */
  lemma CompileSpec(engine: RegexEngine, sort: seq<SecurePattern> -> seq<SecurePattern>,
                    categories: seq<PatternCategory>)
    requires IsPrioritySort(sort)
    ensures Compile(engine, sort, categories) == Matchers(Survivors(engine, sort, categories))
    ensures SortedByPriority(Survivors(engine, sort, categories))
    ensures multiset(Survivors(engine, sort, categories)) == multiset(Compilable(engine, Flatten(categories)))
  {
    var sorted := sort(Flatten(categories));
    CompactMapIsMatchersOfCompilable(engine, sorted);
    CompilableSorted(engine, sorted);
    CompilablePermutation(engine, sorted, Flatten(categories));
  }

  /** The compiled list holds, counted with multiplicity, one matcher per
      compiling pattern of the categories, whatever their order. */
  lemma CompilePermutation(engine: RegexEngine, sort: seq<SecurePattern> -> seq<SecurePattern>,
                           categories: seq<PatternCategory>)
    requires IsPrioritySort(sort)
    ensures multiset(Compile(engine, sort, categories)) == multiset(CompactMap(engine, Flatten(categories)))
  {
    var flat := Flatten(categories);
    CompileSpec(engine, sort, categories);
    MatchersPermutation(Survivors(engine, sort, categories), Compilable(engine, flat));
    CompactMapIsMatchersOfCompilable(engine, flat);
  }

  /** Patterns that fail to compile are dropped, so there are never more
      compiled matchers than patterns. */
  lemma CompileBound(engine: RegexEngine, sort: seq<SecurePattern> -> seq<SecurePattern>,
                     categories: seq<PatternCategory>)
    requires IsPrioritySort(sort)
    ensures |Compile(engine, sort, categories)| <= |Flatten(categories)|
  {
    CompileSpec(engine, sort, categories);
    var sorted := sort(Flatten(categories));
    assert |sorted| == |multiset(sorted)| == |Flatten(categories)|;
  }

  /** `compactMap` distributes over concatenation. */
  lemma {:induction false} CompactMapAppend(engine: RegexEngine, a: seq<SecurePattern>, b: seq<SecurePattern>)
    ensures CompactMap(engine, a + b) == CompactMap(engine, a) + CompactMap(engine, b)
    decreases |a|
  {
    if a == [] {
      assert a + b == b;
    } else {
      assert (a + b)[1..] == a[1..] + b;
      CompactMapAppend(engine, a[1..], b);
    }
  }

  /** Appending categories adds exactly the new categories' compiling
      patterns to the compiled list (no deduplication by name). */
  lemma CompileAppend(engine: RegexEngine, sort: seq<SecurePattern> -> seq<SecurePattern>,
                      loaded: seq<PatternCategory>, added: seq<PatternCategory>)
    requires IsPrioritySort(sort)
    ensures multiset(Compile(engine, sort, loaded + added))
         == multiset(Compile(engine, sort, loaded)) + multiset(Compile(engine, sort, added))
  {
    CompilePermutation(engine, sort, loaded + added);
    CompilePermutation(engine, sort, loaded);
    CompilePermutation(engine, sort, added);
    FlattenAppend(loaded, added);
    CompactMapAppend(engine, Flatten(loaded), Flatten(added));
  }
}
