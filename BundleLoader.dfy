/**
 * `Bundle.loadSecurePatterns(filenames:)`: load each file, in list order,
 * from the receiving bundle into the shared manager, stopping at the first
 * error, which propagates. Loads already done are kept.
 */
module BundleLoader {
  import opened Wrappers
  import opened PatternTypes
  import opened PatternManager

  /** What loading a list of files amounts to: the categories scheduled,
      one entry per successful load, and the error that stopped it, if any. */
  datatype LoadRun = LoadRun(scheduled: seq<seq<PatternCategory>>, failure: Option<LoadFailure>)

  /** The run over `filenames`, file by file. */
  function PlanLoads(bundle: Bundle, filenames: seq<string>): (run: LoadRun)
    ensures |run.scheduled| <= |filenames|
  {
    if filenames == [] then LoadRun([], None)
    else match Lookup(bundle, filenames[0])
      case Err(e) => LoadRun([], Some(e))
      case Ok(categories) =>
        var rest := PlanLoads(bundle, filenames[1..]);
        LoadRun([categories] + rest.scheduled, rest.failure)
  }

  /** The run is determined by the lookups, in list order: the i-th
      scheduled entry is the i-th file's categories; without an error every
      file was scheduled; with one, it is the error of the first file not
      scheduled, and no later file was attempted. */
  lemma {:induction false} PlanLoadsSpec(bundle: Bundle, filenames: seq<string>)
    ensures var run := PlanLoads(bundle, filenames);
            && (forall i :: 0 <= i < |run.scheduled| ==> Lookup(bundle, filenames[i]) == Ok(run.scheduled[i]))
            && (run.failure.None? ==> |run.scheduled| == |filenames|)
            && (run.failure.Some? ==>
                  |run.scheduled| < |filenames| &&
                  Lookup(bundle, filenames[|run.scheduled|]) == Err(run.failure.value))
    decreases |filenames|
  {
    if filenames != [] && Lookup(bundle, filenames[0]).Ok? {
      PlanLoadsSpec(bundle, filenames[1..]);
      var run := PlanLoads(bundle, filenames);
      var rest := PlanLoads(bundle, filenames[1..]);
      forall i | 0 <= i < |run.scheduled|
        ensures Lookup(bundle, filenames[i]) == Ok(run.scheduled[i])
      {
        if i > 0 { assert run.scheduled[i] == rest.scheduled[i - 1]; }
      }
    }
  }

  /** A run that got through a prefix of the names carries on with the rest. */
  lemma {:induction false} PlanLoadsAppend(bundle: Bundle, a: seq<string>, b: seq<string>)
    requires PlanLoads(bundle, a).failure.None?
    ensures PlanLoads(bundle, a + b)
         == LoadRun(PlanLoads(bundle, a).scheduled + PlanLoads(bundle, b).scheduled, PlanLoads(bundle, b).failure)
    decreases |a|
  {
    if a == [] {
      assert a + b == b;
    } else {
      var ab := a + b;
      assert ab[0] == a[0];
      assert ab[1..] == a[1..] + b;
      var categories := Lookup(bundle, a[0]).value;
      var tail := PlanLoads(bundle, a[1..]);
      assert PlanLoads(bundle, a) == LoadRun([categories] + tail.scheduled, tail.failure);
      PlanLoadsAppend(bundle, a[1..], b);
      var rest := PlanLoads(bundle, b);
      assert PlanLoads(bundle, ab) == LoadRun([categories] + (tail.scheduled + rest.scheduled), rest.failure);
      assert [categories] + (tail.scheduled + rest.scheduled) == ([categories] + tail.scheduled) + rest.scheduled;
    }
  }

  /** The run is determined by the lookups: the files scheduled are
      exactly the leading files that load, and the error is the first
      failing file's. */
  lemma PlanLoadsFirstFailure(bundle: Bundle, filenames: seq<string>, i: nat)
    requires i < |filenames|
    requires forall k :: 0 <= k < i ==> Lookup(bundle, filenames[k]).Ok?
    requires Lookup(bundle, filenames[i]).Err?
    ensures PlanLoads(bundle, filenames).failure == Some(Lookup(bundle, filenames[i]).error)
    ensures |PlanLoads(bundle, filenames).scheduled| == i
  {
    PlanLoadsSpec(bundle, filenames);
  }

  /** Load every file, in order, from `bundle`, stopping at the first
      error. The manager's categories and compiled patterns do not change:
      each successful load only schedules its categories. */
  method LoadSecurePatterns(bundle: Bundle, manager: SecurePatternManager, filenames: seq<string>)
    returns (failure: Option<LoadFailure>)
    modifies manager`pendingLoads
    ensures failure == PlanLoads(bundle, filenames).failure
    ensures manager.pendingLoads == old(manager.pendingLoads) + PlanLoads(bundle, filenames).scheduled
    ensures manager.loadedCategories == old(manager.loadedCategories)
    ensures manager.compiledPatterns == old(manager.compiledPatterns)
  {
    failure := None;
    var i := 0;
    while i < |filenames|
      invariant 0 <= i <= |filenames|
      invariant PlanLoads(bundle, filenames[..i]).failure.None?
      invariant manager.pendingLoads == old(manager.pendingLoads) + PlanLoads(bundle, filenames[..i]).scheduled
      invariant manager.loadedCategories == old(manager.loadedCategories)
      invariant manager.compiledPatterns == old(manager.compiledPatterns)
    {
      ghost var done := filenames[..i];
      PlanLoadsAppend(bundle, done, [filenames[i]]);
      assert done + [filenames[i]] == filenames[..i + 1];
      var f := manager.LoadPatterns(bundle, filenames[i]);
      if f.Some? {
        PlanLoadsAppend(bundle, done, filenames[i..]);
        assert done + filenames[i..] == filenames;
        failure := f;
        return;
      }
      i := i + 1;
    }
    assert filenames[..i] == filenames;
  }
}
