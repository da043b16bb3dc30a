/**
 * The pattern store: loaded categories, the compiled snapshot, and the
 * loads whose background task has not run yet. `LoadPatterns` only looks
 * the file up and decodes it; appending and recompiling happen later, in
 * the detached task, which `RunPendingLoad` performs.
 */
module PatternManager {
  import opened Wrappers
  import opened PatternTypes
  import opened Regex
  import opened PatternCompiler
  import opened Redaction

  /** A resource bundle: for each resource name, the decoded categories of
      `<name>.json`, or `None` when reading or decoding that file fails. A
      name missing from the map has no such resource. */
  datatype Bundle = Bundle(resources: map<string, Option<seq<PatternCategory>>>)

  /** Resolve `<filename>.json` in `bundle`, read it and decode it. */
  function Lookup(bundle: Bundle, filename: string): (r: Result<seq<PatternCategory>, LoadFailure>)
    ensures r == Err(Thrown(FileNotFound(filename))) <==> filename !in bundle.resources
    ensures r.Ok? <==> filename in bundle.resources && bundle.resources[filename].Some?
  {
    if filename !in bundle.resources then Err(Thrown(FileNotFound(filename)))
    else match bundle.resources[filename]
      case None => Err(ReadOrDecodeFailed)
      case Some(categories) => Ok(categories)
  }

  class SecurePatternManager {
    var loadedCategories: seq<PatternCategory>
    var compiledPatterns: seq<Matcher>
    /** Decoded categories of each load whose task has not run, in the
        order the loads returned. */
    var pendingLoads: seq<seq<PatternCategory>>
    const engine: RegexEngine
    /** The library's `sorted(by:)`: some priority sort, fixed for the
        process, whose order among equal priorities is not known. */
    const sort: seq<SecurePattern> -> seq<SecurePattern>

    ghost predicate Valid()
    {
      IsPrioritySort(sort)
    }

    /** The shared instance starts empty. */
    constructor (engine: RegexEngine, sort: seq<SecurePattern> -> seq<SecurePattern>)
      requires IsPrioritySort(sort)
      ensures Valid() && this.engine == engine && this.sort == sort
      ensures loadedCategories == [] && compiledPatterns == [] && pendingLoads == []
    {
      this.engine := engine;
      this.sort := sort;
      loadedCategories := [];
      compiledPatterns := [];
      pendingLoads := [];
    }

    /** Look `filename` up and decode it. On success the categories are only
        scheduled: neither field changes before this returns. On failure
        nothing changes and the error propagates. */
    method LoadPatterns(bundle: Bundle, filename: string) returns (failure: Option<LoadFailure>)
      modifies this`pendingLoads
      ensures Lookup(bundle, filename).Err? ==>
                failure == Some(Lookup(bundle, filename).error) && pendingLoads == old(pendingLoads)
      ensures Lookup(bundle, filename).Ok? ==>
                failure == None && pendingLoads == old(pendingLoads) + [Lookup(bundle, filename).value]
      ensures filename !in bundle.resources ==> failure == Some(Thrown(FileNotFound(filename)))
      ensures loadedCategories == old(loadedCategories) && compiledPatterns == old(compiledPatterns)
    {
      var found := Lookup(bundle, filename);
      match found {
        case Err(e) =>
          failure := Some(e);
        case Ok(categories) =>
          pendingLoads := pendingLoads + [categories];
          failure := None;
      }
    }

    /** Append categories to the store, with no deduplication by name. */
    method AddLoadedCategories(categories: seq<PatternCategory>)
      modifies this`loadedCategories
      ensures loadedCategories == old(loadedCategories) + categories
      ensures compiledPatterns == old(compiledPatterns) && pendingLoads == old(pendingLoads)
    {
      loadedCategories := loadedCategories + categories;
    }

    /** Replace the snapshot by the compilation of the whole store. The
        result depends on the categories alone (and the fixed sort), so
        compiling twice gives the same list. */
    method CompilePatterns()
      requires Valid()
      modifies this`compiledPatterns
      ensures compiledPatterns == Compile(engine, sort, loadedCategories)
      ensures SortedByPriority(Survivors(engine, sort, loadedCategories))
      ensures compiledPatterns == Matchers(Survivors(engine, sort, loadedCategories))
      ensures multiset(compiledPatterns) == multiset(CompactMap(engine, Flatten(loadedCategories)))
      ensures |compiledPatterns| <= |Flatten(loadedCategories)|
      ensures loadedCategories == old(loadedCategories) && pendingLoads == old(pendingLoads)
    {
      compiledPatterns := Compile(engine, sort, loadedCategories);
      CompileSpec(engine, sort, loadedCategories);
      CompilePermutation(engine, sort, loadedCategories);
      CompileBound(engine, sort, loadedCategories);
    }

    /** The detached task of the `i`-th pending load runs: it appends that
        load's categories and then recompiles the whole store. Tasks may run
        in any order. */
    method RunPendingLoad(i: nat)
      requires Valid() && i < |pendingLoads|
      modifies this
      ensures pendingLoads == old(pendingLoads[..i] + pendingLoads[i + 1..])
      ensures loadedCategories == old(loadedCategories) + old(pendingLoads[i])
      ensures compiledPatterns == Compile(engine, sort, loadedCategories)
      ensures multiset(compiledPatterns)
           == multiset(Compile(engine, sort, old(loadedCategories))) + multiset(Compile(engine, sort, old(pendingLoads[i])))
    {
      var categories := pendingLoads[i];
      pendingLoads := pendingLoads[..i] + pendingLoads[i + 1..];
      AddLoadedCategories(categories);
      CompilePatterns();
      CompileAppend(engine, sort, old(loadedCategories), categories);
    }

    /** Apply every compiled matcher in order, each to the previous result,
        all searching the UTF-16 length of the original text. */
    method RedactSensitiveInfo(text: string) returns (result: string)
      ensures result == Redact(engine, compiledPatterns, text)
      ensures compiledPatterns == [] ==> result == text
    {
      result := text;
      var range := Utf16Count(text);
      for k := 0 to |compiledPatterns|
        invariant result == ApplyAll(engine, compiledPatterns[..k], text, range)
      {
        assert compiledPatterns[..k + 1][..k] == compiledPatterns[..k];
        result := Apply(engine, compiledPatterns[k], result, range);
      }
      assert compiledPatterns[..|compiledPatterns|] == compiledPatterns;
    }

    /** The `categories` getter: the store as loaded so far. */
    method Categories() returns (categories: seq<PatternCategory>)
      ensures categories == loadedCategories
    {
      categories := loadedCategories;
    }
  }
}
