/**
 * The assertion and abort helpers. None of them writes anything itself:
 * each decides whether to terminate and, if so, which call it makes to
 * `queuedFatalError`. Only `Because` passes its text through the redactor,
 * using the shared manager's current snapshot.
 */
module Abort {
  import opened Wrappers
  import opened Regex
  import opened Redaction

  /** `Abort.Reason`. */
  datatype Reason = Reason(debugDescription: string)

  /** `Abort.Reason(why)`: the debug description is the text it was made from. */
  function MakeReason(why: string): (r: Reason)
    ensures r.debugDescription == why
  {
    Reason(why)
  }

  /** The arguments of a `queuedFatalError(message, file:, line:)` call. */
  datatype FatalCall = FatalCall(message: string, file: string, line: nat)

  /** What a guard does: return normally, or terminate through this call. */
  datatype Outcome = Continue | Terminated(call: FatalCall)

  const Prefix: string := "Failed assertion in "
  const Separator: string := " - "

  /** The reason given when a main-thread-only call runs elsewhere. */
  const MainThreadReason: string := "This may only be executed on the main thread"

  /** `Abort.Reason.invalidLogic`. */
  const InvalidLogic: Reason := MakeReason("Invalid logic resulted in a failed")

  /** `Abort.Reason.notYetImplemented`. */
  const NotYetImplemented: Reason := MakeReason("This code has not been")

  /** The unredacted message `Failed assertion in <function> - <reason>`. */
  function FailureMessage(functionName: string, reason: string): (message: string)
    ensures |message| == |Prefix| + |functionName| + |Separator| + |reason|
    ensures message[..|Prefix|] == Prefix
    ensures message[|message| - |reason|..] == reason
  {
    Prefix + functionName + Separator + reason
  }

  /** Does `sep` occur in `s` starting at index `i`? */
  predicate OccursAt(s: string, sep: string, i: nat)
  {
    i + |sep| <= |s| && s[i..i + |sep|] == sep
  }

  /** Index of the first occurrence of `sep` in `s` at or after `from`. */
  function FindFrom(s: string, sep: string, from: nat): (r: Option<nat>)
    requires from <= |s|
    ensures r.Some? ==> from <= r.value && OccursAt(s, sep, r.value)
    ensures r.Some? ==> forall k :: from <= k < r.value ==> !OccursAt(s, sep, k)
    ensures r.None? ==> forall k :: from <= k <= |s| ==> !OccursAt(s, sep, k)
    decreases |s| - from
  {
    if OccursAt(s, sep, from) then Some(from)
    else if from + |sep| >= |s| then
      assert forall k :: from < k <= |s| ==> !OccursAt(s, sep, k);
      None
    else FindFrom(s, sep, from + 1)
  }

  /** Recover the function name and the reason from an unredacted message,
      splitting at the first separator after the prefix. */
  function ParseFailureMessage(message: string): Option<(string, string)>
  {
    if |message| < |Prefix| || message[..|Prefix|] != Prefix then None
    else match FindFrom(message, Separator, |Prefix|)
      case None => None
      case Some(i) => Some((message[|Prefix|..i], message[i + |Separator|..]))
  }

  /** No separator starts inside the function name, counting one that
      would run on into the separator the message puts after it. */
  ghost predicate NameEndsBeforeSeparator(functionName: string)
  {
    forall k :: 0 <= k < |functionName| ==> !OccursAt(functionName + Separator, Separator, k)
  }

  /** The message gives back both the function name and the reason exactly
      when no separator starts inside the name (Swift function names hold
      none). */
  lemma FailureMessageRoundTrip(functionName: string, reason: string)
    ensures ParseFailureMessage(FailureMessage(functionName, reason)) == Some((functionName, reason))
        <==> NameEndsBeforeSeparator(functionName)
  {
    var m := FailureMessage(functionName, reason);
    var start := |Prefix|;
    var at := start + |functionName|;
    var tail := functionName + Separator;
    assert m == Prefix + tail + reason;
    assert m[..start] == Prefix;
    assert m[start..at] == functionName;
    assert OccursAt(m, Separator, at) by {
      assert m[at..at + |Separator|] == Separator;
    }
    assert m[at + |Separator|..] == reason;
    forall k | start <= k < at
      ensures OccursAt(m, Separator, k) <==> OccursAt(tail, Separator, k - start)
    {
      assert m[k..k + |Separator|] == tail[k - start..k - start + |Separator|];
    }
    var found := FindFrom(m, Separator, start);
    if NameEndsBeforeSeparator(functionName) {
      assert found == Some(at);
    } else {
      var j :| 0 <= j < |functionName| && OccursAt(tail, Separator, j);
      assert OccursAt(m, Separator, start + j);
      assert found.Some? && found.value <= start + j < at;
    }
  }

  /** `Abort.because(_: String, file:, line:, function:)`: the message is
      the redaction of `Failed assertion in <function> - <reason>`; file and
      line are passed on, the function name only inside the message. */
  function Because(engine: RegexEngine, snapshot: seq<Matcher>, reason: string,
                   file: string, line: nat, functionName: string): (call: FatalCall)
    ensures call.file == file && call.line == line
    ensures call.message == Redact(engine, snapshot, FailureMessage(functionName, reason))
    ensures snapshot == [] ==> call.message == FailureMessage(functionName, reason)
  {
    FatalCall(Redact(engine, snapshot, FailureMessage(functionName, reason)), file, line)
  }

  /** `Abort.because(_: Reason, ...)`: the same as passing the reason's
      debug description. */
  function BecauseReason(engine: RegexEngine, snapshot: seq<Matcher>, reason: Reason,
                         file: string, line: nat, functionName: string): (call: FatalCall)
    ensures call.file == file && call.line == line
    ensures call.message == Redact(engine, snapshot, FailureMessage(functionName, reason.debugDescription))
  {
    Because(engine, snapshot, reason.debugDescription, file, line, functionName)
  }

  /** `Abort.if`: terminates exactly when the condition is true. */
  function If(engine: RegexEngine, snapshot: seq<Matcher>, condition: bool, reason: Reason,
              file: string, line: nat, functionName: string): (r: Outcome)
    ensures r.Terminated? <==> condition
    ensures r.Terminated? ==> r.call == Because(engine, snapshot, reason.debugDescription, file, line, functionName)
  {
    if condition == true then Terminated(BecauseReason(engine, snapshot, reason, file, line, functionName))
    else Continue
  }

  /** `Assert.isMainThread`: terminates exactly when not on the main thread. */
  function IsMainThread(engine: RegexEngine, snapshot: seq<Matcher>, onMainThread: bool,
                        file: string, line: nat, functionName: string): (r: Outcome)
    ensures r.Terminated? <==> !onMainThread
    ensures r.Terminated? ==> r.call == Because(engine, snapshot, MainThreadReason, file, line, functionName)
  {
    if onMainThread then Continue
    else Terminated(Because(engine, snapshot, MainThreadReason, file, line, functionName))
  }

  /** `Assert.that(_, because: Reason)`: terminates exactly when the
      condition is false. */
  function That(engine: RegexEngine, snapshot: seq<Matcher>, condition: bool, because: Reason,
                file: string, line: nat, functionName: string): (r: Outcome)
    ensures r.Terminated? <==> !condition
    ensures r.Terminated? ==> r.call == Because(engine, snapshot, because.debugDescription, file, line, functionName)
  {
    if condition == true then Continue
    else Terminated(BecauseReason(engine, snapshot, because, file, line, functionName))
  }

  /** `Assert.that(_, because: String)`: wraps the text in a reason, so it
      terminates exactly when the condition is false, with that text. */
  function ThatString(engine: RegexEngine, snapshot: seq<Matcher>, condition: bool, because: string,
                      file: string, line: nat, functionName: string): (r: Outcome)
    ensures r.Terminated? <==> !condition
    ensures r.Terminated? ==> r.call == Because(engine, snapshot, because, file, line, functionName)
  {
    That(engine, snapshot, condition, MakeReason(because), file, line, functionName)
  }
}
