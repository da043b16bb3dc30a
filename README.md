# RedactedAbortMarkers, modelled in Dafny

RedactedAbortMarkers is a Swift library that redacts sensitive text out of
fatal-error messages. It has four parts:

- **The pattern store.** `SecurePatternManager` keeps the loaded pattern
  categories and compiles them into a list of regular-expression matchers,
  sorted by descending priority.
- **The redactor.** `redactSensitiveInfo` runs the compiled matchers in turn
  over a text.
- **The helpers in `Abort.swift`.** These assertion and abort helpers build
  the message `Failed assertion in <function> - <reason>`, redact it, and
  hand it to `queuedFatalError`.
- **The output queue in `BaseFunctions.swift`.** One serial queue orders all
  prints, error prints and the fatal line, and it is drained at exit.

A bundle extension loads several pattern files, in order.

The model has one module per component:

- `PatternTypes`: the rule, category and error types.
- `Regex`: the boundary with the regular-expression library. It also
  computes the UTF-16 length.
- `PatternCompiler`: the flatten, sort and compactMap pipeline.
- `Redaction`: the fold of matchers over a text.
- `PatternManager`: the store as a class.
- `Abort`: the guards, as functions that return an outcome.
- `OutputSink`: the queue as a class, over buffered standard output and
  unbuffered standard error.
- `BundleLoader`: the loop over file names.

Several external parts are parameters of the model:

- **The regex engine.** It is a pair of function values, `compiles` and
  `apply`, that the model never looks inside.
- **File lookup and JSON decoding.** A `Bundle` is a map from a resource
  name to its decoded categories. `None` stands for a file that cannot be
  read or decoded.
- **Thread checks and file names.** Whether the caller is on the main thread
  is a boolean argument. `lastPathComponent` is a function-valued field of
  the queue.

Several behaviours of the code are kept as written:

- **The search range is measured once.** It is the UTF-16 length of the
  original text, and every matcher searches that length, even after an
  earlier replacement has changed the text's length.
- **`loadPatterns` does not wait for the store to change.** It only records
  the decoded categories as a pending load, so the model places the detached
  task's effect after the return. The task appends them and recompiles; this
  is `RunPendingLoad`.
- **Only `Abort.because` redacts.** `queuedFatalError`, `absurd`,
  `placeholder` and both `abort` overloads write their text unredacted.
- **The priority sort is `sorted(by:)`.** Its order among patterns of equal
  priority is not documented. The manager holds the sort as a parameter that
  is only known to sort by descending priority and to rearrange its input, so
  the model fixes no tie order. Insertion sort is proved to be one such sort.
- **`loadPatterns` throws only `fileNotFound` itself.** Read and decode
  errors propagate unwrapped. `invalidPattern` and `loadError` are never
  thrown, and a pattern that fails to compile is dropped without an error.

The data types transcribe the source's records:

- `PatternTypes.SecurePattern` is `SecurePattern`
  (Sources/RedactedAbortMarkers/SecurePattern.swift:3-8).
- `PatternTypes.PatternCategory` is `PatternCategory`
  (Sources/RedactedAbortMarkers/PatternCategory.swift:3-7).
- `PatternTypes.PatternError` is `PatternError`
  (Sources/RedactedAbortMarkers/PatternError.swift:3-7). `LoadError` carries
  a description of the foreign error.
- `Abort.Reason` is `Abort.Reason` (Sources/RedactedAbortMarkers/Abort.swift:4-9).
  Its initializer is `Abort.MakeReason`.

## Model

| member | source | states |
|---|---|---|
| Regex.Utf16Count | Sources/RedactedAbortMarkers/SecurePatternManager.swift:47 | the range length `text.utf16.count` is at least the Unicode scalar count and at most twice it |
| Regex.Utf16CountAppend | Sources/RedactedAbortMarkers/SecurePatternManager.swift:47 | the UTF-16 length of a concatenation is the sum of the lengths |
| Regex.Utf16CountBmp | Sources/RedactedAbortMarkers/SecurePatternManager.swift:47 | the UTF-16 length equals the Unicode scalar count if and only if every scalar is in the Basic Multilingual Plane |
| PatternCompiler.Flatten | Sources/RedactedAbortMarkers/SecurePatternManager.swift:32-33 | every pattern of every category is in the flattened list, and nothing else is |
| PatternCompiler.FlattenAppend | Sources/RedactedAbortMarkers/SecurePatternManager.swift:32-33 | flattening the concatenation of two category lists concatenates their flattenings |
| PatternCompiler.Insert | Sources/RedactedAbortMarkers/SecurePatternManager.swift:34 | inserting into a list sorted by descending priority keeps it sorted and adds exactly that pattern |
| PatternCompiler.SortByPriority | Sources/RedactedAbortMarkers/SecurePatternManager.swift:34 | insertion sort: the result has non-increasing priorities and is a permutation of its input |
| PatternCompiler.SortByPriorityIsPrioritySort | Sources/RedactedAbortMarkers/SecurePatternManager.swift:34 | a sort with the promises of `sorted { $0.priority > $1.priority }` exists, so the manager's sort parameter can be supplied |
| PatternCompiler.Compilable | Sources/RedactedAbortMarkers/SecurePatternManager.swift:35-39 | a pattern is kept if and only if it is in the input and its expression compiles; the result is never longer than the input |
| PatternCompiler.ToMatcher | Sources/RedactedAbortMarkers/SecurePatternManager.swift:40 | a compiled entry pairs the pattern's expression with the same pattern's replacement |
| PatternCompiler.CompactMap | Sources/RedactedAbortMarkers/SecurePatternManager.swift:35-41 | the `compactMap` step: it is never longer than its input, and every matcher it yields has an expression that compiles |
| PatternCompiler.Compile | Sources/RedactedAbortMarkers/SecurePatternManager.swift:31-42 | the whole pipeline (flatten, priority sort, compactMap) as a function of the categories and the fixed sort; every matcher's expression compiles |
| PatternCompiler.Matchers | Sources/RedactedAbortMarkers/SecurePatternManager.swift:40 | each compiled entry pairs a pattern's expression with that same pattern's replacement |
| PatternCompiler.CompactMapIsMatchersOfCompilable | Sources/RedactedAbortMarkers/SecurePatternManager.swift:35-41 | `compactMap` drops non-compiling patterns without error and pairs the rest, in order |
| PatternCompiler.CompilableSorted | Sources/RedactedAbortMarkers/SecurePatternManager.swift:34-39 | dropping patterns after the sort keeps priorities non-increasing |
| PatternCompiler.CompilablePermutation | Sources/RedactedAbortMarkers/SecurePatternManager.swift:34-39 | filtering two permutations of each other gives two permutations of each other |
| PatternCompiler.MatchersPermutation | Sources/RedactedAbortMarkers/SecurePatternManager.swift:40 | pairing two permutations of each other gives two permutations of each other |
| PatternCompiler.CompileSpec | Sources/RedactedAbortMarkers/SecurePatternManager.swift:31-42 | for any priority sort, the compiled list is the surviving patterns paired with their own replacements; the survivors are sorted by descending priority and are a permutation of the flattened patterns that compile |
| PatternCompiler.CompilePermutation | Sources/RedactedAbortMarkers/SecurePatternManager.swift:32-41 | for any priority sort, the compiled list is a permutation of the matchers of the flattened compiling patterns |
| PatternCompiler.CompileBound | Sources/RedactedAbortMarkers/SecurePatternManager.swift:35-39 | for any priority sort, there are never more compiled matchers than patterns |
| PatternCompiler.CompactMapAppend | Sources/RedactedAbortMarkers/SecurePatternManager.swift:35-41 | compactMap over a concatenation is the concatenation of the two compactMaps |
| PatternCompiler.CompileAppend | Sources/RedactedAbortMarkers/SecurePatternManager.swift:26-42 | for any priority sort, compiling after appending categories yields the old compiled matchers plus those of the new categories, counted with duplicates (no deduplication by name) |
| Redaction.ApplyAll | Sources/RedactedAbortMarkers/SecurePatternManager.swift:50-57 | defines the left fold of matchers over a text, each step on the previous output, all with one given range length |
| Redaction.Redact | Sources/RedactedAbortMarkers/SecurePatternManager.swift:45-60 | defines redaction as that fold, with the range length fixed at the original text's UTF-16 length |
| Redaction.ApplyAllAppend | Sources/RedactedAbortMarkers/SecurePatternManager.swift:50-57 | running two matcher lists in turn equals running their concatenation, each step on the previous output |
| Redaction.RedactNoPatterns | Sources/RedactedAbortMarkers/SecurePatternManager.swift:45-60 | with no compiled matchers the text comes back unchanged |
| Redaction.RedactFirstThenRest | Sources/RedactedAbortMarkers/SecurePatternManager.swift:47-56 | the first matcher sees the original text; the later ones see its output but still search the original text's UTF-16 length |
| Redaction.RedactSplit | Sources/RedactedAbortMarkers/SecurePatternManager.swift:47-56 | redacting with a split snapshot runs the second part on the first part's output with the original range length |
| PatternManager.Lookup | Sources/RedactedAbortMarkers/SecurePatternManager.swift:12-18 | a missing resource gives `fileNotFound(filename)` and only then; decoding succeeds exactly when the resource is present and decodable |
| PatternManager.SecurePatternManager.constructor | Sources/RedactedAbortMarkers/SecurePatternManager.swift:4-9 | the manager starts with no categories, no compiled matchers and no pending load, and with a priority sort whose tie order is unknown |
| PatternManager.SecurePatternManager.LoadPatterns | Sources/RedactedAbortMarkers/SecurePatternManager.swift:12-25 | on a lookup error, throws it and changes nothing; on success, only schedules the decoded categories; the categories and compiled list are unchanged either way |
| PatternManager.SecurePatternManager.AddLoadedCategories | Sources/RedactedAbortMarkers/SecurePatternManager.swift:26-28 | the categories become the old ones followed by the new ones; the compiled list is unchanged |
| PatternManager.SecurePatternManager.CompilePatterns | Sources/RedactedAbortMarkers/SecurePatternManager.swift:31-42 | the compiled list becomes a function of the categories alone, under the fixed sort; its survivors are sorted by descending priority; it is a permutation of the compiling patterns' matchers; it is no longer than the pattern count; no order among equal priorities is fixed |
| PatternManager.SecurePatternManager.RunPendingLoad | Sources/RedactedAbortMarkers/SecurePatternManager.swift:19-22 | the detached task appends one pending load's categories and then recompiles; the compiled list gains exactly that load's compiling patterns |
| PatternManager.SecurePatternManager.RedactSensitiveInfo | Sources/RedactedAbortMarkers/SecurePatternManager.swift:45-60 | the result is the left fold of the compiled matchers in list order, with the range fixed at the original UTF-16 length; no field changes; with no matchers it is the input |
| PatternManager.SecurePatternManager.Categories | Sources/RedactedAbortMarkers/SecurePatternManager.swift:63-65 | the getter returns the loaded categories |
| Abort.MakeReason | Sources/RedactedAbortMarkers/Abort.swift:6-8 | `Abort.Reason(why).debugDescription` is `why` |
| Abort.FailureMessage | Sources/RedactedAbortMarkers/Abort.swift:31 | the message starts with `Failed assertion in `, ends with the reason, and has the combined length of its parts |
| Abort.FailureMessageRoundTrip | Sources/RedactedAbortMarkers/Abort.swift:31 | the function name and the reason can be recovered from the failure message if and only if no " - " starts inside the function name |
| Abort.Because | Sources/RedactedAbortMarkers/Abort.swift:25-40 | the fatal call carries the caller's file and line and the redacted failure message; the function name is passed only inside the message; with no patterns the message is unredacted |
| Abort.BecauseReason | Sources/RedactedAbortMarkers/Abort.swift:11-23 | gives the same fatal call as `Because` with the reason's debug description |
| Abort.If | Sources/RedactedAbortMarkers/Abort.swift:42-58 | terminates if and only if the condition is true, and then with the `Because` call for its reason |
| Abort.IsMainThread | Sources/RedactedAbortMarkers/Abort.swift:62-76 | terminates if and only if not on the main thread, with the main-thread reason |
| Abort.That | Sources/RedactedAbortMarkers/Abort.swift:78-94 | terminates if and only if the condition is false, and then with the `Because` call for its reason |
| Abort.ThatString | Sources/RedactedAbortMarkers/Abort.swift:96-114 | same as `That` with the text wrapped in a reason: terminates if and only if the condition is false, with that text |
| OutputSink.Flush | Sources/RedactedAbortMarkers/BaseFunctions.swift:39 | after a flush nothing is buffered; the stdout text and the stderr text are unchanged; earlier device writes stay in place |
| OutputSink.CText | Sources/RedactedAbortMarkers/BaseFunctions.swift:40 | the text `fputs` receives from a Swift string: the longest prefix before the first U+0000, which holds no U+0000 and is followed by one in the original when it is shorter |
| OutputSink.CTextNoNul | Sources/RedactedAbortMarkers/BaseFunctions.swift:40 | a string without U+0000 is written whole |
| OutputSink.CTextAppendNoNul | Sources/RedactedAbortMarkers/BaseFunctions.swift:52 | a prefix without U+0000 is written whole and the cut falls in what follows it |
| OutputSink.CTextAppendNul | Sources/RedactedAbortMarkers/BaseFunctions.swift:52 | when a prefix holds U+0000, nothing after it is written |
| OutputSink.WriteStderr | Sources/RedactedAbortMarkers/BaseFunctions.swift:40 | a stderr write appends the text up to its first U+0000 (all of it when it holds none) to stderr, leaves stdout and the buffer as they were, and is the last write on the device |
| OutputSink.RunJob | Sources/RedactedAbortMarkers/BaseFunctions.swift:26-42 | a print job appends its text and a newline to stdout; an error-print job flushes stdout and appends `text + "\n"` to stderr, cut at its first U+0000; nothing else is written |
| OutputSink.RunJobs | Sources/RedactedAbortMarkers/BaseFunctions.swift:26-42 | jobs run in FIFO order: stdout gets the print texts in queue order, and stderr gets the error-print lines in queue order, each cut at its first U+0000 |
| OutputSink.ErrorFollowsEarlierOutput | Sources/RedactedAbortMarkers/BaseFunctions.swift:37-41 | an error print flushes stdout first: when its line reaches stderr, every earlier print is already on the device; the line is written whole when the text holds no U+0000 |
| OutputSink.ErrorPrintCut | Sources/RedactedAbortMarkers/BaseFunctions.swift:40 | an error print whose text holds U+0000 writes only the part before it, with no newline |
| OutputSink.Decimal | Sources/RedactedAbortMarkers/BaseFunctions.swift:52 | the line number is rendered as a non-empty string of decimal digits with no leading zero |
| OutputSink.DecimalRoundTrip | Sources/RedactedAbortMarkers/BaseFunctions.swift:52 | reading the rendered digits back gives the line number |
| OutputSink.FatalLine | Sources/RedactedAbortMarkers/BaseFunctions.swift:52 | the fatal line begins with the message text and ends with a newline |
| OutputSink.FatalLineIsOneLine | Sources/RedactedAbortMarkers/BaseFunctions.swift:52 | `"<text>: file <name>, line <n>\n"` is exactly one line when the text and the name contain no newline |
| OutputSink.FatalStreams | Sources/RedactedAbortMarkers/BaseFunctions.swift:49-53 | defines the effect of the fatal path on the streams: run the queued jobs, flush stdout, write the fatal line to stderr through `fputs` |
| OutputSink.FatalLineComesLast | Sources/RedactedAbortMarkers/BaseFunctions.swift:48-56 | the fatal line, as `fputs` writes it, is the last write; every job queued earlier has run and its output reached the device before it |
| OutputSink.FatalLineWritten | Sources/RedactedAbortMarkers/BaseFunctions.swift:52 | the whole fatal line reaches stderr when neither the message nor the file name holds U+0000; when the message holds one, only the message up to it is written, with no location and no newline |
| OutputSink.OutputQueue.constructor | Sources/RedactedAbortMarkers/BaseFunctions.swift:4-13 | before first use there is no queue, no exit handler, no job and no output |
| OutputSink.OutputQueue.Use | Sources/RedactedAbortMarkers/BaseFunctions.swift:4-19 | the first use creates the queue and installs the exit handler together |
| OutputSink.OutputQueue.QueuedPrint | Sources/RedactedAbortMarkers/BaseFunctions.swift:26-30 | only appends a print job; nothing is written |
| OutputSink.OutputQueue.QueuedPrintError | Sources/RedactedAbortMarkers/BaseFunctions.swift:37-42 | only appends an error-print job; nothing is written |
| OutputSink.OutputQueue.RunNext | Sources/RedactedAbortMarkers/BaseFunctions.swift:26-42 | the serial worker runs the oldest job and removes it from the queue |
| OutputSink.OutputQueue.Drain | Sources/RedactedAbortMarkers/BaseFunctions.swift:17 | waiting on the queue runs every pending job in FIFO order and leaves it empty |
| OutputSink.OutputQueue.QueuedFatalError | Sources/RedactedAbortMarkers/BaseFunctions.swift:48-56 | runs every earlier job, flushes stdout, writes the unredacted fatal line with the file's base name through `fputs` (cut at its first U+0000), then terminates |
| OutputSink.OutputQueue.QueuedFatalErrorReason | Sources/RedactedAbortMarkers/BaseFunctions.swift:58-60 | the same as `QueuedFatalError` with the reason's debug description |
| OutputSink.OutputQueue.Absurd | Sources/RedactedAbortMarkers/BaseFunctions.swift:62-64 | terminates like `QueuedFatalError` with the invalid-logic reason text |
| OutputSink.OutputQueue.Placeholder | Sources/RedactedAbortMarkers/BaseFunctions.swift:66-68 | terminates like `QueuedFatalError` with the not-yet-implemented reason text |
| OutputSink.OutputQueue.AbortWhy | Sources/RedactedAbortMarkers/BaseFunctions.swift:70-72 | terminates like `QueuedFatalError` with the given text |
| OutputSink.OutputQueue.AbortReason | Sources/RedactedAbortMarkers/BaseFunctions.swift:74-76 | terminates like `QueuedFatalError` with the reason's debug description |
| OutputSink.OutputQueue.Run | Sources/RedactedAbortMarkers/Abort.swift:35-39 | a guard that continues changes no field of the queue; a terminating guard's call runs as `QueuedFatalError`, after which the queue exists |
| OutputSink.OutputQueue.Exit | Sources/RedactedAbortMarkers/BaseFunctions.swift:15-19 | at exit every pending job runs in FIFO order, stdout is flushed, and the process ends; whether the queue and its exit handler exist does not change |
| BundleLoader.PlanLoads | Sources/RedactedAbortMarkers/Extensions/Bundle+Extensions.swift:4-8 | at most one load is scheduled per file name |
| BundleLoader.PlanLoadsSpec | Sources/RedactedAbortMarkers/Extensions/Bundle+Extensions.swift:5-7 | files load in list order; with no error, every file is scheduled; otherwise the error is the first failing file's and no later file is attempted |
| BundleLoader.PlanLoadsAppend | Sources/RedactedAbortMarkers/Extensions/Bundle+Extensions.swift:5-7 | loads that succeeded before a later error are kept: a run that got through a prefix carries on with the rest |
| BundleLoader.PlanLoadsFirstFailure | Sources/RedactedAbortMarkers/Extensions/Bundle+Extensions.swift:6 | if file i is the first to fail, the run stops with its error after exactly i scheduled loads |
| BundleLoader.LoadSecurePatterns | Sources/RedactedAbortMarkers/Extensions/Bundle+Extensions.swift:4-8 | loads the files from the receiving bundle in order and stops at the first error; earlier loads stay scheduled; an empty list does nothing; categories and compiled matchers do not change |

## Left out

- Regular-expression semantics are left out. Case-insensitive compilation,
  matching and back-reference templates are inside the opaque `compiles` and
  `apply`.
- PatternManager.SecurePatternManager.RedactSensitiveInfo: `apply` is a total
  function, so the model assumes that every replacement call returns. It
  cannot express the case where an earlier replacement has shortened the text
  below the UTF-16 length measured on the original. There the next call gets
  a range past the end of its text, raises a range exception and ends the
  process: redaction does not return, and inside `Abort.because` no fatal
  line is written. `Redaction.Redact`, `Abort.Because` and
  `OutputSink.FatalLineComesLast` describe only runs where every range fits.
- Automatic flushes of standard output are not modelled: line buffering on
  a terminal and flushes when the buffer fills. Text reaches the device only
  through an explicit flush, an error-print job, the fatal path or exit. The
  ordering lemmas rest on those explicit flushes.
- File lookup, `Data(contentsOf:)` and `JSONDecoder` are left out. A `Bundle`
  map replaces them, and the foreign read or decode error is a single
  `ReadOrDecodeFailed` with no payload.
- PatternManager.SecurePatternManager.RunPendingLoad: the task's append and
  compile run as one step. Two pending tasks can interleave, and a compile
  can read the category list while another task appends to it. That data
  race is not modelled. The tasks may run in any order.
- The `Task`, `async`, `DispatchQueue` threads and QoS are not modelled, and
  neither are the real `atexit`, the `abort()` signal or
  `Thread.isMainThread`. Only their sequential effect is modelled; the
  main-thread check is a boolean argument.
- `lastPathComponent` is the queue's `basename` function field, not a
  hand-written path parser.
- Abort.If: a guard's condition is a boolean value. The model cannot observe
  that the condition closure is evaluated exactly once per call. This
  applies to `Abort.That`, `Abort.ThatString` and `Abort.IsMainThread` too.
- Swift `String` is modelled as a sequence of Unicode scalars (Dafny `char`).
  Grapheme-cluster `Character`s, `text.count` and the canonical-equivalence
  `==` of Swift strings are not modelled. Only `text.utf16.count` is used,
  and it is computed from the scalars. A string passed to `fputs` is cut at
  its first U+0000, as the C function does; `print` writes it whole.
- `queuedPrint` is generic over any `Sendable` value. The model takes the
  value's printed description as a string.
- Line numbers are `UInt` in the source and unbounded naturals here.
- `Sources/RedactedAbortMarkers/Assert.swift` is not modelled. It is a second
  `enum Assert` that calls an `Abort.because(_:sourceLocation:)` overload
  that does not exist.
- `Sources/RedactedAbortMarkers/Core/SourceLocation.swift` is not modelled.
  The caller's file, line and function arrive as plain arguments.
- The reason literals other than `invalidLogic` and `notYetImplemented` are
  not modelled, because nothing in the modelled code uses them. `Package.swift` is
  not modelled.
