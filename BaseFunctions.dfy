/**
 * The serial output queue. Prints and error prints are jobs appended to a
 * FIFO that one worker runs in order; a fatal error waits until every job
 * queued before it has run, flushes standard output, writes one line to
 * standard error and terminates; at exit the queue is drained.
 *
 * Standard output is buffered: in this model what `print` writes stays in
 * `buffer` until an explicit flush moves it to the device; the C library's
 * own flushes (at a newline on a terminal, or when the buffer fills) are not
 * modelled. Standard error is unbuffered. `device` records, in order,
 * everything that has reached the operating system.
 */
module OutputSink {
  import opened Abort

  datatype Job = PrintJob(text: string) | PrintErrorJob(text: string)

  datatype Emission = Stdout(text: string) | Stderr(text: string)

  datatype Streams = Streams(buffer: string, device: seq<Emission>)

  const EmptyStreams: Streams := Streams([], [])

  /** The text of the standard-output writes among `device`, in order. */
  function StdoutText(device: seq<Emission>): string
  {
    if device == [] then []
    else
      var last := device[|device| - 1];
      StdoutText(device[..|device| - 1]) + (if last.Stdout? then last.text else [])
  }

  /** The text of the standard-error writes among `device`, in order. */
  function StderrText(device: seq<Emission>): string
  {
    if device == [] then []
    else
      var last := device[|device| - 1];
      StderrText(device[..|device| - 1]) + (if last.Stderr? then last.text else [])
  }

  /** Everything written to standard output, delivered or still buffered. */
  function AllStdout(s: Streams): string
  {
    StdoutText(s.device) + s.buffer
  }

  /** Appending one write to the device extends the text of its stream. */
  lemma DeviceTextSnoc(device: seq<Emission>, e: Emission)
    ensures StdoutText(device + [e]) == StdoutText(device) + (if e.Stdout? then e.text else [])
    ensures StderrText(device + [e]) == StderrText(device) + (if e.Stderr? then e.text else [])
  {
  }

  /** `fflush(stdout)`: the buffered text reaches the device. */
  function Flush(s: Streams): (r: Streams)
    ensures r.buffer == []
    ensures AllStdout(r) == AllStdout(s)
    ensures StderrText(r.device) == StderrText(s.device)
    ensures s.device <= r.device
  {
    if s.buffer == [] then s
    else
      DeviceTextSnoc(s.device, Stdout(s.buffer));
      Streams([], s.device + [Stdout(s.buffer)])
  }

  /** Whether a string holds no U+0000. */
  predicate NoNul(s: string)
  {
    forall i :: 0 <= i < |s| ==> s[i] != '\0'
  }

  /** The C string a Swift string becomes when passed to `fputs`: the C
      function stops at the first U+0000, so only the text before it is
      written. */
  function CText(s: string): (c: string)
    ensures c <= s
    ensures NoNul(c)
    ensures |c| < |s| ==> s[|c|] == '\0'
  {
    if s == [] || s[0] == '\0' then [] else [s[0]] + CText(s[1..])
  }

  /** A string without U+0000 reaches `fputs` whole. */
  lemma CTextNoNul(s: string)
    requires NoNul(s)
    ensures CText(s) == s
  {
  }

  /** A prefix without U+0000 is written whole, and the cut falls in what
      follows it. */
  lemma {:induction false} CTextAppendNoNul(a: string, b: string)
    requires NoNul(a)
    ensures CText(a + b) == a + CText(b)
  {
    if a == [] {
      assert a + b == b;
    } else {
      var t := a + b;
      assert t[0] == a[0] != '\0';
      assert t[1..] == a[1..] + b;
      assert NoNul(a[1..]) by {
        forall i | 0 <= i < |a[1..]| ensures a[1..][i] != '\0' {
          assert a[1..][i] == a[i + 1];
        }
      }
      CTextAppendNoNul(a[1..], b);
      assert CText(t) == [a[0]] + CText(t[1..]);
      assert a == [a[0]] + a[1..];
    }
  }

  /** When a prefix holds U+0000, nothing after it is written. */
  lemma {:induction false} CTextAppendNul(a: string, b: string)
    requires !NoNul(a)
    ensures CText(a + b) == CText(a)
  {
    if a[0] != '\0' {
      assert (a + b)[1..] == a[1..] + b;
      CTextAppendNul(a[1..], b);
    }
  }

  /** `fputs(text, stderr)`: straight to the device, up to the first
      U+0000 of `text`. */
  function WriteStderr(s: Streams, text: string): (r: Streams)
    ensures r.buffer == s.buffer
    ensures r.device == s.device + [Stderr(CText(text))]
    ensures StdoutText(r.device) == StdoutText(s.device)
    ensures StderrText(r.device) == StderrText(s.device) + CText(text)
    ensures NoNul(text) ==> StderrText(r.device) == StderrText(s.device) + text
  {
    DeviceTextSnoc(s.device, Stderr(CText(text)));
    Streams(s.buffer, s.device + [Stderr(CText(text))])
  }

  /** What a job prints to standard output. */
  function PrintedBy(job: Job): string
  {
    if job.PrintJob? then job.text + "\n" else []
  }

  /** What a job writes to standard error: `fputs` cuts the line at its
      first U+0000. */
  function ErrorBy(job: Job): string
  {
    if job.PrintErrorJob? then CText(job.text + "\n") else []
  }

  /** Run one job: `print(object)`, or `fflush(stdout)` then
      `fputs(text + "\n", stderr)`. */
  function RunJob(s: Streams, job: Job): (r: Streams)
    ensures AllStdout(r) == AllStdout(s) + PrintedBy(job)
    ensures StderrText(r.device) == StderrText(s.device) + ErrorBy(job)
    ensures s.device <= r.device
  {
    match job
    case PrintJob(text) => Streams(s.buffer + text + "\n", s.device)
    case PrintErrorJob(text) => WriteStderr(Flush(s), text + "\n")
  }

  /** Concatenated standard-output text of `jobs`. */
  function PrintedText(jobs: seq<Job>): string
  {
    if jobs == [] then [] else PrintedText(jobs[..|jobs| - 1]) + PrintedBy(jobs[|jobs| - 1])
  }

  /** Concatenated standard-error text of `jobs`. */
  function ErrorText(jobs: seq<Job>): string
  {
    if jobs == [] then [] else ErrorText(jobs[..|jobs| - 1]) + ErrorBy(jobs[|jobs| - 1])
  }

  /** Proof hint: concatenation is associative. Stated separately because
      the solver does not find it unaided inside `RunJobs`. */
  lemma Associative(a: string, b: string, c: string)
    ensures (a + b) + c == a + (b + c)
  {
  }

  /** Run `jobs` in FIFO order. Each job's output follows all output of the
      jobs before it, on both streams. */
  function RunJobs(s: Streams, jobs: seq<Job>): (r: Streams)
    ensures AllStdout(r) == AllStdout(s) + PrintedText(jobs)
    ensures StderrText(r.device) == StderrText(s.device) + ErrorText(jobs)
    ensures s.device <= r.device
  {
    if jobs == [] then s
    else
      var init, last := jobs[..|jobs| - 1], jobs[|jobs| - 1];
      var prev := RunJobs(s, init);
      var r := RunJob(prev, last);
      Associative(AllStdout(s), PrintedText(init), PrintedBy(last));
      Associative(StderrText(s.device), ErrorText(init), ErrorBy(last));
      r
  }

  /** An error print appears on the device only after all standard output
      of the jobs queued before it: at the moment of the stderr write, the
      device holds every earlier print. */
  lemma ErrorFollowsEarlierOutput(s: Streams, jobs: seq<Job>, text: string)
    ensures var r := RunJobs(s, jobs + [PrintErrorJob(text)]);
            && r.buffer == []
            && |r.device| > 0
            && r.device[|r.device| - 1] == Stderr(CText(text + "\n"))
            && (NoNul(text) ==> r.device[|r.device| - 1] == Stderr(text + "\n"))
            && StdoutText(r.device[..|r.device| - 1]) == AllStdout(s) + PrintedText(jobs)
  {
    var js := jobs + [PrintErrorJob(text)];
    assert js[..|js| - 1] == jobs;
    var f := Flush(RunJobs(s, jobs));
    assert RunJobs(s, js) == WriteStderr(f, text + "\n");
    assert StdoutText(f.device) == AllStdout(s) + PrintedText(jobs);
    if NoNul(text) {
      CTextAppendNoNul(text, "\n");
    }
  }

  /** An error print whose text holds U+0000 writes only the part before
      it, and no newline. */
  lemma ErrorPrintCut(s: Streams, text: string)
    requires !NoNul(text)
    ensures var r := RunJob(s, PrintErrorJob(text));
            && r.device[|r.device| - 1] == Stderr(CText(text))
            && CText(text) < text
            && StderrText(r.device) == StderrText(s.device) + CText(text)
  {
    CTextAppendNul(text, "\n");
  }

  /** The decimal digits of a number, as Swift's interpolation of an
      unsigned integer writes them. */
  function Decimal(n: nat): (r: string)
    ensures |r| > 0
    ensures forall i :: 0 <= i < |r| ==> '0' <= r[i] <= '9'
    ensures r[0] == '0' ==> n == 0
    ensures n == 0 ==> r == "0"
  {
    if n < 10 then [DigitChar(n)]
    else Decimal(n / 10) + [DigitChar(n % 10)]
  }

  function DigitChar(d: nat): (c: char)
    requires d < 10
    ensures '0' <= c <= '9'
  {
    ['0', '1', '2', '3', '4', '5', '6', '7', '8', '9'][d]
  }

  /** The value of a string of decimal digits. */
  function DecimalValue(s: string): nat
    requires forall i :: 0 <= i < |s| ==> '0' <= s[i] <= '9'
  {
    if s == [] then 0
    else DecimalValue(s[..|s| - 1]) * 10 + ((s[|s| - 1] as int) - ('0' as int))
  }

  /** Reading the digits back gives the number: the line number in a fatal
      line is exact. */
  lemma {:induction false} DecimalRoundTrip(n: nat)
    ensures DecimalValue(Decimal(n)) == n
    decreases n
  {
    var r := Decimal(n);
    if n < 10 {
      assert r[..|r| - 1] == [];
    } else {
      DecimalRoundTrip(n / 10);
      assert r[..|r| - 1] == Decimal(n / 10);
    }
  }

  /** `"<text>: file <basename>, line <n>\n"`. */
  function FatalLine(text: string, basename: string, line: nat): (l: string)
    ensures |l| > |text| && l[..|text|] == text
    ensures l[|l| - 1] == '\n'
  {
    text + ": file " + basename + ", line " + Decimal(line) + "\n"
  }

  /** The fatal line is one line: when neither the message nor the file
      name holds a newline, its only newline is the last character. */
  lemma FatalLineIsOneLine(text: string, basename: string, line: nat)
    requires forall i :: 0 <= i < |text| ==> text[i] != '\n'
    requires forall i :: 0 <= i < |basename| ==> basename[i] != '\n'
    ensures var l := FatalLine(text, basename, line);
            && l[|l| - 1] == '\n'
            && forall i :: 0 <= i < |l| - 1 ==> l[i] != '\n'
  {
  }

  /** What `queuedFatalError` leaves on the streams: the queued jobs run,
      standard output is flushed, and the fatal line is written. */
  function FatalStreams(s: Streams, jobs: seq<Job>, text: string, basename: string, line: nat): Streams
  {
    WriteStderr(Flush(RunJobs(s, jobs)), FatalLine(text, basename, line))
  }

  /** The fatal line is the last thing written, and every print and error
      print queued before it has reached the device ahead of it. */
  lemma FatalLineComesLast(s: Streams, jobs: seq<Job>, text: string, basename: string, line: nat)
    ensures var r := FatalStreams(s, jobs, text, basename, line);
            && r.buffer == []
            && |r.device| > 0
            && r.device[|r.device| - 1] == Stderr(CText(FatalLine(text, basename, line)))
            && StdoutText(r.device) == AllStdout(s) + PrintedText(jobs)
            && StderrText(r.device) == StderrText(s.device) + ErrorText(jobs) + CText(FatalLine(text, basename, line))
  {
  }

  /** What `fputs` makes of the fatal line: all of it when neither the
      message nor the file name holds U+0000; only the message up to its
      first U+0000, with no location and no newline, when the message
      holds one. */
  lemma FatalLineWritten(text: string, basename: string, line: nat)
    ensures NoNul(text) && NoNul(basename) ==>
              CText(FatalLine(text, basename, line)) == FatalLine(text, basename, line)
    ensures !NoNul(text) ==>
              CText(FatalLine(text, basename, line)) == CText(text) &&
              CText(text) < text
  {
    var rest := ": file " + basename + ", line " + Decimal(line) + "\n";
    assert FatalLine(text, basename, line) == text + rest;
    if !NoNul(text) {
      CTextAppendNul(text, rest);
    } else if NoNul(basename) {
      assert NoNul(text + rest) by {
        var d := Decimal(line);
        assert rest == ": file " + basename + ", line " + d + "\n";
        forall i | 0 <= i < |text + rest|
          ensures (text + rest)[i] != '\0'
        {
          if i >= |text| + 7 + |basename| + 7 && i < |text| + 7 + |basename| + 7 + |d| {
            assert (text + rest)[i] == d[i - |text| - 14 - |basename|];
          }
        }
      }
      CTextNoNul(text + rest);
    }
  }

  class OutputQueue {
    /** Whether the lazily created queue exists yet. */
    var created: bool
    /** Whether the exit handler has been registered. */
    var exitHandlerInstalled: bool
    var pending: seq<Job>
    var streams: Streams
    var terminated: bool
    /** `lastPathComponent`, a foreign call. */
    const basename: string -> string

    /** The exit handler is installed together with the queue, and nothing
        can be queued on a queue that does not exist. */
    ghost predicate Valid()
      reads this
    {
      exitHandlerInstalled == created && (!created ==> pending == [])
    }

    constructor (basename: string -> string)
      ensures Valid() && !created && !terminated
      ensures pending == [] && streams == EmptyStreams && this.basename == basename
    {
      this.basename := basename;
      created := false;
      exitHandlerInstalled := false;
      pending := [];
      streams := EmptyStreams;
      terminated := false;
    }

    /** First use of `outputQueue`: create it, then install the exit handler. */
    method Use()
      requires Valid()
      modifies this`created, this`exitHandlerInstalled
      ensures Valid() && created
    {
      if !created {
        created := true;
        exitHandlerInstalled := true;
      }
    }

    /** `queuedPrint`: append a job; nothing is written now. */
    method QueuedPrint(text: string)
      requires Valid() && !terminated
      modifies this
      ensures Valid() && created && !terminated
      ensures pending == old(pending) + [PrintJob(text)]
      ensures streams == old(streams)
    {
      Use();
      pending := pending + [PrintJob(text)];
    }

    /** `queuedPrintError`: append a job; nothing is written now. */
    method QueuedPrintError(text: string)
      requires Valid() && !terminated
      modifies this
      ensures Valid() && created && !terminated
      ensures pending == old(pending) + [PrintErrorJob(text)]
      ensures streams == old(streams)
    {
      Use();
      pending := pending + [PrintErrorJob(text)];
    }

    /** The serial worker runs the oldest job. */
    method RunNext()
      requires Valid() && !terminated && pending != []
      modifies this`pending, this`streams
      ensures Valid() && !terminated
      ensures pending == old(pending[1..])
      ensures streams == RunJob(old(streams), old(pending[0]))
    {
      var job := pending[0];
      pending := pending[1..];
      streams := RunJob(streams, job);
    }

    /** Wait for every queued job to run, in FIFO order. */
    method Drain()
      requires Valid() && !terminated
      modifies this`pending, this`streams
      ensures Valid() && !terminated && pending == []
      ensures streams == RunJobs(old(streams), old(pending))
    {
      ghost var jobs := pending;
      ghost var start := streams;
      var k := 0;
      while pending != []
        invariant Valid() && !terminated
        invariant 0 <= k <= |jobs|
        invariant pending == jobs[k..]
        invariant streams == RunJobs(start, jobs[..k])
        decreases |pending|
      {
        assert jobs[..k + 1][..k] == jobs[..k];
        RunNext();
        k := k + 1;
      }
      assert jobs[..k] == jobs;
    }

    /** `queuedFatalError(string, file:, line:)`: synchronously after every
        earlier job, flush standard output, write the fatal line, then
        terminate. The text is written as given, with no redaction here. */
    method QueuedFatalError(text: string, file: string, line: nat)
      requires Valid() && !terminated
      modifies this
      ensures Valid() && created && terminated && pending == []
      ensures streams == FatalStreams(old(streams), old(pending), text, basename(file), line)
    {
      Use();
      Drain();
      streams := WriteStderr(Flush(streams), FatalLine(text, basename(file), line));
      terminated := true;
    }

    /** `queuedFatalError(_: Abort.Reason, ...)`. */
    method QueuedFatalErrorReason(reason: Reason, file: string, line: nat)
      requires Valid() && !terminated
      modifies this
      ensures Valid() && created && terminated && pending == []
      ensures streams == FatalStreams(old(streams), old(pending), reason.debugDescription, basename(file), line)
    {
      QueuedFatalError(reason.debugDescription, file, line);
    }

    /** `absurd()`: terminates with the invalid-logic reason. */
    method Absurd(file: string, line: nat)
      requires Valid() && !terminated
      modifies this
      ensures Valid() && created && terminated && pending == []
      ensures streams == FatalStreams(old(streams), old(pending), InvalidLogic.debugDescription, basename(file), line)
    {
      QueuedFatalErrorReason(InvalidLogic, file, line);
    }

    /** `placeholder()`: terminates with the not-yet-implemented reason. */
    method Placeholder(file: string, line: nat)
      requires Valid() && !terminated
      modifies this
      ensures Valid() && created && terminated && pending == []
      ensures streams == FatalStreams(old(streams), old(pending), NotYetImplemented.debugDescription, basename(file), line)
    {
      QueuedFatalErrorReason(NotYetImplemented, file, line);
    }

    /** `abort(_: String, ...)`. */
    method AbortWhy(why: string, file: string, line: nat)
      requires Valid() && !terminated
      modifies this
      ensures Valid() && created && terminated && pending == []
      ensures streams == FatalStreams(old(streams), old(pending), why, basename(file), line)
    {
      QueuedFatalError(why, file, line);
    }

    /** `abort(_: Abort.Reason, ...)`. */
    method AbortReason(reason: Reason, file: string, line: nat)
      requires Valid() && !terminated
      modifies this
      ensures Valid() && created && terminated && pending == []
      ensures streams == FatalStreams(old(streams), old(pending), reason.debugDescription, basename(file), line)
    {
      QueuedFatalError(reason.debugDescription, file, line);
    }

    /** A guard's outcome carried out: return, or make its fatal call. */
    method Run(outcome: Outcome)
      requires Valid() && !terminated
      modifies this
      ensures Valid()
      ensures outcome.Continue? ==> unchanged(this)
      ensures outcome.Terminated? ==>
                created && terminated && pending == [] &&
                streams == FatalStreams(old(streams), old(pending), outcome.call.message,
                                        basename(outcome.call.file), outcome.call.line)
    {
      if outcome.Terminated? {
        QueuedFatalError(outcome.call.message, outcome.call.file, outcome.call.line);
      }
    }

    /** Normal process exit: the handler, if installed, drains the queue;
        the C runtime then flushes standard output. */
    method Exit()
      requires Valid() && !terminated
      modifies this
      ensures terminated && pending == []
      ensures created == old(created) && exitHandlerInstalled == old(exitHandlerInstalled)
      ensures streams == Flush(RunJobs(old(streams), old(pending)))
    {
      if exitHandlerInstalled {
        Drain();
      }
      streams := Flush(streams);
      terminated := true;
    }
  }
}
