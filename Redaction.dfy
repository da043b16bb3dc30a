/**
 * What `redactSensitiveInfo` computes: the compiled matchers applied one
 * after another, each to the previous one's output, every one of them
 * searching the range whose length is the UTF-16 length of the ORIGINAL
 * text (the range is computed once, before the loop).
 */
module Redaction {
  import opened Regex

  /** Left fold of `matchers` over `text`, every step searching
      `rangeLength` units. Defined on the last matcher so that a loop over
      the list extends it one step at a time. */
  function ApplyAll(engine: RegexEngine, matchers: seq<Matcher>, text: string, rangeLength: nat): string
    decreases |matchers|
  {
    if matchers == [] then text
    else
      var last := |matchers| - 1;
      Apply(engine, matchers[last], ApplyAll(engine, matchers[..last], text, rangeLength), rangeLength)
  }

  /** The redaction of `text` by a compiled snapshot. */
  function Redact(engine: RegexEngine, matchers: seq<Matcher>, text: string): string
  {
    ApplyAll(engine, matchers, text, Utf16Count(text))
  }

  /** Running two lists of matchers in turn is running their concatenation. */
  lemma {:induction false} ApplyAllAppend(engine: RegexEngine, a: seq<Matcher>, b: seq<Matcher>, text: string, rangeLength: nat)
    ensures ApplyAll(engine, a + b, text, rangeLength)
         == ApplyAll(engine, b, ApplyAll(engine, a, text, rangeLength), rangeLength)
    decreases |b|
  {
    if b == [] {
      assert a + b == a;
    } else {
      var b' := b[..|b| - 1];
      assert (a + b)[..|a + b| - 1] == a + b';
      assert (a + b)[|a + b| - 1] == b[|b| - 1];
      ApplyAllAppend(engine, a, b', text, rangeLength);
    }
  }

  /** With no compiled matchers, redaction is the identity. */
  lemma RedactNoPatterns(engine: RegexEngine, text: string)
    ensures Redact(engine, [], text) == text
  {
  }

  /** The first (highest-priority) matcher sees the original text; every
      later matcher sees the previous output, yet still searches the range
      measured on the original text. */
  lemma RedactFirstThenRest(engine: RegexEngine, m: Matcher, rest: seq<Matcher>, text: string)
    ensures Redact(engine, [m] + rest, text)
         == ApplyAll(engine, rest, Apply(engine, m, text, Utf16Count(text)), Utf16Count(text))
  {
    ApplyAllAppend(engine, [m], rest, text, Utf16Count(text));
    assert [m][..0] == [];
  }

  /** Redacting with a snapshot split in two is redacting with the second
      part the output of the first part, under the original range length;
      this is not in general `Redact` of that output, whose length may differ. */
  lemma RedactSplit(engine: RegexEngine, a: seq<Matcher>, b: seq<Matcher>, text: string)
    ensures Redact(engine, a + b, text)
         == ApplyAll(engine, b, Redact(engine, a, text), Utf16Count(text))
  {
    ApplyAllAppend(engine, a, b, text, Utf16Count(text));
  }
}
