/**
 * The boundary with the regular-expression library. Compiling an expression
 * (case-insensitively) and replacing its matches in a range of a string are
 * foreign operations: the engine is a pair of function values that the
 * model never looks inside. What the model does compute itself is the
 * UTF-16 length of a string, which the redactor uses as the search range.
 */
module Regex {

  /** An opaque regular-expression engine.
      `compiles(expr)` says whether `expr` compiles; `apply(expr, template,
      text, rangeLength)` replaces every match of `expr` in the first
      `rangeLength` UTF-16 units of `text` by `template`. */
  datatype RegexEngine = RegexEngine(
    compiles: string -> bool,
    apply: (string, string, string, nat) -> string)

  /** A compiled matcher paired with its replacement template. The compiled
      expression is represented by its source text. */
  datatype Matcher = Matcher(expression: string, template: string)

  /** Replace the matches of `m` in `text`, searching `rangeLength` units. */
  function Apply(engine: RegexEngine, m: Matcher, text: string, rangeLength: nat): string
  {
    engine.apply(m.expression, m.template, text, rangeLength)
  }

  /** Number of UTF-16 code units that encode `c`: scalar values outside
      the Basic Multilingual Plane take a surrogate pair. */
  function Utf16Units(c: char): nat
  {
    if c as int < 0x1_0000 then 1 else 2
  }

  /** `text.utf16.count`. */
  function Utf16Count(s: string): (n: nat)
    ensures |s| <= n <= 2 * |s|
  {
    if s == [] then 0 else Utf16Count(s[..|s| - 1]) + Utf16Units(s[|s| - 1])
  }

  /** The UTF-16 length of a concatenation is the sum of the lengths. */
  lemma {:induction false} Utf16CountAppend(a: string, b: string)
    ensures Utf16Count(a + b) == Utf16Count(a) + Utf16Count(b)
    decreases |b|
  {
    if b == [] {
      assert a + b == a;
    } else {
      var b' := b[..|b| - 1];
      assert (a + b)[..|a + b| - 1] == a + b';
      assert (a + b)[|a + b| - 1] == b[|b| - 1];
      Utf16CountAppend(a, b');
    }
  }

  /** A string of Basic-Multilingual-Plane characters has one UTF-16 unit
      per character, so only there does the range equal the character count. */
  lemma {:induction false} Utf16CountBmp(s: string)
    ensures Utf16Count(s) == |s| <==> forall i :: 0 <= i < |s| ==> s[i] as int < 0x1_0000
    decreases |s|
  {
    if s != [] {
      var s' := s[..|s| - 1];
      Utf16CountBmp(s');
      if Utf16Count(s) == |s| {
        assert Utf16Count(s') >= |s'|;
        assert Utf16Units(s[|s| - 1]) == 1;
        forall i | 0 <= i < |s| ensures s[i] as int < 0x1_0000 {
          if i < |s| - 1 { assert s[i] == s'[i]; }
        }
      } else if forall i :: 0 <= i < |s| ==> s[i] as int < 0x1_0000 {
        assert false;
      }
    }
  }
}
