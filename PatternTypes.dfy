/**
 * The value types of the redaction rules, as the JSON pattern files
 * describe them, and the errors the loader reports.
 */
module PatternTypes {

  /** One redaction rule: a regular expression, its replacement template,
      a human description and a priority (higher runs earlier). */
  datatype SecurePattern = SecurePattern(
    pattern: string,
    replacement: string,
    description: string,
    priority: int)

  /** A named group of rules, loaded as one unit. */
  datatype PatternCategory = PatternCategory(
    name: string,
    description: string,
    patterns: seq<SecurePattern>)

  /** The library's own error enum. `LoadError` wraps a foreign error,
      represented here by its description. */
  datatype PatternError =
    | FileNotFound(filename: string)
    | InvalidPattern(detail: string)
    | LoadError(cause: string)

  /** What `loadPatterns` can throw: the library's own error, or the opaque
      error of reading the file or decoding its JSON, which propagates
      unwrapped. */
  datatype LoadFailure =
    | Thrown(error: PatternError)
    | ReadOrDecodeFailed
}
