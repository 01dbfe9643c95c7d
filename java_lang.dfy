/**
 * The few facts about Java's built-in types that the model depends on:
 * the range of an `int`, and how string concatenation prints `null`.
 */
module JavaLang {
  import opened Wrappers

  /** A Java `int`. Codes are only copied, never computed with, so no wrap-around arises. */
  type Int32 = x: int | -0x8000_0000 <= x < 0x8000_0000

  /** A Java `String` reference, which may be `null`. */
  type JavaString = Option<string>

  /** What `"" + s` yields for a possibly-null string `s`: its text, or the four letters `null`. */
  function StringValueOf(s: JavaString): string {
    match s
    case Some(t) => t
    case None => "null"
  }
}
