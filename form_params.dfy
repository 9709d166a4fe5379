/**
 * Reading and parsing the raw fields of an HTTP form, as the inquiry controller does it.
 *
 * `Integer.parseInt` and `Double.parseDouble` are not modelled digit by digit: they are
 * oracles, total functions from the field's text to a value or to failure, that every
 * operation takes as a parameter. A parsed double is carried as a `real`; nothing in the
 * controller computes with it.
 */
module FormParams {
  import opened Wrappers

  /** The submitted form: a field name maps to its first value; a missing key is a field not sent. */
  type Form = map<string, string>

  /** Java's 32-bit `int`. */
  newtype Int32 = x: int | -0x8000_0000 <= x < 0x8000_0000

  /** `Integer.parseInt` on a non-null string: the value, or `None` where it throws. */
  type IntOracle = string -> Option<Int32>

  /** `Double.parseDouble` on a non-null string: the value, or `None` where it throws. */
  type DoubleOracle = string -> Option<real>

  /** Javalin's `ctx.formParam(key)`: the field's value, or null when it was not sent. */
  function FormParam(form: Form, key: string): (v: Option<string>)
    ensures v.Some? <==> key in form
    ensures v.Some? ==> v.value == form[key]
  {
    if key in form then Some(form[key]) else None
  }

  /**
   * `Character.isWhitespace` on a code point: the Unicode space, line and paragraph
   * separators other than the no-break spaces U+00A0, U+2007 and U+202F, together with
   * the controls TAB, LF, VT, FF, CR and U+001C to U+001F.
   */
  predicate IsJavaWhitespace(c: char)
  {
    c == '\t' || c == '\n' || c == '\U{000B}' || c == '\U{000C}' || c == '\r'
    || ('\U{001C}' <= c <= '\U{001F}')
    || c == ' ' || c == '\U{1680}'
    || ('\U{2000}' <= c <= '\U{2006}') || ('\U{2008}' <= c <= '\U{200A}')
    || c == '\U{2028}' || c == '\U{2029}' || c == '\U{205F}' || c == '\U{3000}'
  }

  /** `String.isBlank`: empty, or white space only. */
  predicate IsBlank(s: string)
  {
    forall i :: 0 <= i < |s| ==> IsJavaWhitespace(s[i])
  }

  /** The controller's required-field test `v == null || v.isBlank()`. */
  predicate MissingOrBlank(v: Option<string>)
  {
    v.None? || IsBlank(v.value)
  }

  /** `Integer.parseInt(ctx.formParam(..))`: a missing field throws as a malformed one does. */
  function ParseIntParam(parseInt: IntOracle, v: Option<string>): Option<Int32>
  {
    match v
    case None => None
    case Some(s) => parseInt(s)
  }

  /** The message `parseFormParamAsDouble` throws for a malformed field. */
  function NotANumber(fieldName: string): (m: string)
    ensures |m| > |fieldName| && m[..|fieldName|] == fieldName
  {
    fieldName + " skal være et tal."
  }

  /**
   * `parseFormParamAsDouble(param, fieldName)`: `Ok(None)` (Java's null) for a missing or
   * empty field, `Ok(Some(v))` for a field the parser accepts, and for a malformed one the
   * message of the `IllegalArgumentException` it throws, which names the caller's label.
   * Only the EMPTY string counts as absent: a field of spaces is handed to the parser.
   */
  function ParseFormParamAsDouble(parseDouble: DoubleOracle, param: Option<string>, fieldName: string)
    : (r: Result<Option<real>, string>)
    ensures r == Ok(None) <==> param.None? || param.value == ""
    ensures param.Some? && param.value != "" ==>
      match parseDouble(param.value)
      case Some(v) => r == Ok(Some(v))
      case None => r == Err(NotANumber(fieldName))
  {
    if param.Some? && param.value != "" then
      match parseDouble(param.value)
      case Some(v) => Ok(Some(v))
      case None => Err(NotANumber(fieldName))
    else
      Ok(None)
  }

  /**
   * A non-empty field of white space only is not treated as absent (the test is emptiness,
   * not blankness): it goes to the parser, and fails with the label's error when the parser
   * rejects it.
   */
  lemma BlankFieldGoesToParser(parseDouble: DoubleOracle, s: string, fieldName: string)
    requires s != "" && IsBlank(s)
    ensures ParseFormParamAsDouble(parseDouble, Some(s), fieldName) != Ok(None)
    ensures match parseDouble(s)
      case Some(v) => ParseFormParamAsDouble(parseDouble, Some(s), fieldName) == Ok(Some(v))
      case None => ParseFormParamAsDouble(parseDouble, Some(s), fieldName) == Err(NotANumber(fieldName))
  {
  }
}
