/** The small part of the JavaScript and Lightning runtime that the three
    components rely on: optional values, the outcome of a backend call, toast
    notifications, `Array.prototype.map`, string `length` (UTF-16 code units)
    and `String.prototype.trim`. */
module Runtime {

  /** JavaScript `null` / `undefined` versus a present value. */
  datatype Option<+T> = None | Some(value: T)

  /** `error.body` of a rejected Apex call: missing altogether, or present
      with or without a `message`. */
  datatype ErrorBody = NoBody | Body(message: Option<string>)

  /** How an Apex call settles: it resolves with a value, or it rejects with an
      error carrying an `ErrorBody`. */
  datatype Outcome<+T> = Success(value: T) | Failure(body: ErrorBody)

  /** The payload of a `ShowToastEvent`. */
  datatype Toast = Toast(title: string, message: string, variant: string)

  const ErrorTitle := "Error"
  const SuccessTitle := "Success"

  function ErrorToast(message: string): Toast {
    Toast(ErrorTitle, message, "error")
  }

  function SuccessToast(message: string): Toast {
    Toast(SuccessTitle, message, "success")
  }

  /** A string is truthy in JavaScript exactly when it is not empty. */
  predicate Truthy(s: string) {
    s != ""
  }

  /** `error?.body?.message || fallback`: the backend's message when there is a
      non-empty one, otherwise the operation's fixed text. */
  function ErrorText(body: ErrorBody, fallback: string): (r: string)
    ensures body.Body? && body.message.Some? && Truthy(body.message.value) ==> r == body.message.value
    ensures body.NoBody? || body.message.None? || !Truthy(body.message.value) ==> r == fallback
    ensures Truthy(fallback) ==> Truthy(r)
  {
    match body
    case Body(Some(m)) => if Truthy(m) then m else fallback
    case _ => fallback
  }

  /** `xs.map(f)`: same length, same order, each element transformed. */
  function Map<A, B>(xs: seq<A>, f: A -> B): (r: seq<B>)
    ensures |r| == |xs|
    ensures forall i :: 0 <= i < |xs| ==> r[i] == f(xs[i])
  {
    if xs == [] then [] else [f(xs[0])] + Map(xs[1..], f)
  }

  /** `s.length` in JavaScript counts UTF-16 code units, so a character outside
      the Basic Multilingual Plane counts twice. */
  function Utf16Length(s: string): (n: nat)
    ensures |s| <= n <= 2 * |s|
  {
    if s == [] then 0
    else (if s[0] as int > 0xFFFF then 2 else 1) + Utf16Length(s[1..])
  }

  /** For text made only of Basic Multilingual Plane characters JavaScript's
      length is the number of characters. */
  lemma {:induction false} Utf16LengthOfBmp(s: string)
    requires forall i :: 0 <= i < |s| ==> s[i] as int <= 0xFFFF
    ensures Utf16Length(s) == |s|
  {
    if s != [] {
      assert s[0] as int <= 0xFFFF;
      assert forall i :: 0 <= i < |s[1..]| ==> s[1..][i] == s[i + 1];
      Utf16LengthOfBmp(s[1..]);
    }
  }

  /** The characters `String.prototype.trim` removes: the WhiteSpace and
      LineTerminator code points of section 12.2 and 12.3 of ECMA-262. */
  predicate IsJsWhitespace(c: char) {
    var n := c as int;
    n == 0x09 || n == 0x0A || n == 0x0B || n == 0x0C || n == 0x0D || n == 0x20
    || n == 0xA0 || n == 0x1680 || (0x2000 <= n <= 0x200A)
    || n == 0x2028 || n == 0x2029 || n == 0x202F || n == 0x205F
    || n == 0x3000 || n == 0xFEFF
  }

  /** Removes leading whitespace: the result is a suffix of `s`, everything
      dropped is whitespace and the result does not start with whitespace. */
  function TrimStart(s: string): (r: string)
    ensures |r| <= |s| && r == s[|s| - |r|..]
    ensures forall i :: 0 <= i < |s| - |r| ==> IsJsWhitespace(s[i])
    ensures r == [] || !IsJsWhitespace(r[0])
  {
    if s != [] && IsJsWhitespace(s[0]) then TrimStart(s[1..]) else s
  }

  /** Removes trailing whitespace: the result is a prefix of `s`, everything
      dropped is whitespace and the result does not end with whitespace. */
  function TrimEnd(s: string): (r: string)
    ensures |r| <= |s| && r == s[..|r|]
    ensures forall i :: |r| <= i < |s| ==> IsJsWhitespace(s[i])
    ensures r == [] || !IsJsWhitespace(r[|r| - 1])
  {
    if s != [] && IsJsWhitespace(s[|s| - 1]) then TrimEnd(s[..|s| - 1]) else s
  }

  /** `s.trim()`. */
  function Trim(s: string): string {
    TrimEnd(TrimStart(s))
  }

  /** `s.trim() === ''`: true exactly when every character is whitespace. */
  predicate IsBlank(s: string): (r: bool)
    ensures r <==> forall i :: 0 <= i < |s| ==> IsJsWhitespace(s[i])
  {
    Trim(s) == ""
  }
}
