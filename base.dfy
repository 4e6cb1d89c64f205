/** Small building blocks shared by the whole model: optional values, results,
    and the handful of PHP value rules the request handlers depend on. */
module Base {

  datatype Option<+T> = None | Some(value: T)

  datatype Result<+T, +E> = Ok(value: T) | Err(error: E)

  /** PHP's `empty($s)` and `!$s` on a string: the empty string and "0" are falsy. */
  predicate Falsy(s: string) {
    s == "" || s == "0"
  }

  /** PHP's `!$id` on an integer request parameter: absent (null) or zero. */
  predicate FalsyId(id: Option<int>) {
    id.None? || id.value == 0
  }

  /** The characters C's `isspace` accepts; `sscanf` skips and stops at these. */
  predicate IsSpace(c: char) {
    c == ' ' || c == '\t' || c == '\n' || c == '\U{0B}' || c == '\U{0C}' || c == '\r'
  }

  predicate IsAlnum(c: char) {
    ('a' <= c <= 'z') || ('A' <= c <= 'Z') || ('0' <= c <= '9')
  }

  /** The shape of `wp_generate_password(n, false)`: `n` letters and digits, no punctuation. */
  predicate IsGeneratedPassword(s: string, n: nat) {
    |s| == n && forall i :: 0 <= i < |s| ==> IsAlnum(s[i])
  }
}
