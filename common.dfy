/** Values shared by every part of the model: optional values, results, the
    exceptions the program raises, and the few string predicates it uses. */
module Common {

  datatype Option<+T> = None | Some(value: T)

  datatype Result<+T, +E> = Success(value: T) | Failure(error: E)

  /** The exceptions raised by the modelled code, with what each carries. */
  datatype Error =
    | ValueError(message: string)          // `raise ValueError(message)`
    | FileNotFoundError(message: string)   // raised by `open`, `os.listdir` or explicitly
    | KeyError(key: string)                // a missing dictionary key
    | AssertionError(message: string)      // `raise AssertionError(message)`
    | RunFailed(status: string)            // `Exception("Run failed with status: " + status)`
    | RequestFailed(statusCode: int)       // `Exception("API call failed with status code ...")`
    | IndexError                           // indexing an empty list
    | SystemExit(code: int, printed: string) // `print(printed); exit(code)`

  /** The message the operating system gives when `path` cannot be opened or listed. */
  function NoSuchFileMessage(path: string): string {
    "[Errno 2] No such file or directory: '" + path + "'"
  }

  /** Python truthiness of an optional string: present and non-empty. */
  predicate Truthy(s: Option<string>) {
    s.Some? && s.value != ""
  }

  /** `s.startswith(prefix)` */
  predicate StartsWith(s: string, prefix: string) {
    |prefix| <= |s| && s[..|prefix|] == prefix
  }

  /** `s.endswith(suffix)` */
  predicate EndsWith(s: string, suffix: string) {
    |suffix| <= |s| && s[|s| - |suffix|..] == suffix
  }

  /** `t` occurs in `s` starting at position `i`. */
  predicate OccursAt(s: string, t: string, i: int) {
    0 <= i <= |s| - |t| && s[i..i + |t|] == t
  }

  /** `t in s` for strings: `t` occurs as a contiguous substring of `s`. */
  predicate Contains(s: string, t: string) {
    exists i | 0 <= i <= |s| - |t| :: OccursAt(s, t, i)
  }

  /** `str.lower()` on one character, restricted to the ASCII letters. */
  function LowerChar(c: char): char {
    if 'A' <= c <= 'Z' then (c as int + 32) as char else c
  }

  /** `str.lower()`, character by character. */
  function Lower(s: string): string {
    seq(|s|, i requires 0 <= i < |s| => LowerChar(s[i]))
  }
}
