/** The slice of the Python runtime that the input generator relies on:
    the values that settings hold, the objects a setter may be handed,
    the exceptions raised along the way, `str.join`, and the
    whitespace test behind `str.strip()`. */
module Runtime {

  datatype Option<+T> = None | Some(value: T)

  /** A settings value. The generator only ever asks whether a value's type
      is exactly `str`; every other value (number, bool, dict, list) is
      carried by the text Python's `str()` prints for it, which the
      generator interpolates verbatim. */
  datatype Value = Str(s: string) | NonStr(printed: string)

  /** A settings mapping: top-level tag name to value. */
  type Settings = map<string, Value>

  /** An `ase.Atoms` object, known only by its identity. */
  datatype Atoms = Atoms(handle: nat)

  /** An arbitrary Python object handed to a setter whose parameter is untyped. */
  datatype PyObject = PyNone | PyStr(s: string) | PyAtoms(atoms: Atoms) | PyOther(handle: nat)

  /** `isinstance(o, ase.Atoms)` */
  predicate IsAtoms(o: PyObject) {
    o.PyAtoms?
  }

  /** The exceptions the modelled code can raise. */
  datatype Error =
    | TypeError(expected: string)         // an argument was not of the expected type
    | KeyError(key: string)               // a missing dictionary key
    | NameError(name: string)             // a global name that is not defined
    | UnboundLocalError(name: string)     // a local variable read before any assignment
    | OSError(path: string)               // a file that cannot be opened
    | ValueError(path: string)            // a file that opens but holds no usable settings
    | InputGeneratorError(message: string) // GPAWInputGeneratorError, raised by the write guards

  datatype Result<+T> = Success(value: T) | Failure(error: Error)

  datatype Outcome = Pass | Fail(error: Error)

  /** `sep.join(parts)` */
  function Join(sep: string, parts: seq<string>): string
    decreases |parts|
  {
    if |parts| == 0 then ""
    else if |parts| == 1 then parts[0]
    else parts[0] + sep + Join(sep, parts[1..])
  }

  /** Joining a part in front of a non-empty list adds one separator. */
  lemma JoinCons(sep: string, head: string, tail: seq<string>)
    requires |tail| > 0
    ensures Join(sep, [head] + tail) == head + sep + Join(sep, tail)
  {
    assert ([head] + tail)[1..] == tail;
  }

  /** Joining three parts puts exactly one separator between neighbours. */
  lemma JoinThree(sep: string, a: string, b: string, c: string)
    ensures Join(sep, [a, b, c]) == a + sep + b + sep + c
  {
    JoinCons(sep, b, [c]);
    assert [b] + [c] == [b, c];
    JoinCons(sep, a, [b, c]);
    assert [a] + [b, c] == [a, b, c];
  }

  /** Joining four parts puts exactly one separator between neighbours. */
  lemma JoinFour(sep: string, a: string, b: string, c: string, d: string)
    ensures Join(sep, [a, b, c, d]) == a + sep + b + sep + c + sep + d
  {
    JoinThree(sep, b, c, d);
    JoinCons(sep, a, [b, c, d]);
    assert [a] + [b, c, d] == [a, b, c, d];
  }

  /** Joining five parts puts exactly one separator between neighbours. */
  lemma JoinFive(sep: string, a: string, b: string, c: string, d: string, e: string)
    ensures Join(sep, [a, b, c, d, e]) == a + sep + b + sep + c + sep + d + sep + e
  {
    JoinFour(sep, b, c, d, e);
    JoinCons(sep, a, [b, c, d, e]);
    assert [a] + [b, c, d, e] == [a, b, c, d, e];
  }

  /** `s.endswith(suffix)` */
  predicate EndsWith(s: string, suffix: string) {
    |suffix| <= |s| && s[|s| - |suffix|..] == suffix
  }

  /** A join of five parts ends with the separator and the last part. */
  lemma JoinFiveEndsWith(sep: string, a: string, b: string, c: string, d: string, e: string)
    ensures EndsWith(Join(sep, [a, b, c, d, e]), sep + e)
  {
    JoinFive(sep, a, b, c, d, e);
    var front := a + sep + b + sep + c + sep + d;
    assert Join(sep, [a, b, c, d, e]) == front + (sep + e);
  }

  /** A join whose first part is not empty starts with that part's first
      character. */
  lemma JoinFirstChar(sep: string, parts: seq<string>)
    requires |parts| > 0 && |parts[0]| > 0
    ensures |Join(sep, parts)| > 0 && Join(sep, parts)[0] == parts[0][0]
  {
  }

  /** A text whose first character is not whitespace is not blank. */
  lemma NotBlankByFirstChar(s: string)
    requires |s| > 0 && !IsPyWhitespace(s[0])
    ensures !IsBlank(s)
  {
  }

  /** The characters for which Python's `str.isspace()` holds, and hence the
      ones `str.strip()` removes when called without arguments. */
  predicate IsPyWhitespace(c: char) {
    c == ' ' || c == '\t' || c == '\n' || c == '\r' || c == '\U{000B}' || c == '\U{000C}'
    || ('\U{001C}' <= c <= '\U{001F}') || c == '\U{0085}' || c == '\U{00A0}' || c == '\U{1680}'
    || ('\U{2000}' <= c <= '\U{200A}') || c == '\U{2028}' || c == '\U{2029}' || c == '\U{202F}'
    || c == '\U{205F}' || c == '\U{3000}'
  }

  /** `s.strip() == ''`: every character of `s` is whitespace. */
  predicate IsBlank(s: string) {
    forall i :: 0 <= i < |s| ==> IsPyWhitespace(s[i])
  }
}
