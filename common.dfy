/**
 * Small building blocks shared by every module: optional values, results
 * that carry an error instead of raising it, Python's notion of a "truthy"
 * optional string, and the few string operations the driver uses
 * (`str.upper`, `str.lower`, `str.startswith`, `str.partition`, `' '.join`).
 */
module Common {

  datatype Option<+T> = None | Some(value: T)

  /** A value, or the exception the Python code would have raised instead. */
  datatype Result<+T, +E> = Success(value: T) | Failure(error: E)

  /** Normal completion, or the exception the Python code would have raised. */
  datatype Outcome<+E> = Pass | Fail(error: E)

  /** Python truthiness of a value that may be None or a string: None and '' are false. */
  predicate Truthy(o: Option<string>) {
    o.Some? && o.value != ""
  }

  /** `c.upper()` restricted to ASCII letters (MAC addresses are ASCII hex). */
  function UpperChar(c: char): (u: char)
    ensures 'a' <= c <= 'z' ==> u as int == c as int - 32
    ensures !('a' <= c <= 'z') ==> u == c
  {
    if 'a' <= c <= 'z' then (c as int - 32) as char else c
  }

  /** `c.lower()` restricted to ASCII letters. */
  function LowerChar(c: char): (l: char)
    ensures 'A' <= c <= 'Z' ==> l as int == c as int + 32
    ensures !('A' <= c <= 'Z') ==> l == c
  {
    if 'A' <= c <= 'Z' then (c as int + 32) as char else c
  }

  /** `s.upper()`: every letter upper-cased, everything else kept, same length. */
  function Upper(s: string): (r: string)
    ensures |r| == |s|
    ensures forall i :: 0 <= i < |s| ==> r[i] == UpperChar(s[i])
  {
    seq(|s|, i requires 0 <= i < |s| => UpperChar(s[i]))
  }

  /** `s.lower()`: every letter lower-cased, everything else kept, same length. */
  function Lower(s: string): (r: string)
    ensures |r| == |s|
    ensures forall i :: 0 <= i < |s| ==> r[i] == LowerChar(s[i])
  {
    seq(|s|, i requires 0 <= i < |s| => LowerChar(s[i]))
  }

  /** Two strings that differ only in the case of their letters upper-case alike. */
  lemma UpperIgnoresCase(a: string, b: string)
    requires Lower(a) == Lower(b)
    ensures Upper(a) == Upper(b)
  {
    assert |a| == |Lower(a)| == |Lower(b)| == |b|;
    forall i | 0 <= i < |a| ensures Upper(a)[i] == Upper(b)[i] {
      assert LowerChar(a[i]) == Lower(a)[i] == Lower(b)[i] == LowerChar(b[i]);
    }
  }

  predicate StartsWith(s: string, prefix: string) {
    |prefix| <= |s| && s[..|prefix|] == prefix
  }

  /**
   * `s.partition(sep)[2]`: the text after the first occurrence of `sep` in
   * `s`, or '' when `sep` does not occur. Python raises for an empty `sep`.
   */
  function AfterFirst(s: string, sep: string): (r: string)
    requires |sep| > 0
    ensures |r| <= |s| && r == s[|s| - |r|..]
    ensures StartsWith(s, sep) ==> r == s[|sep|..]
    decreases |s|
  {
    if |s| < |sep| then ""
    else if s[..|sep|] == sep then s[|sep|..]
    else AfterFirst(s[1..], sep)
  }

  /** The number of characters in all the lines together. */
  function TotalLength(lines: seq<string>): nat {
    if lines == [] then 0 else |lines[0]| + TotalLength(lines[1..])
  }

  /**
   * `' '.join(lines)`: every character of every line, and one space between
   * each pair of neighbouring lines.
   */
  function JoinSpace(lines: seq<string>): (r: string)
    ensures lines == [] ==> r == ""
    ensures lines != [] ==> |r| == TotalLength(lines) + |lines| - 1
    ensures lines != [] ==> StartsWith(r, lines[0])
  {
    if lines == [] then ""
    else if |lines| == 1 then lines[0]
    else
      var r := lines[0] + " " + JoinSpace(lines[1..]);
      assert r[..|lines[0]|] == lines[0];
      r
  }

  /** Joining two non-empty runs of lines is joining each and putting one space between them. */
  lemma {:induction false} JoinSpaceAppend(a: seq<string>, b: seq<string>)
    requires a != [] && b != []
    ensures JoinSpace(a + b) == JoinSpace(a) + " " + JoinSpace(b)
    decreases |a|
  {
    if |a| == 1 {
      assert (a + b)[1..] == b;
    } else {
      assert (a + b)[1..] == a[1..] + b;
      JoinSpaceAppend(a[1..], b);
    }
  }
}
