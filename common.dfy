/** Failure-carrying values shared by every part of the model, and the
    string helpers the Java code gets from its standard library. */
module Common {

  datatype Option<+T> = None | Some(value: T)

  /** A Java exception, reduced to its kind and its message. */
  datatype Exception =
    | IllegalArgument(message: string)   // thrown by the core itself
    | ServiceFailure(message: string)    // raised by an external call (I/O, HTTP, gRPC)

  /** The value a Java method returns, or the exception it throws. */
  datatype Result<+T> = Ok(value: T) | Err(error: Exception)

  /** The completion of a Java `void` method: normal return or exception. */
  datatype Outcome = Pass | Fail(error: Exception)

  /** The parts joined end to end, in order: `Collectors.joining()` with no
      separator on strings, `addAll` of each part in turn on lists. */
  function Concat<T>(parts: seq<seq<T>>): (r: seq<T>)
    ensures parts == [] ==> r == []
    ensures |parts| == 1 ==> r == parts[0]
  {
    if parts == [] then [] else parts[0] + Concat(parts[1..])
  }

  lemma {:induction false} ConcatAppend<T>(a: seq<seq<T>>, b: seq<seq<T>>)
    ensures Concat(a + b) == Concat(a) + Concat(b)
  {
    if a == [] {
      assert a + b == b;
    } else {
      assert (a + b)[1..] == a[1..] + b;
      ConcatAppend(a[1..], b);
    }
  }

  /** `Character.isWhitespace`: the ASCII controls it accepts and the Unicode
      space, line and paragraph separators other than the non-breaking ones. */
  predicate IsWhitespace(c: char)
  {
    || c == ' ' || c == '\t' || c == '\n' || c == '\U{000B}' || c == '\U{000C}' || c == '\r'
    || ('\U{001C}' <= c <= '\U{001F}')
    || c == '\U{1680}'
    || ('\U{2000}' <= c <= '\U{2006}') || ('\U{2008}' <= c <= '\U{200A}')
    || c == '\U{2028}' || c == '\U{2029}' || c == '\U{205F}' || c == '\U{3000}'
  }

  /** `String.isBlank`: empty, or whitespace only. */
  predicate IsBlank(s: string)
  {
    forall i :: 0 <= i < |s| ==> IsWhitespace(s[i])
  }
}
