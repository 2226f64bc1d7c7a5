/**
 * The application's error values (backend/src/app/errors.ts): ApplicationError
 * and RoutingError, each holding the message given to its constructor, with a
 * fixed name and the text form name + "::" + message.
 */
module Errors {

  /** Separator between an error's name and its message in toString. */
  const Separator: string := "::"

  /** One variant per error class; the payload is the constructor's message. */
  datatype Error = ApplicationError(text: string) | RoutingError(text: string) {

    /** The class's name getter; ApplicationError keeps the source's spelling. */
    function Name(): string {
      match this
      case ApplicationError(_) => "AppricationError"
      case RoutingError(_) => "RoutingError"
    }

    /** The message getter. */
    function Message(): string {
      text
    }

    /** toString. */
    function ToString(): string {
      Name() + Separator + Message()
    }
  }

  /** The name getters return the source's literals, misspelling included. */
  lemma Names(m: string)
    ensures ApplicationError(m).Name() == "AppricationError"
    ensures RoutingError(m).Name() == "RoutingError"
  {
  }

  /** message returns exactly what the constructor was given. */
  lemma MessageKept(m: string)
    ensures ApplicationError(m).Message() == m
    ensures RoutingError(m).Message() == m
  {
  }

  /**
   * toString splits back into its parts: the name, then "::", then the
   * message, and nothing else.
   */
  lemma ToStringParts(e: Error)
    ensures |e.ToString()| == |e.Name()| + 2 + |e.Message()|
    ensures e.ToString()[..|e.Name()|] == e.Name()
    ensures e.ToString()[|e.Name()|..|e.Name()| + 2] == "::"
    ensures e.ToString()[|e.Name()| + 2..] == e.Message()
  {
    var n, s := e.Name(), e.ToString();
    assert s == n + (Separator + e.Message());
    assert s[|n|..] == Separator + e.Message();
  }

  /**
   * toString loses nothing: two errors print the same text exactly when they
   * are of the same class with the same message.
   */
  lemma ToStringInjective(e1: Error, e2: Error)
    ensures e1.ToString() == e2.ToString() <==> e1 == e2
  {
    if e1.ToString() == e2.ToString() {
      // The names differ in their first character, so the classes agree ...
      assert e1.ToString()[0] == e1.Name()[0] && e2.ToString()[0] == e2.Name()[0];
      assert e1.Name() == e2.Name();
      // ... and then the messages are the equal suffixes after the separator.
      ToStringParts(e1);
      ToStringParts(e2);
    }
  }
}
