/** The misuse error `IllegalResultAccessError` raised by the Result accessors
    when the caller reads the part of a Result that is not there, and the
    message it carries. */
module AccessErrors {
  import opened Options

  /** Which part of a Result an accessor tried to read. */
  datatype Subject = Value | Error

  /** The string each subject stands for. */
  function SubjectText(s: Subject): (t: string)
    ensures |t| == 5
    ensures s == Value <==> t == "value"
  {
    match s
    case Value => "value"
    case Error => "error"
  }

  const Prefix: string := "Attempted to access result "
  const Suffix: string := " but it does not exist"

  /** The message of an `IllegalResultAccessError` built for subject `s`. */
  function ErrorMessage(s: Subject): (m: string)
    ensures |m| == |Prefix| + 5 + |Suffix|
    ensures m[..|Prefix|] == Prefix
    ensures m[|Prefix|..|Prefix| + 5] == SubjectText(s)
    ensures m[|m| - |Suffix|..] == Suffix
  {
    Prefix + SubjectText(s) + Suffix
  }

  /** Reads the subject back out of a message; `None` for any text that is
      not the message of an access error. */
  function ParseAccessMessage(m: string): (s: Option<Subject>)
    ensures s.Some? ==> |m| == |Prefix| + 5 + |Suffix|
  {
    if |m| != |Prefix| + 5 + |Suffix| then None
    else if m[..|Prefix|] != Prefix || m[|Prefix| + 5..] != Suffix then None
    else if m[|Prefix|..|Prefix| + 5] == "value" then Some(Value)
    else if m[|Prefix|..|Prefix| + 5] == "error" then Some(Error)
    else None
  }

  /** Parsing recovers the subject from its message. */
  lemma MessageRoundTrip(s: Subject)
    ensures ParseAccessMessage(ErrorMessage(s)) == Some(s)
  {
  }

  /** A text parses to a subject exactly when it is that subject's message. */
  lemma ParsesIffMessage(m: string, s: Subject)
    ensures ParseAccessMessage(m) == Some(s) <==> m == ErrorMessage(s)
  {
  }

  /** The two messages differ, so a message tells which accessor was misused. */
  lemma MessageDeterminesSubject(s1: Subject, s2: Subject)
    ensures ErrorMessage(s1) == ErrorMessage(s2) <==> s1 == s2
  {
  }

  /** The exact text expected when `unwrap()` is misused. */
  lemma ValueMessageText()
    ensures ErrorMessage(Value) == "Attempted to access result value but it does not exist"
  {
  }

  /** The exact text expected when `unwrapErr()` is misused. */
  lemma ErrorMessageText()
    ensures ErrorMessage(Error) == "Attempted to access result error but it does not exist"
  {
  }
}
