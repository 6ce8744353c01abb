/**
 * The backup log `backup_log.txt`: one line per entry, `[<tag>] <message>`,
 * always opened in append mode, so earlier lines are never rewritten.
 */
module SessionLog {

  /** The outcome tag that opens every log line. */
  datatype Tag = Ok | Fail | Skip | Error

  /** One line of the log, before rendering. */
  datatype LogEntry = LogEntry(tag: Tag, message: string)

  /** The text inside the brackets: `✅ OK`, `❌ FAIL`, `SKIP` and `ERROR`. */
  function TagText(t: Tag): string
  {
    match t
    case Ok => "\U{2705} OK"
    case Fail => "\U{274C} FAIL"
    case Skip => "SKIP"
    case Error => "ERROR"
  }

  /** The line as written to the file (without its newline). */
  function Line(e: LogEntry): string
  {
    "[" + TagText(e.tag) + "] " + e.message
  }

  /** The whole log file: every line followed by `\n`, in write order. */
  function FileText(log: seq<LogEntry>): string
  {
    if log == [] then "" else Line(log[0]) + "\n" + FileText(log[1..])
  }

  /** No tag text contains the closing bracket, so the first `]` of a line ends its tag. */
  lemma TagTextHasNoBracket(t: Tag)
    ensures ']' !in TagText(t)
  {
  }

  /** A rendered line determines its entry: distinct entries never produce the same line. */
  lemma LineInjective(a: LogEntry, b: LogEntry)
    requires Line(a) == Line(b)
    ensures a == b
  {
    var ta, tb := TagText(a.tag), TagText(b.tag);
    TagTextHasNoBracket(a.tag);
    TagTextHasNoBracket(b.tag);
    assert Line(a)[1 + |ta|] == ']';
    assert Line(b)[1 + |tb|] == ']';
    assert forall i | 0 <= i < |ta| :: Line(a)[1 + i] == ta[i];
    assert forall i | 0 <= i < |tb| :: Line(b)[1 + i] == tb[i];
    assert |ta| == |tb|;
    assert ta == Line(a)[1..1 + |ta|];
    assert tb == Line(b)[1..1 + |tb|];
    assert a.tag == b.tag;
    assert a.message == Line(a)[3 + |ta|..];
    assert b.message == Line(b)[3 + |tb|..];
  }

  /** Appending one entry appends exactly its line and a newline to the file; nothing already written changes. */
  lemma {:induction false} FileTextAppend(log: seq<LogEntry>, e: LogEntry)
    ensures FileText(log + [e]) == FileText(log) + Line(e) + "\n"
  {
    if log == [] {
      assert log + [e] == [e];
    } else {
      assert (log + [e])[1..] == log[1..] + [e];
      FileTextAppend(log[1..], e);
    }
  }
}
