/**
  The text the logging demo writes: the per-level line of a verbose logger
  and the tagged message of the tagging decorator, as pure string functions,
  each with a decoder that reads it back.
 */
module LogFormat {

  datatype Option<T> = None | Some(value: T)

  /** The three severities every logger must accept. */
  datatype Level = Debug | Info | Error

  /** What one output entry carries once decoded. */
  datatype Entry = Entry(level: Level, message: string)

  /** The label a verbose logger writes in front of a message. */
  function Prefix(level: Level): string {
    match level
    case Debug => "[Debug] "
    case Info => "[Info] "
    case Error => "[Error] "
  }

  /** No label starts another level's line: the labels differ at their second character. */
  lemma PrefixFree(l1: Level, l2: Level, rest: string)
    ensures Prefix(l1) <= Prefix(l2) + rest <==> l1 == l2
  {
    if l1 != l2 {
      assert (Prefix(l2) + rest)[1] == Prefix(l2)[1];
      assert Prefix(l1)[1] != Prefix(l2)[1];
    }
  }

  /** The line a verbose logger writes for one call: label, message, line break. */
  function Line(level: Level, message: string): string {
    Prefix(level) + message + "\n"
  }

  /** Where the parts of a line sit: the label first, the message after it, one line break last. */
  lemma LineLayout(level: Level, message: string)
    ensures |Line(level, message)| == |Prefix(level)| + |message| + 1
    ensures Line(level, message)[..|Prefix(level)|] == Prefix(level)
    ensures Line(level, message)[|Prefix(level)|..|Line(level, message)| - 1] == message
    ensures Line(level, message)[|Line(level, message)| - 1] == '\n'
  {
    var p := Prefix(level);
    assert Line(level, message) == p + (message + "\n");
    assert (p + (message + "\n"))[..|p|] == p;
  }

  /** Reads an output entry back into its level and message; None for any text no verbose call writes. */
  function Parse(line: string): Option<Entry> {
    if |line| == 0 || line[|line| - 1] != '\n' then None
    else
      var body := line[..|line| - 1];
      if Prefix(Debug) <= body then Some(Entry(Debug, body[|Prefix(Debug)|..]))
      else if Prefix(Info) <= body then Some(Entry(Info, body[|Prefix(Info)|..]))
      else if Prefix(Error) <= body then Some(Entry(Error, body[|Prefix(Error)|..]))
      else None
  }

  /** Decoding a written line gives back exactly the level and message it was written for. */
  lemma ParseLine(level: Level, message: string)
    ensures Parse(Line(level, message)) == Some(Entry(level, message))
  {
    var line := Line(level, message);
    LineLayout(level, message);
    var body := line[..|line| - 1];
    assert body == Prefix(level) + message;
    PrefixFree(Debug, level, message);
    PrefixFree(Info, level, message);
    PrefixFree(Error, level, message);
  }

  /** Every line the decoder accepts is the line written for what it decodes to. */
  lemma LineOfParse(line: string, e: Entry)
    requires Parse(line) == Some(e)
    ensures line == Line(e.level, e.message)
  {
    var body := line[..|line| - 1];
    assert body == Prefix(e.level) + e.message;
    assert line == body + "\n";
  }

  /** Two calls write the same line exactly when they have the same level and message. */
  lemma LineInjective(l1: Level, m1: string, l2: Level, m2: string)
    ensures Line(l1, m1) == Line(l2, m2) <==> l1 == l2 && m1 == m2
  {
    ParseLine(l1, m1);
    ParseLine(l2, m2);
  }

  /** The message the tagging decorator forwards: the tag in brackets, a space, the message. */
  function TagMessage(tag: string, message: string): (r: string)
    ensures |r| == |tag| + |message| + 3
    ensures r[0] == '[' && r[1..|tag| + 1] == tag && r[|tag| + 1..|tag| + 3] == "] "
    ensures r[|tag| + 3..] == message
  {
    "[" + tag + "] " + message
  }

  /** Strips a known tag off a tagged message; None when the text does not carry that tag. */
  function Untag(tag: string, text: string): Option<string> {
    var head := "[" + tag + "] ";
    if head <= text then Some(text[|head|..]) else None
  }

  /** A tagged message gives back its message for its own tag, and only text built that way decodes. */
  lemma UntagTagMessage(tag: string, message: string, text: string)
    ensures Untag(tag, TagMessage(tag, message)) == Some(message)
    ensures Untag(tag, text) == Some(message) ==> text == TagMessage(tag, message)
  {
    var head := "[" + tag + "] ";
    assert TagMessage(tag, message) == head + message;
    if Untag(tag, text) == Some(message) {
      assert text == head + text[|head|..];
    }
  }

  /** The line a verbose logger writes for a tagged debug message carries both prefixes. */
  lemma TaggedDebugLine(tag: string, message: string)
    ensures Line(Debug, TagMessage(tag, message)) == "[Debug] [" + tag + "] " + message + "\n"
    ensures Parse(Line(Debug, TagMessage(tag, message))) == Some(Entry(Debug, TagMessage(tag, message)))
  {
    ParseLine(Debug, TagMessage(tag, message));
  }
}
