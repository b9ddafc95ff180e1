/**
  The tagging decorator: a wrapped logger plus one mutable tag, which is put
  in brackets in front of every message sent through LogDebugTagged.
 */
module Tagging {
  import opened LogFormat
  import opened Loggers

  class TaggedLogger {
    /** The wrapped logger; its own LogDebug, LogInfo and LogError stay reachable through it. */
    const base: Logger
    var tag: string

    /** A decorator with the empty tag. */
    constructor (base: Logger)
      ensures this.base == base && tag == ""
    {
      this.base := base;
      tag := "";
    }

    /** A decorator holding the given tag. */
    constructor WithTag(base: Logger, tag: string)
      ensures this.base == base && this.tag == tag
    {
      this.base := base;
      this.tag := tag;
    }

    /** Replaces the tag, whatever it was; writes nothing. */
    method SetTag(t: string)
      modifies this
      ensures tag == t
    {
      tag := t;
    }

    /** Sends the tagged message to the wrapped logger's debug operation, and to nothing else. */
    method LogDebugTagged(out: Console, message: string)
      requires out.Valid()
      modifies out
      ensures out.Valid()
      ensures out.calls == old(out.calls) + [Call(base, Debug, TagMessage(tag, message))]
      ensures out.lines == old(out.lines) + Output(base, Debug, TagMessage(tag, message))
      ensures tag == old(tag)
    {
      var tagged := TagMessage(tag, message);
      base.LogDebug(out, tagged);
    }
  }

  /** Over CustomLoggerImpl, a tagged debug call writes one line with both the level label and the current tag. */
  method LogDebugTaggedOnImpl(logger: TaggedLogger, out: Console, message: string)
    requires logger.base == CustomLoggerImpl && out.Valid()
    modifies out
    ensures out.Valid()
    ensures out.lines == old(out.lines) + ["[Debug] [" + logger.tag + "] " + message + "\n"]
  {
    logger.LogDebugTagged(out, message);
    TaggedDebugLine(logger.tag, message);
  }

  /** Setting a tag twice, or setting another tag first, leaves what the last write set: the next tagged call uses it. */
  method LastTagWins(logger: TaggedLogger, out: Console, first: string, last: string, message: string)
    requires out.Valid()
    modifies logger, out
    ensures out.Valid() && logger.tag == last
    ensures out.calls == old(out.calls) + [Call(logger.base, Debug, TagMessage(last, message))]
  {
    logger.SetTag(first);
    logger.SetTag(last);
    logger.SetTag(last);
    assert out.calls == old(out.calls);
    logger.LogDebugTagged(out, message);
  }
}
