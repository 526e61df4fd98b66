/**
  The format string a handler receives: the level label, a colon and a
  space, then the caller's message (logging.go:93-95). `SplitLevel` reads
  the label and the message back out of it.
 */
module Format {
  import opened Wrappers

  /** `formatLevel`: the label, then ": ", then the message. */
  function FormatLevel(level: string, message: string): (r: string)
  {
    level + ": " + message
  }

  /** The position of the first colon in `s`, if there is one. */
  function ColonIndex(s: string): (r: Option<nat>)
    ensures r.Some? ==> r.value < |s| && s[r.value] == ':' && ':' !in s[..r.value]
    ensures r.None? ==> ':' !in s
  {
    if s == [] then None
    else if s[0] == ':' then Some(0)
    else
      match ColonIndex(s[1..])
      case None => None
      case Some(i) =>
        assert s[..i + 1] == [s[0]] + s[1..][..i];
        Some(i + 1)
  }

  /** Splits a format string at its first ": " into label and message. */
  function SplitLevel(s: string): (r: Option<(string, string)>)
  {
    match ColonIndex(s)
    case None => None
    case Some(i) =>
      if i + 1 < |s| && s[i + 1] == ' ' then Some((s[..i], s[i + 2..])) else None
  }

  /** A label without a colon is recovered, with the message, from the format string. */
  lemma SplitFormatLevel(level: string, message: string)
    requires ':' !in level
    ensures SplitLevel(FormatLevel(level, message)) == Some((level, message))
  {
    var s := FormatLevel(level, message);
    assert s[..|level|] == level && s[|level| + 2..] == message;
    var c := ColonIndex(s);
    assert s[|level|] == ':';
    assert c.Some? by {
      assert s[|level|] in s;
    }
    assert c.value == |level|;
  }

  /** The five labels the leveled calls print under. */
  const Labels: seq<string> := ["DEBUG", "INFO", "WARNING", "ERROR", "FATAL"]

  /**
    The labels are colon-free and pairwise distinct, so the format string
    handed to a handler names the level of the call that produced it.
   */
  lemma LabelsAreRecoverable(message: string)
    ensures forall k :: 0 <= k < |Labels| ==> SplitLevel(FormatLevel(Labels[k], message)) == Some((Labels[k], message))
    ensures forall j, k :: 0 <= j < k < |Labels| ==> FormatLevel(Labels[j], message) != FormatLevel(Labels[k], message)
  {
    forall k | 0 <= k < |Labels|
      ensures SplitLevel(FormatLevel(Labels[k], message)) == Some((Labels[k], message))
    {
      assert ':' !in Labels[k];
      SplitFormatLevel(Labels[k], message);
    }
  }
}
