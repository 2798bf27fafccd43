/**
 * `generateConversationTitle` of src/lib/utils.ts, with the JavaScript `String.prototype.trim`
 * it relies on. Lengths and indices count Unicode scalar values.
 */
module Title {

  /** The characters `trim` removes: ECMAScript WhiteSpace and LineTerminator. */
  predicate IsWhitespace(c: char) {
    || c == '\t' || c == '\n' || c == '\U{000B}' || c == '\U{000C}' || c == '\r' || c == ' '
    || c == '\U{00A0}' || c == '\U{1680}' || ('\U{2000}' <= c <= '\U{200A}')
    || c == '\U{2028}' || c == '\U{2029}' || c == '\U{202F}' || c == '\U{205F}'
    || c == '\U{3000}' || c == '\U{FEFF}'
  }

  predicate AllWhitespace(s: string) {
    forall k :: 0 <= k < |s| ==> IsWhitespace(s[k])
  }

  /** How many whitespace characters `s` starts with. */
  function LeadingSpace(s: string): (n: nat)
    ensures n <= |s|
    ensures AllWhitespace(s[..n])
    ensures n < |s| ==> !IsWhitespace(s[n])
  {
    if |s| == 0 || !IsWhitespace(s[0]) then 0
    else
      var m := LeadingSpace(s[1..]);
      assert s[..m + 1] == [s[0]] + s[1..][..m];
      1 + m
  }

  /** How many whitespace characters `s` ends with. */
  function TrailingSpace(s: string): (n: nat)
    ensures n <= |s|
    ensures AllWhitespace(s[|s| - n..])
    ensures n < |s| ==> !IsWhitespace(s[|s| - 1 - n])
  {
    if |s| == 0 || !IsWhitespace(s[|s| - 1]) then 0
    else
      var init := s[..|s| - 1];
      var m := TrailingSpace(init);
      assert s[|s| - (m + 1)..] == init[|init| - m..] + [s[|s| - 1]];
      1 + m
  }

  /**
   * `s.trim()`: the longest infix of `s` that neither starts nor ends with whitespace,
   * obtained by removing whitespace from BOTH ends.
   */
  function Trim(s: string): (r: string)
    ensures |r| <= |s|
    ensures LeadingSpace(s) + |r| <= |s|
    ensures r == s[LeadingSpace(s)..LeadingSpace(s) + |r|]
    ensures AllWhitespace(s[..LeadingSpace(s)]) && AllWhitespace(s[LeadingSpace(s) + |r|..])
    ensures r != [] ==> !IsWhitespace(r[0]) && !IsWhitespace(r[|r| - 1])
  {
    var t := s[LeadingSpace(s)..];
    var r := t[..|t| - TrailingSpace(t)];
    assert s[LeadingSpace(s) + |r|..] == t[|t| - TrailingSpace(t)..];
    r
  }

  /** A string with no whitespace at either end is its own trim. */
  lemma TrimUnpadded(s: string)
    requires s != [] && !IsWhitespace(s[0]) && !IsWhitespace(s[|s| - 1])
    ensures Trim(s) == s
  {
    assert LeadingSpace(s) == 0;
    assert TrailingSpace(s) == 0;
  }

  const MaxTitleLength: nat := 50
  const Ellipsis: string := "..."

  /**
   * A conversation title derived from its first message: short messages verbatim, long ones
   * cut to the first 50 characters, trimmed at both ends, followed by "...".
   */
  function GenerateConversationTitle(message: string): (title: string)
    ensures |message| <= MaxTitleLength ==> title == message
  {
    if |message| <= MaxTitleLength then message
    else Trim(message[..MaxTitleLength]) + Ellipsis
  }

  /** No title is longer than 53 characters. */
  lemma TitleLengthBound(message: string)
    ensures |GenerateConversationTitle(message)| <= MaxTitleLength + |Ellipsis|
  {
  }

  /**
   * A long message gives a title that ends with "..." and whose remainder is a contiguous
   * piece of the first 50 characters, with only whitespace cut from either end and no
   * whitespace left at either end: exactly the trimmed first 50 characters.
   */
  lemma TitleOfLongMessage(message: string)
    requires |message| > MaxTitleLength
    ensures var title := GenerateConversationTitle(message);
      var head := message[..MaxTitleLength];
      var body := title[..|title| - 3];
      var start := LeadingSpace(head);
      && |title| >= 3 && title[|title| - 3..] == "..."
      && start + |body| <= MaxTitleLength
      && body == head[start..start + |body|]
      && AllWhitespace(head[..start]) && AllWhitespace(head[start + |body|..])
      && (body != [] ==> !IsWhitespace(body[0]) && !IsWhitespace(body[|body| - 1]))
  {
    var title := GenerateConversationTitle(message);
    var body := Trim(message[..MaxTitleLength]);
    assert title == body + "...";
    assert title[..|title| - 3] == body;
  }

  /**
   * When the 1st and 50th characters are not whitespace, nothing is trimmed: the title is the
   * first 50 characters and "...", 53 characters in all.
   */
  lemma TitleOfUnpaddedLongMessage(message: string)
    requires |message| > MaxTitleLength
    requires !IsWhitespace(message[0]) && !IsWhitespace(message[MaxTitleLength - 1])
    ensures |GenerateConversationTitle(message)| == 53
    ensures GenerateConversationTitle(message)[..MaxTitleLength] == message[..MaxTitleLength]
  {
    TrimUnpadded(message[..MaxTitleLength]);
  }

  /** The short cases pinned by the unit tests: under 50, empty, exactly 50 characters. */
  lemma ShortTitleExamples()
    ensures GenerateConversationTitle("Hello, how are you today?") == "Hello, how are you today?"
    ensures GenerateConversationTitle("") == ""
    ensures GenerateConversationTitle("12345678901234567890123456789012345678901234567890")
      == "12345678901234567890123456789012345678901234567890"
  {
  }

  /** The long case pinned by the unit tests: 50 characters kept, then "...". */
  lemma LongTitleExample()
    ensures GenerateConversationTitle(
        "This is a " + "very long message that exceeds the fifty" + " character limit and should be truncated")
      == "This is a " + "very long message that exceeds the fifty" + "..."
  {
    var first := "This is a ";
    var head := first + "very long message that exceeds the fifty";
    var tail := " character limit and should be truncated";
    assert |head| == MaxTitleLength && head[0] == first[0] == 'T' && head[49] == 'y';
    assert (head + tail)[..MaxTitleLength] == head;
    TrimUnpadded(head);
  }
}
