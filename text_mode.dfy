/** Python's text-mode read: with universal newlines, the default of
    `Path.read_text` and `open`, every line end of the file, "\r\n" or a
    lone '\r', reaches the program as a single '\n'. */
module TextMode {
  import opened Sequences

  /** The text a text-mode read returns for the file's characters: each
      "\r\n" pair and each lone '\r' becomes one '\n'. */
  function ReadText(fileText: string): (text: string)
    ensures |text| <= |fileText|
  {
    if fileText == [] then []
    else [ReadChar(fileText[0])] + ReadText(fileText[LineEndWidth(fileText)..])
  }

  /** The character read for a line end's first character, or for any
      other character. */
  function ReadChar(c: char): char {
    if c == '\r' then '\n' else c
  }

  /** How many characters the read consumes at the start of a non-empty
      text: two for a "\r\n" pair, one otherwise. */
  function LineEndWidth(fileText: string): (w: nat)
    requires fileText != []
    ensures 1 <= w <= |fileText|
  {
    if fileText[0] == '\r' && |fileText| > 1 && fileText[1] == '\n' then 2 else 1
  }

  /** The text read holds no carriage return. */
  lemma {:induction false} NoReturnAfterRead(fileText: string)
    ensures '\r' !in ReadText(fileText)
  {
    if fileText != [] {
      NoReturnAfterRead(fileText[LineEndWidth(fileText)..]);
    }
  }

  /** A file without a carriage return reads back unchanged. */
  lemma {:induction false} ReadTextWithoutReturn(fileText: string)
    requires '\r' !in fileText
    ensures ReadText(fileText) == fileText
  {
    if fileText != [] {
      ReadTextWithoutReturn(fileText[1..]);
    }
  }

  /** Reading a file that does not end in '\r' followed by more text reads
      the two parts apart: no "\r\n" pair straddles the seam. */
  lemma {:induction false} ReadTextAppend(a: string, b: string)
    requires a == [] || a[|a| - 1] != '\r'
    ensures ReadText(a + b) == ReadText(a) + ReadText(b)
  {
    if a == [] {
      assert a + b == b;
    } else {
      var w := LineEndWidth(a);
      assert LineEndWidth(a + b) == w by {
        assert (a + b)[0] == a[0];
        if a[0] == '\r' {
          assert |a| > 1 && (a + b)[1] == a[1];
        }
      }
      assert (a + b)[w..] == a[w..] + b;
      ReadTextAppend(a[w..], b);
      ConcatAssociates([ReadChar(a[0])], ReadText(a[w..]), ReadText(b));
    }
  }

  /** Text without a carriage return appended to a file that does not end
      in one reads back as itself after the file's own text. */
  lemma ReadAppended(fileText: string, extra: string)
    requires fileText == [] || fileText[|fileText| - 1] != '\r'
    requires '\r' !in extra
    ensures ReadText(fileText + extra) == ReadText(fileText) + extra
  {
    ReadTextAppend(fileText, extra);
    ReadTextWithoutReturn(extra);
  }

  /** A line end at the start of text without carriage returns reads as
      one break. */
  lemma ReadLineEnd(lineEnd: string, after: string)
    requires lineEnd == ['\r', '\n'] || (lineEnd == ['\r'] && (after == [] || after[0] != '\n'))
    requires '\r' !in after
    ensures ReadText(lineEnd + after) == ['\n'] + after
  {
    var tail := lineEnd + after;
    assert LineEndWidth(tail) == |lineEnd| by {
      if lineEnd == ['\r'] && after != [] {
        assert tail[1] == after[0];
      }
    }
    assert tail[|lineEnd|..] == after;
    ReadTextWithoutReturn(after);
  }

  /** A lone carriage return between two texts without one, for example
      inside a patient's name, reads as a line break. */
  lemma LoneReturnReadsAsBreak(before: string, after: string)
    requires '\r' !in before && '\r' !in after && (after == [] || after[0] != '\n')
    ensures ReadText(before + (['\r'] + after)) == before + (['\n'] + after)
  {
    ReadLineEnd(['\r'], after);
    ReadTextAppend(before, ['\r'] + after);
    ReadTextWithoutReturn(before);
  }

  /** A CRLF line end between two texts without carriage returns reads as
      one line break. */
  lemma CrLfReadsAsBreak(before: string, after: string)
    requires '\r' !in before && '\r' !in after
    ensures ReadText(before + (['\r', '\n'] + after)) == before + (['\n'] + after)
  {
    ReadLineEnd(['\r', '\n'], after);
    ReadTextAppend(before, ['\r', '\n'] + after);
    ReadTextWithoutReturn(before);
  }
}
