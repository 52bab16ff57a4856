/** The patient-notes server of mcp_server/server.py: a line-by-line search
    of the notes file that reports matching lines with their 1-based
    numbers, the fixed record format in which a new note is appended, and
    the request guards of the two tool endpoints. The notes file is the
    string field of a store, read back through the line-end conversion of
    a text-mode read; appending and the clock are reduced to that field
    and to parameters. */
module PatientNotes {
  import opened Text
  import opened Wrappers
  import opened TextMode

  // ---------------------------------------------------------------------
  // Search
  // ---------------------------------------------------------------------

  /** The text compared: lower-cased unless the search is case-sensitive. */
  function Fold(s: string, caseSensitive: bool): string {
    if caseSensitive then s else Lower(s)
  }

  predicate LineMatches(query: string, line: string, caseSensitive: bool) {
    Contains(Fold(line, caseSensitive), Fold(query, caseSensitive))
  }

  /** Which lines hold the query, line by line. */
  function MatchFlags(lines: seq<string>, query: string, caseSensitive: bool): (flags: seq<bool>)
    ensures |flags| == |lines|
  {
    seq(|lines|, k requires 0 <= k < |lines| => LineMatches(query, lines[k], caseSensitive))
  }

  lemma MatchFlagAt(lines: seq<string>, query: string, caseSensitive: bool, k: int)
    requires 0 <= k < |lines|
    ensures MatchFlags(lines, query, caseSensitive)[k] == LineMatches(query, lines[k], caseSensitive)
  {
  }

  /** The 1-based positions of the set flags: the line numbers the scan
      reports. */
  function SetPositions(flags: seq<bool>): (ns: seq<nat>)
    ensures |ns| <= |flags|
    ensures forall j :: 0 <= j < |ns| ==> 1 <= ns[j] <= |flags|
    decreases |flags|
  {
    if flags == [] then []
    else
      SetPositions(flags[..|flags| - 1]) + (if flags[|flags| - 1] then [|flags|] else [])
  }

  /** Scanning one more line adds its number exactly when it matches. */
  lemma SetPositionsSnoc(flags: seq<bool>, b: bool)
    ensures SetPositions(flags + [b]) == SetPositions(flags) + (if b then [|flags| + 1] else [])
  {
    assert (flags + [b])[..|flags|] == flags;
  }

  /** Only set flags are reported. */
  lemma {:induction false} SetPositionsSound(flags: seq<bool>, j: int)
    requires 0 <= j < |SetPositions(flags)|
    ensures flags[SetPositions(flags)[j] - 1]
    decreases |flags|
  {
    var init := flags[..|flags| - 1];
    var before := SetPositions(init);
    if j < |before| {
      SetPositionsSound(init, j);
      assert SetPositions(flags)[j] == before[j];
      assert init[before[j] - 1] == flags[before[j] - 1];
    }
  }

  /** The numbers come in increasing order, so in file order. */
  lemma {:induction false} SetPositionsIncreasing(flags: seq<bool>, j: int, k: int)
    requires 0 <= j < k < |SetPositions(flags)|
    ensures SetPositions(flags)[j] < SetPositions(flags)[k]
    decreases |flags|
  {
    var init := flags[..|flags| - 1];
    var before := SetPositions(init);
    assert SetPositions(flags)[j] == before[j];
    if k < |before| {
      SetPositionsIncreasing(init, j, k);
      assert SetPositions(flags)[k] == before[k];
    }
  }

  /** Every set flag is reported. */
  lemma {:induction false} SetPositionsComplete(flags: seq<bool>, i: nat)
    requires 1 <= i <= |flags| && flags[i - 1]
    ensures i in SetPositions(flags)
    decreases |flags|
  {
    var init := flags[..|flags| - 1];
    if i < |flags| {
      assert init[i - 1] == flags[i - 1];
      SetPositionsComplete(init, i);
    }
  }

  /** A position is reported exactly when its flag is set. */
  lemma SetPositionsExact(flags: seq<bool>)
    ensures forall k :: 0 <= k < |flags| ==> (k + 1 in SetPositions(flags) <==> flags[k])
  {
    var ns := SetPositions(flags);
    forall k | 0 <= k < |flags| && flags[k]
      ensures k + 1 in ns
    {
      SetPositionsComplete(flags, k + 1);
    }
    forall k | 0 <= k < |flags| && k + 1 in ns
      ensures flags[k]
    {
      var j :| 0 <= j < |ns| && ns[j] == k + 1;
      SetPositionsSound(flags, j);
    }
  }

  /** One result line: `Line <number>: <the original line>`. */
  function FormatMatch(number: nat, line: string): string {
    "Line " + NatToString(number) + ": " + line
  }

  function FormatMatches(lines: seq<string>, ns: seq<nat>): (r: seq<string>)
    requires forall j :: 0 <= j < |ns| ==> 1 <= ns[j] <= |lines|
    ensures |r| == |ns|
    ensures forall j :: 0 <= j < |ns| ==> r[j] == FormatMatch(ns[j], lines[ns[j] - 1])
  {
    seq(|ns|, j requires 0 <= j < |ns| => FormatMatch(ns[j], lines[ns[j] - 1]))
  }

  /** The results of a search over the whole notes text: the matching
      lines in file order, each with its 1-based number. */
  function SearchResults(notesContent: string, query: string, caseSensitive: bool): (results: seq<string>)
    ensures |results| <= |Split(notesContent, '\n')|
  {
    var lines := Split(notesContent, '\n');
    FormatMatches(lines, SetPositions(MatchFlags(lines, query, caseSensitive)))
  }

  lemma ContainsTransitive(s: string, mid: string, sub: string)
    requires Contains(s, mid) && Contains(mid, sub)
    ensures Contains(s, sub)
  {
    var i :| 0 <= i <= |s| - |mid| && SubstringAt(s, mid, i);
    var j :| 0 <= j <= |mid| - |sub| && SubstringAt(mid, sub, j);
    forall t | 0 <= t < |sub|
      ensures s[i + j + t] == sub[t]
    {
      assert s[i..i + |mid|][j + t] == mid[j + t];
      assert mid[j..j + |sub|][t] == sub[t];
    }
    assert s[i + j..i + j + |sub|] == sub;
    assert SubstringAt(s, sub, i + j);
  }

  lemma FoldKeepsContains(s: string, sub: string, caseSensitive: bool)
    requires Contains(s, sub)
    ensures Contains(Fold(s, caseSensitive), Fold(sub, caseSensitive))
  {
    if !caseSensitive {
      var i :| 0 <= i <= |s| - |sub| && SubstringAt(s, sub, i);
      assert Lower(s)[i..i + |sub|] == Lower(sub);
      assert SubstringAt(Lower(s), Lower(sub), i);
    }
  }

  /** Every line of the notes occurs in the notes. */
  lemma LineInContent(notesContent: string, k: int)
    requires 0 <= k < |Split(notesContent, '\n')|
    ensures Contains(notesContent, Split(notesContent, '\n')[k])
  {
    var lines := Split(notesContent, '\n');
    assert SubstringAt(lines[k], lines[k], 0);
    PieceInJoin(lines, '\n', k, lines[k]);
    JoinSplit(notesContent, '\n');
  }

  /** A query held by some line of the notes is held by the notes. */
  lemma LineMatchMeansTextMatch(notesContent: string, query: string, caseSensitive: bool, k: int)
    requires 0 <= k < |Split(notesContent, '\n')|
    requires LineMatches(query, Split(notesContent, '\n')[k], caseSensitive)
    ensures Contains(Fold(notesContent, caseSensitive), Fold(query, caseSensitive))
  {
    var line := Split(notesContent, '\n')[k];
    LineInContent(notesContent, k);
    FoldKeepsContains(notesContent, line, caseSensitive);
    ContainsTransitive(Fold(notesContent, caseSensitive), Fold(line, caseSensitive), Fold(query, caseSensitive));
  }

  /** A scan that reports some number has a matching line. */
  lemma FirstReported(lines: seq<string>, query: string, caseSensitive: bool) returns (k: int)
    requires SetPositions(MatchFlags(lines, query, caseSensitive)) != []
    ensures 0 <= k < |lines| && LineMatches(query, lines[k], caseSensitive)
  {
    var flags := MatchFlags(lines, query, caseSensitive);
    k := SetPositions(flags)[0] - 1;
    SetPositionsSound(flags, 0);
    MatchFlagAt(lines, query, caseSensitive, k);
  }

  /** A search that reports some line implies the query occurs in the
      folded notes text. */
  lemma ReportedMeansTextMatch(notesContent: string, query: string, caseSensitive: bool)
    requires SetPositions(MatchFlags(Split(notesContent, '\n'), query, caseSensitive)) != []
    ensures Contains(Fold(notesContent, caseSensitive), Fold(query, caseSensitive))
  {
    var k := FirstReported(Split(notesContent, '\n'), query, caseSensitive);
    LineMatchMeansTextMatch(notesContent, query, caseSensitive, k);
  }

  /** The whole-text check before the line scan never changes the result:
      when the query occurs nowhere in the folded text, no line holds it
      and the search finds nothing. */
  lemma WholeTextCheckRedundant(notesContent: string, query: string, caseSensitive: bool)
    requires !Contains(Fold(notesContent, caseSensitive), Fold(query, caseSensitive))
    ensures SearchResults(notesContent, query, caseSensitive) == []
  {
    var ns := SetPositions(MatchFlags(Split(notesContent, '\n'), query, caseSensitive));
    if ns != [] {
      ReportedMeansTextMatch(notesContent, query, caseSensitive);
      assert false;
    }
  }

  /** A line number is reported exactly when its line holds the query. */
  lemma MatchedLineNumbersExact(lines: seq<string>, query: string, caseSensitive: bool)
    ensures var ns := SetPositions(MatchFlags(lines, query, caseSensitive));
            forall k :: 0 <= k < |lines| ==> (k + 1 in ns <==> LineMatches(query, lines[k], caseSensitive))
  {
    forall k | 0 <= k < |lines|
      ensures MatchFlags(lines, query, caseSensitive)[k] == LineMatches(query, lines[k], caseSensitive)
    {
      MatchFlagAt(lines, query, caseSensitive, k);
    }
    SetPositionsExact(MatchFlags(lines, query, caseSensitive));
  }

  /** Result `j` is the line numbered `ns[j]`, formatted, and that line
      holds the query under the chosen case mode. */
  lemma ReportedLineMatches(notesContent: string, query: string, caseSensitive: bool, j: int)
    requires 0 <= j < |SearchResults(notesContent, query, caseSensitive)|
    ensures var lines := Split(notesContent, '\n');
            var ns := SetPositions(MatchFlags(lines, query, caseSensitive));
            && |ns| == |SearchResults(notesContent, query, caseSensitive)|
            && 1 <= ns[j] <= |lines|
            && SearchResults(notesContent, query, caseSensitive)[j] == FormatMatch(ns[j], lines[ns[j] - 1])
            && LineMatches(query, lines[ns[j] - 1], caseSensitive)
  {
    var lines := Split(notesContent, '\n');
    var flags := MatchFlags(lines, query, caseSensitive);
    SetPositionsSound(flags, j);
    MatchFlagAt(lines, query, caseSensitive, SetPositions(flags)[j] - 1);
  }

  /** The results come in file order: a later result reports a later line. */
  lemma ResultsInFileOrder(notesContent: string, query: string, caseSensitive: bool, j: int, k: int)
    requires 0 <= j < k < |SearchResults(notesContent, query, caseSensitive)|
    ensures var ns := SetPositions(MatchFlags(Split(notesContent, '\n'), query, caseSensitive));
            ns[j] < ns[k]
  {
    SetPositionsIncreasing(MatchFlags(Split(notesContent, '\n'), query, caseSensitive), j, k);
  }

  lemma FormatMatchesStep(lines: seq<string>, ns: seq<nat>, n: nat, extra: seq<nat>)
    requires 0 <= n < |lines|
    requires forall j :: 0 <= j < |ns| ==> 1 <= ns[j] <= n
    requires extra == [] || extra == [n + 1]
    ensures FormatMatches(lines[..n + 1], ns + extra) ==
            FormatMatches(lines[..n], ns) + (if extra == [] then [] else [FormatMatch(n + 1, lines[n])])
  {
    var left := FormatMatches(lines[..n + 1], ns + extra);
    var right := FormatMatches(lines[..n], ns) + (if extra == [] then [] else [FormatMatch(n + 1, lines[n])]);
    assert |left| == |right|;
    forall j | 0 <= j < |left| ensures left[j] == right[j] {
      if j < |ns| {
        assert lines[..n + 1][ns[j] - 1] == lines[..n][ns[j] - 1];
      }
    }
  }

  /** Scanning line `i` extends the results by that line's result line
      exactly when its flag is set. */
  lemma ScanStep(lines: seq<string>, flags: seq<bool>, i: int)
    requires |flags| == |lines| && 0 <= i < |lines|
    ensures FormatMatches(lines[..i + 1], SetPositions(flags[..i + 1])) ==
              FormatMatches(lines[..i], SetPositions(flags[..i]))
              + (if flags[i] then [FormatMatch(i + 1, lines[i])] else [])
  {
    var ns := SetPositions(flags[..i]);
    assert flags[..i + 1] == flags[..i] + [flags[i]];
    SetPositionsSnoc(flags[..i], flags[i]);
    if flags[i] {
      FormatMatchesStep(lines, ns, i, [i + 1]);
    } else {
      FormatMatchesStep(lines, ns, i, []);
    }
  }

  /** `search_in_notes`: the text-mode read, the whole-text check, then
      each line in turn, numbering from 1. */
  method SearchInNotes(notesFile: string, query: string, caseSensitive: bool) returns (matchingLines: seq<string>)
    ensures matchingLines == SearchResults(ReadText(notesFile), query, caseSensitive)
  {
    var notesContent := ReadText(notesFile);
    var searchContent := Fold(notesContent, caseSensitive);
    var searchQuery := Fold(query, caseSensitive);
    if !Contains(searchContent, searchQuery) {
      WholeTextCheckRedundant(notesContent, query, caseSensitive);
      return [];
    }
    var lines := Split(notesContent, '\n');
    ghost var flags := MatchFlags(lines, query, caseSensitive);
    matchingLines := [];
    var i := 0;
    while i < |lines|
      invariant 0 <= i <= |lines|
      invariant matchingLines == FormatMatches(lines[..i], SetPositions(flags[..i]))
    {
      var line := lines[i];
      var checkLine := Fold(line, caseSensitive);
      ScanStep(lines, flags, i);
      MatchFlagAt(lines, query, caseSensitive, i);
      if Contains(checkLine, searchQuery) {
        matchingLines := matchingLines + [FormatMatch(i + 1, line)];
      }
      i := i + 1;
    }
    assert lines[..|lines|] == lines && flags[..|lines|] == flags;
  }

  // ---------------------------------------------------------------------
  // Note records
  // ---------------------------------------------------------------------

  const DefaultNoteType: string := "general"
  const EntryOpen: string := "--- NEW ENTRY ("
  const EntryClose: string := ") ---"
  const NameLabel: string := "Patient Name: "
  const TypeLabel: string := "Type: "
  const NoteLabel: string := "Note: "
  const RecordEnd: string := "---"

  /** The text appended for a new note: a blank line and a header with the
      timestamp, then one labelled line each for name, type and content,
      and a closing rule, each line ended by a break. */
  function NoteRecord(timestamp: string, patientName: string, noteType: string, noteContent: string): string {
    var newNote := "\n\n" + EntryOpen + timestamp + EntryClose + "\n";
    newNote + (NameLabel + patientName + "\n") + (TypeLabel + noteType + "\n")
    + (NoteLabel + noteContent + "\n") + (RecordEnd + "\n")
  }

  /** The lines a record adds to the notes file, when none of its fields
      holds a line break. */
  function RecordLines(timestamp: string, patientName: string, noteType: string, noteContent: string): seq<string> {
    [[], EntryOpen + timestamp + EntryClose, NameLabel + patientName,
     TypeLabel + noteType, NoteLabel + noteContent, RecordEnd, []]
  }

  /** A record whose fields hold no carriage return holds none either. */
  lemma NoReturnInRecord(timestamp: string, patientName: string, noteType: string, noteContent: string)
    requires '\r' !in timestamp && '\r' !in patientName && '\r' !in noteType && '\r' !in noteContent
    ensures '\r' !in NoteRecord(timestamp, patientName, noteType, noteContent)
  {
  }

  lemma NoBreakInConcat(a: string, b: string)
    requires '\n' !in a && '\n' !in b
    ensures '\n' !in a + b
  {
  }

  /** Text without a break lengthens the last line. */
  lemma {:induction false} SplitExtend(x: string, b: string, init: seq<string>, last: string)
    requires '\n' !in b && Split(x, '\n') == init + [last]
    ensures Split(x + b, '\n') == init + [last + b]
    decreases |x|, 1
  {
    if x == [] {
      assert |init + [last]| == 1;
      assert last == (init + [last])[|init|] == [];
      assert x + b == b;
      SplitNoSeparator(b, '\n');
    } else if x[0] == '\n' {
      SplitExtendAfterBreak(x, b, init, last);
    } else if |Split(x[1..], '\n')| == 1 {
      SplitExtendFirstLine(x, b, init, last);
    } else {
      SplitExtendLaterLine(x, b, init, last);
    }
  }

  lemma {:induction false} SplitExtendAfterBreak(x: string, b: string, init: seq<string>, last: string)
    requires '\n' !in b && Split(x, '\n') == init + [last] && x != [] && x[0] == '\n'
    ensures Split(x + b, '\n') == init + [last + b]
    decreases |x|, 0
  {
    var tail := Split(x[1..], '\n');
    assert (x + b)[0] == x[0] && (x + b)[1..] == x[1..] + b;
    assert Split(x, '\n') == [[]] + tail;
    assert |init| >= 1;
    assert tail == (init + [last])[1..] == init[1..] + [last];
    SplitExtend(x[1..], b, init[1..], last);
    assert init == [[]] + init[1..];
  }

  lemma {:induction false} SplitExtendFirstLine(x: string, b: string, init: seq<string>, last: string)
    requires '\n' !in b && Split(x, '\n') == init + [last] && x != [] && x[0] != '\n'
    requires |Split(x[1..], '\n')| == 1
    ensures Split(x + b, '\n') == init + [last + b]
    decreases |x|, 0
  {
    var tail := Split(x[1..], '\n');
    assert (x + b)[0] == x[0] && (x + b)[1..] == x[1..] + b;
    assert Split(x, '\n') == [[x[0]] + tail[0]];
    assert |init| == 0;
    assert last == (init + [last])[0] == [x[0]] + tail[0];
    assert tail == [] + [tail[0]];
    SplitExtend(x[1..], b, [], tail[0]);
    var rest := Split(x[1..] + b, '\n');
    assert Split(x + b, '\n') == [[x[0]] + rest[0]] + rest[1..];
    assert [x[0]] + (tail[0] + b) == ([x[0]] + tail[0]) + b;
  }

  lemma {:induction false} SplitExtendLaterLine(x: string, b: string, init: seq<string>, last: string)
    requires '\n' !in b && Split(x, '\n') == init + [last] && x != [] && x[0] != '\n'
    requires |Split(x[1..], '\n')| > 1
    ensures Split(x + b, '\n') == init + [last + b]
    decreases |x|, 0
  {
    var tail := Split(x[1..], '\n');
    assert (x + b)[0] == x[0] && (x + b)[1..] == x[1..] + b;
    assert Split(x, '\n') == [[x[0]] + tail[0]] + tail[1..];
    assert tail[1..] == (init + [last])[1..] == init[1..] + [last];
    assert tail == [tail[0]] + init[1..] + [last];
    SplitExtend(x[1..], b, [tail[0]] + init[1..], last);
    var rest := Split(x[1..] + b, '\n');
    assert rest[0] == tail[0] && rest[1..] == init[1..] + [last + b];
    assert Split(x + b, '\n') == [[x[0]] + rest[0]] + rest[1..];
    assert init == [[x[0]] + tail[0]] + init[1..];
  }

  /** A break opens a new, empty line. */
  lemma AppendBreak(x: string)
    ensures Split(x + "\n", '\n') == Split(x, '\n') + [[]]
  {
    assert x + "\n" == x + ['\n'] + [];
    SplitAppend(x, [], '\n');
  }

  /** A break-terminated line without inner breaks, written after a break,
      becomes one more line followed by an empty one. */
  lemma AppendLine(x: string, line: string, before: seq<string>)
    requires '\n' !in line && Split(x, '\n') == before + [[]]
    ensures Split(x + (line + "\n"), '\n') == before + [line] + [[]]
  {
    SplitExtend(x, line, before, []);
    assert [] + line == line;
    AppendBreak(x + line);
    assert x + (line + "\n") == (x + line) + "\n";
  }

  /** Two breaks and a break-terminated line: the last line ends, a blank
      line follows, then the new line and an empty one. */
  lemma AppendedHead(x: string, header: string)
    requires '\n' !in header
    ensures Split(x + ("\n" + "\n" + (header + "\n")), '\n') == Split(x, '\n') + [[], header] + [[]]
  {
    var p := Split(x, '\n');
    AppendBreak(x);
    AppendBreak(x + "\n");
    AppendLine(x + "\n" + "\n", header, p + [[]]);
    assert x + ("\n" + "\n" + (header + "\n")) == x + "\n" + "\n" + (header + "\n");
  }

  /** Two break-terminated lines without inner breaks, written after a
      break. */
  lemma AppendedTwoLines(y: string, before: seq<string>, a: string, b: string)
    requires '\n' !in a && '\n' !in b && Split(y, '\n') == before + [[]]
    ensures Split(y + (a + "\n") + (b + "\n"), '\n') == before + [a, b] + [[]]
  {
    AppendLine(y, a, before);
    AppendLine(y + (a + "\n"), b, before + [a]);
    assert before + [a] + [b] == before + [a, b];
  }

  /** A blank line and five break-terminated lines without inner breaks,
      appended to a text, add those lines after the text's own. */
  lemma AppendedChunks(x: string, header: string, name: string, kind: string, note: string, end: string)
    requires '\n' !in header && '\n' !in name && '\n' !in kind && '\n' !in note && '\n' !in end
    ensures Split(x + ("\n" + "\n" + (header + "\n")) + (name + "\n") + (kind + "\n") + (note + "\n") + (end + "\n"), '\n') ==
            Split(x, '\n') + [[], header, name, kind, note, end, []]
  {
    var p := Split(x, '\n');
    var y := x + ("\n" + "\n" + (header + "\n"));
    AppendedHead(x, header);
    AppendedTwoLines(y, p + [[], header], name, kind);
    var z := y + (name + "\n") + (kind + "\n");
    AppendedTwoLines(z, p + [[], header] + [name, kind], note, end);
    assert p + [[], header] + [name, kind] + [note, end] + [[]] == p + [[], header, name, kind, note, end, []];
  }

  /** Appending a record keeps every existing line and adds the record's
      lines after them: the record's first break ends the last existing
      line. */
  lemma AppendedRecordLines(notesContent: string, timestamp: string, patientName: string, noteType: string, noteContent: string)
    requires '\n' !in timestamp && '\n' !in patientName && '\n' !in noteType && '\n' !in noteContent
    ensures Split(notesContent + NoteRecord(timestamp, patientName, noteType, noteContent), '\n') ==
            Split(notesContent, '\n') + RecordLines(timestamp, patientName, noteType, noteContent)
  {
    var header := EntryOpen + timestamp + EntryClose;
    NoBreakInConcat(EntryOpen, timestamp);
    NoBreakInConcat(EntryOpen + timestamp, EntryClose);
    NoBreakInConcat(NameLabel, patientName);
    NoBreakInConcat(TypeLabel, noteType);
    NoBreakInConcat(NoteLabel, noteContent);
    assert '\n' !in RecordEnd;
    var newNote := "\n\n" + EntryOpen + timestamp + EntryClose + "\n";
    assert newNote == "\n" + "\n" + (header + "\n");
    Reassociate(notesContent, newNote, NameLabel + patientName + "\n", TypeLabel + noteType + "\n",
                NoteLabel + noteContent + "\n", RecordEnd + "\n");
    AppendedChunks(notesContent, header, NameLabel + patientName, TypeLabel + noteType, NoteLabel + noteContent, RecordEnd);
  }

  lemma Reassociate(x: string, a: string, b: string, c: string, d: string, e: string)
    ensures x + (a + b + c + d + e) == x + a + b + c + d + e
  {
  }

  /** Right after a note is added, a search for the patient's name, in
      either case mode, reports the record's name line: whenever a text's
      line `base + 2` is a name line (as `NameLineOfRecord` shows for an
      appended record), the search reports it as line `base + 3`. */
  lemma NameLineReported(updated: string, base: nat, patientName: string, caseSensitive: bool)
    requires base + 2 < |Split(updated, '\n')| && Split(updated, '\n')[base + 2] == NameLabel + patientName
    ensures FormatMatch(base + 3, NameLabel + patientName) in SearchResults(updated, patientName, caseSensitive)
  {
    NameLineMatches(patientName, caseSensitive);
    LineIsReported(updated, patientName, caseSensitive, base + 3, NameLabel + patientName);
  }

  /** After appending a record, its name line is the third line past the
      old ones. */
  lemma NameLineOfRecord(notesContent: string, timestamp: string, patientName: string, noteType: string, noteContent: string)
    requires '\n' !in timestamp && '\n' !in patientName && '\n' !in noteType && '\n' !in noteContent
    ensures |Split(notesContent, '\n')| + 2 < |Split(notesContent + NoteRecord(timestamp, patientName, noteType, noteContent), '\n')|
    ensures Split(notesContent + NoteRecord(timestamp, patientName, noteType, noteContent), '\n')[|Split(notesContent, '\n')| + 2]
              == NameLabel + patientName
  {
    var before := Split(notesContent, '\n');
    var added := RecordLines(timestamp, patientName, noteType, noteContent);
    AppendedRecordLines(notesContent, timestamp, patientName, noteType, noteContent);
    ThirdAddedLine(Split(notesContent + NoteRecord(timestamp, patientName, noteType, noteContent), '\n'), before, added);
  }

  /** An added note is found: after a record is appended to a file that
      does not end in a lone '\r', a search for the patient's name, in
      either case mode, reports the record's name line with its number,
      provided no field holds '\n' or '\r'. */
  lemma AddedNoteIsFound(notesFile: string, timestamp: string, patientName: string, noteType: string,
                         noteContent: string, caseSensitive: bool)
    requires notesFile == [] || notesFile[|notesFile| - 1] != '\r'
    requires '\n' !in timestamp && '\n' !in patientName && '\n' !in noteType && '\n' !in noteContent
    requires '\r' !in timestamp && '\r' !in patientName && '\r' !in noteType && '\r' !in noteContent
    ensures FormatMatch(|Split(ReadText(notesFile), '\n')| + 3, NameLabel + patientName)
              in SearchResults(ReadText(notesFile + NoteRecord(timestamp, patientName, noteType, noteContent)), patientName, caseSensitive)
  {
    RecordNameFound(ReadText(notesFile), timestamp, patientName, noteType, noteContent, caseSensitive);
    RecordFoundAfterRead(notesFile, timestamp, patientName, noteType, noteContent,
                         FormatMatch(|Split(ReadText(notesFile), '\n')| + 3, NameLabel + patientName), patientName, caseSensitive);
  }

  /** A result found in the text read before a record is appended,
      followed by the record, is found in the text read after it. */
  lemma RecordFoundAfterRead(notesFile: string, timestamp: string, patientName: string, noteType: string,
                             noteContent: string, result: string, query: string, caseSensitive: bool)
    requires notesFile == [] || notesFile[|notesFile| - 1] != '\r'
    requires '\r' !in timestamp && '\r' !in patientName && '\r' !in noteType && '\r' !in noteContent
    requires result in SearchResults(ReadText(notesFile) + NoteRecord(timestamp, patientName, noteType, noteContent), query, caseSensitive)
    ensures result in SearchResults(ReadText(notesFile + NoteRecord(timestamp, patientName, noteType, noteContent)), query, caseSensitive)
  {
    NoReturnInRecord(timestamp, patientName, noteType, noteContent);
    FoundAfterRead(notesFile, NoteRecord(timestamp, patientName, noteType, noteContent), result, query, caseSensitive);
  }

  /** A result found in the text read before an append, followed by the
      appended text, is found in the text read after it. */
  lemma FoundAfterRead(notesFile: string, extra: string, result: string, query: string, caseSensitive: bool)
    requires notesFile == [] || notesFile[|notesFile| - 1] != '\r'
    requires '\r' !in extra
    requires result in SearchResults(ReadText(notesFile) + extra, query, caseSensitive)
    ensures result in SearchResults(ReadText(notesFile + extra), query, caseSensitive)
  {
    ReadAppended(notesFile, extra);
  }

  /** The same over text already read: a search of the text with a record
      appended reports the record's name line. */
  lemma RecordNameFound(notesContent: string, timestamp: string, patientName: string, noteType: string,
                        noteContent: string, caseSensitive: bool)
    requires '\n' !in timestamp && '\n' !in patientName && '\n' !in noteType && '\n' !in noteContent
    ensures FormatMatch(|Split(notesContent, '\n')| + 3, NameLabel + patientName)
              in SearchResults(notesContent + NoteRecord(timestamp, patientName, noteType, noteContent), patientName, caseSensitive)
  {
    NameLineOfRecord(notesContent, timestamp, patientName, noteType, noteContent);
    NameLineAfter(notesContent, notesContent + NoteRecord(timestamp, patientName, noteType, noteContent), patientName, caseSensitive);
  }

  /** `NameLineReported` with the line counted past an earlier text. */
  lemma NameLineAfter(before: string, updated: string, patientName: string, caseSensitive: bool)
    requires |Split(before, '\n')| + 2 < |Split(updated, '\n')|
    requires Split(updated, '\n')[|Split(before, '\n')| + 2] == NameLabel + patientName
    ensures FormatMatch(|Split(before, '\n')| + 3, NameLabel + patientName) in SearchResults(updated, patientName, caseSensitive)
  {
    NameLineReported(updated, |Split(before, '\n')|, patientName, caseSensitive);
  }

  lemma ThirdAddedLine(lines: seq<string>, before: seq<string>, added: seq<string>)
    requires |added| > 2 && lines == before + added
    ensures |before| + 2 < |lines| && lines[|before| + 2] == added[2]
  {
  }

  /** The name line of a record holds the name, in either case mode. */
  lemma NameLineMatches(patientName: string, caseSensitive: bool)
    ensures LineMatches(patientName, NameLabel + patientName, caseSensitive)
  {
    assert SubstringAt(patientName, patientName, 0);
    ContainsRight(NameLabel, patientName, patientName);
    FoldKeepsContains(NameLabel + patientName, patientName, caseSensitive);
  }

  /** A line that holds the query is among the search results, with its
      1-based number. */
  lemma LineIsReported(notesContent: string, query: string, caseSensitive: bool, number: int, line: string)
    requires 1 <= number <= |Split(notesContent, '\n')| && Split(notesContent, '\n')[number - 1] == line
    requires LineMatches(query, line, caseSensitive)
    ensures FormatMatch(number, line) in SearchResults(notesContent, query, caseSensitive)
  {
    var lines := Split(notesContent, '\n');
    var flags := MatchFlags(lines, query, caseSensitive);
    MatchFlagAt(lines, query, caseSensitive, number - 1);
    SetPositionsComplete(flags, number);
    FormatMatchesHas(lines, SetPositions(flags), number);
  }

  lemma FormatMatchesHas(lines: seq<string>, ns: seq<nat>, number: int)
    requires forall j :: 0 <= j < |ns| ==> 1 <= ns[j] <= |lines|
    requires 1 <= number <= |lines| && number in ns
    ensures FormatMatch(number, lines[number - 1]) in FormatMatches(lines, ns)
  {
    var j :| 0 <= j < |ns| && ns[j] == number;
    assert FormatMatches(lines, ns)[j] == FormatMatch(number, lines[number - 1]);
  }

  // ---------------------------------------------------------------------
  // The store and the tool endpoints
  // ---------------------------------------------------------------------

  const MissingQueryError: string := "Query parameter is required"
  const MissingFieldsError: string := "patient_name and note_content are required"
  const WriteFailedError: string := "Failed to add note"
  const AddedPrefix: string := "Successfully added note for "

  datatype SearchResponse =
    | SearchReply(query: string, caseSensitive: bool, matchesFound: nat, results: seq<string>)
    | SearchRejected(status: nat, error: string)

  datatype AddResponse =
    | NoteAdded(message: string, patientName: string, noteType: string)
    | AddRejected(status: nat, error: string)

  class NotesStore {
    /** The characters of the notes file, before the text-mode read
        converts its line ends. */
    var content: string

    constructor (initial: string)
      ensures content == initial
    {
      content := initial;
    }

    /** `add_patient_note`: appends the record when the write succeeds
        (`writeSucceeds` stands for the file system) and reports whether
        it did. */
    method AddPatientNote(patientName: string, noteContent: string, noteType: string, timestamp: string, writeSucceeds: bool)
      returns (success: bool)
      modifies this
      ensures success == writeSucceeds
      ensures success ==> content == old(content) + NoteRecord(timestamp, patientName, noteType, noteContent)
      ensures !success ==> content == old(content)
    {
      if !writeSucceeds {
        return false;
      }
      var newNote := NoteRecord(timestamp, patientName, noteType, noteContent);
      content := content + newNote;
      return true;
    }

    /** The search endpoint: a missing or empty query is refused with 400;
        otherwise the results and their count. */
    method SearchNotesTool(query: Option<string>, caseSensitive: Option<bool>) returns (response: SearchResponse)
      ensures (query.None? || query.value == []) <==> response == SearchRejected(400, MissingQueryError)
      ensures query.Some? && query.value != [] ==>
                var cs := if caseSensitive.Some? then caseSensitive.value else false;
                var results := SearchResults(ReadText(content), query.value, cs);
                response == SearchReply(query.value, cs, |results|, results)
    {
      var q := if query.Some? then query.value else [];
      var cs := if caseSensitive.Some? then caseSensitive.value else false;
      if q == [] {
        return SearchRejected(400, MissingQueryError);
      }
      var results := SearchInNotes(content, q, cs);
      response := SearchReply(q, cs, |results|, results);
    }

    /** The add endpoint: an empty or missing name or content is refused
        with 400 and nothing is written; a failed write gives 500. */
    method AddNoteTool(patientName: Option<string>, noteContent: Option<string>, noteType: Option<string>,
                       timestamp: string, writeSucceeds: bool) returns (response: AddResponse)
      modifies this
      ensures var name := if patientName.Some? then patientName.value else [];
              var note := if noteContent.Some? then noteContent.value else [];
              var kind := if noteType.Some? then noteType.value else DefaultNoteType;
              && ((name == [] || note == []) ==>
                    response == AddRejected(400, MissingFieldsError) && content == old(content))
              && (name != [] && note != [] && writeSucceeds ==>
                    response == NoteAdded(AddedPrefix + name, name, kind)
                    && content == old(content) + NoteRecord(timestamp, name, kind, note))
              && (name != [] && note != [] && !writeSucceeds ==>
                    response == AddRejected(500, WriteFailedError) && content == old(content))
    {
      var name := if patientName.Some? then patientName.value else [];
      var note := if noteContent.Some? then noteContent.value else [];
      var kind := if noteType.Some? then noteType.value else DefaultNoteType;
      if name == [] || note == [] {
        return AddRejected(400, MissingFieldsError);
      }
      var success := AddPatientNote(name, note, kind, timestamp, writeSucceeds);
      if success {
        response := NoteAdded(AddedPrefix + name, name, kind);
      } else {
        response := AddRejected(500, WriteFailedError);
      }
    }
  }
}
