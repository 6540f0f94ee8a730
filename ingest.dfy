/**
 * The runbook text utilities of the ingestion pipeline (rag/ingest.py): the
 * markdown title of a document, and its split into overlapping, trimmed,
 * non-empty chunks of bounded length.
 */
module Ingest {
  import opened Text

  const ChunkSize: int := 512
  const ChunkOverlap: int := 50

  // ---------------------------------------------------------------------------
  // Lines and the title
  // ---------------------------------------------------------------------------

  /** The characters `str.splitlines` breaks at (a "\r\n" pair counts as one break). */
  predicate IsLineBreak(c: char) {
    c == '\n' || c == '\r' || c == '\U{0B}' || c == '\U{0C}' || c == '\U{1C}' || c == '\U{1D}'
    || c == '\U{1E}' || c == '\U{85}' || c == '\U{2028}' || c == '\U{2029}'
  }

  /** The index of the first line break of `s`, or `|s|`. */
  function LineEnd(s: string): (k: nat)
    ensures k <= |s|
    ensures k < |s| ==> IsLineBreak(s[k])
    ensures forall i :: 0 <= i < k ==> !IsLineBreak(s[i])
  {
    if s == [] || IsLineBreak(s[0]) then 0 else 1 + LineEnd(s[1..])
  }

  /** `s.splitlines()`: the lines without their terminators; a final terminator opens no new line. */
  function SplitLines(s: string): (lines: seq<string>)
    ensures s == [] <==> lines == []
    decreases |s|
  {
    if s == [] then []
    else
      var k := LineEnd(s);
      if k == |s| then [s]
      else
        [s[..k]] + SplitLines(s[BreakEnd(s, k)..])
  }

  /** Where the line break at `k` ends: a "\r\n" pair is one break. */
  function BreakEnd(s: string, k: nat): (e: nat)
    requires k < |s|
    ensures k < e <= |s|
  {
    if s[k] == '\r' && k + 1 < |s| && s[k + 1] == '\n' then k + 2 else k + 1
  }

  /** The terminator `splitlines` drops after each line: a break, or "" after a final unterminated line. */
  function Terminators(s: string): (t: seq<string>)
    decreases |s|
  {
    if s == [] then []
    else
      var k := LineEnd(s);
      if k == |s| then [""]
      else [s[k..BreakEnd(s, k)]] + Terminators(s[BreakEnd(s, k)..])
  }

  /** One line terminator: "\r\n" or a single line-break character. */
  predicate IsTerminator(t: string) {
    t == "\r\n" || (|t| == 1 && IsLineBreak(t[0]))
  }

  /** The lines put back together, each followed by its terminator. */
  function Rejoin(lines: seq<string>, terms: seq<string>): string
    requires |lines| == |terms|
  {
    if lines == [] then [] else lines[0] + terms[0] + Rejoin(lines[1..], terms[1..])
  }

  /** One step of the split: the first line and its terminator, then the split of the rest. */
  lemma SplitStep(s: string)
    requires s != [] && LineEnd(s) < |s|
    ensures SplitLines(s) == [s[..LineEnd(s)]] + SplitLines(s[BreakEnd(s, LineEnd(s))..])
    ensures Terminators(s) == [s[LineEnd(s)..BreakEnd(s, LineEnd(s))]] + Terminators(s[BreakEnd(s, LineEnd(s))..])
  {
  }

  lemma RejoinCons(line: string, term: string, lines: seq<string>, terms: seq<string>)
    requires |lines| == |terms|
    ensures Rejoin([line] + lines, [term] + terms) == line + term + Rejoin(lines, terms)
  {
    assert ([line] + lines)[1..] == lines;
    assert ([term] + terms)[1..] == terms;
  }

  lemma ThreeSlices(s: string, k: nat, e: nat)
    requires k <= e <= |s|
    ensures s[..k] + s[k..e] + s[e..] == s
  {
    assert s == s[..k] + s[k..e] + s[e..];
  }

  /** `splitlines` loses nothing but the terminators: the lines, each followed by its terminator, give the text back. */
  lemma {:induction false} SplitLinesRoundTrip(s: string)
    ensures |Terminators(s)| == |SplitLines(s)|
    ensures Rejoin(SplitLines(s), Terminators(s)) == s
    decreases |s|
  {
    if s != [] {
      var k := LineEnd(s);
      if k < |s| {
        var e := BreakEnd(s, k);
        var rest := s[e..];
        SplitLinesRoundTrip(rest);
        SplitStep(s);
        calc {
          Rejoin(SplitLines(s), Terminators(s));
          { RejoinCons(s[..k], s[k..e], SplitLines(rest), Terminators(rest)); }
          s[..k] + s[k..e] + Rejoin(SplitLines(rest), Terminators(rest));
          s[..k] + s[k..e] + rest;
          { ThreeSlices(s, k, e); }
          s;
        }
      } else {
        assert Rejoin([s], [""]) == s + "" + Rejoin([], []);
      }
    }
  }

  /** The text from a line break to where the break ends is one terminator. */
  lemma BreakIsTerminator(s: string, k: nat)
    requires k < |s| && IsLineBreak(s[k])
    ensures IsTerminator(s[k..BreakEnd(s, k)])
  {
    var t := s[k..BreakEnd(s, k)];
    if BreakEnd(s, k) == k + 2 { assert t == "\r\n"; } else { assert |t| == 1 && t[0] == s[k]; }
  }

  /** Every terminator but the last is a line break; the last is a line break or nothing. */
  lemma {:induction false} TerminatorsAreBreaks(s: string)
    ensures forall j :: 0 <= j < |Terminators(s)| - 1 ==> IsTerminator(Terminators(s)[j])
    ensures Terminators(s) != [] ==> Terminators(s)[|Terminators(s)| - 1] == "" || IsTerminator(Terminators(s)[|Terminators(s)| - 1])
    decreases |s|
  {
    if s != [] {
      var k := LineEnd(s);
      if k < |s| {
        var e := BreakEnd(s, k);
        var rest := s[e..];
        TerminatorsAreBreaks(rest);
        SplitStep(s);
        BreakIsTerminator(s, k);
        var terms := Terminators(s);
        forall j | 0 <= j < |terms| - 1
          ensures IsTerminator(terms[j])
        {
          if j > 0 { assert terms[j] == Terminators(rest)[j - 1]; }
        }
        if Terminators(rest) != [] {
          assert terms[|terms| - 1] == Terminators(rest)[|Terminators(rest)| - 1];
        }
      }
    }
  }

  /**
   * "\r\n" counts once: a terminator "\r" is never directly followed by an empty line
   * ended by "\n", which would have made the two characters one break.
   */
  lemma {:induction false} CarriageReturnStandsAlone(s: string)
    ensures |Terminators(s)| == |SplitLines(s)|
    ensures forall j :: 0 <= j < |Terminators(s)| - 1 && Terminators(s)[j] == "\r" ==>
              !(SplitLines(s)[j + 1] == [] && Terminators(s)[j + 1] == "\n")
    decreases |s|
  {
    SplitLinesRoundTrip(s);
    if s != [] {
      var k := LineEnd(s);
      if k < |s| {
        var e := BreakEnd(s, k);
        var rest := s[e..];
        CarriageReturnStandsAlone(rest);
        SplitStep(s);
        var lines := SplitLines(s);
        var terms := Terminators(s);
        forall j | 0 <= j < |terms| - 1 && terms[j] == "\r"
          ensures !(lines[j + 1] == [] && terms[j + 1] == "\n")
        {
          if j == 0 {
            assert |s[k..e]| == 1 && s[k..e][0] == s[k];
            assert rest != [] && rest[0] == s[e];
            assert rest[0] != '\n';
            var k' := LineEnd(rest);
            if k' < |rest| {
              SplitStep(rest);
              assert lines[1] == rest[..k'] && terms[1] == rest[k'..BreakEnd(rest, k')];
              assert k' == 0 ==> terms[1][0] == rest[0];
            } else {
              assert lines[1] == rest;
            }
          } else {
            assert lines[j + 1] == SplitLines(rest)[j] && terms[j] == Terminators(rest)[j - 1];
            assert terms[j + 1] == Terminators(rest)[j];
          }
        }
      }
    }
  }

  /** A markdown H1 line: it starts with "# ". */
  predicate IsTitleLine(line: string) {
    StartsWith(line, "# ")
  }

  /** The index of the first title line, or -1 when there is none. */
  function TitleIndex(lines: seq<string>): (i: int)
    ensures -1 <= i < |lines|
    ensures i == -1 <==> forall j :: 0 <= j < |lines| ==> !IsTitleLine(lines[j])
    ensures i >= 0 ==> IsTitleLine(lines[i]) && forall j :: 0 <= j < i ==> !IsTitleLine(lines[j])
  {
    if lines == [] then -1
    else if IsTitleLine(lines[0]) then 0
    else
      var k := TitleIndex(lines[1..]);
      if k == -1 then -1 else k + 1
  }

  /** The first-match loop of `_extract_title` over the lines. */
  function FirstTitle(lines: seq<string>): string {
    if lines == [] then "Untitled"
    else if IsTitleLine(lines[0]) then Strip(lines[0][2..])
    else FirstTitle(lines[1..])
  }

  /** `FirstTitle` picks exactly the line `TitleIndex` finds. */
  lemma {:induction false} FirstTitleAtIndex(lines: seq<string>)
    ensures TitleIndex(lines) == -1 ==> FirstTitle(lines) == "Untitled"
    ensures TitleIndex(lines) >= 0 ==> FirstTitle(lines) == Strip(lines[TitleIndex(lines)][2..])
  {
    if lines != [] && !IsTitleLine(lines[0]) {
      FirstTitleAtIndex(lines[1..]);
    }
  }

  /**
   * `_extract_title(content)`: the trimmed text after "# " on the first line that
   * starts with "# ", or "Untitled" when no line does.
   */
  function ExtractTitle(content: string): (r: string)
    ensures var lines := SplitLines(content);
      && (TitleIndex(lines) == -1 ==> r == "Untitled")
      && (TitleIndex(lines) >= 0 ==> r == Strip(lines[TitleIndex(lines)][2..]))
  {
    var lines := SplitLines(content);
    FirstTitleAtIndex(lines);
    FirstTitle(lines)
  }

  /** No line of `s.splitlines()` holds a line break. */
  lemma {:induction false} LinesHaveNoBreaks(s: string)
    ensures forall j, i :: 0 <= j < |SplitLines(s)| && 0 <= i < |SplitLines(s)[j]| ==> !IsLineBreak(SplitLines(s)[j][i])
    decreases |s|
  {
    if s != [] {
      var k := LineEnd(s);
      if k < |s| {
        LinesHaveNoBreaks(s[BreakEnd(s, k)..]);
      }
    }
  }

  /** A line starting with "##" is never taken for a title. */
  lemma SubheadingIsNoTitle(line: string)
    requires StartsWith(line, "##")
    ensures !IsTitleLine(line)
  {
    assert line[1] == '#';
  }

  /** The first line of `s` ends at the first line break. */
  lemma LineEndAt(s: string, k: nat)
    requires k < |s| && IsLineBreak(s[k]) && forall i :: 0 <= i < k ==> !IsLineBreak(s[i])
    ensures LineEnd(s) == k
  {
  }

  /** Text without line breaks is one line. */
  lemma OneLine(s: string)
    requires s != [] && forall i :: 0 <= i < |s| ==> !IsLineBreak(s[i])
    ensures SplitLines(s) == [s]
  {
  }

  /** A heading on the first line gives its trimmed text as the title, whatever follows. */
  lemma TitleFromFirstLine(t: string, rest: string)
    requires forall i :: 0 <= i < |t| ==> !IsLineBreak(t[i])
    ensures ExtractTitle("# " + t + "\n" + rest) == Strip(t)
  {
    var line := "# " + t;
    var s := line + "\n" + rest;
    assert s[|line|] == '\n';
    assert forall i :: 0 <= i < |line| ==> s[i] == line[i];
    LineEndAt(s, |line|);
    var lines := SplitLines(s);
    assert lines[0] == s[..|line|] == line;
    assert line[..2] == "# " && line[2..] == t;
    FirstTitleAtIndex(lines);
  }

  /** A single line that is no heading gives "Untitled". */
  lemma UntitledWithoutHeading(s: string)
    requires s != [] && forall i :: 0 <= i < |s| ==> !IsLineBreak(s[i])
    requires !StartsWith(s, "# ")
    ensures ExtractTitle(s) == "Untitled"
  {
    OneLine(s);
    assert TitleIndex([s][1..]) == -1;
  }

  // ---------------------------------------------------------------------------
  // Chunks
  // ---------------------------------------------------------------------------

  /** The window `text[start:start + size]`, with Python's slice rules. */
  function Window(text: string, size: int, start: nat): string {
    PySlice(text, start, start + size)
  }

  /** What one window contributes: its trimmed text, unless that is empty. */
  function Piece(text: string, size: int, start: nat): seq<string> {
    NonBlank(Strip(Window(text, size, start)))
  }

  /** `if chunk.strip():` — a trimmed window is kept only when something is left. */
  function NonBlank(t: string): seq<string> {
    if t != [] then [t] else []
  }

  /** The chunks the loop of `_chunk_text` produces from window `start` on. */
  function ChunksFrom(text: string, size: int, overlap: int, start: nat): seq<string>
    requires overlap < size
    decreases |text| - start
  {
    if start >= |text| then []
    else Piece(text, size, start) + ChunksFrom(text, size, overlap, start + size - overlap)
  }

  /** A window before the end contributes its piece, and the chunks continue at the next window. */
  lemma ChunksFromUnfold(text: string, size: int, overlap: int, start: nat, next: nat)
    requires overlap < size && start < |text| && next == start + size - overlap
    ensures ChunksFrom(text, size, overlap, start) == Piece(text, size, start) + ChunksFrom(text, size, overlap, next)
  {
    assert ChunksFrom(text, size, overlap, start)
      == Piece(text, size, start) + ChunksFrom(text, size, overlap, start + size - overlap);
  }

  /**
   * One pass of the loop: when the chunks still to come are this window's piece and
   * then the rest, appending the piece to the chunks so far leaves the rest to come.
   */
  lemma ChunksStep(before: seq<string>, piece: seq<string>, rest: seq<string>, toCome: seq<string>,
                   after: seq<string>, all: seq<string>)
    requires before + toCome == all && toCome == piece + rest && after == before + piece
    ensures after + rest == all
  {
    AppendAssoc(before, piece, rest);
  }

  /** `_chunk_text(text, chunk_size, overlap)`. The loop ends only if windows advance: `overlap < chunk_size`. */
  method ChunkText(text: string, chunkSize: int, overlap: int) returns (chunks: seq<string>)
    requires overlap < chunkSize
    ensures chunks == ChunksFrom(text, chunkSize, overlap, 0)
  {
    chunks := [];
    var start: nat := 0;
    ghost var all := ChunksFrom(text, chunkSize, overlap, 0);
    while start < |text|
      invariant chunks + ChunksFrom(text, chunkSize, overlap, start) == all
      decreases |text| - start
    {
      chunks, start := NextChunk(text, chunkSize, overlap, start, chunks, all);
    }
  }

  /**
   * One pass of the loop of `_chunk_text`: trim the window at `start`, keep it when
   * it is not empty, and move to the next window, `overlap` characters before this one ends.
   */
  method NextChunk(text: string, chunkSize: int, overlap: int, start: nat, chunks: seq<string>,
                   ghost all: seq<string>)
    returns (chunks': seq<string>, next: nat)
    requires overlap < chunkSize && start < |text|
    requires chunks + ChunksFrom(text, chunkSize, overlap, start) == all
    ensures next == start + chunkSize - overlap
    ensures chunks' == chunks + Piece(text, chunkSize, start)
    ensures chunks' + ChunksFrom(text, chunkSize, overlap, next) == all
  {
    var end := start + chunkSize;
    var chunk := PySlice(text, start, end);
    ghost var piece := Piece(text, chunkSize, start);
    assert chunk == Window(text, chunkSize, start);
    if Strip(chunk) != [] {
      chunks' := chunks + [Strip(chunk)];
      assert piece == [Strip(chunk)];
    } else {
      chunks' := chunks;
      assert piece == [] && chunks + piece == chunks;
    }
    next := end - overlap;
    ChunksFromUnfold(text, chunkSize, overlap, start, next);
    ChunksStep(chunks, piece, ChunksFrom(text, chunkSize, overlap, next),
               ChunksFrom(text, chunkSize, overlap, start), chunks', all);
  }

  /** A chunk that trimming can produce: non-empty, bounded by a non-blank at each end, at most `size` long. */
  predicate GoodChunk(c: string, size: int) {
    c != [] && !IsSpace(c[0]) && !IsSpace(c[|c| - 1]) && |c| <= size
  }

  /** What one window contributes is a good chunk, if anything. */
  lemma PieceIsGood(text: string, size: int, start: nat)
    requires 0 <= size
    ensures forall c :: c in Piece(text, size, start) ==> GoodChunk(c, size)
  {
    var w := Window(text, size, start);
    assert |w| <= size;
    StripEmptyIffBlank(w);
  }

  /** Every chunk is non-empty, begins and ends with a non-blank, and fits in `size`. */
  lemma {:induction false} ChunksAreTrimmedAndBounded(text: string, size: int, overlap: int, start: nat)
    requires 0 <= size && overlap < size
    ensures forall c :: c in ChunksFrom(text, size, overlap, start) ==> GoodChunk(c, size)
    decreases |text| - start
  {
    if start < |text| {
      var piece := Piece(text, size, start);
      var rest := ChunksFrom(text, size, overlap, start + size - overlap);
      PieceIsGood(text, size, start);
      ChunksAreTrimmedAndBounded(text, size, overlap, start + size - overlap);
      assert ChunksFrom(text, size, overlap, start) == piece + rest;
      forall c | c in piece + rest
        ensures GoodChunk(c, size)
      {
        if c !in piece {
          assert c in rest;
        }
      }
    }
  }

  /** Where window `k` starts: `k` steps of `step` from the beginning. */
  function WindowStart(k: nat, step: nat): nat {
    if k == 0 then 0 else WindowStart(k - 1, step) + step
  }

  /** Window `k` starts at `k * step`. */
  lemma {:induction false} WindowStartIsMultiple(k: nat, step: nat)
    ensures WindowStart(k, step) == k * step
  {
    if k > 0 {
      WindowStartIsMultiple(k - 1, step);
    }
  }

  /** The trimmed windows at starts `WindowStart(k, size - overlap)`, `WindowStart(k + 1, ...)`, ... before the end, in order. */
  function ChunksByIndex(text: string, size: int, overlap: int, k: nat): seq<string>
    requires overlap < size
    decreases |text| - WindowStart(k, size - overlap)
  {
    var start := WindowStart(k, size - overlap);
    if start >= |text| then []
    else Piece(text, size, start) + ChunksByIndex(text, size, overlap, k + 1)
  }

  /** The loop's windows start at 0, 1·step, 2·step, ... with step `size - overlap`. */
  lemma {:induction false} ChunksFollowWindows(text: string, size: int, overlap: int, k: nat)
    requires overlap < size
    ensures ChunksFrom(text, size, overlap, WindowStart(k, size - overlap)) == ChunksByIndex(text, size, overlap, k)
    decreases |text| - WindowStart(k, size - overlap)
  {
    var start := WindowStart(k, size - overlap);
    if start < |text| {
      var next := WindowStart(k + 1, size - overlap);
      assert next == start + size - overlap;
      ChunksFromUnfold(text, size, overlap, start, next);
      ChunksFollowWindows(text, size, overlap, k + 1);
    }
  }

  lemma ChunksOfEmptyText(size: int, overlap: int)
    requires overlap < size
    ensures ChunksFrom([], size, overlap, 0) == []
  {
  }

  /** 1024 non-blank characters, cut with the default sizes, give at least two chunks. */
  lemma LongTextGivesSeveralChunks(text: string)
    requires |text| == 1024 && forall i :: 0 <= i < |text| ==> !IsSpace(text[i])
    ensures |ChunksFrom(text, ChunkSize, ChunkOverlap, 0)| >= 2
  {
    var w0 := Window(text, ChunkSize, 0);
    assert w0[0] == text[0];
    StripEmptyIffBlank(w0);
    var w1 := Window(text, ChunkSize, 462);
    assert w1[0] == text[462];
    StripEmptyIffBlank(w1);
    assert ChunksFrom(text, ChunkSize, ChunkOverlap, 0)
      == [Strip(w0)] + ([Strip(w1)] + ChunksFrom(text, ChunkSize, ChunkOverlap, 924));
  }
}
