/** Lines as the fenced-block splitters read them: trimmed, then tested for a fence marker. */
module Fences {
  import opened Transcript

  const MIN_FENCE := 3

  type FenceLength = n: int | n >= MIN_FENCE witness MIN_FENCE

  datatype Marker = Marker(length: FenceLength, isTick: bool)

  function FenceChar(isTick: bool): char {
    if isTick then '`' else '~'
  }

  /** How many times `c` opens the line. */
  function LeadingRun(line: string, c: char): (n: nat)
    ensures n <= |line|
  {
    if line != "" && line[0] == c then 1 + LeadingRun(line[1..], c) else 0
  }

  function FenceMarker(line: string): (m: Option<Marker>)
    ensures m.Some? ==> m.value.length <= |line|
  {
    var ticks := LeadingRun(line, '`');
    if ticks >= MIN_FENCE then
      if '`' in line[ticks..] then None else Some(Marker(ticks, true))
    else
      var tildes := LeadingRun(line, '~');
      if tildes >= MIN_FENCE && '~' !in line[tildes..] then Some(Marker(tildes, false)) else None
  }

  lemma {:induction false} LeadingRunMeans(line: string, c: char)
    ensures var n := LeadingRun(line, c);
            && (forall i :: 0 <= i < n ==> line[i] == c)
            && (n < |line| ==> line[n] != c)
  {
    if line != "" && line[0] == c {
      LeadingRunMeans(line[1..], c);
      assert forall i :: 0 < i < |line| ==> line[i] == line[1..][i - 1];
    }
  }

  /** A marker line is a run of at least three of one fence character that recurs nowhere after it. */
  ghost predicate IsMarkerLine(line: string, m: Marker) {
    && m.length <= |line|
    && (forall i :: 0 <= i < m.length ==> line[i] == FenceChar(m.isTick))
    && FenceChar(m.isTick) !in line[m.length..]
  }

  lemma {:induction false} RunIsTheLength(line: string, c: char, n: nat)
    requires n <= |line| && (forall i :: 0 <= i < n ==> line[i] == c)
    requires n == |line| || line[n] != c
    ensures LeadingRun(line, c) == n
  {
    if n > 0 {
      RunIsTheLength(line[1..], c, n - 1);
    }
  }

  lemma MarkerMeans(line: string, m: Marker)
    ensures FenceMarker(line) == Some(m) <==> IsMarkerLine(line, m)
  {
    LeadingRunMeans(line, '`');
    LeadingRunMeans(line, '~');
    if IsMarkerLine(line, m) {
      assert m.length < |line| ==> line[m.length] == line[m.length..][0];
      RunIsTheLength(line, FenceChar(m.isTick), m.length);
      assert line[0] == FenceChar(m.isTick);
    }
  }

  // ── Trimming ──────────────────────────────────────────────────────────

  /** The Unicode property White_Space. */
  predicate RustSpace(c: char) {
    SwiftSpace(c) || '\U{A}' <= c <= '\U{D}' || c == '\U{85}' || c == '\U{2028}' || c == '\U{2029}'
  }

  /** The general category Zs, and the tab. */
  predicate SwiftSpace(c: char) {
    || c == '\U{9}' || c == ' ' || c == '\U{A0}' || c == '\U{1680}'
    || '\U{2000}' <= c <= '\U{200A}' || c == '\U{202F}' || c == '\U{205F}' || c == '\U{3000}'
  }

  function Trim(s: string, space: char -> bool): string {
    if s == "" then s
    else if space(s[0]) then Trim(s[1..], space)
    else if space(s[|s| - 1]) then Trim(s[..|s| - 1], space)
    else s
  }

  /** One line: its text, the marker it is if it is one, and the info string after the marker. */
  datatype Line = Line(text: string, marker: Option<Marker>, info: string)

  function Read(text: string, space: char -> bool): Line {
    var trimmed := Trim(text, space);
    match FenceMarker(trimmed)
    case Some(m) => Line(text, Some(m), Trim(trimmed[m.length..], space))
    case None => Line(text, None, "")
  }

  function ReadAll(texts: seq<string>, space: char -> bool): seq<Line> {
    seq(|texts|, i requires 0 <= i < |texts| => Read(texts[i], space))
  }

  lemma ReadAllConcat(a: seq<string>, b: seq<string>, space: char -> bool)
    ensures ReadAll(a + b, space) == ReadAll(a, space) + ReadAll(b, space)
  {
  }

  /** Inside a fence, the line ends it: same character, at least as long. */
  predicate Closes(line: Line, opener: Marker) {
    line.marker.Some? && line.marker.value.isTick == opener.isTick && line.marker.value.length >= opener.length
  }

  /** A text block grows by one line; an empty block takes the line as it is. */
  function Grown(text: string, line: string): string {
    if text != "" then text + "\n" + line else line
  }
}

/** The core's splitter of streamed assistant text into plain and fenced blocks. */
module Markdown {
  import opened Transcript
  import opened Fences

  datatype Block = Block(language: string, text: string, open: bool)

  datatype SplitState = SplitState(blocks: seq<Block>, current: Option<Block>, fenceTicks: nat, fenceTildes: nat)

  const START := SplitState([], None, 0, 0)

  // ── Lines of a text ───────────────────────────────────────────────────

  function UpTo(text: string, c: char): (n: nat)
    ensures n <= |text| && c !in text[..n] && (n < |text| ==> text[n] == c)
  {
    if text == "" || text[0] == c then 0
    else
      var n := UpTo(text[1..], c) + 1;
      assert text[..n] == [text[0]] + text[1..][..n - 1];
      n
  }

  function WithoutCr(line: string): string {
    if line != "" && line[|line| - 1] == '\r' then line[..|line| - 1] else line
  }

  /** Lines end at a line feed, with or without a carriage return before it; no empty last line. */
  function Lines(text: string): seq<string>
    decreases |text|
  {
    if text == "" then []
    else
      var n := UpTo(text, '\n');
      if n == |text| then [text] else [WithoutCr(text[..n])] + Lines(text[n + 1..])
  }

  // ── One line at a time ────────────────────────────────────────────────

  function Flushed(s: SplitState): seq<Block> {
    s.blocks + match s.current { case Some(block) => [block] case None => [] }
  }

  function Step(s: SplitState, line: Line): SplitState {
    if line.marker.Some? && s.fenceTicks == 0 && s.fenceTildes == 0 then
      var m := line.marker.value;
      SplitState(
        Flushed(s), Some(Block(line.info, "", true)),
        if m.isTick then m.length else 0, if m.isTick then 0 else m.length)
    else if line.marker.Some? && Ends(s, line.marker.value) then
      SplitState(
        s.blocks + (match s.current { case Some(block) => [block.(open := false)] case None => [] }),
        None, 0, 0)
    else
      s.(current := Some(match s.current
        case Some(block) => block.(text := Grown(block.text, line.text))
        case None => Block("", line.text, true)))
  }

  predicate Ends(s: SplitState, m: Marker) {
    || (m.isTick && s.fenceTicks > 0 && m.length >= s.fenceTicks)
    || (!m.isTick && s.fenceTildes > 0 && m.length >= s.fenceTildes)
  }

  function Run(s: SplitState, lines: seq<Line>): SplitState {
    if |lines| == 0 then s else Step(Run(s, lines[..|lines| - 1]), lines[|lines| - 1])
  }

  lemma RunSnoc(s: SplitState, lines: seq<Line>, line: Line)
    ensures Run(s, lines + [line]) == Step(Run(s, lines), line)
  {
    assert (lines + [line])[..|lines|] == lines;
  }

  /** All blocks of a list of lines; the last one may still be open. */
  function Split(lines: seq<Line>): seq<Block> {
    Flushed(Run(START, lines))
  }

  function SplitText(text: string): seq<Block> {
    Split(ReadAll(Lines(text), RustSpace))
  }

  /** The splitter as it runs: one pass over the lines, one block in the making. */
  method SplitBlocks(text: string) returns (blocks: seq<Block>)
    ensures blocks == SplitText(text)
  {
    hide Trim, FenceMarker, Lines;
    blocks := [];
    var current: Option<Block> := None;
    var fenceTicks: nat, fenceTildes: nat := 0, 0;
    var lines := Lines(text);
    ghost var read := ReadAll(lines, RustSpace);
    for i := 0 to |lines|
      invariant SplitState(blocks, current, fenceTicks, fenceTildes) == Run(START, read[..i])
    {
      RunSnoc(START, read[..i], read[i]);
      assert read[..i + 1] == read[..i] + [read[i]];
      var line := lines[i];
      var trimmed := Trim(line, RustSpace);
      var marker := FenceMarker(trimmed);
      if marker.Some? {
        var Marker(length, isTick) := marker.value;
        if fenceTicks == 0 && fenceTildes == 0 {
          if isTick {
            fenceTicks := length;
          } else {
            fenceTildes := length;
          }
          var language := Trim(trimmed[length..], RustSpace);
          if current.Some? {
            blocks := blocks + [current.value];
          }
          current := Some(Block(language, "", true));
          continue;
        }
        var closes := (isTick && fenceTicks > 0 && length >= fenceTicks)
                   || (!isTick && fenceTildes > 0 && length >= fenceTildes);
        if closes {
          if current.Some? {
            blocks := blocks + [current.value.(open := false)];
          }
          current := None;
          fenceTicks, fenceTildes := 0, 0;
          continue;
        }
      }
      match current
      case Some(block) =>
        current := Some(block.(text := Grown(block.text, line)));
      case None =>
        current := Some(Block("", line, true));
    }
    assert read[..|lines|] == read;
    if current.Some? {
      blocks := blocks + [current.value];
    }
  }

  // ── What the blocks are ───────────────────────────────────────────────

  /** A stretch of the text: plain lines, or a fence with its two delimiters. */
  datatype Segment =
    | Prose(lines: seq<Line>)
    | Fence(opener: Line, body: seq<Line>, closer: Option<Line>)

  function LinesOf(segment: Segment): seq<Line> {
    match segment
    case Prose(lines) => lines
    case Fence(opener, body, closer) =>
      [opener] + body + match closer { case Some(line) => [line] case None => [] }
  }

  function Unparse(segments: seq<Segment>): seq<Line> {
    if |segments| == 0 then [] else Unparse(segments[..|segments| - 1]) + LinesOf(segments[|segments| - 1])
  }

  ghost predicate ProperSegment(segment: Segment) {
    match segment
    case Prose(lines) => lines != [] && forall l :: l in lines ==> l.marker.None?
    case Fence(opener, body, closer) =>
      && opener.marker.Some?
      && (forall l :: l in body ==> !Closes(l, opener.marker.value))
      && (closer.Some? ==> Closes(closer.value, opener.marker.value))
  }

  predicate MayFollow(a: Segment, b: Segment) {
    match a
    case Prose(_) => b.Fence?
    case Fence(_, _, closer) => closer.Some?
  }

  /** Plain stretches are maximal, a fence runs to its first closing line, and only the last fence may
      lack one. */
  ghost predicate Segmentation(segments: seq<Segment>) {
    && (forall i :: 0 <= i < |segments| ==> ProperSegment(segments[i]))
    && (forall i :: 0 <= i < |segments| - 1 ==> MayFollow(segments[i], segments[i + 1]))
  }

  function Joined(lines: seq<Line>): string {
    if |lines| == 0 then "" else Grown(Joined(lines[..|lines| - 1]), lines[|lines| - 1].text)
  }

  function BlockOf(segment: Segment): Block {
    match segment
    case Prose(lines) => Block("", Joined(lines), true)
    case Fence(opener, body, closer) => Block(opener.info, Joined(body), closer.None?)
  }

  function BlocksOf(segments: seq<Segment>): seq<Block> {
    if |segments| == 0 then [] else BlocksOf(segments[..|segments| - 1]) + [BlockOf(segments[|segments| - 1])]
  }

  lemma JoinedSnoc(lines: seq<Line>, line: Line)
    ensures Joined(lines + [line]) == Grown(Joined(lines), line.text)
  {
    assert (lines + [line])[..|lines|] == lines;
  }

  lemma SegmentsSnoc(before: seq<Segment>, last: Segment)
    ensures Unparse(before + [last]) == Unparse(before) + LinesOf(last)
    ensures BlocksOf(before + [last]) == BlocksOf(before) + [BlockOf(last)]
  {
    assert (before + [last])[..|before|] == before;
  }

  /** The segments of an initial part, and any proper continuation. */
  lemma SegmentationSnoc(before: seq<Segment>, last: Segment)
    ensures Segmentation(before + [last])
       <==> && Segmentation(before) && ProperSegment(last)
            && (before != [] ==> MayFollow(before[|before| - 1], last))
  {
    var all := before + [last];
    assert all[|before|] == last;
    assert forall i :: 0 <= i < |before| ==> all[i] == before[i];
    if Segmentation(all) {
      assert forall i :: 0 <= i < |before| ==> ProperSegment(all[i]);
      assert forall i :: 0 <= i < |before| - 1 ==> MayFollow(all[i], all[i + 1]);
      assert before != [] ==> MayFollow(all[|before| - 1], all[|before| - 1 + 1]);
    }
  }

  /** The segment one line longer, if the line belongs to it. */
  function Taken(segment: Segment, line: Line): Option<Segment> {
    match segment
    case Prose(lines) => if line.marker.Some? then None else Some(Prose(lines + [line]))
    case Fence(opener, body, closer) =>
      if closer.Some? || opener.marker.None? then None
      else if Closes(line, opener.marker.value) then Some(Fence(opener, body, Some(line)))
      else Some(Fence(opener, body + [line], None))
  }

  function Started(line: Line): Segment {
    if line.marker.Some? then Fence(line, [], None) else Prose([line])
  }

  lemma StartedIsProper(line: Line)
    ensures ProperSegment(Started(line)) && LinesOf(Started(line)) == [line]
  {
  }

  lemma TakenIsProper(segment: Segment, line: Line)
    requires ProperSegment(segment)
    ensures Taken(segment, line).None? ==> MayFollow(segment, Started(line))
    ensures Taken(segment, line).Some? ==>
              var taken := Taken(segment, line).value;
              ProperSegment(taken) && LinesOf(taken) == LinesOf(segment) + [line] && taken.Fence? == segment.Fence?
  {
  }

  /** The segments of a text one line longer. */
  function Extend(segments: seq<Segment>, line: Line): seq<Segment> {
    if segments != [] && Taken(segments[|segments| - 1], line).Some? then
      segments[..|segments| - 1] + [Taken(segments[|segments| - 1], line).value]
    else segments + [Started(line)]
  }

  lemma StartExtends(segments: seq<Segment>, line: Line)
    requires Segmentation(segments)
    requires segments != [] ==> MayFollow(segments[|segments| - 1], Started(line))
    ensures Segmentation(segments + [Started(line)])
    ensures Unparse(segments + [Started(line)]) == Unparse(segments) + [line]
  {
    hide Segmentation, ProperSegment, MayFollow, Unparse;
    StartedIsProper(line);
    SegmentationSnoc(segments, Started(line));
    SegmentsSnoc(segments, Started(line));
  }

  lemma TakenExtends(before: seq<Segment>, last: Segment, line: Line)
    requires Segmentation(before + [last]) && Taken(last, line).Some?
    ensures Segmentation(before + [Taken(last, line).value])
    ensures Unparse(before + [Taken(last, line).value]) == Unparse(before + [last]) + [line]
  {
    hide Segmentation, ProperSegment, Unparse, Taken;
    SegmentationSnoc(before, last);
    TakenIsProper(last, line);
    SegmentationSnoc(before, Taken(last, line).value);
    SegmentsSnoc(before, last);
    SegmentsSnoc(before, Taken(last, line).value);
  }

  lemma ExtendIsSegmentation(segments: seq<Segment>, line: Line)
    requires Segmentation(segments)
    ensures Segmentation(Extend(segments, line))
    ensures Unparse(Extend(segments, line)) == Unparse(segments) + [line]
  {
    hide Segmentation, Unparse, Taken, Started;
    if segments == [] {
      StartExtends(segments, line);
    } else {
      var before, last := segments[..|segments| - 1], segments[|segments| - 1];
      assert segments == before + [last];
      if Taken(last, line).Some? {
        TakenExtends(before, last, line);
      } else {
        SegmentationSnoc(before, last);
        TakenIsProper(last, line);
        StartExtends(segments, line);
      }
    }
  }

  /** The loop state inside, or right after, the segment `last`. */
  function StateAfter(blocks: seq<Block>, last: Segment): SplitState {
    match last
    case Prose(_) => SplitState(blocks, Some(BlockOf(last)), 0, 0)
    case Fence(opener, body, closer) =>
      if closer.Some? || opener.marker.None? then SplitState(blocks + [BlockOf(last)], None, 0, 0)
      else
        var m := opener.marker.value;
        SplitState(blocks, Some(BlockOf(last)), if m.isTick then m.length else 0, if m.isTick then 0 else m.length)
  }

  function StateOf(segments: seq<Segment>): SplitState {
    if segments == [] then START
    else StateAfter(BlocksOf(segments[..|segments| - 1]), segments[|segments| - 1])
  }

  lemma StepInside(blocks: seq<Block>, last: Segment, line: Line)
    requires ProperSegment(last) && Taken(last, line).Some?
    ensures Step(StateAfter(blocks, last), line) == StateAfter(blocks, Taken(last, line).value)
  {
    match last
    case Prose(lines) => JoinedSnoc(lines, line);
    case Fence(opener, body, closer) => JoinedSnoc(body, line);
  }

  lemma JoinedOne(line: Line)
    ensures Joined([line]) == line.text
  {
    JoinedSnoc([], line);
    assert [] + [line] == [line];
  }

  /** Outside a fence, a line starts a new segment after what is flushed. */
  lemma StepStarts(s: SplitState, line: Line)
    requires s.fenceTicks == 0 && s.fenceTildes == 0
    requires s.current.Some? ==> line.marker.Some?
    ensures Step(s, line) == StateAfter(Flushed(s), Started(line))
  {
    if line.marker.None? {
      JoinedOne(line);
      assert Flushed(s) == s.blocks;
    }
  }

  lemma FlushedAfter(blocks: seq<Block>, last: Segment)
    requires ProperSegment(last)
    ensures Flushed(StateAfter(blocks, last)) == blocks + [BlockOf(last)]
  {
  }

  lemma StepOutside(blocks: seq<Block>, last: Segment, line: Line)
    requires ProperSegment(last) && Taken(last, line).None?
    ensures Step(StateAfter(blocks, last), line) == StateAfter(blocks + [BlockOf(last)], Started(line))
  {
    FlushedAfter(blocks, last);
    StepStarts(StateAfter(blocks, last), line);
  }

  lemma StepExtends(segments: seq<Segment>, line: Line)
    requires Segmentation(segments)
    ensures Step(StateOf(segments), line) == StateOf(Extend(segments, line))
  {
    if segments == [] {
      StepStarts(START, line);
    } else {
      var before, last := segments[..|segments| - 1], segments[|segments| - 1];
      assert segments == before + [last];
      SegmentsSnoc(before, last);
      if Taken(last, line).Some? {
        StepInside(BlocksOf(before), last, line);
      } else {
        StepOutside(BlocksOf(before), last, line);
      }
    }
  }

  function Parse(lines: seq<Line>): seq<Segment> {
    if |lines| == 0 then [] else Extend(Parse(lines[..|lines| - 1]), lines[|lines| - 1])
  }

  /** The loop is in the state that the segments so far describe. */
  lemma ParseSnoc(lines: seq<Line>)
    requires |lines| > 0
    ensures Parse(lines) == Extend(Parse(lines[..|lines| - 1]), lines[|lines| - 1])
  {
  }

  /** The segments are a way to cut these lines. */
  ghost predicate Cuts(segments: seq<Segment>, lines: seq<Line>) {
    Segmentation(segments) && Unparse(segments) == lines
  }

  lemma ExtendCuts(segments: seq<Segment>, lines: seq<Line>, line: Line)
    requires Cuts(segments, lines)
    ensures Cuts(Extend(segments, line), lines + [line])
  {
    ExtendIsSegmentation(segments, line);
  }

  lemma NothingCuts()
    ensures Cuts(Parse([]), [])
  {
  }

  lemma {:induction false} ParseCuts(lines: seq<Line>)
    ensures Cuts(Parse(lines), lines)
  {
    hide Cuts, Extend;
    if |lines| == 0 {
      NothingCuts();
      assert lines == [];
    } else {
      ParseCuts(lines[..|lines| - 1]);
      ExtendCuts(Parse(lines[..|lines| - 1]), lines[..|lines| - 1], lines[|lines| - 1]);
      ParseSnoc(lines);
      assert lines == lines[..|lines| - 1] + [lines[|lines| - 1]];
    }
  }

  lemma {:induction false} RunIsParse(lines: seq<Line>)
    ensures Run(START, lines) == StateOf(Parse(lines))
  {
    if |lines| > 0 {
      var before, line := lines[..|lines| - 1], lines[|lines| - 1];
      RunIsParse(before);
      ParseCuts(before);
      StepExtends(Parse(before), line);
      ParseSnoc(lines);
    }
  }

  /** The segment one line shorter, unless it had only the one. */
  function Shortened(segment: Segment): Option<Segment> {
    match segment
    case Prose(lines) => if |lines| <= 1 then None else Some(Prose(lines[..|lines| - 1]))
    case Fence(opener, body, closer) =>
      if closer.Some? then Some(Fence(opener, body, None))
      else if body != [] then Some(Fence(opener, body[..|body| - 1], None))
      else None
  }

  lemma ShortenedUndoesTaken(segment: Segment)
    requires ProperSegment(segment)
    ensures LinesOf(segment) != []
    ensures var line := LinesOf(segment)[|LinesOf(segment)| - 1];
            match Shortened(segment)
            case None => segment == Started(line) && LinesOf(segment) == [line]
            case Some(shorter) =>
              && ProperSegment(shorter) && shorter.Fence? == segment.Fence?
              && Taken(shorter, line) == Some(segment) && LinesOf(segment) == LinesOf(shorter) + [line]
  {
    match segment
    case Prose(lines) => assert lines == lines[..|lines| - 1] + [lines[|lines| - 1]];
    case Fence(opener, body, closer) => assert body != [] ==> body == body[..|body| - 1] + [body[|body| - 1]];
  }

  /** The segments without the last line. */
  function Shrink(segments: seq<Segment>): seq<Segment>
    requires segments != []
  {
    var before, last := segments[..|segments| - 1], segments[|segments| - 1];
    match Shortened(last)
    case None => before
    case Some(shorter) => before + [shorter]
  }

  /** The last line of a segment, taken off and put back. */
  ghost predicate Resumes(shrunk: seq<Segment>, segments: seq<Segment>, line: Line) {
    && Segmentation(shrunk) && Extend(shrunk, line) == segments
    && Unparse(segments) == Unparse(shrunk) + [line]
  }

  lemma ShortenedResumes(before: seq<Segment>, last: Segment, shorter: Segment, line: Line)
    requires Segmentation(before + [last]) && ProperSegment(shorter) && shorter.Fence? == last.Fence?
    requires Taken(shorter, line) == Some(last) && LinesOf(last) == LinesOf(shorter) + [line]
    ensures Resumes(before + [shorter], before + [last], line)
  {
    SegmentationSnoc(before, last);
    SegmentationSnoc(before, shorter);
    SegmentsSnoc(before, last);
    SegmentsSnoc(before, shorter);
    assert (before + [shorter])[..|before|] == before;
  }

  lemma StartResumes(before: seq<Segment>, line: Line)
    requires Segmentation(before + [Started(line)])
    ensures Resumes(before, before + [Started(line)], line)
  {
    SegmentationSnoc(before, Started(line));
    SegmentsSnoc(before, Started(line));
  }

  lemma ShrinkUndoesExtend(before: seq<Segment>, last: Segment)
    requires Segmentation(before + [last])
    ensures LinesOf(last) != []
    ensures Resumes(Shrink(before + [last]), before + [last], LinesOf(last)[|LinesOf(last)| - 1])
  {
    SegmentationSnoc(before, last);
    ShortenedUndoesTaken(last);
    assert (before + [last])[..|before|] == before;
    var line := LinesOf(last)[|LinesOf(last)| - 1];
    match Shortened(last)
    case Some(shorter) => ShortenedResumes(before, last, shorter, line);
    case None => StartResumes(before, line);
  }

  /** There is only one way to cut a text into segments. */
  lemma {:induction false} SegmentationIsUnique(segments: seq<Segment>)
    requires Segmentation(segments)
    ensures segments == Parse(Unparse(segments))
    decreases |Unparse(segments)|
  {
    if segments != [] {
      assert segments == segments[..|segments| - 1] + [segments[|segments| - 1]];
      ShrinkUndoesExtend(segments[..|segments| - 1], segments[|segments| - 1]);
      var lines := Unparse(segments);
      assert lines[..|lines| - 1] == Unparse(Shrink(segments));
      SegmentationIsUnique(Shrink(segments));
      ParseSnoc(lines);
    }
  }

  /** However a text is cut into maximal plain stretches and fences that run to their first closing
      line, the splitter returns exactly those stretches as blocks, in order. */
  lemma SplitIsTheSegmentation(segments: seq<Segment>)
    requires Segmentation(segments)
    ensures Split(Unparse(segments)) == BlocksOf(segments)
  {
    SegmentationIsUnique(segments);
    RunIsParse(Unparse(segments));
    if segments != [] {
      var before, last := segments[..|segments| - 1], segments[|segments| - 1];
      assert segments == before + [last];
      SegmentationSnoc(before, last);
      SegmentsSnoc(before, last);
      FlushedAfter(BlocksOf(before), last);
    }
  }

  // ── Streaming ─────────────────────────────────────────────────────────

  /** The block after more text came: finished blocks stay, an open one keeps its language and grows. */
  predicate GrowsInto(a: Block, b: Block) {
    a.language == b.language && a.text <= b.text && (!a.open ==> a == b)
  }

  ghost predicate Stable(a: seq<Block>, b: seq<Block>) {
    && |a| <= |b|
    && (forall i :: 0 <= i < |a| - 1 ==> a[i] == b[i])
    && (a != [] ==> GrowsInto(a[|a| - 1], b[|a| - 1]))
  }

  /** A fence is never open without its block; without a block in the making, the last one is closed. */
  predicate Coherent(s: SplitState) {
    && (s.fenceTicks > 0 || s.fenceTildes > 0 ==> s.current.Some?)
    && (s.current.Some? ==> s.current.value.open)
    && (s.current.None? && s.blocks != [] ==> !s.blocks[|s.blocks| - 1].open)
  }

  lemma {:induction false} RunCoherent(lines: seq<Line>)
    ensures Coherent(Run(START, lines))
  {
    if |lines| > 0 {
      RunCoherent(lines[..|lines| - 1]);
    }
  }

  lemma StepStable(s: SplitState, line: Line)
    requires Coherent(s)
    ensures Stable(Flushed(s), Flushed(Step(s, line)))
  {
  }

  lemma StableTransitive(a: seq<Block>, b: seq<Block>, c: seq<Block>)
    requires Stable(a, b) && Stable(b, c)
    ensures Stable(a, c)
  {
  }

  lemma {:induction false} SplitIsStable(lines: seq<Line>, more: seq<Line>)
    ensures Stable(Split(lines), Split(lines + more))
  {
    if |more| == 0 {
      assert lines + more == lines;
    } else {
      var before, line := more[..|more| - 1], more[|more| - 1];
      SplitIsStable(lines, before);
      assert lines + more == (lines + before) + [line];
      RunSnoc(START, lines + before, line);
      RunCoherent(lines + before);
      StepStable(Run(START, lines + before), line);
      StableTransitive(Split(lines), Split(lines + before), Split(lines + more));
    }
  }

  predicate EndsALine(text: string) {
    text == "" || text[|text| - 1] == '\n'
  }

  lemma {:induction false} UpToIsFirst(text: string, more: string, c: char)
    requires c in text
    ensures UpTo(text + more, c) == UpTo(text, c) < |text|
  {
    if text[0] != c {
      assert text == [text[0]] + text[1..];
      assert (text + more)[1..] == text[1..] + more;
      UpToIsFirst(text[1..], more, c);
    }
  }

  /** After a line break, more text only adds lines. */
  lemma {:induction false} LinesConcat(text: string, more: string)
    requires EndsALine(text)
    ensures Lines(text + more) == Lines(text) + Lines(more)
    decreases |text|
  {
    hide UpTo, WithoutCr;
    if text == "" {
      assert text + more == more;
    } else {
      UpToIsFirst(text, more, '\n');
      var n := UpTo(text, '\n');
      assert (text + more)[..n] == text[..n];
      var rest := text[n + 1..];
      assert (text + more)[n + 1..] == rest + more;
      assert rest != "" ==> rest[|rest| - 1] == text[|text| - 1];
      LinesConcat(rest, more);
      AppendsAssociate([WithoutCr(text[..n])], Lines(rest), Lines(more));
    }
  }

  lemma AppendsAssociate(a: seq<string>, b: seq<string>, c: seq<string>)
    ensures a + (b + c) == a + b + c
  {
  }

  /** While text streams in, whatever the complete lines made of blocks stays: all but the last block
      are final, and the last one keeps its language and only grows, unless its fence is closed. */
  lemma StreamingIsStable(text: string, more: string)
    requires EndsALine(text)
    ensures Stable(SplitText(text), SplitText(text + more))
  {
    hide Stable, Split, Lines, ReadAll;
    LinesConcat(text, more);
    ReadAllConcat(Lines(text), Lines(more), RustSpace);
    SplitIsStable(ReadAll(Lines(text), RustSpace), ReadAll(Lines(more), RustSpace));
  }

  // ── Nothing is lost ───────────────────────────────────────────────────

  /** The fence that is open after these lines. */
  function OpenFence(lines: seq<Line>): Option<Marker> {
    if |lines| == 0 then None
    else
      var fence, line := OpenFence(lines[..|lines| - 1]), lines[|lines| - 1];
      if fence.None? then line.marker else if Closes(line, fence.value) then None else fence
  }

  /** The line opens a fence, or closes the one that is open. */
  predicate IsDelimiter(line: Line, fence: Option<Marker>) {
    if fence.None? then line.marker.Some? else Closes(line, fence.value)
  }

  /** The lines that do not open or close a fence. */
  function Kept(lines: seq<Line>): seq<Line> {
    if |lines| == 0 then []
    else
      var fence, line := OpenFence(lines[..|lines| - 1]), lines[|lines| - 1];
      if IsDelimiter(line, fence) then Kept(lines[..|lines| - 1]) else Kept(lines[..|lines| - 1]) + [line]
  }

  /** A text without its line feeds. */
  function Bare(text: string): string {
    if text == "" then ""
    else if text[|text| - 1] == '\n' then Bare(text[..|text| - 1])
    else Bare(text[..|text| - 1]) + [text[|text| - 1]]
  }

  lemma {:induction false} BareConcat(a: string, b: string)
    ensures Bare(a + b) == Bare(a) + Bare(b)
  {
    if b == "" {
      assert a + b == a;
    } else {
      BareConcat(a, b[..|b| - 1]);
      assert (a + b)[..|a + b| - 1] == a + b[..|b| - 1];
    }
  }

  lemma BareGrown(text: string, line: string)
    ensures Bare(Grown(text, line)) == Bare(text) + Bare(line)
  {
    if text != "" {
      BareConcat(text + "\n", line);
      assert (text + "\n")[..|text|] == text;
    }
  }

  function BareLines(lines: seq<Line>): string {
    if |lines| == 0 then "" else BareLines(lines[..|lines| - 1]) + Bare(lines[|lines| - 1].text)
  }

  function BareBlocks(blocks: seq<Block>): string {
    if |blocks| == 0 then "" else BareBlocks(blocks[..|blocks| - 1]) + Bare(blocks[|blocks| - 1].text)
  }

  lemma BareBlocksSnoc(blocks: seq<Block>, block: Block)
    ensures BareBlocks(blocks + [block]) == BareBlocks(blocks) + Bare(block.text)
  {
    assert (blocks + [block])[..|blocks|] == blocks;
  }

  /** The loop's two counters are the open fence. */
  predicate Tracks(s: SplitState, fence: Option<Marker>) {
    match fence
    case None => s.fenceTicks == 0 && s.fenceTildes == 0
    case Some(m) =>
      s.fenceTicks == (if m.isTick then m.length else 0) && s.fenceTildes == if m.isTick then 0 else m.length
  }

  lemma BareFlushed(s: SplitState)
    ensures BareBlocks(Flushed(s))
         == if s.current.Some? then BareBlocks(s.blocks) + Bare(s.current.value.text) else BareBlocks(s.blocks)
  {
    match s.current
    case Some(block) => BareBlocksSnoc(s.blocks, block);
    case None => assert Flushed(s) == s.blocks;
  }

  lemma StepKeepsText(s: SplitState, line: Line, fence: Option<Marker>)
    requires Coherent(s) && Tracks(s, fence)
    ensures BareBlocks(Flushed(Step(s, line)))
         == if IsDelimiter(line, fence) then BareBlocks(Flushed(s)) else BareBlocks(Flushed(s)) + Bare(line.text)
  {
    if !IsDelimiter(line, fence) {
      TextKeepsText(s, line, fence);
    } else if fence.None? {
      OpenerKeepsText(s, line, fence);
    } else {
      CloserKeepsText(s, line, fence);
    }
  }

  lemma TextKeepsText(s: SplitState, line: Line, fence: Option<Marker>)
    requires Tracks(s, fence) && !IsDelimiter(line, fence)
    ensures BareBlocks(Flushed(Step(s, line))) == BareBlocks(Flushed(s)) + Bare(line.text)
  {
    var s' := Step(s, line);
    assert s'.blocks == s.blocks && s'.current.Some?;
    BareFlushed(s);
    BareFlushed(s');
    match s.current
    case Some(block) =>
      BareGrown(block.text, line.text);
      Associates(BareBlocks(s.blocks), Bare(block.text), Bare(line.text));
    case None =>
  }

  lemma Associates(a: string, b: string, c: string)
    ensures a + (b + c) == a + b + c
  {
  }

  lemma OpenerKeepsText(s: SplitState, line: Line, fence: Option<Marker>)
    requires Tracks(s, fence) && fence.None? && line.marker.Some?
    ensures BareBlocks(Flushed(Step(s, line))) == BareBlocks(Flushed(s))
  {
    BareFlushed(Step(s, line));
    assert BareBlocks(Flushed(s)) + "" == BareBlocks(Flushed(s));
  }

  lemma CloserKeepsText(s: SplitState, line: Line, fence: Option<Marker>)
    requires Coherent(s) && Tracks(s, fence) && fence.Some? && Closes(line, fence.value)
    ensures BareBlocks(Flushed(Step(s, line))) == BareBlocks(Flushed(s))
  {
    BareFlushed(s);
    BareFlushed(Step(s, line));
    BareBlocksSnoc(s.blocks, s.current.value.(open := false));
  }

  lemma BareLinesSnoc(lines: seq<Line>, line: Line)
    ensures BareLines(lines + [line]) == BareLines(lines) + Bare(line.text)
  {
    assert (lines + [line])[..|lines|] == lines;
  }

  lemma StepTracks(s: SplitState, line: Line, fence: Option<Marker>)
    requires Tracks(s, fence)
    ensures Tracks(Step(s, line), if fence.None? then line.marker else if Closes(line, fence.value) then None else fence)
  {
  }

  lemma {:induction false} RunTracks(lines: seq<Line>)
    ensures Tracks(Run(START, lines), OpenFence(lines))
  {
    if |lines| > 0 {
      RunTracks(lines[..|lines| - 1]);
      StepTracks(Run(START, lines[..|lines| - 1]), lines[|lines| - 1], OpenFence(lines[..|lines| - 1]));
    }
  }

  /** Line feeds aside, the block texts in order are exactly the lines that are no delimiters. */
  lemma {:induction false} NoTextIsLost(lines: seq<Line>)
    ensures BareBlocks(Split(lines)) == BareLines(Kept(lines))
  {
    hide Step, Flushed, IsDelimiter;
    if |lines| > 0 {
      var before, line := lines[..|lines| - 1], lines[|lines| - 1];
      NoTextIsLost(before);
      RunCoherent(before);
      RunTracks(before);
      StepKeepsText(Run(START, before), line, OpenFence(before));
      BareLinesSnoc(Kept(before), line);
    } else {
      NoBlocks();
    }
  }

  lemma NoBlocks()
    ensures Split([]) == []
  {
  }

  // ── The block in the making, read off the lines ───────────────────────

  /** The lines after the last one that opens or closes a fence. */
  function Tail(lines: seq<Line>): seq<Line> {
    if |lines| == 0 then []
    else
      var before, line := lines[..|lines| - 1], lines[|lines| - 1];
      if IsDelimiter(line, OpenFence(before)) then [] else Tail(before) + [line]
  }

  /** Unless the last line closes a fence there is a block in the making, and its text is the tail. */
  ghost predicate TailIsCurrent(s: SplitState, lines: seq<Line>) {
    match s.current
    case None => Tail(lines) == [] && OpenFence(lines).None?
    case Some(block) => block.text == Joined(Tail(lines)) && (Tail(lines) == [] ==> OpenFence(lines).Some?)
  }

  lemma {:induction false} RunKeepsTail(lines: seq<Line>)
    ensures TailIsCurrent(Run(START, lines), lines)
  {
    if |lines| > 0 {
      var before, line := lines[..|lines| - 1], lines[|lines| - 1];
      RunKeepsTail(before);
      RunTracks(before);
      RunCoherent(before);
      StepTail(Run(START, before), before, line);
      assert lines == before + [line];
    }
  }

  lemma StepTail(s: SplitState, lines: seq<Line>, line: Line)
    requires TailIsCurrent(s, lines) && Coherent(s) && Tracks(s, OpenFence(lines))
    ensures TailIsCurrent(Step(s, line), lines + [line])
  {
    JoinedSnoc(Tail(lines), line);
    assert (lines + [line])[..|lines|] == lines;
  }

  lemma {:induction false} JoinedIsEmptyIff(lines: seq<Line>)
    ensures Joined(lines) == "" <==> forall l :: l in lines ==> l.text == ""
  {
    if |lines| > 0 {
      var before, line := lines[..|lines| - 1], lines[|lines| - 1];
      JoinedIsEmptyIff(before);
      assert lines == before + [line];
    }
  }
}
