/** The app's splitter of assistant text, written as the twin of the core's. */
module SwiftMarkdown {
  import opened Transcript
  import opened Fences

  datatype MarkdownBlock = MarkdownBlock(language: string, text: string, isFence: bool, open: bool)

  datatype LoopState = LoopState(
    blocks: seq<MarkdownBlock>,
    current: Option<string>,
    currentLanguage: string,
    currentIsFence: bool,
    open: bool,
    fenceTicks: nat,
    fenceTildes: nat)

  const BEGIN := LoopState([], None, "", false, false, 0, 0)

  // ── Lines of a text ───────────────────────────────────────────────────

  /** A carriage return and the line feed after it are one Swift `Character`, equal to neither. */
  predicate IsCrLf(text: string, index: nat) {
    index + 1 < |text| && text[index] == '\r' && text[index + 1] == '\n'
  }

  /** The lines of `text[start..]`, the first `index - start` characters of it already seen. */
  function LinesFrom(text: string, start: nat, index: nat): seq<string>
    requires start <= index <= |text|
    decreases |text| - index
  {
    if index == |text| then [text[start..]]
    else if IsCrLf(text, index) then LinesFrom(text, start, index + 2)
    else if text[index] == '\n' || text[index] == '\r' then
      [text[start..index]] + LinesFrom(text, index + 1, index + 1)
    else LinesFrom(text, start, index + 1)
  }

  method SplitLines(text: string) returns (lines: seq<string>)
    ensures lines == LinesFrom(text, 0, 0)
  {
    lines := [];
    var start, index := 0, 0;
    while index < |text|
      invariant 0 <= start <= index <= |text|
      invariant LinesFrom(text, 0, 0) == lines + LinesFrom(text, start, index)
      decreases |text| - index
    {
      if IsCrLf(text, index) {
        index := index + 2;
      } else if text[index] == '\n' || text[index] == '\r' {
        lines := lines + [text[start..index]];
        index := index + 1;
        start := index;
      } else {
        index := index + 1;
      }
    }
    lines := lines + [text[start..]];
  }

  // ── Fence markers ─────────────────────────────────────────────────────

  /** Counting the run with a loop finds the same marker as the core's test. */
  method FindFenceMarker(line: string) returns (marker: Option<Marker>)
    ensures marker == FenceMarker(line)
  {
    var ticks := 0;
    while ticks < |line| && line[ticks] == '`'
      invariant 0 <= ticks <= |line| && forall i :: 0 <= i < ticks ==> line[i] == '`'
    {
      ticks := ticks + 1;
    }
    RunIsTheLength(line, '`', ticks);
    if ticks >= MIN_FENCE {
      return if '`' in line[ticks..] then None else Some(Marker(ticks, true));
    }
    var tildes := 0;
    while tildes < |line| && line[tildes] == '~'
      invariant 0 <= tildes <= |line| && forall i :: 0 <= i < tildes ==> line[i] == '~'
    {
      tildes := tildes + 1;
    }
    RunIsTheLength(line, '~', tildes);
    if tildes >= MIN_FENCE && '~' !in line[tildes..] {
      return Some(Marker(tildes, false));
    }
    return None;
  }

  // ── One line at a time ────────────────────────────────────────────────

  function Flush(s: LoopState): seq<MarkdownBlock> {
    s.blocks
    + match s.current {
        case Some(text) => [MarkdownBlock(s.currentLanguage, text, s.currentIsFence, s.open && s.currentIsFence)]
        case None => []
      }
  }

  function AppendLine(current: Option<string>, line: string): Option<string> {
    Some(Grown(if current.Some? then current.value else "", line))
  }

  predicate EndsFence(s: LoopState, m: Marker) {
    || (m.isTick && s.fenceTicks > 0 && m.length >= s.fenceTicks)
    || (!m.isTick && s.fenceTildes > 0 && m.length >= s.fenceTildes)
  }

  function Step(s: LoopState, line: Line): LoopState {
    match line.marker
    case Some(m) =>
      if s.fenceTicks == 0 && s.fenceTildes == 0 then
        LoopState(
          Flush(s), Some(""), line.info, true, true,
          if m.isTick then m.length else s.fenceTicks, if m.isTick then s.fenceTildes else m.length)
      else if EndsFence(s, m) then LoopState(Flush(s), None, "", false, false, 0, 0)
      else s.(current := AppendLine(s.current, line.text))
    case None =>
      if s.current.None? then
        LoopState(s.blocks, AppendLine(Some(""), line.text), "", false, false, s.fenceTicks, s.fenceTildes)
      else s.(current := AppendLine(s.current, line.text))
  }

  function Run(s: LoopState, lines: seq<Line>): LoopState {
    if |lines| == 0 then s else Step(Run(s, lines[..|lines| - 1]), lines[|lines| - 1])
  }

  function Split(lines: seq<Line>): seq<MarkdownBlock> {
    Flush(Run(BEGIN, lines))
  }

  function SplitText(text: string): seq<MarkdownBlock> {
    if text == "" then [] else Split(ReadAll(LinesFrom(text, 0, 0), SwiftSpace))
  }

  lemma RunSnoc(s: LoopState, lines: seq<Line>, line: Line)
    ensures Run(s, lines + [line]) == Step(Run(s, lines), line)
  {
    assert (lines + [line])[..|lines|] == lines;
  }

  /** The splitter as it runs. The loop's variables are the fields, and `flush` and `appendLine`, which
      capture them, are the methods. */
  class Splitter {
    var blocks: seq<MarkdownBlock>
    var current: Option<string>
    var currentLanguage: string
    var currentIsFence: bool
    var open: bool
    var fenceTicks: nat
    var fenceTildes: nat

    ghost function State(): LoopState
      reads this
    {
      LoopState(blocks, current, currentLanguage, currentIsFence, open, fenceTicks, fenceTildes)
    }

    constructor ()
      ensures State() == BEGIN
    {
      blocks, current := [], None;
      currentLanguage, currentIsFence, open := "", false, false;
      fenceTicks, fenceTildes := 0, 0;
    }

    method FlushBlock()
      modifies `blocks, `current
      ensures blocks == Flush(old(State())) && current == None
    {
      if current.Some? {
        blocks := blocks + [MarkdownBlock(currentLanguage, current.value, currentIsFence, open && currentIsFence)];
      }
      current := None;
    }

    method Append(line: string)
      modifies `current
      ensures current == AppendLine(old(current), line)
    {
      if current.None? {
        current := Some("");
      }
      if current.value != "" {
        current := Some(current.value + "\n");
      }
      assert "" + line == line;
      current := Some(current.value + line);
    }

    method TakeLine(lineText: string)
      modifies this
      ensures State() == Step(old(State()), Read(lineText, SwiftSpace))
    {
      var trimmed := Trim(lineText, SwiftSpace);
      var found := FindFenceMarker(trimmed);
      if found.Some? {
        var marker := found.value;
        if fenceTicks == 0 && fenceTildes == 0 {
          FlushBlock();
          if marker.isTick {
            fenceTicks := marker.length;
          } else {
            fenceTildes := marker.length;
          }
          currentLanguage := Trim(trimmed[marker.length..], SwiftSpace);
          currentIsFence := true;
          open := true;
          current := Some("");
        } else {
          var closes := (marker.isTick && fenceTicks > 0 && marker.length >= fenceTicks)
                     || (!marker.isTick && fenceTildes > 0 && marker.length >= fenceTildes);
          if closes {
            FlushBlock();
            fenceTicks, fenceTildes := 0, 0;
            currentIsFence := false;
            open := false;
            currentLanguage := "";
          } else {
            Append(lineText);
          }
        }
        return;
      }
      if current.None? {
        currentIsFence := false;
        open := false;
        currentLanguage := "";
        current := Some("");
      }
      Append(lineText);
    }
  }

  method SplitBlocks(text: string) returns (blocks: seq<MarkdownBlock>)
    ensures blocks == SplitText(text)
  {
    if text == "" {
      return [];
    }
    var splitter := new Splitter();
    var lines := SplitLines(text);
    ghost var read := ReadAll(lines, SwiftSpace);
    for i := 0 to |lines|
      invariant splitter.State() == Run(BEGIN, read[..i])
    {
      RunSnoc(BEGIN, read[..i], read[i]);
      assert read[..i + 1] == read[..i] + [read[i]];
      splitter.TakeLine(lines[i]);
    }
    assert read[..|lines|] == read;
    splitter.FlushBlock();
    return splitter.blocks;
  }
}
