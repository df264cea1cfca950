/** What trimming, reading and cutting lines mean, for both splitters, and what text a block holds. */
module LineReading {
  import opened Transcript
  import opened Fences
  import Core = Markdown
  import App = SwiftMarkdown
  import TwinSplitters

  // ── Trimming ──────────────────────────────────────────────────────────

  ghost predicate Blanks(s: string, space: char -> bool) {
    forall c :: c in s ==> space(c)
  }

  /** Neither end is white space. */
  predicate Tight(s: string, space: char -> bool) {
    s != "" ==> !space(s[0]) && !space(s[|s| - 1])
  }

  lemma {:induction false} TrimDropsTheStart(lead: string, s: string, space: char -> bool)
    requires Blanks(lead, space)
    ensures Trim(lead + s, space) == Trim(s, space)
  {
    if lead == "" {
      assert lead + s == s;
    } else {
      assert lead[0] in lead && (lead + s)[1..] == lead[1..] + s;
      TrimDropsTheStart(lead[1..], s, space);
    }
  }

  lemma {:induction false} TrimDropsTheEnd(s: string, trail: string, space: char -> bool)
    requires Blanks(trail, space)
    ensures Trim(s + trail, space) == Trim(s, space)
    decreases |trail|
  {
    if trail == "" {
      assert s + trail == s;
    } else {
      var n := |trail| - 1;
      assert trail[n] in trail && (s + trail)[|s + trail| - 1] == trail[n];
      TwinSplitters.TrimTakesOffTheEnd(s + trail, space);
      assert (s + trail)[..|s + trail| - 1] == s + trail[..n];
      TrimDropsTheEnd(s, trail[..n], space);
    }
  }

  lemma TightStays(s: string, space: char -> bool)
    requires Tight(s, space)
    ensures Trim(s, space) == s
  {
  }

  /** Trimming takes off all white space at both ends and nothing else: whatever surrounds a text that has
      none there, the text is left. */
  lemma TrimMeans(lead: string, s: string, trail: string, space: char -> bool)
    requires Blanks(lead, space) && Blanks(trail, space) && Tight(s, space)
    ensures Trim(lead + s + trail, space) == s
  {
    TrimDropsTheEnd(lead + s, trail, space);
    TrimDropsTheStart(lead, s, space);
    TightStays(s, space);
  }

  /** The core trims these characters besides those the app trims, and no others. */
  lemma TrimmedByCoreOnlyAre(c: char)
    ensures TwinSplitters.TrimmedByCoreOnly(c) <==>
              c in ['\U{A}', '\U{B}', '\U{C}', '\U{D}', '\U{85}', '\U{2028}', '\U{2029}']
    ensures SwiftSpace(c) ==> RustSpace(c)
    ensures SwiftSpace(' ') && SwiftSpace('\t')
  {
  }

  // ── Reading a line ────────────────────────────────────────────────────

  function Run(isTick: bool, length: nat): string {
    seq(length, _ => FenceChar(isTick))
  }

  /** A run of three or more fence characters, indented or not, is read as that marker, and what follows it
      as the info string, both without the white space around them. */
  lemma MarkerLineReads(lead: string, isTick: bool, length: nat, info: string, trail: string, space: char -> bool)
    requires Blanks(lead, space) && Blanks(trail, space) && !space(FenceChar(isTick)) && 3 <= length
    requires FenceChar(isTick) !in info && (info != "" ==> !space(info[|info| - 1]))
    ensures var text := lead + (Run(isTick, length) + info) + trail;
            Read(text, space) == Line(text, Some(Marker(length, isTick)), Trim(info, space))
  {
    hide Trim, FenceMarker;
    var line := Run(isTick, length) + info;
    TrimMeans(lead, line, trail, space);
    assert lead + line + trail == lead + (Run(isTick, length) + info) + trail;
    assert line[length..] == info;
    MarkerMeans(line, Marker(length, isTick));
  }

  /** Any other line is read as text. */
  lemma OtherLineReads(text: string, space: char -> bool)
    requires forall m :: !IsMarkerLine(Trim(text, space), m)
    ensures Read(text, space) == Line(text, None, "")
  {
    var m := FenceMarker(Trim(text, space));
    if m.Some? {
      MarkerMeans(Trim(text, space), m.value);
    }
  }

  /** A shorter run is text, like any line that starts with neither fence character. */
  lemma ShortRunReads(lead: string, isTick: bool, length: nat, rest: string, trail: string, space: char -> bool)
    requires Blanks(lead, space) && Blanks(trail, space) && !space(FenceChar(isTick)) && length < 3
    requires rest != "" && rest[0] !in {'`', '~'} && !space(rest[0]) && !space(rest[|rest| - 1])
    ensures var text := lead + (Run(isTick, length) + rest) + trail;
            Read(text, space) == Line(text, None, "")
  {
    hide Trim, FenceMarker;
    var line := Run(isTick, length) + rest;
    TrimMeans(lead, line, trail, space);
    assert lead + line + trail == lead + (Run(isTick, length) + rest) + trail;
    forall m: Marker ensures !IsMarkerLine(line, m) {
      assert line[length] == rest[0] != FenceChar(m.isTick);
    }
    OtherLineReads(lead + line + trail, space);
  }

  // ── Cutting a text ────────────────────────────────────────────────────

  /** How a line ends. */
  function Terminator(cr: bool): string {
    if cr then "\r\n" else "\n"
  }

  /** The core cuts a text at each line feed and drops it, with a carriage return right before it; a line
      that ends the text without one keeps what it holds, and an empty text has no lines. */
  lemma CoreLinesMean(line: string, cr: bool, rest: string)
    requires '\n' !in line && (line != "" && line[|line| - 1] == '\r' ==> cr)
    ensures Core.Lines(line + Terminator(cr) + rest) == [line] + Core.Lines(rest)
    ensures line != "" ==> Core.Lines(line) == [line]
    ensures Core.Lines("") == []
  {
    hide Core.UpTo;
    var text := line + Terminator(cr) + rest;
    var cut := if cr then line + "\r" else line;
    assert text[..|cut|] == cut && text[|cut|] == '\n' && text[|cut| + 1..] == rest;
    assert '\n' !in cut && Core.WithoutCr(cut) == line;
    TwinSplitters.FirstLineFeed(text, |cut|);
    if line != "" {
      TwinSplitters.NoLineFeed(line);
    }
  }

  lemma {:induction false} AppLineEnds(line: string, end: char, rest: string, index: nat)
    requires '\n' !in line && '\r' !in line && index <= |line| && end in {'\n', '\r'}
    requires end == '\r' ==> (rest == "" || rest[0] != '\n')
    ensures App.LinesFrom(line + [end] + rest, 0, index) == [line] + App.LinesFrom(line + [end] + rest, |line| + 1, |line| + 1)
    decreases |line| - index
  {
    var text := line + [end] + rest;
    if index < |line| {
      assert text[index] == line[index] && line[index] in line;
      AppLineEnds(line, end, rest, index + 1);
    } else {
      assert text[0..index] == line && text[index] == end;
      assert !App.IsCrLf(text, index);
    }
  }

  lemma {:induction false} AppLinesShift(head: string, rest: string, start: nat, index: nat)
    requires start <= index <= |rest|
    ensures App.LinesFrom(head + rest, |head| + start, |head| + index) == App.LinesFrom(rest, start, index)
    decreases |rest| - index
  {
    var text, n := head + rest, |head|;
    assert text[n + start..] == rest[start..];
    if index < |rest| {
      assert text[n + start..n + index] == rest[start..index];
      assert text[n + index] == rest[index];
      assert App.IsCrLf(text, n + index) <==> App.IsCrLf(rest, index);
      if App.IsCrLf(rest, index) {
        AppLinesShift(head, rest, start, index + 2);
      } else if rest[index] == '\n' || rest[index] == '\r' {
        AppLinesShift(head, rest, index + 1, index + 1);
      } else {
        AppLinesShift(head, rest, start, index + 1);
      }
    }
  }

  /** The app cuts at each line feed and each carriage return that stand alone, and keeps an empty last
      line. */
  lemma AppLinesMean(line: string, end: char, rest: string)
    requires '\n' !in line && '\r' !in line && end in {'\n', '\r'}
    requires end == '\r' ==> (rest == "" || rest[0] != '\n')
    ensures App.LinesFrom(line + [end] + rest, 0, 0) == [line] + App.LinesFrom(rest, 0, 0)
    ensures App.LinesFrom("", 0, 0) == [""]
  {
    hide App.LinesFrom;
    AppLineEnds(line, end, rest, 0);
    var head := line + [end];
    AppLinesShift(head, rest, 0, 0);
    assert |head| + 0 == |line| + 1;
    EmptyIsOneLine();
  }

  lemma EmptyIsOneLine()
    ensures App.LinesFrom("", 0, 0) == [""]
  {
  }

  // ── The text of a block ───────────────────────────────────────────────

  /** These lines with one line feed between each two. */
  function WithLineFeeds(texts: seq<string>): string {
    if |texts| == 0 then ""
    else if |texts| == 1 then texts[0]
    else texts[0] + "\n" + WithLineFeeds(texts[1..])
  }

  /** The lines from the first one that is not empty. */
  function FromFirstText(texts: seq<string>): seq<string> {
    if |texts| == 0 || texts[0] != "" then texts else FromFirstText(texts[1..])
  }

  function Texts(lines: seq<Line>): seq<string> {
    seq(|lines|, i requires 0 <= i < |lines| => lines[i].text)
  }

  lemma {:induction false} LineFeedsSnoc(texts: seq<string>, last: string)
    requires texts != []
    ensures WithLineFeeds(texts + [last]) == WithLineFeeds(texts) + "\n" + last
  {
    if |texts| == 1 {
      assert (texts + [last])[1..] == [last];
    } else {
      assert (texts + [last])[1..] == texts[1..] + [last];
      LineFeedsSnoc(texts[1..], last);
      var first, rest := texts[0], WithLineFeeds(texts[1..]);
      assert first + "\n" + (rest + "\n" + last) == (first + "\n" + rest) + "\n" + last;
    }
  }

  lemma {:induction false} FirstTextSnoc(texts: seq<string>, last: string)
    ensures FromFirstText(texts + [last])
         == if FromFirstText(texts) != [] then FromFirstText(texts) + [last] else if last != "" then [last] else []
  {
    if texts == [] {
      assert texts + [last] == [last] && [last][1..] == [];
    } else if texts[0] == "" {
      assert (texts + [last])[1..] == texts[1..] + [last];
      FirstTextSnoc(texts[1..], last);
    }
  }

  lemma {:induction false} FirstTextIsText(texts: seq<string>)
    ensures FromFirstText(texts) != [] ==> WithLineFeeds(FromFirstText(texts)) != ""
    ensures WithLineFeeds([]) == ""
  {
    if texts != [] && texts[0] == "" {
      FirstTextIsText(texts[1..]);
    }
  }

  /** Lines joined into a block's text: one line feed between each two, and the empty ones at the start
      are dropped. */
  lemma {:induction false} JoinedMeans(lines: seq<Line>)
    ensures Core.Joined(lines) == WithLineFeeds(FromFirstText(Texts(lines)))
  {
    if |lines| > 0 {
      var before, last := lines[..|lines| - 1], lines[|lines| - 1].text;
      JoinedMeans(before);
      assert Texts(lines) == Texts(before) + [last];
      FirstTextSnoc(Texts(before), last);
      FirstTextIsText(Texts(before));
      if FromFirstText(Texts(before)) != [] {
        LineFeedsSnoc(FromFirstText(Texts(before)), last);
      }
    }
  }

  /** The plain lines of a stretch, or the lines between a fence's delimiters. */
  function Inside(segment: Core.Segment): seq<Line> {
    match segment
    case Prose(lines) => lines
    case Fence(_, body, _) => body
  }

  lemma {:induction false} BlockAt(segments: seq<Core.Segment>, i: nat)
    requires i < |segments|
    ensures |Core.BlocksOf(segments)| == |segments| && Core.BlocksOf(segments)[i] == Core.BlockOf(segments[i])
  {
    var n := |segments| - 1;
    if i < n {
      BlockAt(segments[..n], i);
    } else if n > 0 {
      BlockAt(segments[..n], 0);
    }
  }

  /** Both splitters give each stretch of a text one block, and its text is the stretch's lines, delimiters
      aside, with one line feed between each two, from the first line that is not empty. */
  lemma BlockTextIsItsLines(segments: seq<Core.Segment>, i: nat)
    requires Core.Segmentation(segments) && i < |segments|
    ensures var lines := Core.Unparse(segments);
            && |Core.Split(lines)| == |App.Split(lines)| == |segments|
            && Core.Split(lines)[i].text == App.Split(lines)[i].text
               == WithLineFeeds(FromFirstText(Texts(Inside(segments[i]))))
  {
    hide Core.Segmentation, Core.Split, App.Split;
    Core.SplitIsTheSegmentation(segments);
    BlockAt(segments, i);
    TwinSplitters.TwinsAgree(Core.Unparse(segments));
    JoinedMeans(Inside(segments[i]));
  }

  /** So a fence that starts with an empty line loses it. */
  lemma LeadingEmptyLineIsLost(opener: Line, text: string, closer: Line)
    requires opener.marker.Some? && Closes(closer, opener.marker.value) && text != ""
    ensures Core.Split([opener, Line("", None, ""), Line(text, None, ""), closer])
         == [Core.Block(opener.info, text, false)]
  {
    var body := [Line("", None, ""), Line(text, None, "")];
    var segments := [Core.Fence(opener, body, Some(closer))];
    assert segments[..0] == [] && body[..1] == [body[0]] && [body[0]][..0] == [];
    assert Core.Joined([]) == "" && Core.Joined([body[0]]) == "" && Core.Joined(body) == text;
    Core.SplitIsTheSegmentation(segments);
    assert Core.Unparse([]) == [];
    assert Core.Unparse(segments) == [opener, body[0], body[1], closer];
    BlockAt(segments, 0);
  }
}
