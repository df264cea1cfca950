/** The two splitters side by side: where they agree, exactly, and where they do not. */
module TwinSplitters {
  import opened Transcript
  import opened Fences
  import Core = Markdown
  import App = SwiftMarkdown

  // ── Line by line ──────────────────────────────────────────────────────

  /** What a reader sees of a block: its language and its text. */
  predicate SameBlock(a: Core.Block, b: App.MarkdownBlock) {
    a.language == b.language && a.text == b.text
  }

  ghost predicate SameBlocks(a: seq<Core.Block>, b: seq<App.MarkdownBlock>) {
    |a| == |b| && forall i :: 0 <= i < |a| ==> SameBlock(a[i], b[i])
  }

  /** A finished block: the core marks it open unless it is a fence, the app exactly if it is one. */
  predicate FinishedAlike(a: Core.Block, b: App.MarkdownBlock) {
    SameBlock(a, b) && a.open == !b.isFence && b.open == b.isFence
  }

  predicate InAFence(a: Core.SplitState) {
    a.fenceTicks > 0 || a.fenceTildes > 0
  }

  /** The simulation: the same finished blocks, the same fence, the same block in the making. */
  ghost predicate InStep(a: Core.SplitState, b: App.LoopState) {
    && |a.blocks| == |b.blocks|
    && (forall i :: 0 <= i < |a.blocks| ==> FinishedAlike(a.blocks[i], b.blocks[i]))
    && a.fenceTicks == b.fenceTicks && a.fenceTildes == b.fenceTildes
    && a.current.Some? == b.current.Some?
    && (InAFence(a) ==> a.current.Some?)
    && match a.current {
         case None => true
         case Some(block) =>
           && block.open && block.language == b.currentLanguage && block.text == b.current.value
           && b.currentIsFence == b.open == InAFence(a)
       }
  }

  lemma StepInStep(a: Core.SplitState, b: App.LoopState, line: Line)
    requires InStep(a, b)
    ensures InStep(Core.Step(a, line), App.Step(b, line))
  {
  }

  lemma {:induction false} RunInStep(lines: seq<Line>)
    ensures InStep(Core.Run(Core.START, lines), App.Run(App.BEGIN, lines))
  {
    if |lines| > 0 {
      var before := lines[..|lines| - 1];
      RunInStep(before);
      StepInStep(Core.Run(Core.START, before), App.Run(App.BEGIN, before), lines[|lines| - 1]);
    }
  }

  /** On lines the two read alike they produce the same blocks: as many, with the same languages and
      the same texts. */
  lemma TwinsAgree(lines: seq<Line>)
    ensures SameBlocks(Core.Split(lines), App.Split(lines))
  {
    RunInStep(lines);
  }

  /** Their `open` flags mean different things, and agree on one block at most: a fence that the text
      has not closed yet. The app flags every fence open, closed or not. */
  lemma FlagsAgreeOnlyInAnOpenFence(lines: seq<Line>)
    ensures var a, b := Core.Split(lines), App.Split(lines);
            && |a| == |b|
            && (forall i :: 0 <= i < |b| ==> b[i].open == b[i].isFence)
            && (forall i :: 0 <= i < |a| ==>
                  (a[i].open == b[i].open <==> i == |a| - 1 && Core.OpenFence(lines).Some?))
  {
    RunInStep(lines);
    Core.RunTracks(lines);
  }

  // ── Which lines are read alike ────────────────────────────────────────

  /** Trimming leaves both with the same marker, or none, and the same info string. */
  predicate ReadsAlike(text: string) {
    Read(text, RustSpace) == Read(text, SwiftSpace)
  }

  function CoreOn(texts: seq<string>): seq<Core.Block> {
    Core.Split(ReadAll(texts, RustSpace))
  }

  function AppOn(texts: seq<string>): seq<App.MarkdownBlock> {
    App.Split(ReadAll(texts, SwiftSpace))
  }

  lemma AgreeOnLinesReadAlike(texts: seq<string>)
    requires forall text :: text in texts ==> ReadsAlike(text)
    ensures SameBlocks(CoreOn(texts), AppOn(texts))
  {
    forall i | 0 <= i < |texts|
      ensures ReadAll(texts, RustSpace)[i] == ReadAll(texts, SwiftSpace)[i]
    {
      assert ReadsAlike(texts[i]);
    }
    assert ReadAll(texts, RustSpace) == ReadAll(texts, SwiftSpace);
    TwinsAgree(ReadAll(texts, RustSpace));
  }

  lemma OneLine(line: Line)
    ensures Core.Split([line]) == [Core.Block(if line.marker.Some? then line.info else "",
                                              if line.marker.Some? then "" else line.text, true)]
    ensures SameBlocks(Core.Split([line]), App.Split([line]))
  {
    assert [line][..0] == [];
    assert Core.Run(Core.START, [line]) == Core.Step(Core.START, line);
    TwinsAgree([line]);
  }

  lemma {:induction false} TrimTakesOffTheEnd(s: string, space: char -> bool)
    requires s != "" && space(s[|s| - 1])
    ensures Trim(s, space) == Trim(s[..|s| - 1], space)
  {
    if space(s[0]) && |s| > 1 {
      TrimTakesOffTheEnd(s[1..], space);
      assert s[1..][..|s| - 2] == s[..|s| - 1][1..];
    }
  }

  /** The app trims less, so trimming its result as the core does gives the core's. */
  lemma {:induction false} CoreTrimsMore(text: string)
    ensures Trim(Trim(text, SwiftSpace), RustSpace) == Trim(text, RustSpace)
    decreases |text|
  {
    if text == "" {
    } else if SwiftSpace(text[0]) {
      CoreTrimsMore(text[1..]);
    } else if SwiftSpace(text[|text| - 1]) {
      CoreTrimsMore(text[..|text| - 1]);
      TrimTakesOffTheEnd(text, RustSpace);
    }
  }

  lemma {:induction false} TrimKeepsTheStart(s: string, space: char -> bool) returns (k: nat)
    requires s != "" && !space(s[0])
    ensures 0 < k <= |s| && Trim(s, space) == s[..k] && forall i :: k <= i < |s| ==> space(s[i])
    decreases |s|
  {
    if space(s[|s| - 1]) {
      k := TrimKeepsTheStart(s[..|s| - 1], space);
      assert s[..|s| - 1][..k] == s[..k];
      assert forall i :: k <= i < |s| - 1 ==> s[..|s| - 1][i] == s[i];
    } else {
      k := |s|;
    }
  }

  /** If both see a marker, it is the same marker. */
  lemma MarkersAlike(text: string)
    requires Read(text, RustSpace).marker.Some? && Read(text, SwiftSpace).marker.Some?
    ensures Read(text, RustSpace).marker == Read(text, SwiftSpace).marker
  {
    hide Trim, FenceMarker;
    var t := Trim(text, SwiftSpace);
    var m := FenceMarker(t).value;
    MarkerMeans(t, m);
    var c := FenceChar(m.isTick);
    assert t[0] == c && !RustSpace(c);
    CoreTrimsMore(text);
    var k := TrimKeepsTheStart(t, RustSpace);
    assert forall i :: 0 <= i < m.length ==> t[i] == c && !RustSpace(t[i]);
    assert m.length <= k by {
      assert k < |t| ==> RustSpace(t[k]);
    }
    MarkerMeans(t[..k], m);
    assert c !in t[..k][m.length..] by {
      assert t[m.length..][..k - m.length] == t[..k][m.length..];
    }
  }

  /** A line that the two read differently, they also split differently, even when it stands alone. */
  lemma OneLineTells(text: string)
    ensures SameBlocks(CoreOn([text]), AppOn([text])) <==> ReadsAlike(text)
  {
    var a, b := Read(text, RustSpace), Read(text, SwiftSpace);
    assert ReadAll([text], RustSpace) == [a] && ReadAll([text], SwiftSpace) == [b];
    OneLine(a);
    OneLine(b);
    if SameBlocks(CoreOn([text]), AppOn([text])) {
      assert SameBlock(Core.Split([a])[0], App.Split([b])[0]);
      assert SameBlock(Core.Split([b])[0], App.Split([b])[0]);
      if a.marker.Some? && b.marker.Some? {
        MarkersAlike(text);
      }
    }
  }

  /** The white space that the core trims and the app does not. */
  predicate TrimmedByCoreOnly(c: char) {
    RustSpace(c) && !SwiftSpace(c)
  }

  lemma {:induction false} TrimAlike(text: string)
    requires forall c :: c in text ==> !TrimmedByCoreOnly(c)
    ensures Trim(text, RustSpace) == Trim(text, SwiftSpace)
    ensures forall c :: c in Trim(text, SwiftSpace) ==> c in text
    decreases |text|
  {
    if text == "" {
    } else if SwiftSpace(text[0]) {
      TrimAlike(text[1..]);
    } else if SwiftSpace(text[|text| - 1]) {
      assert !RustSpace(text[0]) by { assert text[0] in text; }
      TrimAlike(text[..|text| - 1]);
    } else {
      assert text[0] in text && text[|text| - 1] in text;
    }
  }

  /** Without such characters (line ends, U+0085, U+2028, U+2029 among them) every line is read alike. */
  lemma OrdinaryLinesReadAlike(text: string)
    requires forall c :: c in text ==> !TrimmedByCoreOnly(c)
    ensures ReadsAlike(text)
  {
    TrimAlike(text);
    var m := FenceMarker(Trim(text, SwiftSpace));
    if m.Some? {
      TrimAlike(Trim(text, SwiftSpace)[m.value.length..]);
    }
  }

  /** With one they may not be: a form feed before a fence hides it from the app. */
  lemma FormFeedHidesTheFence()
    ensures !ReadsAlike("\U{C}```")
  {
    var s := "\U{C}```";
    assert s[1..] == "```" && Trim("```", RustSpace) == "```";
    assert Trim(s, RustSpace) == "```" && Trim(s, SwiftSpace) == s;
    assert IsMarkerLine("```", Marker(3, true));
    MarkerMeans("```", Marker(3, true));
    assert LeadingRun(s, '`') == 0 && LeadingRun(s, '~') == 0;
  }

  // ── Whole texts ───────────────────────────────────────────────────────

  lemma {:induction false} NoLineFeed(text: string)
    requires '\n' !in text
    ensures Core.UpTo(text, '\n') == |text|
  {
    if text != "" {
      assert text[0] in text;
      NoLineFeed(text[1..]);
    }
  }

  lemma {:induction false} FirstLineFeed(text: string, n: nat)
    requires n < |text| && text[n] == '\n' && '\n' !in text[..n]
    ensures Core.UpTo(text, '\n') == n
  {
    if n > 0 {
      assert text[0] == text[..n][0];
      assert text[..n][1..] == text[1..][..n - 1];
      FirstLineFeed(text[1..], n - 1);
    }
  }

  /** The core's lines, and the empty last one that the app keeps. */
  function WithLast(text: string): seq<string> {
    Core.Lines(text) + if Core.EndsALine(text) then [""] else []
  }

  lemma NoBreak(rest: string)
    requires '\n' !in rest
    ensures WithLast(rest) == [rest]
  {
    NoLineFeed(rest);
    assert rest != "" ==> rest[|rest| - 1] in rest;
  }

  lemma FirstBreak(rest: string, n: nat)
    requires '\r' !in rest && n < |rest| && rest[n] == '\n' && '\n' !in rest[..n]
    ensures WithLast(rest) == [rest[..n]] + WithLast(rest[n + 1..])
  {
    FirstLineFeed(rest, n);
    assert n > 0 ==> rest[..n][n - 1] in rest;
    assert Core.WithoutCr(rest[..n]) == rest[..n];
    var after := rest[n + 1..];
    assert after != "" ==> after[|after| - 1] == rest[|rest| - 1];
    assert Core.EndsALine(rest) == Core.EndsALine(after);
  }

  /** Without carriage returns the two cut the same lines, but the app keeps an empty last one. */
  lemma {:induction false} SameLines(text: string, start: nat, index: nat)
    requires '\r' !in text && start <= index <= |text| && '\n' !in text[start..index]
    ensures App.LinesFrom(text, start, index) == WithLast(text[start..])
    decreases |text| - index
  {
    hide WithLast;
    var rest := text[start..];
    if index == |text| {
      assert text[start..index] == rest;
      NoBreak(rest);
    } else {
      assert text[index] in text;
      if text[index] == '\n' {
        SameLines(text, index + 1, index + 1);
        assert rest[..index - start] == text[start..index];
        assert rest[index - start + 1..] == text[index + 1..];
        assert forall c :: c in rest ==> c in text;
        FirstBreak(rest, index - start);
      } else {
        assert text[start..index + 1] == text[start..index] + [text[index]];
        SameLines(text, start, index + 1);
      }
    }
  }

  const BLANK := Line("", None, "")

  lemma BlankReads(space: char -> bool)
    ensures Read("", space) == BLANK
  {
  }

  /** The text ends with a line break, and of the lines after its last delimiter one is not empty, or
      there are none because that delimiter closes a fence. */
  ghost predicate BreaksOff(text: string) {
    && text != "" && Core.EndsALine(text)
    && var lines := ReadAll(Core.Lines(text), RustSpace);
       var tail := Core.Tail(lines);
       if tail == [] then Core.OpenFence(lines).None? else exists l :: l in tail && l.text != ""
  }

  /** The last block is still in the making and has no text yet. */
  ghost predicate TailIsBlank(lines: seq<Line>) {
    && (Core.Tail(lines) != [] || Core.OpenFence(lines).Some?)
    && forall l :: l in Core.Tail(lines) ==> l.text == ""
  }

  /** One more empty line changes no language and no text exactly when it falls on such a block. */
  lemma BlankLine(lines: seq<Line>)
    ensures var a, b := Core.Split(lines), Core.Split(lines + [BLANK]);
            (|a| == |b| && forall i :: 0 <= i < |a| ==> a[i].language == b[i].language && a[i].text == b[i].text)
            <==> TailIsBlank(lines)
  {
    Core.RunKeepsTail(lines);
    Core.JoinedIsEmptyIff(Core.Tail(lines));
    Core.RunSnoc(Core.START, lines, BLANK);
    var s := Core.Run(Core.START, lines);
    var a, b := Core.Split(lines), Core.Split(lines + [BLANK]);
    assert Core.Step(s, BLANK).blocks == s.blocks;
    if s.current.Some? {
      assert |a| == |b| && a[|a| - 1] == s.current.value;
      assert b[|a| - 1].text == Fences.Grown(a[|a| - 1].text, "");
    } else {
      assert |b| == |a| + 1;
    }
  }

  /** On any text without carriage returns whose lines are read alike, the two show the same blocks
      unless the text breaks off with a line end after some content; then the app shows the extra line. */
  lemma WholeTextsAgreeIff(text: string)
    requires '\r' !in text && forall line :: line in Core.Lines(text) ==> ReadsAlike(line)
    ensures SameBlocks(Core.SplitText(text), App.SplitText(text)) <==> !BreaksOff(text)
  {
    if text != "" {
      var lines := ReadAll(Core.Lines(text), RustSpace);
      SameLines(text, 0, 0);
      assert text[0..] == text;
      BlankReads(SwiftSpace);
      forall i | 0 <= i < |lines| ensures lines[i] == Read(Core.Lines(text)[i], SwiftSpace) {
        assert ReadsAlike(Core.Lines(text)[i]);
      }
      var seen := ReadAll(App.LinesFrom(text, 0, 0), SwiftSpace);
      if Core.EndsALine(text) {
        assert seen == lines + [BLANK];
        BlankLine(lines);
      } else {
        assert seen == lines;
      }
      TwinsAgree(seen);
    }
  }

  // ── Carriage returns ──────────────────────────────────────────────────

  ghost predicate SomeHas(lines: seq<string>, c: char) {
    exists line :: line in lines && c in line
  }

  ghost predicate HasCrLf(text: string) {
    exists i :: 0 <= i < |text| && App.IsCrLf(text, i)
  }

  lemma SomeHasEither(a: seq<string>, b: seq<string>, c: char)
    ensures SomeHas(a + b, c) <==> SomeHas(a, c) || SomeHas(b, c)
  {
    if line :| line in a && c in line {
      assert line in a + b;
    }
    if line :| line in b && c in line {
      assert line in a + b;
    }
  }

  lemma SomeHasOne(line: string, c: char)
    ensures SomeHas([line], c) <==> c in line
  {
    assert line in [line];
  }

  /** No line of the core holds a line feed. */
  lemma {:induction false} CoreDropsLineFeeds(text: string)
    ensures !SomeHas(Core.Lines(text), '\n')
    decreases |text|
  {
    if text != "" {
      var n := Core.UpTo(text, '\n');
      if n == |text| {
        assert text[..n] == text;
        SomeHasOne(text, '\n');
      } else {
        CoreDropsLineFeeds(text[n + 1..]);
        SomeHasOne(Core.WithoutCr(text[..n]), '\n');
        SomeHasEither([Core.WithoutCr(text[..n])], Core.Lines(text[n + 1..]), '\n');
      }
    }
  }

  /** The line the app is reading will hold all it has read of it. */
  lemma {:induction false} ReadStaysInLine(text: string, start: nat, index: nat, j: nat)
    requires start <= j < index <= |text|
    ensures SomeHas(App.LinesFrom(text, start, index), text[j])
    decreases |text| - index
  {
    if index == |text| {
      assert text[start..][j - start] == text[j];
      SomeHasOne(text[start..], text[j]);
    } else if App.IsCrLf(text, index) {
      ReadStaysInLine(text, start, index + 2, j);
    } else if text[index] == '\n' || text[index] == '\r' {
      assert text[start..index][j - start] == text[j];
      SomeHasOne(text[start..index], text[j]);
      SomeHasEither([text[start..index]], App.LinesFrom(text, index + 1, index + 1), text[j]);
    } else {
      ReadStaysInLine(text, start, index + 1, j);
    }
  }

  /** The app keeps the line feed of a CRLF inside a line. */
  lemma {:induction false} AppKeepsCrLf(text: string, start: nat, index: nat, i: nat)
    requires start <= index <= i && App.IsCrLf(text, i)
    ensures SomeHas(App.LinesFrom(text, start, index), '\n')
    decreases |text| - index
  {
    if App.IsCrLf(text, index) {
      ReadStaysInLine(text, start, index + 2, index + 1);
    } else if text[index] == '\n' || text[index] == '\r' {
      AppKeepsCrLf(text, index + 1, index + 1, i);
      SomeHasEither([text[start..index]], App.LinesFrom(text, index + 1, index + 1), '\n');
    } else {
      AppKeepsCrLf(text, start, index + 1, i);
    }
  }

  /** Without CRLF the app cuts at every carriage return. */
  lemma {:induction false} AppCutsLoneCr(text: string, start: nat, index: nat)
    requires !HasCrLf(text) && start <= index <= |text| && '\r' !in text[start..index]
    ensures !SomeHas(App.LinesFrom(text, start, index), '\r')
    decreases |text| - index
  {
    if index == |text| {
      assert text[start..] == text[start..index];
      SomeHasOne(text[start..], '\r');
    } else if text[index] == '\n' || text[index] == '\r' {
      AppCutsLoneCr(text, index + 1, index + 1);
      SomeHasOne(text[start..index], '\r');
      SomeHasEither([text[start..index]], App.LinesFrom(text, index + 1, index + 1), '\r');
    } else {
      assert text[start..index + 1] == text[start..index] + [text[index]];
      AppCutsLoneCr(text, start, index + 1);
    }
  }

  /** Without CRLF the core keeps every carriage return inside a line. */
  lemma {:induction false} CoreKeepsLoneCr(text: string)
    requires !HasCrLf(text) && '\r' in text
    ensures SomeHas(Core.Lines(text), '\r')
    decreases |text|
  {
    var n := Core.UpTo(text, '\n');
    if n == |text| {
      SomeHasOne(text, '\r');
    } else {
      var line, rest := text[..n], text[n + 1..];
      assert text == line + [text[n]] + rest;
      assert n > 0 ==> !App.IsCrLf(text, n - 1);
      assert Core.WithoutCr(line) == line;
      SomeHasOne(line, '\r');
      SomeHasEither([line], Core.Lines(rest), '\r');
      if '\r' !in line {
        assert '\r' in rest;
        assert !HasCrLf(rest) by {
          if i :| 0 <= i < |rest| && App.IsCrLf(rest, i) {
            assert App.IsCrLf(text, n + 1 + i);
          }
        }
        CoreKeepsLoneCr(rest);
      }
    }
  }

  lemma LastAddsNothing(text: string, c: char)
    ensures SomeHas(WithLast(text), c) <==> SomeHas(Core.Lines(text), c)
  {
    SomeHasOne("", c);
    SomeHasEither(Core.Lines(text), if Core.EndsALine(text) then [""] else [], c);
  }

  /** The two cut the same lines, the app's empty last one aside, if and only if the text holds no
      carriage return: the app keeps each CRLF inside a line, the core each lone carriage return. */
  lemma LinesAgreeIff(text: string)
    ensures App.LinesFrom(text, 0, 0) == WithLast(text) <==> '\r' !in text
  {
    assert text[0..] == text;
    if '\r' !in text {
      SameLines(text, 0, 0);
    } else if i :| 0 <= i < |text| && App.IsCrLf(text, i) {
      AppKeepsCrLf(text, 0, 0, i);
      CoreDropsLineFeeds(text);
      LastAddsNothing(text, '\n');
    } else {
      AppCutsLoneCr(text, 0, 0);
      CoreKeepsLoneCr(text);
      LastAddsNothing(text, '\r');
    }
  }

  /** For one: the core reads two lines here, the app one. */
  lemma CrLfSplitsOnlyInTheCore()
    ensures Core.Lines("a\r\nb") == ["a", "b"]
    ensures App.LinesFrom("a\r\nb", 0, 0) == ["a\r\nb"]
  {
    var s := "a\r\nb";
    assert s[..2] == "a\r" && s[2 + 1..] == "b";
    FirstLineFeed(s, 2);
    NoLineFeed("b");
    assert Core.Lines("b") == ["b"] && Core.WithoutCr("a\r") == "a";
    assert Core.Lines(s) == ["a"] + Core.Lines("b");
    CrLfIsOneCharacter();
  }

  lemma CrLfIsOneCharacter()
    ensures App.LinesFrom("a\r\nb", 0, 0) == ["a\r\nb"]
  {
    var s := "a\r\nb";
    assert App.IsCrLf(s, 1) && !App.IsCrLf(s, 0) && !App.IsCrLf(s, 3);
    assert App.LinesFrom(s, 0, 4) == [s[0..]];
    assert App.LinesFrom(s, 0, 3) == App.LinesFrom(s, 0, 4);
    assert App.LinesFrom(s, 0, 1) == App.LinesFrom(s, 0, 3);
  }
}
