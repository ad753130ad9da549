/** The repository's `adds_toc` test, replayed on the events its chapter parses into. */
module AddsTocFixture {
  import opened Wrappers
  import opened Events
  import opened HeadingScan
  import opened TocBuilder
  import opened MarkerSplice
  import opened Injector

  function Heading(level: Level, text: string): seq<Event> {
    [StartHeader(level), Text(text), EndHeader(level)]
  }

  /** The events after the marker: five tracked headings and one of level 3. */
  function Body(): seq<Event> {
    Heading(1, "Header 1") + Heading(2, "Header 1.1") + Heading(1, "Header 2") +
    Heading(2, "Header 2.1") + Heading(2, "Header 2.2") + Heading(3, "Header 2.2.1")
  }

  lemma BodyHasNoMarker()
    ensures NoMarker(Body())
  {
    var h1, h2, h3 := Heading(1, "Header 1"), Heading(2, "Header 1.1"), Heading(1, "Header 2");
    var h4, h5, h6 := Heading(2, "Header 2.1"), Heading(2, "Header 2.2"), Heading(3, "Header 2.2.1");
    assert NoMarker(h1) && NoMarker(h2) && NoMarker(h3) && NoMarker(h4) && NoMarker(h5) && NoMarker(h6);
    NoMarkerConcat(h1, h2);
    NoMarkerConcat(h1 + h2, h3);
    NoMarkerConcat(h1 + h2 + h3, h4);
    NoMarkerConcat(h1 + h2 + h3 + h4, h5);
    NoMarkerConcat(h1 + h2 + h3 + h4 + h5, h6);
  }

  /** `# Chapter`, the marker, then the body. */
  function ChapterEvents(): seq<Event> {
    Heading(1, "Chapter") + [Html(Marker)] + Body()
  }

  function ExpectedEntries(): seq<Entry> {
    [Entry(1, "Header 1"), Entry(2, "Header 1.1"), Entry(1, "Header 2"),
     Entry(2, "Header 2.1"), Entry(2, "Header 2.2")]
  }

  /** The slugs the test expects of mdbook's normalizer for these headings. */
  predicate FixtureSlugs(slug: string -> string) {
    && slug("Header 1") == "header-1" && slug("Header 1.1") == "header-11"
    && slug("Header 2") == "header-2" && slug("Header 2.1") == "header-21"
    && slug("Header 2.2") == "header-22"
  }

  /** A complete heading seen after the marker, with no heading open: a tracked level adds
      one entry, a deeper one adds none, and no heading is left open. */
  lemma HeadingRun(st: ScanState, level: Level, text: string)
    requires st.tocFound && st.currentLevel == None
    ensures Run(st, Heading(level, text)) ==
      st.(tocContent := st.tocContent + if level < 3 then [Entry(level, text)] else [])
  {
    RunSnoc(st, [], StartHeader(level));
    assert [] + [StartHeader(level)] == [StartHeader(level)];
    RunSnoc(st, [StartHeader(level)], Text(text));
    assert [StartHeader(level)] + [Text(text)] == [StartHeader(level), Text(text)];
    RunSnoc(st, [StartHeader(level), Text(text)], EndHeader(level));
    assert [StartHeader(level), Text(text)] + [EndHeader(level)] == Heading(level, text);
  }

  /** The heading before the marker and the level-3 heading yield no entry. */
  lemma FixtureEntries()
    ensures Scan(ChapterEvents()).tocContent == ExpectedEntries()
  {
    assert NoMarker(Heading(1, "Chapter"));
    GatedByFirstMarker(Heading(1, "Chapter"), Body());
    var s0 := ScanState(true, None, []);
    var p := Heading(1, "Header 1") + Heading(2, "Header 1.1") + Heading(1, "Header 2");
    var q := Heading(2, "Header 2.1") + Heading(2, "Header 2.2") + Heading(3, "Header 2.2.1");
    assert Body() == p + q;
    RunAppend(s0, p, q);
    BodyUnderHeader1(s0, p);
    BodyUnderHeader2(Run(s0, p), q);
  }

  /** The first three headings after the marker each yield their entry. */
  lemma BodyUnderHeader1(s0: ScanState, p: seq<Event>)
    requires s0 == ScanState(true, None, [])
    requires p == Heading(1, "Header 1") + Heading(2, "Header 1.1") + Heading(1, "Header 2")
    ensures Run(s0, p) == ScanState(true, None, ExpectedEntries()[..3])
  {
    var h1, h2, h3 := Heading(1, "Header 1"), Heading(2, "Header 1.1"), Heading(1, "Header 2");
    HeadingRun(s0, 1, "Header 1");
    var s1 := Run(s0, h1);
    RunAppend(s0, h1, h2);
    HeadingRun(s1, 2, "Header 1.1");
    var s2 := Run(s0, h1 + h2);
    RunAppend(s0, h1 + h2, h3);
    HeadingRun(s2, 1, "Header 2");
  }

  /** The last three headings yield two entries: the level-3 one is skipped. */
  lemma BodyUnderHeader2(st: ScanState, q: seq<Event>)
    requires st == ScanState(true, None, ExpectedEntries()[..3])
    requires q == Heading(2, "Header 2.1") + Heading(2, "Header 2.2") + Heading(3, "Header 2.2.1")
    ensures Run(st, q) == ScanState(true, None, ExpectedEntries())
  {
    var h4, h5, h6 := Heading(2, "Header 2.1"), Heading(2, "Header 2.2"), Heading(3, "Header 2.2.1");
    HeadingRun(st, 2, "Header 2.1");
    var s4 := Run(st, h4);
    RunAppend(st, h4, h5);
    HeadingRun(s4, 2, "Header 2.2");
    var s5 := Run(st, h4 + h5);
    RunAppend(st, h4 + h5, h6);
    HeadingRun(s5, 3, "Header 2.2.1");
  }

  function Concat(ls: seq<string>): string
    decreases |ls|
  {
    if ls == [] then "" else ls[0] + Concat(ls[1..])
  }

  /** Entries whose lines are `ls` render as `ls` joined. */
  lemma {:induction false} TocTextOfLines(es: seq<Entry>, slug: string -> string, ls: seq<string>)
    requires |es| == |ls|
    requires forall i :: 0 <= i < |es| ==> Line(es[i], slug) == ls[i]
    ensures TocText(es, slug) == Concat(ls)
    decreases |es|
  {
    if es != [] {
      TocTextOfLines(es[1..], slug, ls[1..]);
    }
  }

  /** The table of contents the test expects in place of the marker. */
  function ExpectedToc(): string {
    "* [Header 1](#header-1)\n" +
    "  * [Header 1.1](#header-11)\n" +
    "* [Header 2](#header-2)\n" +
    "  * [Header 2.1](#header-21)\n" +
    "  * [Header 2.2](#header-22)\n"
  }

  function ExpectedLines(): seq<string> {
    ["* [Header 1](#header-1)\n", "  * [Header 1.1](#header-11)\n", "* [Header 2](#header-2)\n",
     "  * [Header 2.1](#header-21)\n", "  * [Header 2.2](#header-22)\n"]
  }

  lemma TrackedLine(e: Entry, slug: string -> string, s: string, line: string)
    requires e.level <= 2 && slug(e.name) == s
    requires line == (if e.level == 1 then "" else "  ") + "* [" + e.name + "](#" + s + ")\n"
    ensures Line(e, slug) == line
  {
    TopLevelsIndent(e, slug);
  }

  lemma FixtureLinesUnderHeader1(slug: string -> string)
    requires FixtureSlugs(slug)
    ensures Line(Entry(1, "Header 1"), slug) == "* [Header 1](#header-1)\n"
    ensures Line(Entry(2, "Header 1.1"), slug) == "  * [Header 1.1](#header-11)\n"
  {
    TrackedLine(Entry(1, "Header 1"), slug, "header-1", "* [Header 1](#header-1)\n");
    TrackedLine(Entry(2, "Header 1.1"), slug, "header-11", "  * [Header 1.1](#header-11)\n");
  }

  lemma FixtureLinesUnderHeader2(slug: string -> string)
    requires FixtureSlugs(slug)
    ensures Line(Entry(1, "Header 2"), slug) == "* [Header 2](#header-2)\n"
    ensures Line(Entry(2, "Header 2.1"), slug) == "  * [Header 2.1](#header-21)\n"
  {
    TrackedLine(Entry(1, "Header 2"), slug, "header-2", "* [Header 2](#header-2)\n");
    TrackedLine(Entry(2, "Header 2.1"), slug, "header-21", "  * [Header 2.1](#header-21)\n");
  }

  lemma FixtureLastLine(slug: string -> string)
    requires FixtureSlugs(slug)
    ensures Line(Entry(2, "Header 2.2"), slug) == "  * [Header 2.2](#header-22)\n"
  {
    TrackedLine(Entry(2, "Header 2.2"), slug, "header-22", "  * [Header 2.2](#header-22)\n");
  }

  lemma JoinedLines(ls: seq<string>)
    requires ls == ExpectedLines()
    ensures Concat(ls) == ExpectedToc()
  {
    assert ls[4..][1..] == [];
    assert ls[3..][1..] == ls[4..];
    assert ls[2..][1..] == ls[3..];
    assert ls[1..][1..] == ls[2..];
  }

  /** The five lines the test expects in place of the marker. */
  lemma FixtureToc(slug: string -> string, toc: seq<Entry>)
    requires FixtureSlugs(slug) && toc == ExpectedEntries()
    ensures TocText(toc, slug) == ExpectedToc()
  {
    var ls := ExpectedLines();
    FixtureLinesUnderHeader1(slug);
    FixtureLinesUnderHeader2(slug);
    FixtureLastLine(slug);
    TocTextOfLines(toc, slug, ls);
    JoinedLines(ls);
  }

  /** The serializer receives the chapter heading, the parsed expected table of contents,
      and the body with all six headings left in place. */
  lemma FixtureSpliced(parse: string -> seq<Event>, slug: string -> string, content: string,
                       chapter: seq<Event>, body: seq<Event>)
    requires chapter == Heading(1, "Chapter") && body == Body()
    requires parse(content) == chapter + [Html(Marker)] + body && FixtureSlugs(slug)
    ensures Spliced(content, parse, slug) == chapter + parse(ExpectedToc()) + body
  {
    ChapterToc(parse, slug, content, chapter + [Html(Marker)] + body);
    assert NoMarker(chapter);
    BodyHasNoMarker();
    SpliceAroundMarker(chapter, body, parse(ExpectedToc()));
  }

  /** The table of contents built from the test chapter is the expected text. */
  lemma ChapterToc(parse: string -> seq<Event>, slug: string -> string, content: string, events: seq<Event>)
    requires events == ChapterEvents() && parse(content) == events && FixtureSlugs(slug)
    ensures TocText(Scan(parse(content)).tocContent, slug) == ExpectedToc()
  {
    FixtureEntries();
    FixtureToc(slug, Scan(events).tocContent);
  }

  /** A single marker between marker-free parts is replaced and nothing else moves. */
  lemma SpliceAroundMarker(a: seq<Event>, b: seq<Event>, tocEvents: seq<Event>)
    requires NoMarker(a) && NoMarker(b)
    ensures Splice(a + [Html(Marker)] + b, tocEvents) == a + tocEvents + b
  {
    ReplacesMarker(a, b, tocEvents);
    IdentityWithoutMarker(a, tocEvents);
    IdentityWithoutMarker(b, tocEvents);
  }

  /** A heading whose text is split into several runs (here around a soft line break, which
      carries no text) yields one entry per run, as the scan pushes every text event of
      a tracked heading. */
  lemma SplitHeadingYieldsOneEntryPerRun()
    ensures Scan([Html(Marker), StartHeader(1), Text("Use "), Other("softbreak"), Text(" here"), EndHeader(1)]).tocContent
      == [Entry(1, "Use "), Entry(1, " here")]
  {
    var body := [StartHeader(1), Text("Use "), Other("softbreak"), Text(" here"), EndHeader(1)];
    assert [Html(Marker), StartHeader(1), Text("Use "), Other("softbreak"), Text(" here"), EndHeader(1)] == [] + [Html(Marker)] + body;
    assert NoMarker([]);
    GatedByFirstMarker([], body);
    var s0 := ScanState(true, None, []);
    assert body[..0] == [];
    assert body[..1] == body[..0] + [body[0]];
    assert body[..2] == body[..1] + [body[1]];
    assert body[..3] == body[..2] + [body[2]];
    assert body[..4] == body[..3] + [body[3]];
    assert body == body[..4] + [body[4]];
    RunSnoc(s0, body[..0], body[0]);
    RunSnoc(s0, body[..1], body[1]);
    RunSnoc(s0, body[..2], body[2]);
    RunSnoc(s0, body[..3], body[3]);
    RunSnoc(s0, body[..4], body[4]);
  }
}
