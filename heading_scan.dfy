/** The first pass of `add_toc`: a state machine folded over the chapter's events that
    waits for the marker and then collects the text of level-1 and level-2 headings. */
module HeadingScan {
  import opened Wrappers
  import opened Events

  /** The loop's three variables: `toc_found`, `current_header_level`, `toc_content`. */
  datatype ScanState = ScanState(tocFound: bool, currentLevel: Option<Level>, tocContent: seq<Entry>)

  const Initial: ScanState := ScanState(false, None, [])

  /** One iteration of the scan loop on event `e`. The found flag is set by the marker
      and never cleared; before the marker nothing else changes. After it, a text run in a
      tracked heading is appended at the tracked level (and nothing else is), a heading
      start below level 3 sets the level, a deeper one keeps it, and a heading end clears it. */
  function Step(st: ScanState, e: Event): (r: ScanState)
    ensures st.tocContent <= r.tocContent && |r.tocContent| <= |st.tocContent| + 1
    ensures |r.tocContent| > |st.tocContent| ==>
      st.tocFound && e.Text? && st.currentLevel.Some? &&
      r.tocContent[|st.tocContent|] == Entry(st.currentLevel.value, e.text)
    ensures r.tocFound <==> st.tocFound || e == Html(Marker)
    ensures !st.tocFound ==> r.currentLevel == st.currentLevel && r.tocContent == st.tocContent
    ensures st.tocFound && e.Text? && st.currentLevel.Some? ==>
      r.tocContent == st.tocContent + [Entry(st.currentLevel.value, e.text)]
    ensures st.tocFound && e.StartHeader? ==>
      r.currentLevel == if e.level < 3 then Some(e.level) else st.currentLevel
    ensures st.tocFound && e.EndHeader? ==> r.currentLevel == None
    ensures st.tocFound && !e.StartHeader? && !e.EndHeader? ==> r.currentLevel == st.currentLevel
  {
    match e
    case Html(html) => if html == Marker then st.(tocFound := true) else st
    case StartHeader(lvl) => if st.tocFound && lvl < 3 then st.(currentLevel := Some(lvl)) else st
    case EndHeader(_) => if st.tocFound then st.(currentLevel := None) else st
    case Text(header) =>
      if st.tocFound && st.currentLevel.Some? then
        st.(tocContent := st.tocContent + [Entry(st.currentLevel.value, header)])
      else st
    case Other(_) => st
  }

  /** The loop run from state `st` over `es`, in order. */
  function Run(st: ScanState, es: seq<Event>): ScanState
    decreases |es|
  {
    if es == [] then st else Step(Run(st, es[..|es| - 1]), es[|es| - 1])
  }

  /** The state after the whole loop over `es`, started as the source starts it. */
  function Scan(es: seq<Event>): ScanState {
    Run(Initial, es)
  }

  /** The scan loop of `add_toc`, collecting the table-of-contents entries. */
  method CollectHeadings(events: seq<Event>) returns (tocContent: seq<Entry>)
    ensures tocContent == Scan(events).tocContent
    ensures forall k :: 0 <= k < |tocContent| ==> tocContent[k].level <= 2
  {
    var tocFound := false;
    var currentLevel: Option<Level> := None;
    tocContent := [];
    for i := 0 to |events|
      invariant ScanState(tocFound, currentLevel, tocContent) == Scan(events[..i])
    {
      assert events[..i + 1][..i] == events[..i];
      var e := events[i];
      if e.Html? {
        if e.html == Marker {
          tocFound := true;
        }
        continue;
      }
      if !tocFound {
        continue;
      }
      if e.StartHeader? {
        if e.level < 3 {
          currentLevel := Some(e.level);
        }
        continue;
      }
      if e.EndHeader? {
        currentLevel := None;
        continue;
      }
      if currentLevel.None? {
        continue;
      }
      if e.Text? {
        tocContent := tocContent + [Entry(currentLevel.value, e.text)];
      }
    }
    assert events[..|events|] == events;
    LevelsBounded(events);
  }

  // ---------------------------------------------------------------------------
  // Composition

  /** Running over `a + b` is running over `a`, then over `b`. */
  lemma {:induction false} RunAppend(st: ScanState, a: seq<Event>, b: seq<Event>)
    ensures Run(st, a + b) == Run(Run(st, a), b)
    decreases |b|
  {
    if b == [] {
      assert a + b == a;
    } else {
      var b' := b[..|b| - 1];
      assert (a + b)[..|a + b| - 1] == a + b';
      assert (a + b)[|a + b| - 1] == b[|b| - 1];
      RunAppend(st, a, b');
    }
  }

  /** Running over one more event is one more step. */
  lemma RunSnoc(st: ScanState, es: seq<Event>, e: Event)
    ensures Run(st, es + [e]) == Step(Run(st, es), e)
  {
    assert (es + [e])[..|es|] == es;
  }

  /** Entries are only ever appended: the entries of a run are a prefix of the entries
      of any longer run. */
  lemma {:induction false} EntriesOnlyGrow(st: ScanState, es: seq<Event>)
    ensures st.tocContent <= Run(st, es).tocContent
    decreases |es|
  {
    if es != [] {
      EntriesOnlyGrow(st, es[..|es| - 1]);
    }
  }

  // ---------------------------------------------------------------------------
  // Marker gating

  /** Before the first marker nothing at all happens: the state stays the initial one. */
  lemma {:induction false} NothingBeforeMarker(es: seq<Event>)
    requires NoMarker(es)
    ensures Scan(es) == Initial
    decreases |es|
  {
    if es != [] {
      NothingBeforeMarker(es[..|es| - 1]);
    }
  }

  /** With `a` marker-free, the entries of `a + [marker] + b` are what a scan that has just
      seen the marker collects from `b`: the headings before the marker are invisible. */
  lemma GatedByFirstMarker(a: seq<Event>, b: seq<Event>)
    requires NoMarker(a)
    ensures Scan(a + [Html(Marker)] + b) == Run(ScanState(true, None, []), b)
  {
    NothingBeforeMarker(a);
    RunAppend(Initial, a + [Html(Marker)], b);
    RunAppend(Initial, a, [Html(Marker)]);
  }

  /** Once the marker is found it stays found. */
  lemma {:induction false} FoundStaysFound(st: ScanState, es: seq<Event>)
    requires st.tocFound
    ensures Run(st, es).tocFound
    decreases |es|
  {
    if es != [] {
      FoundStaysFound(st, es[..|es| - 1]);
    }
  }

  /** A raw-markup event never changes the outcome when it is not the marker or when the
      marker was already found, so a second marker is harmless. */
  lemma HtmlInert(st: ScanState, a: seq<Event>, h: string, b: seq<Event>)
    requires h != Marker || Run(st, a).tocFound
    ensures Run(st, a + [Html(h)] + b) == Run(st, a + b)
  {
    RunAppend(st, a + [Html(h)], b);
    RunAppend(st, a, [Html(h)]);
    RunAppend(st, a, b);
  }

  /** A repeated marker changes nothing. */
  lemma SecondMarkerHarmless(a: seq<Event>, b: seq<Event>)
    requires MarkerIn(a)
    ensures Scan(a + [Html(Marker)] + b) == Scan(a + b)
  {
    var i :| 0 <= i < |a| && IsMarker(a[i]);
    assert a == a[..i] + [Html(Marker)] + a[i + 1..];
    RunAppend(Initial, a[..i] + [Html(Marker)], a[i + 1..]);
    RunAppend(Initial, a[..i], [Html(Marker)]);
    FoundStaysFound(Run(Initial, a[..i] + [Html(Marker)]), a[i + 1..]);
    HtmlInert(Initial, a, Marker, b);
  }

  // ---------------------------------------------------------------------------
  // Level filter

  /** The states the loop can be in when started as the source starts it. */
  predicate Reachable(st: ScanState) {
    && (!st.tocFound ==> st.currentLevel == None && st.tocContent == [])
    && (st.currentLevel.Some? ==> st.currentLevel.value <= 2)
    && forall k :: 0 <= k < |st.tocContent| ==> st.tocContent[k].level <= 2
  }

  lemma {:induction false} ScanReachable(es: seq<Event>)
    ensures Reachable(Scan(es))
    decreases |es|
  {
    if es != [] {
      ScanReachable(es[..|es| - 1]);
    }
  }

  /** Every collected entry has level 1 or 2. */
  lemma LevelsBounded(es: seq<Event>)
    ensures forall k :: 0 <= k < |Scan(es).tocContent| ==>
      1 <= Scan(es).tocContent[k].level <= 2
  {
    ScanReachable(es);
  }

  /** A heading start of level 3 or more is skipped without touching the state. */
  lemma DeepHeadingInert(st: ScanState, a: seq<Event>, lvl: Level, b: seq<Event>)
    requires lvl >= 3
    ensures Run(st, a + [StartHeader(lvl)] + b) == Run(st, a + b)
  {
    RunAppend(st, a + [StartHeader(lvl)], b);
    RunAppend(st, a, [StartHeader(lvl)]);
    RunAppend(st, a, b);
  }

  /** Any heading end leaves no tracked level. */
  lemma EndHeaderClears(a: seq<Event>, lvl: Level)
    ensures Scan(a + [EndHeader(lvl)]).currentLevel == None
  {
    ScanReachable(a);
    RunAppend(Initial, a, [EndHeader(lvl)]);
  }

  // ---------------------------------------------------------------------------
  // Text collection, against a definition read backwards from each position

  /** The level the scan tracks after `es`, found by looking back for the nearest
      heading boundary: none before the marker, none after a heading end, the level of
      the nearest level-1 or level-2 heading start otherwise. */
  function OpenLevel(es: seq<Event>): Option<Level>
    decreases |es|
  {
    if !MarkerIn(es) then None
    else
      match es[|es| - 1]
      case EndHeader(_) => None
      case StartHeader(l) => if l < 3 then Some(l) else OpenLevel(es[..|es| - 1])
      case _ => OpenLevel(es[..|es| - 1])
  }

  /** The entries `es` yields: one per text run whose position is inside an open
      level-1 or level-2 heading, in document order. */
  function Harvest(es: seq<Event>): seq<Entry>
    decreases |es|
  {
    if es == [] then []
    else
      var before := es[..|es| - 1];
      Harvest(before) +
        match es[|es| - 1]
        case Text(s) => (match OpenLevel(before) case Some(l) => [Entry(l, s)] case None => [])
        case _ => []
  }

  lemma MarkerInSnoc(p: seq<Event>, e: Event)
    ensures MarkerIn(p + [e]) <==> MarkerIn(p) || IsMarker(e)
  {
    if MarkerIn(p) {
      var i :| 0 <= i < |p| && IsMarker(p[i]);
      assert (p + [e])[i] == p[i];
    }
    if IsMarker(e) {
      assert (p + [e])[|p|] == e;
    }
    if MarkerIn(p + [e]) && !IsMarker(e) {
      var i :| 0 <= i < |p| + 1 && IsMarker((p + [e])[i]);
      assert p[i] == (p + [e])[i];
    }
  }

  /** The scan computes exactly the reference: it has found the marker iff one occurred,
      it tracks the level `OpenLevel` finds, and its entries are `Harvest`. */
  lemma {:induction false} ScanMatchesHarvest(es: seq<Event>)
    ensures Scan(es).tocFound <==> MarkerIn(es)
    ensures Scan(es).currentLevel == OpenLevel(es)
    ensures Scan(es).tocContent == Harvest(es)
    decreases |es|
  {
    if es != [] {
      var p := es[..|es| - 1];
      var e := es[|es| - 1];
      assert es == p + [e];
      ScanMatchesHarvest(p);
      ScanReachable(p);
      MarkerInSnoc(p, e);
    }
  }
}
