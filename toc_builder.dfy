/** `build_toc`: renders the collected entries as a nested markdown list, one line per
    entry. The anchor slug is mdbook's `normalize_id`, taken here as a parameter. */
module TocBuilder {
  import opened Events

  function Spaces(n: nat): (s: string)
    ensures |s| == n
    ensures forall i :: 0 <= i < n ==> s[i] == ' '
  {
    if n == 0 then "" else Spaces(n - 1) + " "
  }

  /** The indentation width of an entry, `2*(level-1)`. */
  function Width(level: Level): nat {
    2 * (level - 1)
  }

  /** The line for one entry: indentation, `* [`, the name, `](#`, the slug, `)` and a newline. */
  function Line(e: Entry, slug: string -> string): (line: string)
    ensures |line| == Width(e.level) + |e.name| + |slug(e.name)| + 8
    ensures line[|line| - 1] == '\n'
  {
    Spaces(Width(e.level)) + "* [" + e.name + "](#" + slug(e.name) + ")\n"
  }

  /** The whole table of contents: the entries' lines in order. */
  function TocText(toc: seq<Entry>, slug: string -> string): string
    decreases |toc|
  {
    if toc == [] then "" else Line(toc[0], slug) + TocText(toc[1..], slug)
  }

  /** The loop of `build_toc`, pushing one formatted line per entry onto `result`. */
  method BuildToc(toc: seq<Entry>, slug: string -> string) returns (result: string)
    ensures result == TocText(toc, slug)
  {
    result := "";
    for i := 0 to |toc|
      invariant result == TocText(toc[..i], slug)
    {
      var width := 2 * (toc[i].level - 1);
      var name := toc[i].name;
      var entry := Spaces(width) + "* [" + name + "](#" + slug(name) + ")\n";
      TocTextConcat(toc[..i], [toc[i]], slug);
      assert toc[..i + 1] == toc[..i] + [toc[i]];
      result := result + entry;
    }
    assert toc[..|toc|] == toc;
  }

  /** Rendering is a homomorphism from entry sequences to strings. */
  lemma {:induction false} TocTextConcat(a: seq<Entry>, b: seq<Entry>, slug: string -> string)
    ensures TocText(a + b, slug) == TocText(a, slug) + TocText(b, slug)
    decreases |a|
  {
    if a == [] {
      assert a + b == b;
    } else {
      assert (a + b)[0] == a[0];
      assert (a + b)[1..] == a[1..] + b;
      TocTextConcat(a[1..], b, slug);
    }
  }

  lemma TocTextEmpty(slug: string -> string)
    ensures TocText([], slug) == ""
  {
  }

  /** Where each part of a line sits: the indentation of width `2*(level-1)`, `* [`, the
      name, `](#`, the slug of that very name, `)` and the final newline. */
  lemma LineLayout(e: Entry, slug: string -> string, w: nat, n: nat, line: string)
    requires w == Width(e.level) && n == |e.name| && line == Line(e, slug)
    ensures |line| == w + n + |slug(e.name)| + 8
    ensures forall i :: 0 <= i < w ==> line[i] == ' '
    ensures line[w..w + 3] == "* ["
    ensures line[w + 3..w + 3 + n] == e.name
    ensures line[w + 3 + n..w + 6 + n] == "](#"
    ensures line[w + 6 + n..|line| - 2] == slug(e.name)
    ensures line[|line| - 2..] == ")\n"
  {
  }

  /** Level 1 gives no indentation, level 2 exactly two spaces. */
  lemma TopLevelsIndent(e: Entry, slug: string -> string)
    ensures e.level == 1 ==> Line(e, slug) == "* [" + e.name + "](#" + slug(e.name) + ")\n"
    ensures e.level == 2 ==> Line(e, slug) == "  * [" + e.name + "](#" + slug(e.name) + ")\n"
  {
    if e.level == 2 {
      assert Spaces(2) == "  ";
    }
  }

  function CountNewlines(s: string): nat
    decreases |s|
  {
    if s == "" then 0 else (if s[0] == '\n' then 1 else 0) + CountNewlines(s[1..])
  }

  lemma {:induction false} CountNewlinesConcat(a: string, b: string)
    ensures CountNewlines(a + b) == CountNewlines(a) + CountNewlines(b)
    decreases |a|
  {
    if a == "" {
      assert a + b == b;
    } else {
      assert (a + b)[1..] == a[1..] + b;
      CountNewlinesConcat(a[1..], b);
    }
  }

  lemma {:induction false} NoNewlineCount(s: string)
    requires '\n' !in s
    ensures CountNewlines(s) == 0
    decreases |s|
  {
    if s != "" {
      assert s[0] in s;
      assert forall c :: c in s[1..] ==> c in s;
      NoNewlineCount(s[1..]);
    }
  }

  /** When no heading text and no slug holds a newline, the table of contents has
      exactly one line per entry. */
  lemma {:induction false} OneLinePerEntry(toc: seq<Entry>, slug: string -> string)
    requires forall k :: 0 <= k < |toc| ==> '\n' !in toc[k].name && '\n' !in slug(toc[k].name)
    ensures CountNewlines(TocText(toc, slug)) == |toc|
    decreases |toc|
  {
    if toc != [] {
      var e := toc[0];
      var w := Width(e.level);
      NoNewlineCount(Spaces(w));
      NoNewlineCount(e.name);
      NoNewlineCount(slug(e.name));
      CountNewlinesConcat(Spaces(w), "* [");
      CountNewlinesConcat(Spaces(w) + "* [", e.name);
      CountNewlinesConcat(Spaces(w) + "* [" + e.name, "](#");
      CountNewlinesConcat(Spaces(w) + "* [" + e.name + "](#", slug(e.name));
      CountNewlinesConcat(Spaces(w) + "* [" + e.name + "](#" + slug(e.name), ")\n");
      CountNewlinesConcat(Line(e, slug), TocText(toc[1..], slug));
      OneLinePerEntry(toc[1..], slug);
    }
  }

  /** The table of contents splits around its `k`-th entry's line. */
  lemma LineAt(toc: seq<Entry>, k: nat, slug: string -> string)
    requires k < |toc|
    ensures TocText(toc, slug) == TocText(toc[..k], slug) + Line(toc[k], slug) + TocText(toc[k + 1..], slug)
  {
    var rest := toc[k..];
    assert toc == toc[..k] + rest;
    TocTextConcat(toc[..k], rest, slug);
    assert rest[0] == toc[k] && rest[1..] == toc[k + 1..];
    assert TocText(rest, slug) == Line(rest[0], slug) + TocText(rest[1..], slug);
  }
}
