/** The markdown parser's output, abstracted to the events the preprocessor looks at. */
module Events {

  /** A heading level as the parser reports it; `(level - 1) as usize` in the builder
      only makes sense from 1 upwards. */
  type Level = l: int | 1 <= l witness 1

  /** `Html` is a raw-markup block, `StartHeader`/`EndHeader` open and close a heading,
      `Text` is a plain text run, and `Other` stands for every other event
      (paragraphs, lists, the start and end tags of emphasis, links and code spans,
      breaks, ...), identified only by a kind tag. */
  datatype Event =
    | Html(html: string)
    | StartHeader(level: Level)
    | EndHeader(level: Level)
    | Text(text: string)
    | Other(kind: string)

  /** The sentinel: a raw-markup block with exactly this content. */
  const Marker: string := "<!-- toc -->\n"

  /** One table-of-contents entry: the heading level and the heading text. */
  datatype Entry = Entry(level: Level, name: string)

  predicate IsMarker(e: Event) {
    e == Html(Marker)
  }

  /** Some event of `es` is the marker. */
  predicate MarkerIn(es: seq<Event>) {
    exists i :: 0 <= i < |es| && IsMarker(es[i])
  }

  predicate NoMarker(es: seq<Event>) {
    !MarkerIn(es)
  }

  lemma NoMarkerConcat(a: seq<Event>, b: seq<Event>)
    ensures NoMarker(a + b) <==> NoMarker(a) && NoMarker(b)
  {
    if NoMarker(a + b) {
      forall i | 0 <= i < |a| ensures !IsMarker(a[i]) {
        assert a[i] == (a + b)[i];
      }
      forall i | 0 <= i < |b| ensures !IsMarker(b[i]) {
        assert b[i] == (a + b)[|a| + i];
      }
    }
    if NoMarker(a) && NoMarker(b) {
      forall i | 0 <= i < |a + b| ensures !IsMarker((a + b)[i]) {
        if i >= |a| {
          assert (a + b)[i] == b[i - |a|];
        }
      }
    }
  }
}
