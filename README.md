# mdbook-toc, modelled in Dafny

mdbook-toc is an mdbook preprocessor. It looks for the raw-HTML marker `<!-- toc -->` in each
chapter. It builds a table of contents from the level-1 and level-2 headings that follow the
marker, and puts that table where the marker was. This project models the preprocessor's
logic on the markdown parser's event stream and proves properties of that model.

The chapter's markdown is abstracted to a sequence of events (`Events.Event`): `Html`,
`StartHeader(level)`, `EndHeader(level)`, `Text` and `Other`. The model has five parts:

- `HeadingScan`: the first pass of `add_toc`. This is the loop over the events with
  `toc_found`, `current_header_level` and `toc_content`. It is a method with a `for` loop,
  proved equal to a fold (`Scan`). The fold is in turn proved equal to a reference definition
  (`OpenLevel`, `Harvest`) that looks backwards from each point of the stream.
- `TocBuilder`: `build_toc`. This is a loop that pushes one line per entry, proved equal to
  `TocText`, the in-order concatenation of the entries' lines.
- `MarkerSplice`: the second pass. Each marker event becomes the parsed table of contents, and
  every other event passes through in order.
- `Injector`: `add_toc` as a whole, including the error mapping of serialization failures.
- `ChapterAdapter` and `TocPreprocessor`: `Toc::run`. This applies the per-chapter transform
  to each chapter in turn, overwriting content only on success and stopping after the first
  error.

`AddsTocFixture` replays the repository's `adds_toc` test at the event level.

Two behaviours of the code are easy to mis-state; the model follows the code:

- Every `Text` event inside a tracked heading becomes an entry, not only the first one.
- A `StartHeader` of level 3 or more leaves the tracked level as it was. It does not clear it.

Three collaborators are parameters of the model:

- `parse: string -> seq<Event>` stands for `pulldown_cmark::Parser`.
- `serialize: seq<Event> -> Serialized` stands for `pulldown_cmark_to_cmark::fmt::cmark`.
- `slug: string -> string` stands for `mdbook::utils::normalize_id`.

The source parses the chapter twice. The model applies the same `parse` twice as well, and the
two results are equal because `parse` is a function.

## Model

| member | source | states |
|---|---|---|
| `HeadingScan.Step` | src/lib.rs:59-85 | one iteration of the scan loop: the found flag is set exactly by the marker and never cleared, and before the marker nothing else changes; after it, a text run inside a tracked heading is appended at the tracked level and nothing else appends, a heading start below level 3 sets the tracked level, a deeper start keeps it, a heading end clears it, and any other event keeps it |
| `HeadingScan.CollectHeadings` | src/lib.rs:52-86 | the scan loop returns exactly the entries of the fold `Scan`, and every entry has level at most 2 |
| `HeadingScan.ScanMatchesHarvest` | src/lib.rs:52-86 | after any stream, the scan has found the marker iff one occurred, tracks the level of the nearest level-1/2 heading start not closed since the marker, and has collected exactly one entry per text run inside such a heading, in document order |
| `HeadingScan.RunAppend` | src/lib.rs:58-86 | scanning `a + b` is scanning `a` and then continuing over `b` from the state reached |
| `HeadingScan.EntriesOnlyGrow` | src/lib.rs:83-85 | entries are only ever appended: earlier entries stay a prefix of later ones |
| `HeadingScan.NothingBeforeMarker` | src/lib.rs:59-67 | while no marker has occurred the state stays initial: not found, no level, no entries |
| `HeadingScan.GatedByFirstMarker` | src/lib.rs:59-67 | with no marker in `a`, scanning `a + [marker] + b` gives what a scan that has just found the marker gives on `b`, so headings before the marker are invisible |
| `HeadingScan.FoundStaysFound` | src/lib.rs:59-62 | once the marker is found, it stays found for the rest of the stream |
| `HeadingScan.HtmlInert` | src/lib.rs:59-64 | a raw-HTML event that is not the marker, or that comes after the marker was found, changes nothing |
| `HeadingScan.SecondMarkerHarmless` | src/lib.rs:59-63 | a repeated marker gives the same outcome as leaving it out |
| `HeadingScan.ScanReachable` | src/lib.rs:53-85 | every reachable state has no level and no entries before the marker, and tracks and stores only levels up to 2 |
| `HeadingScan.LevelsBounded` | src/lib.rs:69-72 | every collected entry has level 1 or 2 |
| `HeadingScan.DeepHeadingInert` | src/lib.rs:69-74 | a heading start of level 3 or more leaves the outcome of the scan unchanged, wherever it occurs |
| `HeadingScan.EndHeaderClears` | src/lib.rs:75-78 | after any heading end, whatever its level, no level is tracked |
| `TocBuilder.Line` | src/lib.rs:42-44 | the line of one entry is `2*(level-1)` spaces plus the name, the slug and eight fixed characters long, and ends with a newline |
| `TocBuilder.BuildToc` | src/lib.rs:38-49 | the builder's loop returns exactly `TocText`, the in-order concatenation of the entries' lines |
| `TocBuilder.Spaces` | src/lib.rs:44 | the padding has exactly the requested width and holds only spaces |
| `TocBuilder.TocTextConcat` | src/lib.rs:39-48 | building `a + b` gives the text of `a` followed by the text of `b` |
| `TocBuilder.TocTextEmpty` | src/lib.rs:39-48 | no entries give the empty text |
| `TocBuilder.LineLayout` | src/lib.rs:42-44 | each line is `2*(level-1)` spaces, `* [`, the name, `](#`, the slug of that name, `)` and a newline, with its length |
| `TocBuilder.TopLevelsIndent` | src/lib.rs:42-44 | level 1 lines have no indentation, level 2 lines exactly two spaces |
| `TocBuilder.OneLinePerEntry` | src/lib.rs:41-46 | when names and slugs contain no newline, the text has exactly one newline per entry |
| `TocBuilder.LineAt` | src/lib.rs:41-46 | the text is the lines of the entries before `k`, the line of entry `k`, then the lines of the rest |
| `MarkerSplice.Splice` | src/lib.rs:91-98 | the second pass: each marker becomes the table-of-contents events and any other event stays; every output event comes from the chapter or from the table of contents, and the output is never shorter than the non-marker part of the input |
| `MarkerSplice.SpliceConcat` | src/lib.rs:91-98 | splicing `a + b` is splicing `a` followed by splicing `b` |
| `MarkerSplice.KeepsOtherEvent` | src/lib.rs:91-98 | an event that is not the marker appears unchanged, between the splices of what precedes and follows it |
| `MarkerSplice.ReplacesMarker` | src/lib.rs:92-95 | a marker event is replaced by the whole table-of-contents event sequence |
| `MarkerSplice.IdentityWithoutMarker` | src/lib.rs:91-98 | a stream without a marker comes out unchanged |
| `MarkerSplice.NoMarkerLeft` | src/lib.rs:91-98 | if the table-of-contents events hold no marker, the output holds none |
| `MarkerSplice.SpliceLength` | src/lib.rs:91-98 | the output length is the input length, less one per marker, plus the table-of-contents length per marker |
| `Injector.Report` | src/lib.rs:100-102 | success yields exactly the serializer's buffer; failure yields an error whose message starts with `Markdown serialization failed: ` and continues with the serializer's reason |
| `Injector.AddToc` | src/lib.rs:51-103 | `add_toc` computes `Inject`: scan, build, parse the table of contents, splice, serialize; any error carries the failure prefix |
| `Injector.WithoutMarker` | src/lib.rs:88-100 | without a marker the serializer receives the chapter's parsed events unchanged |
| `Injector.WithOneMarker` | src/lib.rs:52-100 | with one marker between marker-free `before` and `after`, the serializer receives `before`, then the parsed table of contents built from the headings of `after` alone, then `after` |
| `Injector.MarkerConsumed` | src/lib.rs:88-98 | if the parsed table of contents holds no marker, the stream handed to the serializer holds none |
| `ChapterAdapter.Visit` | src/lib.rs:22-31 | the closure on one item: once an error is recorded, or for a non-chapter, nothing changes; a chapter whose transform succeeds gets the new content and records Ok; a failing chapter keeps its content and records its error |
| `ChapterAdapter.Finish` | src/lib.rs:34 | `unwrap_or(Ok(())).map(\|_\| book)`: Ok with the items exactly when no error was recorded, otherwise the recorded error |
| `ChapterAdapter.Run` | src/lib.rs:20-35 | `run` returns what the traversal model `Traverse` and the final `unwrap_or(Ok(()))` give |
| `ChapterAdapter.FirstFailure` | src/lib.rs:23-30 | the index returned is that of the first chapter whose transform fails, or the number of items when none fails |
| `ChapterAdapter.TraverseMatchesFirstFailure` | src/lib.rs:20-35 | every item before the first failing chapter is transformed; that chapter and every later item are left as they were; the final state is Ok or empty when nothing fails, and is that chapter's error otherwise |
| `ChapterAdapter.RunOutcome` | src/lib.rs:20-35 | `run` returns the book with every chapter transformed when no chapter fails, and the first failing chapter's error otherwise |
| `ChapterAdapter.NoChaptersUnchanged` | src/lib.rs:21-34 | a book without chapters comes back Ok and unchanged |
| `ChapterAdapter.ItemsKeepTheirShape` | src/lib.rs:27-30 | the book keeps its length, items that are not chapters are never modified, and chapters stay chapters with the same name |
| `TocPreprocessor.ChapterTransform` | src/lib.rs:106-110 | `Toc::add_toc` as the per-chapter transform: it succeeds exactly when the chapter's spliced events serialize, and the new content is the written text |
| `TocPreprocessor.BookFailureIsSerializationFailure` | src/lib.rs:20-35 | when `run` with `add_toc` fails, the first failing item is a chapter whose spliced events the serializer rejects, and the error is the fixed prefix followed by that serializer's reason |
| `AddsTocFixture.FixtureEntries` | src/lib.rs:118-142 | the test chapter yields exactly the five expected entries; the heading before the marker and the level-3 heading yield none |
| `AddsTocFixture.FixtureToc` | src/lib.rs:138-142 | given the test's slugs, those entries render as the five expected lines |
| `AddsTocFixture.FixtureSpliced` | src/lib.rs:136-154 | the serializer receives the chapter heading, the parsed expected table of contents, and the six headings of the body left in place |
| `AddsTocFixture.SplitHeadingYieldsOneEntryPerRun` | src/lib.rs:83-85 | a tracked heading whose text is split into two runs yields two entries, one per run |

## Left out

- Markdown tokenization (`pulldown_cmark::Parser`, src/lib.rs:58, 89, 91) is an external library. It is the `parse` parameter. Events other than raw HTML, heading starts and ends, and plain text are folded into `Other`.
- The serializer (`pulldown_cmark_to_cmark::fmt::cmark`, src/lib.rs:100) is an external library. It is the `serialize` parameter, which returns the written text or a failure with its display text.
- `mdbook::utils::normalize_id` (src/lib.rs:43) is not part of this model. It is the `slug` parameter, so nothing is claimed about lowercasing or hyphenation.
- mdbook's `Book::for_each_mut` tree walk is host-framework code. The book is the flat sequence of items in the order that walk visits them. Sub-items and the walk's order are not modelled.
- The `Preprocessor` trait glue is host-framework code: `name` returning `"toc"` and the unused `PreprocessorContext`.
- `ChapterAdapter.Run`: on failure, the partly transformed book is dropped, as in the source. Which chapters were overwritten at that point is stated of `Traverse` (`TraverseMatchesFirstFailure`), not of the result.
- Heading levels are at least 1 (`Events.Level`). The `i32` width and the `(level-1) as usize` cast are not modelled, because the parser only produces small positive levels.
- `Cow` lifetimes and `String::with_capacity` are memory management with no effect on behaviour.
- Two properties are not modelled: that the whole transform is idempotent on its own output, and that it stabilises after one run. Both depend on how the real parser and serializer round-trip text, and those are parameters here.
