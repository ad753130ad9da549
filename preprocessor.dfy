/** The preprocessor as mdbook runs it: `run` with `Toc::add_toc` as the per-chapter transform. */
module TocPreprocessor {
  import opened Wrappers
  import opened Events
  import opened Injector
  import opened ChapterAdapter

  /** `Toc::add_toc`: the injector applied to a chapter's content. A chapter's transform
      succeeds exactly when its spliced events serialize, with the written text as the new
      content. */
  function ChapterTransform(parse: string -> seq<Event>, slug: string -> string,
                            serialize: seq<Event> -> Serialized): (t: string -> Result<string, string>)
    ensures forall c :: t(c).Ok? <==> serialize(Spliced(c, parse, slug)).Written?
    ensures forall c :: t(c).Ok? ==> t(c).value == serialize(Spliced(c, parse, slug)).buf
  {
    content => Inject(content, parse, slug, serialize)
  }

  /** A book-level failure is the serialization failure of the first chapter whose
      transform fails, reported as the fixed prefix followed by the serializer's reason. */
  lemma BookFailureIsSerializationFailure(book: seq<BookItem>, parse: string -> seq<Event>,
                                          slug: string -> string, serialize: seq<Event> -> Serialized)
    requires Finish(Traverse(book, ChapterTransform(parse, slug, serialize))).Err?
    ensures var e := Finish(Traverse(book, ChapterTransform(parse, slug, serialize))).error;
      |FailurePrefix| <= |e| && e[..|FailurePrefix|] == FailurePrefix
    ensures var k := FirstFailure(book, ChapterTransform(parse, slug, serialize));
      var e := Finish(Traverse(book, ChapterTransform(parse, slug, serialize))).error;
      && k < |book| && book[k].Chapter?
      && serialize(Spliced(book[k].content, parse, slug)).FmtError?
      && e == FailurePrefix + serialize(Spliced(book[k].content, parse, slug)).reason
  {
    var t := ChapterTransform(parse, slug, serialize);
    RunOutcome(book, t);
    var k := FirstFailure(book, t);
    assert k < |book|;
    var s := serialize(Spliced(book[k].content, parse, slug));
    assert t(book[k].content) == Report(s);
  }
}
