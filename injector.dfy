/** `add_toc`: scan the chapter's events for headings, build the table of contents,
    parse it, splice its events in place of the marker and serialize the result.
    The markdown parser, the serializer and the slug function are parameters. */
module Injector {
  import opened Wrappers
  import opened Events
  import opened HeadingScan
  import opened TocBuilder
  import opened MarkerSplice

  /** What the serializer reports: the text it wrote, or a formatting error described by
      its display text. */
  datatype Serialized = Written(buf: string) | FmtError(reason: string)

  const FailurePrefix: string := "Markdown serialization failed: "

  /** The error mapping of `add_toc`: the buffer on success, otherwise an error whose
      message is the fixed prefix followed by the serializer's reason. */
  function Report(s: Serialized): (r: Result<string, string>)
    ensures r.Ok? <==> s.Written?
    ensures s.Written? ==> r.value == s.buf
    ensures s.FmtError? ==> |FailurePrefix| <= |r.error| && r.error[..|FailurePrefix|] == FailurePrefix
    ensures s.FmtError? ==> r.error[|FailurePrefix|..] == s.reason
  {
    match s
    case Written(buf) => Ok(buf)
    case FmtError(reason) => Err(FailurePrefix + reason)
  }

  /** The event stream `add_toc` hands to the serializer: the chapter's events with the
      parsed table of contents of its own headings in place of each marker. */
  function Spliced(content: string, parse: string -> seq<Event>, slug: string -> string): seq<Event> {
    var toc := Scan(parse(content)).tocContent;
    Splice(parse(content), parse(TocText(toc, slug)))
  }

  /** The transform `add_toc` applies to one chapter's text. */
  function Inject(content: string, parse: string -> seq<Event>, slug: string -> string,
                  serialize: seq<Event> -> Serialized): Result<string, string>
  {
    Report(serialize(Spliced(content, parse, slug)))
  }

  /** `add_toc`, step by step as the source does it: the content is parsed once for the
      scan and once more for the splice. */
  method AddToc(content: string, parse: string -> seq<Event>, slug: string -> string,
                serialize: seq<Event> -> Serialized) returns (r: Result<string, string>)
    ensures r == Inject(content, parse, slug, serialize)
    ensures r.Err? ==> r.error[..|FailurePrefix|] == FailurePrefix
  {
    var tocContent := CollectHeadings(parse(content));
    var tocText := BuildToc(tocContent, slug);
    var tocEvents := parse(tocText);
    var events := Splice(parse(content), tocEvents);
    r := Report(serialize(events));
  }

  /** Without a marker the chapter is only re-serialized: the serializer sees the parsed
      events unchanged. */
  lemma WithoutMarker(content: string, parse: string -> seq<Event>, slug: string -> string,
                      serialize: seq<Event> -> Serialized)
    requires NoMarker(parse(content))
    ensures Inject(content, parse, slug, serialize) == Report(serialize(parse(content)))
  {
    IdentityWithoutMarker(parse(content), parse(TocText(Scan(parse(content)).tocContent, slug)));
  }

  /** With one marker between `before` and `after`, the serializer sees `before`, then the
      parsed table of contents built from the headings of `after` alone, then `after`. */
  lemma WithOneMarker(content: string, parse: string -> seq<Event>, slug: string -> string,
                      serialize: seq<Event> -> Serialized, before: seq<Event>, after: seq<Event>)
    requires parse(content) == before + [Html(Marker)] + after
    requires NoMarker(before) && NoMarker(after)
    ensures var toc := Run(ScanState(true, None, []), after).tocContent;
      Inject(content, parse, slug, serialize) ==
        Report(serialize(before + parse(TocText(toc, slug)) + after))
  {
    GatedByFirstMarker(before, after);
    var tocEvents := parse(TocText(Run(ScanState(true, None, []), after).tocContent, slug));
    ReplacesMarker(before, after, tocEvents);
    IdentityWithoutMarker(before, tocEvents);
    IdentityWithoutMarker(after, tocEvents);
  }

  /** The marker does not survive the transform unless the parsed table of contents
      itself yields one. */
  lemma MarkerConsumed(content: string, parse: string -> seq<Event>, slug: string -> string)
    requires NoMarker(parse(TocText(Scan(parse(content)).tocContent, slug)))
    ensures NoMarker(Spliced(content, parse, slug))
  {
    NoMarkerLeft(parse(content), parse(TocText(Scan(parse(content)).tocContent, slug)));
  }
}
