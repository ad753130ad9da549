/** `Toc::run`: apply the per-chapter transform to every chapter of the book, in the order
    the host's traversal visits the items, writing each result into the chapter's content,
    and stop transforming after the first error. The book is the flat sequence of items
    the traversal visits. */
module ChapterAdapter {
  import opened Wrappers

  /** A chapter (a holder of content) or any other item of the book (a separator, a part title). */
  datatype BookItem = Chapter(name: string, content: string) | NonChapter(title: string)

  /** The closure's state `res` and the items visited so far, as the closure left them. */
  datatype Traversal = Traversal(res: Option<Result<(), string>>, items: seq<BookItem>)

  /** The closure on one item: nothing once an error is recorded; for a chapter, record
      the transform's outcome and overwrite the content only on success. */
  function Visit(res: Option<Result<(), string>>, item: BookItem,
                 transform: string -> Result<string, string>): (v: Traversal)
    ensures |v.items| == 1 && v.items[0].Chapter? == item.Chapter?
    ensures item.NonChapter? ==> v == Traversal(res, [item])
    ensures res.Some? && res.value.Err? ==> v == Traversal(res, [item])
    ensures v.res.Some? && v.res.value.Err? ==> v.items == [item]
    ensures item.Chapter? && transform(item.content).Ok? && !(res.Some? && res.value.Err?) ==>
      v == Traversal(Some(Ok(())), [item.(content := transform(item.content).value)])
    ensures item.Chapter? && transform(item.content).Err? && !(res.Some? && res.value.Err?) ==>
      v == Traversal(Some(Err(transform(item.content).error)), [item])
  {
    if res.Some? && res.value.Err? then Traversal(res, [item])
    else
      match item
      case Chapter(_, content) =>
        (match transform(content)
         case Ok(md) => Traversal(Some(Ok(())), [item.(content := md)])
         case Err(e) => Traversal(Some(Err(e)), [item]))
      case NonChapter(_) => Traversal(res, [item])
  }

  /** The traversal over `items`, starting from `res = None`. */
  function Traverse(items: seq<BookItem>, transform: string -> Result<string, string>): Traversal
    decreases |items|
  {
    if items == [] then Traversal(None, [])
    else
      var done := Traverse(items[..|items| - 1], transform);
      var v := Visit(done.res, items[|items| - 1], transform);
      Traversal(v.res, done.items + v.items)
  }

  /** `res.unwrap_or(Ok(())).map(|_| book)`. */
  function Finish(t: Traversal): (r: Result<seq<BookItem>, string>)
    ensures r.Ok? <==> !(t.res.Some? && t.res.value.Err?)
    ensures r.Ok? ==> r.value == t.items
    ensures r.Err? ==> t.res == Some(Err(r.error))
  {
    match t.res
    case None => Ok(t.items)
    case Some(Ok(_)) => Ok(t.items)
    case Some(Err(e)) => Err(e)
  }

  /** The preprocessor's `run` over a book it owns and hands back on success. */
  method Run(book: seq<BookItem>, transform: string -> Result<string, string>)
    returns (r: Result<seq<BookItem>, string>)
    ensures r == Finish(Traverse(book, transform))
  {
    var items := book;
    var res: Option<Result<(), string>> := None;
    for i := 0 to |book|
      invariant |items| == |book|
      invariant Traversal(res, items[..i]) == Traverse(book[..i], transform)
      invariant forall j :: i <= j < |book| ==> items[j] == book[j]
    {
      assert book[..i + 1][..i] == book[..i];
      assert items[i] == book[i];
      if res.Some? && res.value.Err? {
        assert items[..i + 1] == items[..i] + [items[i]];
        continue;
      }
      if items[i].Chapter? {
        var outcome := transform(items[i].content);
        if outcome.Ok? {
          items := items[i := items[i].(content := outcome.value)];
          res := Some(Ok(()));
        } else {
          res := Some(Err(outcome.error));
        }
      }
      assert items[..i + 1] == items[..i] + [items[i]];
    }
    assert book[..|book|] == book;
    assert items[..|book|] == items;
    r := Finish(Traversal(res, items));
  }

  // ---------------------------------------------------------------------------
  // The reference: the index of the first failing chapter

  predicate Fails(item: BookItem, transform: string -> Result<string, string>) {
    item.Chapter? && transform(item.content).Err?
  }

  /** The index of the first chapter whose transform fails, `|items|` if there is none. */
  function FirstFailure(items: seq<BookItem>, transform: string -> Result<string, string>): (k: nat)
    ensures k <= |items|
    ensures k < |items| ==> Fails(items[k], transform)
    ensures forall j :: 0 <= j < k ==> !Fails(items[j], transform)
    decreases |items|
  {
    if items == [] then 0
    else if Fails(items[0], transform) then 0
    else 1 + FirstFailure(items[1..], transform)
  }

  /** An item as a successful transform leaves it. */
  function Applied(item: BookItem, transform: string -> Result<string, string>): BookItem {
    match item
    case Chapter(_, content) =>
      (match transform(content) case Ok(md) => item.(content := md) case Err(_) => item)
    case NonChapter(_) => item
  }

  lemma FirstFailureOfSnoc(p: seq<BookItem>, x: BookItem, transform: string -> Result<string, string>)
    ensures FirstFailure(p + [x], transform) ==
      if FirstFailure(p, transform) < |p| then FirstFailure(p, transform)
      else if Fails(x, transform) then |p| else |p| + 1
  {
    var k := FirstFailure(p + [x], transform);
    var m := FirstFailure(p, transform);
    if m < |p| {
      assert (p + [x])[m] == p[m];
    } else {
      assert (p + [x])[|p|] == x;
    }
  }

  /** The traversal transforms exactly the items before the first failing chapter, leaves
      the failing chapter and everything after it as they were, and ends with `res`
      saying Ok, or nothing, when no chapter fails and holding the first error otherwise. */
  lemma {:induction false} TraverseMatchesFirstFailure(items: seq<BookItem>, transform: string -> Result<string, string>)
    ensures var t, k := Traverse(items, transform), FirstFailure(items, transform);
      && |t.items| == |items|
      && (forall i :: 0 <= i < |items| ==> t.items[i] == if i < k then Applied(items[i], transform) else items[i])
      && (k == |items| ==> t.res.None? || t.res == Some(Ok(())))
      && (k < |items| ==> t.res == Some(Err(transform(items[k].content).error)))
    decreases |items|
  {
    if items != [] {
      var p, x := items[..|items| - 1], items[|items| - 1];
      assert items == p + [x];
      TraverseMatchesFirstFailure(p, transform);
      FirstFailureOfSnoc(p, x, transform);
      var t := Traverse(items, transform);
      var tp := Traverse(p, transform);
      forall i | 0 <= i < |items|
        ensures t.items[i] == if i < FirstFailure(items, transform) then Applied(items[i], transform) else items[i]
      {
        if i < |p| {
          assert t.items[i] == tp.items[i];
          assert items[i] == p[i];
        }
      }
    }
  }

  /** What `run` returns: the book with every chapter transformed when no chapter fails,
      otherwise the first chapter's error. */
  lemma RunOutcome(book: seq<BookItem>, transform: string -> Result<string, string>)
    ensures var r, k := Finish(Traverse(book, transform)), FirstFailure(book, transform);
      && (k == |book| ==>
            r.Ok? && |r.value| == |book| &&
            forall i :: 0 <= i < |book| ==> r.value[i] == Applied(book[i], transform))
      && (k < |book| ==> r == Err(transform(book[k].content).error))
  {
    TraverseMatchesFirstFailure(book, transform);
  }

  /** A book without chapters comes back as it went in. */
  lemma NoChaptersUnchanged(book: seq<BookItem>, transform: string -> Result<string, string>)
    requires forall i :: 0 <= i < |book| ==> book[i].NonChapter?
    ensures Finish(Traverse(book, transform)) == Ok(book)
  {
    TraverseMatchesFirstFailure(book, transform);
    var t := Traverse(book, transform);
    assert FirstFailure(book, transform) == |book|;
    assert t.items == book;
  }

  /** Items that are not chapters are never modified, and chapters keep their names. */
  lemma ItemsKeepTheirShape(book: seq<BookItem>, transform: string -> Result<string, string>)
    ensures |Traverse(book, transform).items| == |book|
    ensures forall i :: 0 <= i < |book| && book[i].NonChapter? ==> Traverse(book, transform).items[i] == book[i]
    ensures forall i :: 0 <= i < |book| && book[i].Chapter? ==>
      Traverse(book, transform).items[i].Chapter? && Traverse(book, transform).items[i].name == book[i].name
  {
    TraverseMatchesFirstFailure(book, transform);
  }
}
