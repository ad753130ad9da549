/** The second pass of `add_toc`: every marker event is replaced by the events of the
    parsed table of contents, every other event passes through. */
module MarkerSplice {
  import opened Events

  /** `map` followed by `flat_map`: a marker becomes `tocEvents`, any other `e` becomes `[e]`.
      Every output event is an event of the input or of the table of contents. */
  function Splice(events: seq<Event>, tocEvents: seq<Event>): (r: seq<Event>)
    ensures forall x :: x in r ==> x in events || x in tocEvents
    ensures |r| >= |events| - MarkerCount(events)
    decreases |events|
  {
    if events == [] then []
    else (if IsMarker(events[0]) then tocEvents else [events[0]]) + Splice(events[1..], tocEvents)
  }

  /** Splicing works piece by piece. */
  lemma {:induction false} SpliceConcat(a: seq<Event>, b: seq<Event>, tocEvents: seq<Event>)
    ensures Splice(a + b, tocEvents) == Splice(a, tocEvents) + Splice(b, tocEvents)
    decreases |a|
  {
    if a == [] {
      assert a + b == b;
    } else {
      assert (a + b)[0] == a[0];
      assert (a + b)[1..] == a[1..] + b;
      SpliceConcat(a[1..], b, tocEvents);
    }
  }

  /** An event that is not the marker stays where it was, unchanged. */
  lemma KeepsOtherEvent(a: seq<Event>, e: Event, b: seq<Event>, tocEvents: seq<Event>)
    requires !IsMarker(e)
    ensures Splice(a + [e] + b, tocEvents) == Splice(a, tocEvents) + [e] + Splice(b, tocEvents)
  {
    SpliceConcat(a + [e], b, tocEvents);
    SpliceConcat(a, [e], tocEvents);
  }

  /** A marker is replaced by the whole of `tocEvents`. */
  lemma ReplacesMarker(a: seq<Event>, b: seq<Event>, tocEvents: seq<Event>)
    ensures Splice(a + [Html(Marker)] + b, tocEvents) == Splice(a, tocEvents) + tocEvents + Splice(b, tocEvents)
  {
    SpliceConcat(a + [Html(Marker)], b, tocEvents);
    SpliceConcat(a, [Html(Marker)], tocEvents);
  }

  /** Without a marker the stream comes out as it went in. */
  lemma {:induction false} IdentityWithoutMarker(events: seq<Event>, tocEvents: seq<Event>)
    requires NoMarker(events)
    ensures Splice(events, tocEvents) == events
    decreases |events|
  {
    if events != [] {
      IdentityWithoutMarker(events[1..], tocEvents);
    }
  }

  /** When the table of contents holds no marker, neither does the output. */
  lemma {:induction false} NoMarkerLeft(events: seq<Event>, tocEvents: seq<Event>)
    requires NoMarker(tocEvents)
    ensures NoMarker(Splice(events, tocEvents))
    decreases |events|
  {
    if events != [] {
      NoMarkerLeft(events[1..], tocEvents);
      var head := if IsMarker(events[0]) then tocEvents else [events[0]];
      var out := Splice(events, tocEvents);
      assert out == head + Splice(events[1..], tocEvents);
      forall i | 0 <= i < |out| ensures !IsMarker(out[i]) {
        if i >= |head| {
          assert out[i] == Splice(events[1..], tocEvents)[i - |head|];
        }
      }
    }
  }

  function MarkerCount(events: seq<Event>): nat
    decreases |events|
  {
    if events == [] then 0 else (if IsMarker(events[0]) then 1 else 0) + MarkerCount(events[1..])
  }

  /** Each marker trades one event for `|tocEvents|`; every other event keeps its place. */
  lemma {:induction false} SpliceLength(events: seq<Event>, tocEvents: seq<Event>)
    ensures |Splice(events, tocEvents)| == |events| - MarkerCount(events) + MarkerCount(events) * |tocEvents|
    decreases |events|
  {
    if events != [] {
      SpliceLength(events[1..], tocEvents);
      var c := MarkerCount(events[1..]);
      assert (c + 1) * |tocEvents| == c * |tocEvents| + |tocEvents|;
    }
  }
}
