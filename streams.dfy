/** `streamToString`: collect the chunks a readable stream emits and settle
    with their in-order join when the stream ends, or reject on its first
    error. */
module Streams {
  import opened Common

  /** One event of a readable stream; data chunks arrive already decoded. */
  datatype StreamEvent = Data(chunk: string) | End | Error(error: JsError)

  /** How the promise that `streamToString` returns settles. `Pending` is a
      stream that neither ends nor fails: the promise never settles. */
  datatype Settlement = Resolved(text: string) | Rejected(error: JsError) | Pending

  /** `chunks.join('')`. */
  function Join(chunks: seq<string>): string
  {
    if chunks == [] then "" else chunks[0] + Join(chunks[1..])
  }

  lemma {:induction false} JoinAppend(a: seq<string>, b: seq<string>)
    ensures Join(a + b) == Join(a) + Join(b)
  {
    if a == [] {
      assert a + b == b;
    } else {
      assert (a + b)[1..] == a[1..] + b;
      JoinAppend(a[1..], b);
    }
  }

  /** A text cut into chunks of `size` characters, the last one shorter: the
      way a transport may split what it delivers. */
  function Chunked(s: string, size: nat): (chunks: seq<string>)
    requires size > 0
    decreases |s|
  {
    if |s| <= size then (if s == "" then [] else [s])
    else [s[..size]] + Chunked(s[size..], size)
  }

  /** Cut into pieces of any one fixed size, a text is given back by joining
      the pieces in order. */
  lemma {:induction false} JoinChunked(s: string, size: nat)
    requires size > 0
    ensures Join(Chunked(s, size)) == s
    decreases |s|
  {
    if |s| > size {
      var head, tail := s[..size], s[size..];
      JoinChunked(tail, size);
      JoinAppend([head], Chunked(tail, size));
      JoinSingle(head);
      assert s == head + tail;
    } else if s != "" {
      JoinSingle(s);
    }
  }

  lemma JoinSingle(chunk: string)
    ensures Join([chunk]) == chunk
  {
  }

  /** The index of the first event that settles the promise (`End` or
      `Error`), or the length of the stream when none does. */
  function FirstSettling(events: seq<StreamEvent>): (k: nat)
    ensures k <= |events|
    ensures forall j :: 0 <= j < k ==> events[j].Data?
    ensures k < |events| ==> !events[k].Data?
  {
    if events == [] || !events[0].Data? then 0
    else 1 + FirstSettling(events[1..])
  }

  /** The data chunks of a run of data events, in order: one `chunks.push`
      per event. */
  function Chunks(events: seq<StreamEvent>): (chunks: seq<string>)
    requires forall j :: 0 <= j < |events| ==> events[j].Data?
    ensures |chunks| == |events|
    ensures forall j :: 0 <= j < |events| ==> chunks[j] == events[j].chunk
  {
    if events == [] then [] else [events[0].chunk] + Chunks(events[1..])
  }

  /** Pushing the chunks of two runs one after the other collects the
      chunks of the whole run. */
  lemma {:induction false} ChunksAppend(a: seq<StreamEvent>, b: seq<StreamEvent>)
    requires forall j :: 0 <= j < |a| ==> a[j].Data?
    requires forall j :: 0 <= j < |b| ==> b[j].Data?
    ensures Chunks(a + b) == Chunks(a) + Chunks(b)
  {
    if a == [] {
      assert a + b == b;
    } else {
      assert (a + b)[1..] == a[1..] + b;
      ChunksAppend(a[1..], b);
    }
  }

  /** What `streamToString` settles with for the given events. */
  function Settle(events: seq<StreamEvent>): Settlement
  {
    var k := FirstSettling(events);
    if k == |events| then Pending
    else if events[k].End? then Resolved(Join(Chunks(events[..k])))
    else Rejected(events[k].error)
  }

  /** `streamToString(readableStream)`. */
  method StreamToString(events: seq<StreamEvent>) returns (r: Settlement)
    ensures r == Settle(events)
  {
    var chunks: seq<string> := [];
    var i := 0;
    while i < |events| && events[i].Data?
      invariant 0 <= i <= |events|
      invariant forall j :: 0 <= j < i ==> events[j].Data?
      invariant chunks == Chunks(events[..i])
    {
      ChunksAppend(events[..i], [events[i]]);
      assert events[..i + 1] == events[..i] + [events[i]];
      chunks := chunks + [events[i].chunk];
      i := i + 1;
    }
    if i == |events| {
      r := Pending;
    } else if events[i].End? {
      r := Resolved(Join(chunks));
    } else {
      r := Rejected(events[i].error);
    }
  }

  /** A stream that sends exactly `chunks`: its data events give them back. */
  function AsData(chunks: seq<string>): (events: seq<StreamEvent>)
    ensures |events| == |chunks|
    ensures forall j :: 0 <= j < |events| ==> events[j].Data?
    ensures Chunks(events) == chunks
  {
    seq(|chunks|, j requires 0 <= j < |chunks| => Data(chunks[j]))
  }

  /** A stream that sends some chunks and then ends resolves to their in-order
      join, whatever follows the end. */
  lemma EndResolvesToJoin(chunks: seq<string>, rest: seq<StreamEvent>)
    ensures Settle(AsData(chunks) + [End] + rest) == Resolved(Join(chunks))
  {
    var events := AsData(chunks) + [End] + rest;
    var k := FirstSettling(events);
    assert events[|chunks|] == End;
    assert k == |chunks|;
    assert events[..k] == AsData(chunks);
    assert Chunks(events[..k]) == chunks;
  }

  /** A stream that fails before ending rejects with its first error. */
  lemma ErrorRejects(chunks: seq<string>, e: JsError, rest: seq<StreamEvent>)
    ensures Settle(AsData(chunks) + [Error(e)] + rest) == Rejected(e)
  {
    var events := AsData(chunks) + [Error(e)] + rest;
    assert events[|chunks|] == Error(e);
    assert FirstSettling(events) == |chunks|;
  }

  /** A stream that only ever sends data leaves the promise pending. */
  lemma DataOnlyStaysPending(chunks: seq<string>)
    ensures Settle(AsData(chunks)) == Pending
  {
    assert FirstSettling(AsData(chunks)) == |chunks|;
  }
}
