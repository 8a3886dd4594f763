/** The context of one request: text, usage, and the finish that happens once. */
module ServingContext {

  import opened Bytes
  import opened Reasons

  datatype StreamChunk = Delta(text: string) | Finish(reason: Reason)

  function Deltas(texts: seq<string>): seq<StreamChunk> { seq(|texts|, i requires 0 <= i < |texts| => Delta(texts[i])) }

  /** The gateway's chunk callback appends every delta to the text a second time. */
  function Twice(texts: seq<string>): string {
    if texts == [] then "" else Twice(texts[..|texts| - 1]) + texts[|texts| - 1] + texts[|texts| - 1]
  }

  function Recorded(stream: bool, texts: seq<string>): string { if stream then Twice(texts) else Concat(texts) }

  lemma RecordedOne(stream: bool, texts: seq<string>, text: string)
    ensures Recorded(stream, texts + [text]) == Recorded(stream, texts) + if stream then text + text else text
    ensures Deltas(texts + [text]) == Deltas(texts) + [Delta(text)]
  {
    ConcatOne(texts, text);
    assert (texts + [text])[..|texts|] == texts;
  }

  lemma {:induction false} TwiceLength(texts: seq<string>)
    ensures |Twice(texts)| == 2 * |Concat(texts)|
    decreases |texts|
  {
    if texts != [] {
      var n := |texts| - 1;
      TwiceLength(texts[..n]);
      ConcatOne(texts[..n], texts[n]);
      assert texts == texts[..n] + [texts[n]];
    }
  }

  /** The recorded text is the concatenation of the deltas exactly when nothing is streamed, or no delta has text. */
  lemma RecordedIsTextIff(stream: bool, texts: seq<string>)
    ensures Recorded(stream, texts) == Concat(texts) <==> !stream || Concat(texts) == ""
  {
    TwiceLength(texts);
  }

  class Context {
    const stream: bool
    var cancelled: bool
    var finished: bool
    var finalText: string
    var finishReason: Reason
    var promptTokens: int
    var completionTokens: int
    var totalTokens: int

    /** The calls made to on_chunk and to on_finish. */
    var chunks: seq<StreamChunk>
    var finishes: seq<Reason>

    /** The texts accepted. */
    ghost var emitted: seq<string>

    /** One finish callback at most; the stream is the deltas and then one finishing chunk; nothing after it. */
    ghost predicate Valid()
      reads this
    {
      && finishes == (if finished then [finishReason] else [])
      && chunks == (if !stream then [] else Deltas(emitted) + if finished then [Finish(finishReason)] else [])
      && finalText == Recorded(stream, emitted)
    }

    constructor (stream: bool)
      ensures Valid() && this.stream == stream && !cancelled && !finished && emitted == []
      ensures promptTokens == completionTokens == totalTokens == 0
    {
      this.stream := stream;
      cancelled, finished, finalText, finishReason := false, false, "", Stop;
      promptTokens, completionTokens, totalTokens := 0, 0, 0;
      chunks, finishes, emitted := [], [], [];
    }

    method EmitDelta(text: string)
      requires Valid()
      modifies this`finalText, this`chunks, this`emitted
      ensures Valid() && emitted == if finished then old(emitted) else old(emitted) + [text]
    {
      if finished {
        return;
      }
      RecordedOne(stream, emitted, text);
      finalText := finalText + text;
      if stream {
        chunks := chunks + [Delta(text)];
        finalText := finalText + text;
      }
      emitted := emitted + [text];
    }

    method EmitFinish(reason: Reason)
      requires Valid()
      modifies this`finished, this`finishReason, this`chunks, this`finishes
      ensures Valid() && finished && finishReason == if old(finished) then old(finishReason) else reason
    {
      if finished {
        return;
      }
      finished := true;
      finishReason := reason;
      if stream {
        chunks := chunks + [Finish(reason)];
      }
      finishes := finishes + [reason];
    }

    /** What other threads may do between two steps of the worker: cancel, and when not streaming finish too. */
    method Interfere()
      requires Valid()
      modifies this`cancelled, this`finished, this`finishReason, this`chunks, this`finishes
      ensures Valid() && (old(cancelled) ==> cancelled) &&
        (old(finished) ==> finished && finishReason == old(finishReason))
      ensures !cancelled ==> finished == old(finished) && finishReason == old(finishReason)
    {
      if * {
        cancelled := true;
        if !stream {
          EmitFinish(Cancelled);
        }
      }
    }
  }
}
