/** The stream writer as an object: it holds back the bytes of an unfinished character between chunks. */
module StreamWriter {

  import opened Bytes
  import opened Reasons
  import U = Utf8Stream
  import opened StreamPath

  class Writer {
    var pending: seq<byte>
    ghost var raw: seq<byte>
    ghost var texts: seq<seq<byte>>
    ghost var finished: bool

    /** The texts of the delta events, and what is held back, are one split of all the bytes received; nothing is
        held after the finish. */
    ghost predicate Valid()
      reads this
    {
      && Concat(texts) == U.Split(raw, false).out && |pending| <= 3
      && pending == if finished then [] else U.Split(raw, false).rest
    }

    constructor ()
      ensures Valid() && raw == [] && texts == [] && !finished
    {
      pending, raw, texts, finished := [], [], [], false;
    }

    /** OnChunk.  Of the finishing chunk only the reason is written: its own text, and what is flushed, are not. */
    method OnChunk(delta: seq<byte>, isFinished: bool, reason: Reason) returns (events: seq<Event>)
      requires Valid() && !finished
      modifies this
      ensures Valid() && finished == isFinished
      ensures isFinished ==> events == [FinishEvent(reason), DoneEvent] && raw == old(raw) && texts == old(texts)
      ensures !isFinished ==>
        exists text :: events == [DeltaEvent(text)] && texts == old(texts) + [text] && raw == old(raw) + delta
    {
      var safe: seq<byte> := [];
      if delta != [] {
        U.PendingIsShort(pending + delta, false);
        safe, pending := U.SplitPrefix(pending + delta, false);
      }
      if isFinished && pending != [] {
        var flushed, _ := U.SplitPrefix(pending, true);
        safe := safe + flushed;
        pending := [];
      }
      if !isFinished {
        Extend(raw, delta, texts, safe, old(pending), pending);
        raw, texts := raw + delta, texts + [safe];
        return [DeltaEvent(safe)];
      }
      finished := true;
      return [FinishEvent(reason), DoneEvent];
    }
  }

  lemma Extend(raw: seq<byte>, delta: seq<byte>, texts: seq<seq<byte>>, safe: seq<byte>, was: seq<byte>,
               held: seq<byte>)
    requires U.Parts(Concat(texts), was) == U.Split(raw, false)
    requires if delta == [] then safe == [] && held == was else U.Parts(safe, held) == U.Split(was + delta, false)
    ensures U.Parts(Concat(texts + [safe]), held) == U.Split(raw + delta, false)
  {
    ConcatOne(texts, safe);
    U.SplitExtends(raw, delta);
    if delta == [] {
      assert raw + delta == raw;
    }
  }
}
