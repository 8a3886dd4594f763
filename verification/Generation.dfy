/**
 The generation loop over a session's key-value cache.  What llama.cpp returns
 is a parameter: tokens, the sampler as a function of the cache, end-of-text
 tokens, pieces.  Whether a decoding call succeeds, and when other threads
 cancel, is left open.
 */
module Generation {

  import opened Bytes
  import opened Reasons
  import opened Options
  import opened ServingContext

  type Token = int

  datatype Oracle = Oracle(
    nCtx: int,
    margin: int,
    contextOk: bool,
    vocabOk: bool,
    promptOk: bool,
    tokenize: bool -> Option<seq<Token>>,
    sample: seq<Token> -> Token,
    isEog: Token -> bool,
    piece: Token -> string,
    maxTokens: Option<int>)

  const DEFAULT_MAX_TOKENS := 512

  /** The request's number of tokens, at least one; 512 when it gives none or none that can be read. */
  function Limit(o: Oracle): (n: nat)
    ensures n >= 1
  {
    match o.maxTokens
    case None => DEFAULT_MAX_TOKENS
    case Some(n) => if n <= 0 then 1 else n
  }

  // ---------------------------------------------------------------- greedy continuation

  /** The reference: sample, stop at an end-of-text token or at the limit. */
  function Greedy(o: Oracle, kv: seq<Token>, limit: nat): seq<Token>
    decreases limit
  {
    if limit == 0 || o.isEog(o.sample(kv)) then []
    else [o.sample(kv)] + Greedy(o, kv + [o.sample(kv)], limit - 1)
  }

  /** Every token was the sampler's choice, and none ends the text. */
  ghost predicate Sampled(o: Oracle, kv: seq<Token>, made: seq<Token>) {
    forall i :: 0 <= i < |made| ==> made[i] == o.sample(kv + made[..i]) && !o.isEog(made[i])
  }

  /** A run that ends by an end-of-text token or by its limit has made exactly the reference continuation. */
  lemma {:induction false} SampledToTheEnd(o: Oracle, kv: seq<Token>, made: seq<Token>, limit: nat)
    requires Sampled(o, kv, made) && |made| <= limit
    requires |made| == limit || o.isEog(o.sample(kv + made))
    ensures made == Greedy(o, kv, limit)
    decreases limit
  {
    if made == [] {
      assert kv + made == kv;
    } else {
      var x := made[0];
      assert kv + made[..0] == kv;
      var kv', rest := kv + [x], made[1..];
      forall i | 0 <= i < |rest| ensures rest[i] == o.sample(kv' + rest[..i]) && !o.isEog(rest[i]) {
        assert made[i + 1] == rest[i] && kv + made[..i + 1] == kv' + rest[..i];
      }
      assert kv + made == kv' + rest;
      SampledToTheEnd(o, kv', rest, limit - 1);
    }
  }

  /** The pieces that are shown: an empty piece is skipped. */
  function Shown(o: Oracle, tokens: seq<Token>): seq<string> {
    if tokens == [] then []
    else
      var t := tokens[|tokens| - 1];
      Shown(o, tokens[..|tokens| - 1]) + if o.piece(t) == "" then [] else [o.piece(t)]
  }

  lemma {:induction false} ShownIsPieces(o: Oracle, tokens: seq<Token>)
    ensures Concat(Shown(o, tokens)) == Pieces(o, tokens)
    decreases |tokens|
  {
    if tokens != [] {
      var k := |tokens| - 1;
      ShownIsPieces(o, tokens[..k]);
      ConcatAppend(Shown(o, tokens[..k]), if o.piece(tokens[k]) == "" then [] else [o.piece(tokens[k])]);
      assert Concat([o.piece(tokens[k])]) == o.piece(tokens[k]);
    }
  }

  lemma ShownOne(o: Oracle, tokens: seq<Token>, t: Token)
    ensures Shown(o, tokens + [t]) == Shown(o, tokens) + if o.piece(t) == "" then [] else [o.piece(t)]
  {
    assert (tokens + [t])[..|tokens|] == tokens;
  }

  lemma SampledOne(o: Oracle, kv: seq<Token>, made: seq<Token>, next: Token)
    requires Sampled(o, kv, made) && next == o.sample(kv + made) && !o.isEog(next)
    ensures Sampled(o, kv, made + [next])
  {
    assert forall i :: 0 <= i <= |made| ==> (made + [next])[..i] == made[..i];
  }

  function Pieces(o: Oracle, tokens: seq<Token>): string {
    if tokens == [] then "" else Pieces(o, tokens[..|tokens| - 1]) + o.piece(tokens[|tokens| - 1])
  }

  lemma {:induction false} PiecesAreConcat(o: Oracle, tokens: seq<Token>)
    ensures Pieces(o, tokens) == Concat(seq(|tokens|, i requires 0 <= i < |tokens| => o.piece(tokens[i])))
    decreases |tokens|
  {
    if tokens != [] {
      var k := |tokens| - 1;
      var all := seq(|tokens|, i requires 0 <= i < |tokens| => o.piece(tokens[i]));
      var init := tokens[..k];
      PiecesAreConcat(o, init);
      assert all == seq(|init|, i requires 0 <= i < |init| => o.piece(init[i])) + [o.piece(tokens[k])];
      ConcatOne(seq(|init|, i requires 0 <= i < |init| => o.piece(init[i])), o.piece(tokens[k]));
    }
  }

  // ---------------------------------------------------------------- the cache

  predicate Consecutive(positions: seq<int>) { forall i :: 0 <= i < |positions| ==> positions[i] == i }

  class ModelContext {
    const nCtx: int
    var nPast: nat

    /** The cells written by successful decoding calls. */
    var positions: seq<int>
    var tokens: seq<Token>

    /** How many decoding calls failed. */
    var failures: nat

    /** Positions are 0, 1, 2, ... without gap or repeat, and nPast is their number. */
    ghost predicate Valid()
      reads this
    {
      nPast == |positions| == |tokens| && Consecutive(positions)
    }

    constructor (nCtx: int)
      ensures Valid() && tokens == [] && failures == 0 && this.nCtx == nCtx
    {
      this.nCtx := nCtx;
      nPast, positions, tokens, failures := 0, [], [], 0;
    }

    /** decode_tokens: one batch at positions that continue the cache; llama_decode may fail. */
    method Decode(toks: seq<Token>) returns (ok: bool)
      requires Valid()
      modifies this`positions, this`tokens, this`failures
      ensures !ok ==> positions == old(positions) && tokens == old(tokens)
      ensures failures == old(failures) + if ok then 0 else 1
      ensures ok ==> tokens == old(tokens) + toks && |positions| == |tokens| && Consecutive(positions)
    {
      if toks == [] {
        return true;
      }
      var pos: seq<int> := [];
      for i := 0 to |toks|
        invariant |pos| == i && forall j :: 0 <= j < i ==> pos[j] == nPast + j
      {
        pos := pos + [nPast + i];
      }
      if * {
        positions := positions + pos;
        tokens := tokens + toks;
        return true;
      }
      failures := failures + 1;
      return false;
    }
  }

  class Session {
    var modelCtx: ModelContext?

    ghost predicate Valid()
      reads this, modelCtx
    {
      modelCtx != null ==> modelCtx.Valid()
    }

    /** The cache that a run continues: none when there is no context, or when it is within the margin of its size. */
    ghost function Kept(o: Oracle): seq<Token>
      reads this, modelCtx
    {
      if modelCtx == null || modelCtx.nPast > modelCtx.nCtx - o.margin then [] else modelCtx.tokens
    }

    ghost function Failures(): nat
      reads this, modelCtx
    {
      if modelCtx == null then 0 else modelCtx.failures
    }

    /** The gateway drops the cache when a request's messages do not continue the history; it does so as the request
        arrives, whatever runs on the session at that moment. */
    method GatewayReset()
      modifies this
      ensures modelCtx == null
    {
      modelCtx := null;
    }

    /** What arriving requests may do to the session between two steps of a run. */
    method Interfere()
      modifies this
      ensures modelCtx == null || modelCtx == old(modelCtx)
    {
      if * {
        GatewayReset();
      }
    }

    /** EnsureContext: a new cache when there is none or when it is nearly full. */
    method EnsureContext(o: Oracle) returns (mc: ModelContext?)
      requires Valid()
      modifies this
      ensures Valid() && mc == modelCtx
      ensures mc != null && mc != old(modelCtx) ==> fresh(mc) && mc.tokens == [] && mc.failures == 0
      ensures mc == null ==> !o.contextOk && old(Kept(o)) == []
      ensures mc != null && mc == old(modelCtx) <==>
        old(modelCtx) != null && old(modelCtx.nPast) <= old(modelCtx).nCtx - o.margin
      ensures mc != null ==> mc.tokens == old(Kept(o)) && (mc.nPast == 0 || mc.nPast <= mc.nCtx - o.margin)
    {
      if modelCtx == null || modelCtx.nPast > modelCtx.nCtx - o.margin {
        if o.contextOk {
          modelCtx := new ModelContext(o.nCtx);
        } else {
          modelCtx := null;
        }
      }
      return modelCtx;
    }
  }

  // ---------------------------------------------------------------- leaving

  /** finalize_usage and the finish, as every exit does. */
  method Leave(ctx: Context, reason: Reason)
    requires ctx.Valid()
    modifies ctx`totalTokens, ctx`finished, ctx`finishReason, ctx`chunks, ctx`finishes
    ensures ctx.Valid() && ctx.finished && ctx.totalTokens == ctx.promptTokens + ctx.completionTokens
    ensures ctx.finishReason == if old(ctx.finished) then old(ctx.finishReason) else reason
  {
    ctx.totalTokens := ctx.promptTokens + ctx.completionTokens;
    ctx.EmitFinish(reason);
  }

  /** One pass of the loop up to the decoding of the next token; `out` is the reason to leave, if any. */
  method NextToken(ctx: Context, mc: ModelContext, o: Oracle) returns (next: Token, out: Option<Reason>)
    requires ctx.Valid() && mc.Valid()
    modifies ctx`cancelled, ctx`finished, ctx`finishReason, ctx`chunks, ctx`finishes
    modifies mc
    ensures ctx.Valid() && mc.Valid() && (old(ctx.cancelled) ==> ctx.cancelled)
    ensures next == o.sample(old(mc.tokens)) || out.Some?
    ensures mc.tokens == old(mc.tokens) + if out.None? then [next] else []
    ensures out.None? ==> !o.isEog(next) && !old(ctx.cancelled)
    ensures out == Some(Stop) ==> o.isEog(o.sample(mc.tokens))
    ensures mc.failures >= old(mc.failures) + if out == Some(Error) then 1 else 0
    ensures out != Some(Length) && (out == Some(Cancelled) ==> ctx.cancelled)
    ensures !ctx.cancelled ==> ctx.finished == old(ctx.finished) && ctx.finishReason == old(ctx.finishReason)
  {
    next := 0;
    ctx.Interfere();
    if ctx.cancelled {
      return next, Some(Cancelled);
    }
    next := o.sample(mc.tokens);
    if o.isEog(next) {
      return next, Some(Stop);
    }
    ctx.Interfere();
    if ctx.cancelled {
      return next, Some(Cancelled);
    }
    var ok := mc.Decode([next]);
    if !ok {
      return next, Some(Error);
    }
    mc.nPast := mc.nPast + 1;
    return next, None;
  }

  /** The last check of a pass, and the piece of the token just decoded. */
  method ShowPiece(ctx: Context, o: Oracle, next: Token) returns (shown: bool)
    requires ctx.Valid()
    modifies ctx`cancelled, ctx`finished, ctx`finishReason, ctx`chunks, ctx`finishes, ctx`finalText, ctx`emitted
    ensures ctx.Valid() && (old(ctx.cancelled) ==> ctx.cancelled) && (!shown ==> ctx.cancelled)
    ensures ctx.emitted == old(ctx.emitted) + if shown && !old(ctx.finished) then Shown(o, [next]) else []
    ensures !ctx.cancelled ==> ctx.finished == old(ctx.finished)
  {
    if o.piece(next) == "" {
      return true;
    }
    ctx.Interfere();
    if ctx.cancelled {
      return false;
    }
    ctx.EmitDelta(o.piece(next));
    return true;
  }

  /** One pass of the loop: the tokens it decoded (one or none), those it showed, and the reason to leave, if any. */
  method Pass(ctx: Context, mc: ModelContext, o: Oracle)
    returns (got: seq<Token>, shown: seq<Token>, out: Option<Reason>)
    requires ctx.Valid() && mc.Valid()
    modifies ctx, mc
    ensures ctx.Valid() && mc.Valid() && (old(ctx.cancelled) ==> ctx.cancelled)
    ensures ctx.promptTokens == old(ctx.promptTokens) && ctx.completionTokens == old(ctx.completionTokens) + |got|
    ensures mc.tokens == old(mc.tokens) + got
    ensures got == [] || (got == [o.sample(old(mc.tokens))] && !o.isEog(got[0]) && !old(ctx.cancelled))
    ensures shown == got || (shown == [] && ctx.cancelled)
    ensures ctx.emitted == old(ctx.emitted) + if old(ctx.finished) then [] else Shown(o, shown)
    ensures old(ctx.cancelled) ==> shown == []
    ensures out.None? ==> |got| == 1
    ensures out == Some(Stop) || out == Some(Error) ==> got == []
    ensures out == Some(Stop) ==> o.isEog(o.sample(mc.tokens))
    ensures mc.failures >= old(mc.failures) + if out == Some(Error) then 1 else 0
    ensures out != Some(Length) && (out == Some(Cancelled) ==> ctx.cancelled)
    ensures !ctx.cancelled ==> ctx.finished == old(ctx.finished)
  {
    var next;
    next, out := NextToken(ctx, mc, o);
    if out.Some? {
      return [], [], out;
    }
    got := [next];
    ctx.completionTokens := ctx.completionTokens + 1;
    ctx.Interfere();
    if ctx.cancelled {
      return got, [], Some(Cancelled);
    }
    var ok := ShowPiece(ctx, o, next);
    return got, if ok then got else [], None;
  }

  /** How a generation may end once it has made the tokens `made` and the cache holds `tokens`. */
  predicate Ending(o: Oracle, tokens: seq<Token>, made: seq<Token>, limit: nat, reason: Reason) {
    match reason
    case Stop => |made| < limit && o.isEog(o.sample(tokens))
    case Length => |made| == limit
    case Error => |made| < limit
    case Cancelled => false
  }

  /** What holds between passes, `kv`, `texts` and `done` being the cache, the texts and the count at the start. */
  ghost predicate Between(o: Oracle, kv: seq<Token>, texts: seq<string>, made: seq<Token>, shown: nat,
                          tokens: seq<Token>, emitted: seq<string>, cancelled: bool) {
    && tokens == kv + made && Sampled(o, kv, made)
    && |made| - 1 <= shown <= |made| && (shown < |made| ==> cancelled)
    && emitted == texts + Shown(o, made[..shown])
  }

  lemma BetweenAfter(o: Oracle, kv: seq<Token>, texts: seq<string>, made: seq<Token>, shown: nat, tokens: seq<Token>,
                     emitted: seq<string>, cancelled: bool, got: seq<Token>, more: seq<Token>, cancelled': bool)
    requires Between(o, kv, texts, made, shown, tokens, emitted, cancelled) && (cancelled ==> cancelled')
    requires got == [] || (got == [o.sample(tokens)] && !o.isEog(got[0]) && !cancelled)
    requires more == got || (more == [] && cancelled')
    ensures Between(o, kv, texts, made + got, shown + |more|, tokens + got, emitted + Shown(o, more), cancelled')
  {
    assert tokens + got == kv + (made + got);
    if got == [] {
      assert made + got == made && emitted + Shown(o, more) == emitted;
    } else {
      SampledOne(o, kv, made, got[0]);
      ShownAfter(o, texts, made, got[0], more);
    }
  }

  lemma ShownAfter(o: Oracle, texts: seq<string>, made: seq<Token>, next: Token, more: seq<Token>)
    requires more == [next] || more == []
    ensures texts + Shown(o, made) + Shown(o, more) == texts + Shown(o, (made + [next])[..|made| + |more|])
    ensures made[..|made|] == made
  {
    if more == [] {
      assert (made + [next])[..|made|] == made;
    } else {
      ShownOne(o, made, next);
      ShownOne(o, [], next);
      assert [] + [next] == [next] && (made + [next])[..|made| + 1] == made + [next];
    }
  }

  /** The loop.  `made` are the tokens decoded, `shown` counts those whose piece was handed out. */
  method Loop(ctx: Context, mc: ModelContext, o: Oracle)
    returns (made: seq<Token>, shown: nat, reason: Reason, ghost due: seq<string>)
    requires ctx.Valid() && mc.Valid()
    modifies ctx, mc
    ensures ctx.Valid() && mc.Valid() && ctx.promptTokens == old(ctx.promptTokens)
    ensures ctx.completionTokens == old(ctx.completionTokens) + |made| && |made| <= Limit(o)
    ensures Between(o, old(mc.tokens), old(ctx.emitted), made, shown, mc.tokens, due, ctx.cancelled)
    ensures old(ctx.finished) || ctx.emitted == due
    ensures (old(ctx.cancelled) ==> ctx.cancelled) && (!ctx.cancelled ==> ctx.finished == old(ctx.finished))
    ensures mc.failures >= old(mc.failures) + if reason == Error then 1 else 0
    ensures reason == Cancelled ==> ctx.cancelled
    ensures reason != Cancelled ==> Ending(o, mc.tokens, made, Limit(o), reason)
  {
    ghost var kv, texts := mc.tokens, ctx.emitted;
    made, shown, reason, due := [], 0, Length, texts;
    assert Shown(o, []) == [];
    hide Between, Sampled, Shown;
    StartBetween(o, kv, texts, ctx.cancelled);
    for step := 0 to Limit(o)
      invariant step == |made| && reason == Length && mc.failures >= old(mc.failures)
      invariant ctx.Valid() && mc.Valid() && ctx.promptTokens == old(ctx.promptTokens)
      invariant ctx.completionTokens == old(ctx.completionTokens) + |made|
      invariant Between(o, kv, texts, made, shown, mc.tokens, due, ctx.cancelled)
      invariant old(ctx.finished) || ctx.emitted == due
      invariant (old(ctx.cancelled) ==> ctx.cancelled) && (!ctx.cancelled ==> ctx.finished == old(ctx.finished))
    {
      ghost var tokens, was := mc.tokens, ctx.cancelled;
      var got, more, out := Pass(ctx, mc, o);
      BetweenAfter(o, kv, texts, made, shown, tokens, due, was, got, more, ctx.cancelled);
      made, shown, due := made + got, shown + |more|, due + Shown(o, more);
      if out.Some? {
        reason := out.value;
        break;
      }
    }
  }

  /** The loop and its exits. */
  method Generate(ctx: Context, mc: ModelContext, o: Oracle) returns (made: seq<Token>, shown: nat)
    requires ctx.Valid() && mc.Valid()
    modifies ctx, mc
    ensures ctx.Valid() && mc.Valid() && ctx.finished && ctx.promptTokens == old(ctx.promptTokens)
    ensures ctx.totalTokens == ctx.promptTokens + ctx.completionTokens
    ensures ctx.completionTokens == old(ctx.completionTokens) + |made| && |made| <= Limit(o)
    ensures mc.tokens == old(mc.tokens) + made && Sampled(o, old(mc.tokens), made)
    ensures |made| - 1 <= shown <= |made| && (shown < |made| ==> ctx.cancelled)
    ensures !old(ctx.finished) ==> ctx.emitted == old(ctx.emitted) + Shown(o, made[..shown])
    ensures old(ctx.cancelled) ==> ctx.cancelled
    ensures !ctx.cancelled && !old(ctx.finished) ==> Ending(o, mc.tokens, made, Limit(o), ctx.finishReason)
    ensures !ctx.cancelled && !old(ctx.finished) && ctx.finishReason == Error ==> mc.failures > old(mc.failures)
    ensures mc.failures >= old(mc.failures)
  {
    var reason;
    ghost var due;
    made, shown, reason, due := Loop(ctx, mc, o);
    hide Sampled, Shown;
    Leave(ctx, reason);
  }

  lemma StartBetween(o: Oracle, kv: seq<Token>, texts: seq<string>, cancelled: bool)
    ensures Between(o, kv, texts, [], 0, kv, texts, cancelled)
  {
    assert kv + [] == kv;
  }

  /** The checks before the prompt is tokenised, and the context to use: the session's own, with what it holds, or a
      new and empty one. */
  method Prepare(ctx: Context, session: Session, o: Oracle) returns (mc: ModelContext?, out: Option<Reason>)
    requires ctx.Valid() && session.Valid()
    modifies ctx`cancelled, ctx`finished, ctx`finishReason, ctx`chunks, ctx`finishes
    modifies session
    ensures ctx.Valid() && session.Valid()
    ensures session.modelCtx == null || session.modelCtx == mc
      || (mc == null && session.modelCtx == old(session.modelCtx))
    ensures mc != null ==> mc.Valid() && mc.tokens == if mc == old(session.modelCtx) then old(session.Kept(o)) else []
    ensures mc != null ==> mc == old(session.modelCtx) || fresh(mc)
    ensures (old(ctx.cancelled) ==> ctx.cancelled) && (!ctx.cancelled ==> ctx.finished == old(ctx.finished))
    ensures out.None? || out == Some(Error) || (out == Some(Cancelled) && ctx.cancelled)
    ensures out.None? ==> mc != null && !ctx.cancelled && o.vocabOk && o.promptOk
    ensures out == Some(Error) ==> !o.contextOk || !o.vocabOk || !o.promptOk
    ensures mc != null ==> mc.failures == if mc == old(session.modelCtx) then old(session.Failures()) else 0
  {
    mc := null;
    ctx.Interfere();
    if ctx.cancelled {
      return mc, Some(Cancelled);
    }
    session.Interfere();
    mc := session.EnsureContext(o);
    session.Interfere();
    if mc == null || !o.vocabOk || !o.promptOk {
      return mc, Some(Error);
    }
    ctx.Interfere();
    return mc, if ctx.cancelled then Some(Cancelled) else None;
  }

  /** Tokenising, counting and decoding the prompt. */
  method FeedPrompt(ctx: Context, mc: ModelContext, o: Oracle) returns (fed: seq<Token>, out: Option<Reason>)
    requires ctx.Valid() && mc.Valid()
    modifies ctx`cancelled, ctx`finished, ctx`finishReason, ctx`chunks, ctx`finishes, ctx`promptTokens
    modifies mc
    ensures ctx.Valid() && mc.Valid() && mc.tokens == old(mc.tokens) + fed
    ensures fed == [] || o.tokenize(old(mc.tokens) == []) == Some(fed)
    ensures (old(ctx.cancelled) ==> ctx.cancelled) && (!ctx.cancelled ==> ctx.finished == old(ctx.finished))
    ensures out.None? || out == Some(Error) || (out == Some(Cancelled) && ctx.cancelled)
    ensures out.None? ==> !ctx.cancelled && ctx.promptTokens == old(ctx.promptTokens) + |fed|
    ensures out.None? ==> o.tokenize(old(mc.tokens) == []) == Some(fed)
    ensures mc.failures >= old(mc.failures)
    ensures out == Some(Error) ==> o.tokenize(old(mc.tokens) == []).None? || mc.failures > old(mc.failures)
  {
    var toks := o.tokenize(mc.nPast == 0);
    if toks.None? {
      return [], Some(Error);
    }
    ctx.promptTokens := ctx.promptTokens + |toks.value|;
    fed, out := Append(ctx, mc, toks.value);
  }

  /** The prompt's tokens go into the cache. */
  method Append(ctx: Context, mc: ModelContext, toks: seq<Token>) returns (fed: seq<Token>, out: Option<Reason>)
    requires ctx.Valid() && mc.Valid()
    modifies ctx`cancelled, ctx`finished, ctx`finishReason, ctx`chunks, ctx`finishes
    modifies mc
    ensures ctx.Valid() && mc.Valid() && mc.tokens == old(mc.tokens) + fed && (fed == [] || fed == toks)
    ensures (old(ctx.cancelled) ==> ctx.cancelled) && (!ctx.cancelled ==> ctx.finished == old(ctx.finished))
    ensures out.None? || out == Some(Error) || (out == Some(Cancelled) && ctx.cancelled)
    ensures out.None? ==> fed == toks && !ctx.cancelled
    ensures mc.failures >= old(mc.failures) + if out == Some(Error) then 1 else 0
  {
    ctx.Interfere();
    if ctx.cancelled {
      return [], Some(Cancelled);
    }
    var ok := mc.Decode(toks);
    if !ok {
      return [], Some(Error);
    }
    mc.nPast := mc.nPast + |toks|;
    ctx.Interfere();
    return toks, if ctx.cancelled then Some(Cancelled) else None;
  }

  /** Prompt, loop and exits on the context that the run has taken. */
  method RunWith(ctx: Context, mc: ModelContext, o: Oracle) returns (fed: seq<Token>, made: seq<Token>, shown: nat)
    requires ctx.Valid() && mc.Valid()
    modifies ctx, mc
    ensures ctx.Valid() && ctx.finished && mc.Valid()
    ensures ctx.totalTokens == ctx.promptTokens + ctx.completionTokens
    ensures ctx.completionTokens == old(ctx.completionTokens) + |made| && |made| <= Limit(o)
    ensures mc.tokens == old(mc.tokens) + fed + made && Sampled(o, old(mc.tokens) + fed, made)
    ensures fed == [] || o.tokenize(old(mc.tokens) == []) == Some(fed)
    ensures |made| - 1 <= shown <= |made| && (shown < |made| ==> ctx.cancelled)
    ensures !old(ctx.finished) ==> ctx.emitted == old(ctx.emitted) + Shown(o, made[..shown])
    ensures !ctx.cancelled && !old(ctx.finished) && ctx.finishReason != Error ==>
      && made == Greedy(o, old(mc.tokens) + fed, Limit(o))
      && (ctx.finishReason == Stop || (ctx.finishReason == Length && |made| == Limit(o)))
      && o.tokenize(old(mc.tokens) == []) == Some(fed) && ctx.promptTokens == old(ctx.promptTokens) + |fed|
    ensures !ctx.cancelled && !old(ctx.finished) && ctx.finishReason == Error ==>
      o.tokenize(old(mc.tokens) == []).None? || mc.failures > old(mc.failures)
  {
    made, shown := [], 0;
    var out;
    fed, out := FeedPrompt(ctx, mc, o);
    if out.Some? {
      assert mc.tokens == mc.tokens + made;
      Leave(ctx, out.value);
      return;
    }
    ghost var kv := mc.tokens;
    made, shown := Generate(ctx, mc, o);
    if !ctx.cancelled && !old(ctx.finished) && ctx.finishReason != Error {
      SampledToTheEnd(o, kv, made, Limit(o));
    }
  }

  /** Run on a session.  Every exit finishes the context with its usage balanced.  The run keeps using the model
      context it took, `used`, even when the gateway drops it from the session meanwhile; what the run leaves in
      that context is what the context held, the prompt's tokens and the tokens made. */
  method RunOn(ctx: Context, session: Session, o: Oracle)
    returns (used: ModelContext?, fed: seq<Token>, made: seq<Token>, shown: nat)
    requires ctx.Valid() && session.Valid()
    modifies ctx, session, session.modelCtx
    ensures ctx.Valid() && ctx.finished && session.Valid()
    ensures session.modelCtx == null || session.modelCtx == used
      || (used == null && session.modelCtx == old(session.modelCtx))
    ensures used != null ==> used.Valid() && (used == old(session.modelCtx) || fresh(used))
    ensures used == null ==> fed == made == []
    ensures used != null ==>
      var kept := if used == old(session.modelCtx) then old(session.Kept(o)) else [];
      used.tokens == kept + fed + made && Sampled(o, kept + fed, made)
    ensures old(session.modelCtx) != null ==> old(session.modelCtx).Valid()
    ensures ctx.totalTokens == ctx.promptTokens + ctx.completionTokens
    ensures ctx.completionTokens == old(ctx.completionTokens) + |made| && |made| <= Limit(o)
    ensures o.maxTokens.Some? && o.maxTokens.value >= 1 ==> |made| <= o.maxTokens.value
    ensures o.maxTokens.Some? && o.maxTokens.value <= 0 ==> |made| <= 1
    ensures o.maxTokens.None? ==> |made| <= 512
    ensures !ctx.cancelled && !old(ctx.finished) && ctx.finishReason == Length ==>
      |made| == if o.maxTokens.None? then 512 else if o.maxTokens.value <= 0 then 1 else o.maxTokens.value
    ensures |made| - 1 <= shown <= |made| && (shown < |made| ==> ctx.cancelled)
    ensures !old(ctx.finished) ==> ctx.emitted == old(ctx.emitted) + Shown(o, made[..shown])
    ensures !ctx.cancelled && !old(ctx.finished) && ctx.finishReason != Error ==>
      && used != null
      && (ctx.finishReason == Stop || (ctx.finishReason == Length && |made| == Limit(o)))
      && made == Greedy(o, (if used == old(session.modelCtx) then old(session.Kept(o)) else []) + fed, Limit(o))
      && ctx.promptTokens == old(ctx.promptTokens) + |fed| && o.vocabOk && o.promptOk
    ensures !ctx.cancelled && !old(ctx.finished) && ctx.finishReason == Error ==>
      || !o.contextOk || !o.vocabOk || !o.promptOk || o.tokenize(true).None? || o.tokenize(false).None?
      || (used != null && used.failures > if used == old(session.modelCtx) then old(session.Failures()) else 0)
  {
    fed, made, shown := [], [], 0;
    var out;
    used, out := Prepare(ctx, session, o);
    if out.Some? {
      if used != null {
        assert used.tokens + fed + made == used.tokens;
      }
      Leave(ctx, out.value);
    } else {
      fed, made, shown := RunWith(ctx, used, o);
    }
    session.Interfere();
  }

  /** Run, which also meets requests without a session. */
  method Run(ctx: Context, session: Session?, o: Oracle)
    requires ctx.Valid() && (session != null ==> session.Valid())
    modifies ctx, session, if session == null then null else session.modelCtx
    ensures ctx.Valid() && ctx.finished && (session != null ==> session.Valid())
    ensures ctx.totalTokens == ctx.promptTokens + ctx.completionTokens
    ensures old(ctx.completionTokens) <= ctx.completionTokens <= old(ctx.completionTokens) + Limit(o)
    ensures session == null && !old(ctx.finished) ==> ctx.finishReason == Error && ctx.emitted == old(ctx.emitted)
  {
    if session == null {
      Leave(ctx, Error);
    } else {
      var _, _, _, _ := RunOn(ctx, session, o);
    }
  }

  /** A request served from a fresh context.  When not streaming, an uncancelled run leaves as its text the pieces of
      the decoded tokens; when streaming, each piece twice. */
  method Serve(session: Session, o: Oracle, stream: bool)
    returns (ctx: Context, used: ModelContext?, made: seq<Token>)
    requires session.Valid()
    modifies session, session.modelCtx
    ensures session.Valid() && ctx.Valid() && ctx.finished && |ctx.finishes| == 1
    ensures session.modelCtx == null || session.modelCtx == used
      || (used == null && session.modelCtx == old(session.modelCtx))
    ensures used != null ==> used.Valid() && (used == old(session.modelCtx) || fresh(used))
    ensures old(session.modelCtx) != null ==> old(session.modelCtx).Valid()
    ensures 0 <= ctx.completionTokens == |made| <= Limit(o)
    ensures o.maxTokens.Some? && o.maxTokens.value >= 1 ==> ctx.completionTokens <= o.maxTokens.value
    ensures o.maxTokens.Some? && o.maxTokens.value <= 0 ==> ctx.completionTokens <= 1
    ensures o.maxTokens.None? ==> ctx.completionTokens <= 512
    ensures !ctx.cancelled && ctx.finishReason == Length ==>
      ctx.completionTokens == if o.maxTokens.None? then 512 else if o.maxTokens.value <= 0 then 1 else o.maxTokens.value
    ensures ctx.totalTokens == ctx.promptTokens + ctx.completionTokens
    ensures used == null ==> made == []
    ensures used != null ==> |made| <= |used.tokens| && used.tokens[|used.tokens| - |made|..] == made
    ensures !ctx.cancelled && !stream ==>
      ctx.finalText == Concat(seq(|made|, i requires 0 <= i < |made| => o.piece(made[i])))
    ensures !ctx.cancelled && stream ==> ctx.finalText == Twice(Shown(o, made))
  {
    ctx := new Context(stream);
    var fed, shown;
    hide Sampled, Greedy;
    used, fed, made, shown := RunOn(ctx, session, o);
    ShownIsPieces(o, made);
    PiecesAreConcat(o, made);
    assert ctx.emitted == Shown(o, made[..shown]);
    assert shown == |made| ==> made[..shown] == made;
  }

  /** What happens to a session: a request is served, or the gateway drops the cache. */
  datatype Turn = Request(o: Oracle, stream: bool) | Reset

  /** Any sequence of requests and gateway resets on one session: in every context ever used, the positions are
      0, 1, 2, ... and nPast is their number. */
  method ServeAll(session: Session, turns: seq<Turn>) returns (used: seq<ModelContext>)
    requires session.Valid()
    modifies session, session.modelCtx
    ensures session.Valid()
    ensures session.modelCtx == null || session.modelCtx == old(session.modelCtx) || session.modelCtx in used
    ensures forall m :: m in used ==> Consecutive(m.positions) && m.nPast == |m.positions|
  {
    used := [];
    for n := 0 to |turns|
      invariant session.Valid()
      invariant session.modelCtx == null || session.modelCtx == old(session.modelCtx) || session.modelCtx in used
      invariant forall m :: m in used ==> m.Valid() && (m == old(session.modelCtx) || fresh(m))
    {
      match turns[n]
      case Reset => session.GatewayReset();
      case Request(o, stream) =>
        var _, mc, _ := Serve(session, o, stream);
        if mc != null {
          used := used + [mc];
        }
    }
  }
}
