/**
 * A stream from the handler that yields it to the consumer that reads it
 * (connection.go, stream_chunk.go, client/client.go, client/stream.go).
 *
 * The handler's iteration, delay timers, the client's read loop and its
 * consumer interleave in any order, and the connection may drop or the
 * consumer stop at any point. Batching is invisible: a consumer that does
 * not stop reads exactly what was yielded, in order, for every setting.
 */
module StreamsEndToEnd {
  import opened Common
  import opened StreamChunks
  import opened ClientStreams

  /** startStream: the request is being written, is out, or could not be sent. */
  datatype Start = Sending | Out | NotSent

  /** The server: no handler runs yet, streamIterator iterates, is through, has flushed, has sent the terminal frame. */
  datatype Phase = Pending | Iterating | Over | Flushed | Sent

  /** The read loop between its sections for one frame. */
  datatype Reader = Idle | Pushing(items: seq<Item>) | Ending(cause: Option<Cause>)

  /** How the consumer's loop came to its end. */
  datatype Outcome = Drained(err: Option<Cause>) | Interrupted

  datatype State = State(
    cfg: Option<Chunking>,     // None where chunking is off
    server: Chunker,           // off: only its log, lost and buffered are used
    start: Start,
    phase: Phase,
    streamErr: bool,
    ctxEnded: bool,
    delivered: nat,            // how many frames of the log the read loop has taken
    heard: nat,                // and how many of those while the stream was in the client's table
    reader: Reader,
    registered: bool,          // the stream is in the client's table
    closer: Option<Cause>,     // a drop or shutdown that has taken it out and is about to end it
    raw: Raw,
    received: seq<Item>,
    outcome: Option<Outcome>
  )

  datatype Step =
    | SendRequest(err: Option<Cause>)
    | Accept
    | Refuse(ok: bool)         // an error frame or a plain result, terminal like stream_end and read as an error
    | Yield(item: Item, w: World)
    | CtxEnds
    | Fire(id: nat, w: World)
    | IterationEnds(panicked: bool)
    | Close(w: World)
    | SendEnd(ok: bool)
    | Deliver
    | PushOne
    | EndOne
    | Cut(cause: Cause)
    | EndCut
    | Consume
    | Stop(err: Option<Cause>)
    | Unregister

  function Init(cfg: Option<Chunking>): State {
    State(if cfg.Some? then Some(Normalized(cfg.value)) else None,
          EMPTY, Sending, Pending, false, false, 0, 0, Idle, true, None, FRESH, [], None)
  }

  predicate Enabled(st: State, step: Step) {
    match step
    case SendRequest(err) => st.start.Sending? && (err.Some? ==> err.value.ConnectionLost? || err.value.TooLarge?)
    case Accept => st.start.Out? && st.phase.Pending?
    case Refuse(_) => st.start.Out? && st.phase.Pending?
    case Yield(_, _) => st.phase.Iterating?
    case CtxEnds => true
    case Fire(id, _) => id in st.server.armed
    case IterationEnds(_) => st.phase.Iterating?
    case Close(_) => st.phase.Over?
    case SendEnd(_) => st.phase.Flushed?
    case Deliver => st.reader.Idle? && st.delivered < |st.server.log|
    case PushOne => st.reader.Pushing?
    case EndOne => st.reader.Ending?
    case Cut(cause) => st.registered && (cause.ConnectionLost? || cause.ClientClosed?)
    case EndCut => st.closer.Some?
    case Consume => !st.start.Sending? && st.outcome.None? && !Waits(st.raw)
    case Stop(_) => !st.start.Sending?
    case Unregister => st.raw.stopped
  }

  /** yieldFn: an item is taken unless the context has ended; an error or the end of the context ends the iteration. */
  function Yielded(st: State, item: Item, w: World): State
    requires st.phase.Iterating?
  {
    if st.ctxEnded then st.(phase := Over)
    else if st.cfg.Some? then
      var (server, ok) := Add(st.server, st.cfg.value, item, w);
      if ok then st.(server := server) else st.(server := server, phase := Over, streamErr := true)
    else if !w.marshaled then st.(phase := Over, streamErr := true)
    else
      var server := Send(st.server.(buffered := st.server.buffered + [item]), ItemFrame(item), w.sent);
      if w.sent then st.(server := server) else st.(server := server, phase := Over, streamErr := true)
  }

  /** The read loop takes the next frame; one for a stream not in the table goes elsewhere. */
  function Delivered(st: State): State
    requires st.delivered < |st.server.log|
  {
    var st' := st.(delivered := st.delivered + 1, heard := if st.registered then st.heard + 1 else st.heard);
    match st.server.log[st.delivered]
    case EndFrame(failed) =>
      if st.registered then
        st'.(registered := false, reader := Ending(if failed then Some(ServerFailed) else None))
      else st'
    case f => if st.registered then st'.(reader := Pushing(Payload(f))) else st'
  }

  function Apply(st: State, step: Step): State
    requires Enabled(st, step)
  {
    match step
    case SendRequest(err) =>
      if err.None? then st.(start := Out)
      else st.(start := NotSent, registered := false, raw := End(st.raw, err))
    case Accept => st.(phase := Iterating)
    case Refuse(ok) => st.(server := Send(st.server, EndFrame(true), ok), phase := Sent)
    case Yield(item, w) => Yielded(st, item, w)
    case CtxEnds => st.(ctxEnded := true)
    case Fire(id, w) => st.(server := DelayFlush(st.server, id, w))
    case IterationEnds(panicked) => st.(phase := Over, streamErr := st.streamErr || panicked)
    case Close(w) =>
      if st.cfg.None? then st.(phase := Flushed)
      else
        var server := Flush(st.server, w);
        st.(server := server, phase := Flushed, streamErr := st.streamErr || server.failed)
    case SendEnd(ok) =>
      st.(server := Send(st.server, EndFrame(st.streamErr && !st.ctxEnded), ok), phase := Sent)
    case Deliver => Delivered(st)
    case PushOne =>
      if st.reader.items == [] then st.(reader := Idle)
      else st.(reader := Pushing(st.reader.items[1..]), raw := Push(st.raw, st.reader.items[0]))
    case EndOne => st.(reader := Idle, raw := End(st.raw, st.reader.cause))
    case Cut(cause) => st.(registered := false, closer := Some(cause))
    case EndCut => st.(closer := None, raw := End(st.raw, st.closer))
    case Consume =>
      var (raw, item) := Next(st.raw);
      if item.Some? then st.(raw := raw, received := st.received + [item.value])
      else st.(raw := raw, outcome := Some(if st.raw.stopped then Interrupted else Drained(st.raw.err)))
    case Stop(err) => st.(raw := ClientStreams.Stop(st.raw, err))
    case Unregister => st.(registered := false)
  }

  // ---------------------------------------------------------------------------
  // Invariant
  // ---------------------------------------------------------------------------

  /** The server's side: nothing is lost, chunks are bounded, and nothing follows the terminal frame. */
  ghost predicate ServerInv(cfg: Option<Chunking>, c: Chunker, phase: Phase) {
    && (cfg.Some? ==> Sensible(cfg.value) && ChunkerInv(c, cfg.value))
    && (cfg.None? ==> Conserves(c) && c.items == [] && c.armed == {} && (c.lost != [] ==> !phase.Iterating?))
    && (phase.Pending? ==> c == EMPTY)
    && (phase.Flushed? || phase.Sent? ==> c.items == [])
    && EndIsLast(c.log, phase)
  }

  ghost predicate EndIsLast(log: seq<Frame>, phase: Phase) {
    forall i :: 0 <= i < |log| && log[i].EndFrame? ==> i == |log| - 1 && phase.Sent?
  }

  function InHand(r: Reader): seq<Item> { if r.Pushing? then r.items else [] }

  /** The stream ended for a reason of the client's: no connection, no client, or a request that was never sent. */
  predicate IsCut(err: Option<Cause>) { err in [Some(ConnectionLost), Some(ClientClosed), Some(TooLarge)] }

  /** What was heard is with the consumer, in the buffer, or in the read loop's hand. */
  ghost predicate ReadInv(log: seq<Frame>, heard: nat, reader: Reader, raw: Raw, received: seq<Item>) {
    && heard <= |log|
    && received <= Flat(log[..heard])
    && (!raw.stopped ==> received + raw.items <= Flat(log[..heard]))
    && (!raw.stopped && !IsCut(raw.err) ==> received + raw.items + InHand(reader) == Flat(log[..heard]))
  }

  ghost predicate EndHeard(log: seq<Frame>, heard: nat, cause: Option<Cause>) {
    && heard == |log| && heard > 0 && log[heard - 1].EndFrame?
    && cause == if log[heard - 1].failed then Some(ServerFailed) else None
  }

  /** Whoever takes the stream out of the table ends it: the terminal frame, a cut, or the consumer that stopped. */
  ghost predicate OverInv(log: seq<Frame>, heard: nat, reader: Reader, raw: Raw, registered: bool,
                          closer: Option<Cause>)
  {
    && (reader.Ending? ==> EndHeard(log, heard, reader.cause) && !registered && closer.None?)
    && (closer.Some? ==> IsCut(closer) && !registered)
    && (reader.Ending? || registered ==> raw.serverDone ==> raw.stopped)
    && (!registered && !raw.stopped ==> reader.Ending? || closer.Some? || raw.serverDone)
    && (raw.serverDone && !raw.stopped ==> IsCut(raw.err) || (EndHeard(log, heard, raw.err) && reader.Idle?))
    && (!raw.serverDone ==> raw.err.None?)
    && (raw.stopped ==> raw.serverDone && raw.items == [])
  }

  ghost predicate OutcomeInv(log: seq<Frame>, heard: nat, received: seq<Item>, outcome: Option<Outcome>) {
    outcome.Some? && outcome.value.Drained? ==>
      IsCut(outcome.value.err) || (EndHeard(log, heard, outcome.value.err) && received == Flat(log))
  }

  ghost predicate Inv(st: State) {
    && ServerInv(st.cfg, st.server, st.phase)
    && ReadInv(st.server.log, st.heard, st.reader, st.raw, st.received)
    && OverInv(st.server.log, st.heard, st.reader, st.raw, st.registered, st.closer)
    && OutcomeInv(st.server.log, st.heard, st.received, st.outcome)
    && (st.phase.Pending? || st.start.Out?)
    && st.heard <= st.delivered <= |st.server.log| && (st.registered ==> st.heard == st.delivered)
  }

  lemma InitHolds(cfg: Option<Chunking>)
    ensures Inv(Init(cfg))
  {
  }

  // ---------------------------------------------------------------------------
  // The server's steps
  // ---------------------------------------------------------------------------

  /** A step of the server only adds to the log, and not once the log has ended. */
  ghost predicate LogGrows(log: seq<Frame>, log': seq<Frame>) {
    log <= log' && (log != [] && log[|log| - 1].EndFrame? ==> log' == log)
  }

  lemma SendKeeps(c: Chunker, f: Frame, ok: bool, phase: Phase, phase': Phase)
    requires EndIsLast(c.log, phase) && !phase.Sent?
    requires f.EndFrame? ==> phase'.Sent?
    ensures EndIsLast(Send(c, f, ok).log, phase') && LogGrows(c.log, Send(c, f, ok).log)
  {
    assert c.log != [] ==> !c.log[|c.log| - 1].EndFrame?;
  }

  lemma FlushLog(c: Chunker, w: World, phase: Phase)
    requires EndIsLast(c.log, phase) && (phase.Sent? ==> c.items == [])
    ensures EndIsLast(Flush(c, w).log, phase) && LogGrows(c.log, Flush(c, w).log)
  {
    if c.items != [] { SendKeeps(c, ChunkFrame(c.items), w.sent, phase, phase); }
  }

  lemma AddKeepsServer(c: Chunker, cfg: Chunking, item: Item, w: World)
    requires Sensible(cfg) && ChunkerInv(c, cfg) && EndIsLast(c.log, Iterating)
    ensures var c' := Add(c, cfg, item, w).0;
      ChunkerInv(c', cfg) && EndIsLast(c'.log, Iterating) && LogGrows(c.log, c'.log)
  {
    AddKeeps(c, cfg, item, w);
    FlushLog(c.(items := c.items + [item], bytes := c.bytes + item.size, buffered := c.buffered + [item]), w,
        Iterating);
  }

  /** Without chunking, an item goes out in a frame of its own. */
  lemma SendItemKeepsServer(c: Chunker, item: Item, ok: bool)
    requires Conserves(c) && c.items == [] && c.lost == [] && EndIsLast(c.log, Iterating)
    ensures var c' := Send(c.(buffered := c.buffered + [item]), ItemFrame(item), ok);
      && Conserves(c') && c'.items == [] && (ok ==> c'.lost == [])
      && EndIsLast(c'.log, Iterating) && LogGrows(c.log, c'.log)
  {
    SendKeeps(c, ItemFrame(item), ok, Iterating, Iterating);
    FlatGrows(c.log, ItemFrame(item));
    assert Flat(c.log) == c.buffered;
    assert c.lost + [item] == [item];
  }

  lemma PhaseAdvances(log: seq<Frame>, phase: Phase)
    requires EndIsLast(log, Iterating)
    ensures EndIsLast(log, phase)
  {
  }

  lemma YieldKeepsServer(st: State, item: Item, w: World)
    requires ServerInv(st.cfg, st.server, st.phase) && st.phase.Iterating?
    ensures var st' := Yielded(st, item, w);
      ServerInv(st'.cfg, st'.server, st'.phase) && LogGrows(st.server.log, st'.server.log)
  {
    var st' := Yielded(st, item, w);
    if !st.ctxEnded {
      if st.cfg.Some? {
        AddKeepsServer(st.server, st.cfg.value, item, w);
      } else if w.marshaled {
        SendItemKeepsServer(st.server, item, w.sent);
      }
    }
    PhaseAdvances(st'.server.log, st'.phase);
  }

  lemma FireKeepsServer(st: State, id: nat, w: World)
    requires ServerInv(st.cfg, st.server, st.phase) && id in st.server.armed
    ensures var c := DelayFlush(st.server, id, w);
      ServerInv(st.cfg, c, st.phase) && LogGrows(st.server.log, c.log)
  {
    DelayFlushKeeps(st.server, st.cfg.value, id, w);
    FlushLog(st.server.(armed := st.server.armed - {id}), w, st.phase);
  }

  lemma CloseKeepsServer(st: State, w: World)
    requires ServerInv(st.cfg, st.server, st.phase) && st.phase.Over?
    ensures var st' := Apply(st, Close(w));
      ServerInv(st'.cfg, st'.server, st'.phase) && LogGrows(st.server.log, st'.server.log)
  {
    if st.cfg.Some? {
      InvBoundsBuffer(st.server, st.cfg.value);
      FlushKeeps(st.server, st.cfg.value, w);
      FlushLog(st.server, w, st.phase);
    }
  }

  lemma EndConserves(c: Chunker, failed: bool, ok: bool)
    requires Conserves(c) && c.items == []
    ensures Conserves(Send(c, EndFrame(failed), ok))
    ensures forall cfg :: ChunksBounded(cfg, c.log) ==> ChunksBounded(cfg, Send(c, EndFrame(failed), ok).log)
  {
    FlatGrows(c.log, EndFrame(failed));
    assert c.lost + [] == c.lost;
    if ok {
      assert Flat(c.log) + c.lost + c.items == Flat(c.log + [EndFrame(failed)]) + c.lost + c.items;
    }
  }

  lemma EndKeepsServer(st: State, ok: bool)
    requires ServerInv(st.cfg, st.server, st.phase) && st.phase.Flushed?
    ensures var c := Send(st.server, EndFrame(st.streamErr && !st.ctxEnded), ok);
      ServerInv(st.cfg, c, Sent) && LogGrows(st.server.log, c.log)
  {
    SendKeeps(st.server, EndFrame(st.streamErr && !st.ctxEnded), ok, st.phase, Sent);
    EndConserves(st.server, st.streamErr && !st.ctxEnded, ok);
  }

  /** The client's side only reads the log, so it does not mind the log growing. */
  lemma ServerChangeKeeps(st: State, st': State)
    requires Inv(st) && ServerInv(st'.cfg, st'.server, st'.phase) && LogGrows(st.server.log, st'.server.log)
    requires st'.phase.Pending? || st'.start.Out?
    requires (st'.heard, st'.delivered, st'.reader, st'.registered, st'.closer, st'.raw, st'.received, st'.outcome)
          == (st.heard, st.delivered, st.reader, st.registered, st.closer, st.raw, st.received, st.outcome)
    ensures Inv(st')
  {
    assert st'.server.log[..st.heard] == st.server.log[..st.heard];
  }

  lemma YieldLeavesClient(st: State, item: Item, w: World)
    requires st.phase.Iterating?
    ensures var st' := Yielded(st, item, w);
      && (st'.phase == st.phase || st'.phase == Over) && st'.start == st.start
      && (st'.heard, st'.delivered, st'.reader, st'.registered, st'.closer, st'.raw, st'.received, st'.outcome)
         == (st.heard, st.delivered, st.reader, st.registered, st.closer, st.raw, st.received, st.outcome)
  {
  }

  lemma YieldKeeps(st: State, item: Item, w: World)
    requires Inv(st) && st.phase.Iterating?
    ensures Inv(Yielded(st, item, w))
  {
    YieldKeepsServer(st, item, w);
    YieldLeavesClient(st, item, w);
    ServerChangeKeeps(st, Yielded(st, item, w));
  }

  lemma HandlerStepKeeps(st: State, step: Step)
    requires Inv(st) && Enabled(st, step) && (step.CtxEnds? || step.IterationEnds?)
    ensures Inv(Apply(st, step))
  {
    if st.phase.Iterating? { PhaseAdvances(st.server.log, Over); }
    ServerChangeKeeps(st, Apply(st, step));
  }

  /** A request that cannot be sent ends the stream, unless a cut has. */
  lemma NotSentEnds(log: seq<Frame>, heard: nat, reader: Reader, raw: Raw, registered: bool, closer: Option<Cause>,
                    err: Option<Cause>, received: seq<Item>)
    requires OverInv(log, heard, reader, raw, registered, closer) && ReadInv(log, heard, reader, raw, received)
    requires log == [] && IsCut(err)
    ensures OverInv(log, heard, reader, End(raw, err), false, closer)
    ensures ReadInv(log, heard, reader, End(raw, err), received)
  {
  }

  lemma SendRequestKeeps(st: State, err: Option<Cause>)
    requires Inv(st) && Enabled(st, SendRequest(err))
    ensures Inv(Apply(st, SendRequest(err)))
  {
    if err.Some? {
      NotSentEnds(st.server.log, st.heard, st.reader, st.raw, st.registered, st.closer, err, st.received);
    }
  }

  lemma AcceptKeeps(st: State)
    requires Inv(st) && Enabled(st, Accept)
    ensures Inv(Apply(st, Accept))
  {
    ServerChangeKeeps(st, Apply(st, Accept));
  }

  lemma RefuseKeeps(st: State, ok: bool)
    requires Inv(st) && Enabled(st, Refuse(ok))
    ensures Inv(Apply(st, Refuse(ok)))
  {
    SendKeeps(st.server, EndFrame(true), ok, st.phase, Sent);
    EndConserves(st.server, true, ok);
    ServerChangeKeeps(st, Apply(st, Refuse(ok)));
  }

  lemma FireKeeps(st: State, id: nat, w: World)
    requires Inv(st) && Enabled(st, Fire(id, w))
    ensures Inv(Apply(st, Fire(id, w)))
  {
    FireKeepsServer(st, id, w);
    ServerChangeKeeps(st, Apply(st, Fire(id, w)));
  }

  lemma CloseKeeps(st: State, w: World)
    requires Inv(st) && Enabled(st, Close(w))
    ensures Inv(Apply(st, Close(w)))
  {
    CloseKeepsServer(st, w);
    ServerChangeKeeps(st, Apply(st, Close(w)));
  }

  lemma SendEndKeeps(st: State, ok: bool)
    requires Inv(st) && Enabled(st, SendEnd(ok))
    ensures Inv(Apply(st, SendEnd(ok)))
  {
    EndKeepsServer(st, ok);
    ServerChangeKeeps(st, Apply(st, SendEnd(ok)));
  }

  // ---------------------------------------------------------------------------
  // The client's steps
  // ---------------------------------------------------------------------------

  lemma HearOneMore(log: seq<Frame>, heard: nat, raw: Raw, received: seq<Item>)
    requires ReadInv(log, heard, Idle, raw, received) && heard < |log|
    ensures ReadInv(log, heard + 1, Pushing(Payload(log[heard])), raw, received)
    ensures log[heard].EndFrame? ==> forall cause :: ReadInv(log, heard + 1, Ending(cause), raw, received)
  {
    assert log[..heard + 1] == log[..heard] + [log[heard]];
    FlatGrows(log[..heard], log[heard]);
  }

  lemma DeliverPayload(st: State)
    requires Inv(st) && Enabled(st, Deliver) && st.registered && !st.server.log[st.delivered].EndFrame?
    ensures Inv(Delivered(st))
  {
    HearOneMore(st.server.log, st.heard, st.raw, st.received);
  }

  lemma DeliverEnd(st: State)
    requires Inv(st) && Enabled(st, Deliver) && st.registered && st.server.log[st.delivered].EndFrame?
    ensures Inv(Delivered(st))
  {
    HearOneMore(st.server.log, st.heard, st.raw, st.received);
    assert st.heard == |st.server.log| - 1;
  }

  lemma DeliverKeeps(st: State)
    requires Inv(st) && Enabled(st, Deliver)
    ensures Inv(Delivered(st))
  {
    if !st.registered {
    } else if st.server.log[st.delivered].EndFrame? {
      DeliverEnd(st);
    } else {
      DeliverPayload(st);
    }
  }

  lemma PushKeeps(st: State)
    requires Inv(st) && Enabled(st, PushOne)
    ensures Inv(Apply(st, PushOne))
  {
    if st.reader.items != [] {
      PushReads(st.server.log, st.heard, st.reader.items, st.raw, st.received);
      PushIsNoEnd(st.server.log, st.heard, st.reader.items, st.raw, st.registered, st.closer);
    }
  }

  lemma PushReads(log: seq<Frame>, heard: nat, items: seq<Item>, raw: Raw, received: seq<Item>)
    requires ReadInv(log, heard, Pushing(items), raw, received) && items != [] && (raw.stopped ==> raw.serverDone)
    requires if raw.serverDone then raw.stopped || IsCut(raw.err) else raw.err.None?
    ensures ReadInv(log, heard, Pushing(items[1..]), Push(raw, items[0]), received)
  {
    assert items == [items[0]] + items[1..];
    assert received + raw.items + items == received + (raw.items + [items[0]]) + items[1..];
  }

  lemma PushIsNoEnd(log: seq<Frame>, heard: nat, items: seq<Item>, raw: Raw, registered: bool, closer: Option<Cause>)
    requires OverInv(log, heard, Pushing(items), raw, registered, closer) && items != []
    ensures OverInv(log, heard, Pushing(items[1..]), Push(raw, items[0]), registered, closer)
  {
  }

  lemma EndKeeps(st: State, step: Step)
    requires Inv(st) && Enabled(st, step) && (step.EndOne? || step.EndCut? || step.Cut? || step.Unregister?)
    ensures Inv(Apply(st, step))
  {
  }

  lemma ConsumeKeeps(st: State)
    requires Inv(st) && Enabled(st, Consume)
    ensures Inv(Apply(st, Consume))
  {
    if st.raw.stopped {
    } else if st.raw.items != [] {
      assert st.raw.items == [st.raw.items[0]] + st.raw.items[1..];
      assert st.received + st.raw.items == st.received + [st.raw.items[0]] + st.raw.items[1..];
    } else {
      assert st.server.log[..|st.server.log|] == st.server.log;
    }
  }

  lemma StopKeeps(st: State, err: Option<Cause>)
    requires Inv(st) && Enabled(st, Step.Stop(err))
    ensures Inv(Apply(st, Step.Stop(err)))
  {
  }

  lemma StepKeeps(st: State, step: Step)
    requires Inv(st) && Enabled(st, step)
    ensures Inv(Apply(st, step))
  {
    match step
    case Deliver => DeliverKeeps(st);
    case PushOne => PushKeeps(st);
    case Consume => ConsumeKeeps(st);
    case Stop(err) => StopKeeps(st, err);
    case EndOne => EndKeeps(st, step);
    case EndCut => EndKeeps(st, step);
    case Cut(_) => EndKeeps(st, step);
    case Unregister => EndKeeps(st, step);
    case SendRequest(err) => SendRequestKeeps(st, err);
    case Accept => AcceptKeeps(st);
    case Refuse(ok) => RefuseKeeps(st, ok);
    case Yield(item, w) => YieldKeeps(st, item, w);
    case CtxEnds => HandlerStepKeeps(st, step);
    case IterationEnds(_) => HandlerStepKeeps(st, step);
    case Fire(id, w) => FireKeeps(st, id, w);
    case Close(w) => CloseKeeps(st, w);
    case SendEnd(ok) => SendEndKeeps(st, ok);
  }

  lemma CfgStays(st: State, step: Step)
    requires Enabled(st, step)
    ensures Apply(st, step).cfg == st.cfg
  {
  }

  // ---------------------------------------------------------------------------
  // Over every run
  // ---------------------------------------------------------------------------

  ghost predicate Moves(run: seq<State>, i: nat)
    requires i + 1 < |run|
  {
    exists step :: Enabled(run[i], step) && run[i + 1] == Apply(run[i], step)
  }

  ghost predicate IsRun(run: seq<State>, cfg: Option<Chunking>) {
    && run != [] && run[0] == Init(cfg)
    && (forall i :: 0 <= i < |run| - 1 ==> Moves(run, i))
  }

  lemma RunMoves(run: seq<State>, cfg: Option<Chunking>, i: nat) returns (step: Step)
    requires IsRun(run, cfg) && 0 < i < |run|
    ensures Enabled(run[i - 1], step) && run[i] == Apply(run[i - 1], step)
  {
    assert Moves(run, i - 1);
    step :| Enabled(run[i - 1], step) && run[i] == Apply(run[i - 1], step);
  }

  lemma {:induction false} CfgStaysForever(run: seq<State>, cfg: Option<Chunking>, i: nat)
    requires IsRun(run, cfg) && i < |run|
    ensures run[i].cfg == Init(cfg).cfg
  {
    if i > 0 {
      CfgStaysForever(run, cfg, i - 1);
      var step := RunMoves(run, cfg, i);
      CfgStays(run[i - 1], step);
    }
  }

  lemma MoveKeeps(run: seq<State>, cfg: Option<Chunking>, i: nat)
    requires IsRun(run, cfg) && 0 < i < |run| && Inv(run[i - 1])
    ensures Inv(run[i])
  {
    var step := RunMoves(run, cfg, i);
    StepKeeps(run[i - 1], step);
  }

  lemma {:induction false} InvHolds(run: seq<State>, cfg: Option<Chunking>, i: nat)
    requires IsRun(run, cfg) && i < |run|
    ensures Inv(run[i])
  {
    if i == 0 {
      InitHolds(cfg);
    } else {
      InvHolds(run, cfg, i - 1);
      MoveKeeps(run, cfg, i);
    }
  }

  lemma RunKeeps(run: seq<State>, cfg: Option<Chunking>, i: nat)
    requires IsRun(run, cfg) && i < |run|
    ensures Inv(run[i]) && run[i].cfg == Init(cfg).cfg
  {
    InvHolds(run, cfg, i);
    CfgStaysForever(run, cfg, i);
  }

  lemma {:induction false} FlatPrefix(fs: seq<Frame>, n: nat)
    requires n <= |fs|
    ensures Flat(fs[..n]) <= Flat(fs)
  {
    if n < |fs| {
      FlatPrefix(fs[..|fs| - 1], n);
      assert fs[..|fs| - 1][..n] == fs[..n];
    } else {
      assert fs[..n] == fs;
    }
  }

  /** Whatever is stopped, cut or refused, the consumer reads a prefix of what was yielded, in order, nothing twice. */
  lemma ReadsAPrefix(run: seq<State>, cfg: Option<Chunking>, i: nat)
    requires IsRun(run, cfg) && i < |run|
    ensures run[i].received <= run[i].server.buffered
  {
    RunKeeps(run, cfg, i);
    FlatPrefix(run[i].server.log, run[i].heard);
  }

  /**
   * A consumer whose loop ends though it did not stop has either been told of a lost connection, a closed
   * client or a request too large, or has read everything that was yielded, less what the connection refused;
   * and then it is told of an error exactly when the server's terminal frame carries one.
   */
  lemma DrainedReadsEverything(run: seq<State>, cfg: Option<Chunking>, i: nat)
    requires IsRun(run, cfg) && i < |run|
    requires run[i].outcome.Some? && run[i].outcome.value.Drained? && !IsCut(run[i].outcome.value.err)
    ensures var st := run[i];
      && st.received + st.server.lost == st.server.buffered && st.phase.Sent?
      && st.server.log != [] && st.server.log[|st.server.log| - 1] == EndFrame(st.outcome.value.err.Some?)
  {
    RunKeeps(run, cfg, i);
    assert run[i].server.items == [];
  }

  /** With chunking, every chunk has one to MaxItems items, all but its last below MaxBytes, for any settings given. */
  lemma ChunksAreBounded(run: seq<State>, cfg: Option<Chunking>, i: nat, k: nat)
    requires IsRun(run, cfg) && i < |run| && k < |run[i].server.log| && run[i].server.log[k].ChunkFrame?
    ensures cfg.Some? ==> Bounded(Normalized(cfg.value), run[i].server.log[k].items)
  {
    RunKeeps(run, cfg, i);
  }

  /** No frame of the stream follows its terminal frame, however late a stopped timer runs. */
  lemma NothingFollowsTheEnd(run: seq<State>, cfg: Option<Chunking>, i: nat, k: nat)
    requires IsRun(run, cfg) && i < |run| && k < |run[i].server.log| && run[i].server.log[k].EndFrame?
    ensures k == |run[i].server.log| - 1 && run[i].server.items == []
    ensures forall id, w :: id in run[i].server.armed ==> DelayFlush(run[i].server, id, w).log == run[i].server.log
  {
    RunKeeps(run, cfg, i);
    assert EndIsLast(run[i].server.log, run[i].phase);
  }

  /** No item waits in the buffer without a timer about to flush it, and that timer does flush it. */
  lemma FlushIsPending(run: seq<State>, cfg: Option<Chunking>, i: nat, w: World)
    requires IsRun(run, cfg) && i < |run| && run[i].server.items != [] && !run[i].server.failed && w.sent
    ensures var c := run[i].server;
      && c.timer.Some? && Enabled(run[i], Fire(c.timer.value, w))
      && DelayFlush(c, c.timer.value, w).log == c.log + [ChunkFrame(c.items)]
  {
    RunKeeps(run, cfg, i);
  }

  /** A consumer that waits is not forgotten: its stream is in the table, or someone is about to end it. */
  lemma WaitingConsumerIsServed(run: seq<State>, cfg: Option<Chunking>, i: nat)
    requires IsRun(run, cfg) && i < |run| && Waits(run[i].raw)
    ensures run[i].registered || run[i].reader.Ending? || run[i].closer.Some?
  {
    RunKeeps(run, cfg, i);
  }
}
