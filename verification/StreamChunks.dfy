/**
 * Batching of streamed items on the server (stream_chunk.go).
 *
 * Items are buffered under a mutex and flushed by count, by size, or by a
 * delay timer whose callback may already be waiting when it is stopped.
 */
module StreamChunks {
  import opened Common

  /** A marshaled item. */
  datatype Item = Item(value: int, size: nat)

  datatype Frame = ItemFrame(item: Item) | ChunkFrame(items: seq<Item>) | EndFrame(failed: bool)

  function Payload(f: Frame): seq<Item> {
    match f
    case ItemFrame(item) => [item]
    case ChunkFrame(items) => items
    case EndFrame(_) => []
  }

  function Flat(fs: seq<Frame>): seq<Item> {
    if fs == [] then [] else Flat(fs[..|fs| - 1]) + Payload(fs[|fs| - 1])
  }

  lemma FlatGrows(fs: seq<Frame>, f: Frame)
    ensures Flat(fs + [f]) == Flat(fs) + Payload(f)
  {
    assert (fs + [f])[..|fs|] == fs;
  }

  function TotalSize(items: seq<Item>): nat {
    if items == [] then 0 else TotalSize(items[..|items| - 1]) + items[|items| - 1].size
  }

  // ---------------------------------------------------------------------------
  // Settings
  // ---------------------------------------------------------------------------

  datatype Chunking = Chunking(maxItems: int, maxBytes: int)

  predicate Sensible(cfg: Chunking) { cfg.maxItems > 0 && cfg.maxBytes > 0 }

  /** The defaults the server fills in. */
  function Normalized(cfg: Chunking): (r: Chunking)
    ensures Sensible(r) && (Sensible(cfg) ==> r == cfg)
  {
    Chunking(if cfg.maxItems <= 0 then 128 else cfg.maxItems, if cfg.maxBytes <= 0 then 65536 else cfg.maxBytes)
  }

  // ---------------------------------------------------------------------------
  // The chunker
  // ---------------------------------------------------------------------------

  /**
   * armed holds the timers whose callback has yet to run, stopped too late or not at all.
   * log is every frame the connection took, lost the items of a frame it refused,
   * buffered every item add has taken: these three only record what happened.
   */
  datatype Chunker = Chunker(
    items: seq<Item>,
    bytes: nat,
    timer: Option<nat>,
    armed: set<nat>,
    timers: nat,
    failed: bool,
    log: seq<Frame>,
    lost: seq<Item>,
    buffered: seq<Item>
  )

  const EMPTY := Chunker([], 0, None, {}, 0, false, [], [], [])

  /** How the outside world takes a step: the marshaler, the connection, and timer.Stop winning its race. */
  datatype World = World(marshaled: bool, sent: bool, stopped: bool)

  function Send(c: Chunker, f: Frame, ok: bool): Chunker {
    if ok then c.(log := c.log + [f]) else c.(failed := true, lost := c.lost + Payload(f))
  }

  /** flushLocked. */
  function Flush(c: Chunker, w: World): Chunker {
    var c' := c.(timer := None, armed := if c.timer.Some? && w.stopped then c.armed - {c.timer.value} else c.armed);
    if c.items == [] then c' else Send(c'.(items := [], bytes := 0), ChunkFrame(c.items), w.sent)
  }

  /** With item in the buffer. */
  function Buffered(c: Chunker, item: Item): Chunker {
    c.(items := c.items + [item], bytes := c.bytes + item.size, buffered := c.buffered + [item])
  }

  /** add, and whether it returned without error. */
  function Add(c: Chunker, cfg: Chunking, item: Item, w: World): (Chunker, bool) {
    if !w.marshaled then (c.(failed := true), false)
    else if c.failed then (c, false)
    else
      var c' := Buffered(c, item);
      if |c'.items| >= cfg.maxItems || c'.bytes >= cfg.maxBytes then (Flush(c', w), w.sent)
      else if |c'.items| == 1
          then (c'.(timer := Some(c.timers), armed := c.armed + {c.timers}, timers := c.timers + 1), true)
      else (c', true)
  }

  /** delayFlush, for any timer still to run. */
  function DelayFlush(c: Chunker, id: nat, w: World): Chunker {
    var c' := c.(armed := c.armed - {id});
    if c.failed then c' else Flush(c', w)
  }

  /** The same fields, updated in place. */
  class StreamChunker {
    const cfg: Chunking
    var items: seq<Item>
    var bytes: nat
    var timer: Option<nat>
    var armed: set<nat>
    var timers: nat
    var failed: bool
    var log: seq<Frame>
    var lost: seq<Item>
    var buffered: seq<Item>

    ghost function View(): Chunker
      reads this
    {
      Chunker(items, bytes, timer, armed, timers, failed, log, lost, buffered)
    }

    constructor (cfg: Chunking)
      ensures View() == EMPTY && this.cfg == cfg
    {
      this.cfg := cfg;
      items, bytes, timer, armed, timers, failed, log, lost, buffered := [], 0, None, {}, 0, false, [], [], [];
    }

    method AddItem(item: Item, w: World) returns (ok: bool)
      modifies this
      ensures (View(), ok) == Add(old(View()), cfg, item, w)
      ensures buffered == old(buffered) || buffered == old(buffered) + [item]
      ensures old(log) <= log && old(lost) <= lost && (old(failed) ==> !ok && failed)
      ensures ok ==> buffered == old(buffered) + [item] && lost == old(lost)
    {
      if !w.marshaled {
        failed := true;
        return false;
      }
      if failed { return false; }
      items := items + [item];
      buffered := buffered + [item];
      bytes := bytes + item.size;
      if |items| >= cfg.maxItems || bytes >= cfg.maxBytes {
        ok := FlushLocked(w);
        return;
      }
      if |items| == 1 {
        timer := Some(timers);
        armed := armed + {timers};
        timers := timers + 1;
      }
      ok := true;
    }

    method OnDelay(id: nat, w: World)
      modifies this
      ensures View() == DelayFlush(old(View()), id, w)
      ensures Sensible(cfg) && old(ChunkerInv(View(), cfg)) ==> ChunkerInv(View(), cfg)
      ensures buffered == old(buffered) && old(log) <= log
      ensures !old(failed) ==> items == []
    {
      if Sensible(cfg) && ChunkerInv(View(), cfg) { DelayFlushKeeps(View(), cfg, id, w); }
      armed := armed - {id};
      if !failed {
        var _ := FlushLocked(w);
      }
    }

    method FlushLocked(w: World) returns (ok: bool)
      modifies this
      ensures View() == Flush(old(View()), w)
      ensures ok == if old(items) == [] then !old(failed) else w.sent
    {
      if timer.Some? {
        if w.stopped { armed := armed - {timer.value}; }
        timer := None;
      }
      if |items| == 0 { return !failed; }
      var chunk := ChunkFrame(items);
      items, bytes := [], 0;
      if !w.sent {
        failed, lost := true, lost + chunk.items;
        return false;
      }
      log := log + [chunk];
      ok := true;
    }

    /** After close, every item taken is in the log or was refused with a frame. */
    method Close(w: World) returns (ok: bool)
      modifies this
      ensures View() == Flush(old(View()), w)
      ensures ok == if old(items) == [] then !old(failed) else w.sent
      ensures Sensible(cfg) && old(ChunkerInv(View(), cfg)) ==> ChunkerInv(View(), cfg) && Flat(log) + lost == buffered
    {
      if Sensible(cfg) && ChunkerInv(View(), cfg) {
        InvBoundsBuffer(View(), cfg);
        FlushKeeps(View(), cfg, w);
        assert Flush(View(), w).items == [];
      }
      ok := FlushLocked(w);
    }
  }

  // ---------------------------------------------------------------------------
  // What the chunker keeps
  // ---------------------------------------------------------------------------

  /** A chunk within the limits: only its last item may take it over the size. */
  ghost predicate Bounded(cfg: Chunking, items: seq<Item>) {
    1 <= |items| <= cfg.maxItems && TotalSize(items[..|items| - 1]) < cfg.maxBytes
  }

  ghost predicate ChunksBounded(cfg: Chunking, log: seq<Frame>) {
    forall i :: 0 <= i < |log| && log[i].ChunkFrame? ==> Bounded(cfg, log[i].items)
  }

  /** Whatever is in the buffer is below both limits, and a flush of it is pending. */
  ghost predicate BufferInv(c: Chunker, cfg: Chunking) {
    && c.bytes == TotalSize(c.items)
    && |c.items| < cfg.maxItems && c.bytes < cfg.maxBytes
    && (c.items != [] && !c.failed ==> c.timer.Some? && c.timer.value in c.armed)
  }

  /** Every item add took was sent, in order, or refused by the connection, or is still in the buffer. */
  ghost predicate Conserves(c: Chunker) {
    && Flat(c.log) + c.lost + c.items == c.buffered
    && (c.lost != [] ==> c.failed && c.items == [])
  }

  ghost predicate ChunkerInv(c: Chunker, cfg: Chunking) {
    BufferInv(c, cfg) && Conserves(c) && ChunksBounded(cfg, c.log)
  }

  lemma FlushKeeps(c: Chunker, cfg: Chunking, w: World)
    requires Sensible(cfg) && Conserves(c) && ChunksBounded(cfg, c.log)
    requires if c.items == [] then c.bytes == 0 else Bounded(cfg, c.items)
    ensures ChunkerInv(Flush(c, w), cfg) && Flush(c, w).items == []
  {
    FlushConserves(c, w);
    if c.items != [] { BoundedGrows(cfg, c.log, ChunkFrame(c.items)); }
    assert BufferInv(Flush(c, w), cfg);
  }

  lemma FlushConserves(c: Chunker, w: World)
    requires Conserves(c)
    ensures Conserves(Flush(c, w))
  {
    if c.items != [] {
      FlatGrows(c.log, ChunkFrame(c.items));
      NoneBetween(Flat(c.log), c.items);
    }
  }

  lemma NoneBetween(a: seq<Item>, b: seq<Item>)
    ensures a + [] + b == a + b && a + b + [] + [] == a + b && a + ([] + b) + [] == a + b
  {
  }

  lemma BoundedGrows(cfg: Chunking, log: seq<Frame>, f: Frame)
    requires ChunksBounded(cfg, log) && f.ChunkFrame? && Bounded(cfg, f.items)
    ensures ChunksBounded(cfg, log + [f])
  {
  }

  lemma InvBoundsBuffer(c: Chunker, cfg: Chunking)
    requires ChunkerInv(c, cfg)
    ensures c.items != [] ==> Bounded(cfg, c.items)
  {
  }

  lemma FailedHolds(c: Chunker, cfg: Chunking)
    requires ChunkerInv(c, cfg)
    ensures ChunkerInv(c.(failed := true), cfg)
  {
  }

  lemma ArmedHolds(c: Chunker, cfg: Chunking, id: nat)
    requires Conserves(c) && ChunksBounded(cfg, c.log) && c.bytes == TotalSize(c.items)
    requires |c.items| < cfg.maxItems && c.bytes < cfg.maxBytes
    ensures ChunkerInv(c.(timer := Some(id), armed := c.armed + {id}, timers := id + 1), cfg)
  {
  }

  lemma AddKeeps(c: Chunker, cfg: Chunking, item: Item, w: World)
    requires Sensible(cfg) && ChunkerInv(c, cfg)
    ensures ChunkerInv(Add(c, cfg, item, w).0, cfg)
  {
    if !w.marshaled {
      FailedHolds(c, cfg);
    } else if !c.failed {
      var c' := Buffered(c, item);
      BufferedHolds(c, cfg, item);
      if |c'.items| >= cfg.maxItems || c'.bytes >= cfg.maxBytes {
        FlushKeeps(c', cfg, w);
      } else if |c'.items| == 1 {
        ArmedHolds(c', cfg, c.timers);
      } else {
        assert BufferInv(c', cfg);
      }
    }
  }

  lemma BufferedHolds(c: Chunker, cfg: Chunking, item: Item)
    requires ChunkerInv(c, cfg) && !c.failed
    ensures var c' := Buffered(c, item);
      && Conserves(c') && c'.bytes == TotalSize(c'.items) && Bounded(cfg, c'.items)
  {
    var c' := Buffered(c, item);
    assert c'.items[..|c'.items| - 1] == c.items;
    assert Flat(c.log) + c.lost + (c.items + [item]) == Flat(c.log) + c.lost + c.items + [item];
  }

  lemma DelayFlushKeeps(c: Chunker, cfg: Chunking, id: nat, w: World)
    requires Sensible(cfg) && ChunkerInv(c, cfg)
    ensures ChunkerInv(DelayFlush(c, id, w), cfg)
  {
    InvBoundsBuffer(c, cfg);
    if !c.failed { FlushKeeps(c.(armed := c.armed - {id}), cfg, w); }
  }
}
