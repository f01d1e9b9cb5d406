/**
 * The client's buffer of a running stream (client/stream.go).
 *
 * The read loop pushes, the consumer takes, and either side or the connection
 * may end the stream. next is taken where its wait is over; the condition
 * variable that wakes it is not part of the model.
 */
module ClientStreams {
  import opened Common
  import opened StreamChunks

  datatype Cause = ServerFailed | ConnectionLost | ClientClosed | TooLarge | ConsumerError

  datatype Raw = Raw(items: seq<Item>, serverDone: bool, stopped: bool, err: Option<Cause>)

  const FRESH := Raw([], false, false, None)

  function Push(s: Raw, item: Item): Raw {
    if s.serverDone || s.stopped then s else s.(items := s.items + [item])
  }

  function FirstErr(s: Raw, err: Option<Cause>): Option<Cause> { if s.err.None? then err else s.err }

  function End(s: Raw, err: Option<Cause>): Raw {
    if s.serverDone then s else s.(serverDone := true, err := FirstErr(s, err))
  }

  predicate Waits(s: Raw) { s.items == [] && !s.serverDone && !s.stopped }

  /** next, once it need not wait: the item, or None once the stream is over for the consumer. */
  function Next(s: Raw): (Raw, Option<Item>)
    requires !Waits(s)
  {
    if s.stopped || s.items == [] then (s, None) else (s.(items := s.items[1..]), Some(s.items[0]))
  }

  /** The locked section of stop. */
  function Stop(s: Raw, err: Option<Cause>): Raw {
    if s.stopped then s else Raw([], true, true, FirstErr(s, err))
  }

  /**
   * The same fields, updated in place. accepted and taken record what came in and what went out:
   * until it is stopped, the stream hands out what it accepted, in order, and holds the rest.
   */
  class RawStream {
    var items: seq<Item>
    var serverDone: bool
    var stopped: bool
    var err: Option<Cause>
    ghost var accepted: seq<Item>
    ghost var taken: seq<Item>

    ghost function View(): Raw
      reads this
    {
      Raw(items, serverDone, stopped, err)
    }

    ghost predicate Valid()
      reads this
    {
      if stopped then items == [] && serverDone && taken <= accepted else accepted == taken + items
    }

    constructor ()
      ensures View() == FRESH && Valid() && accepted == [] && taken == []
    {
      items, serverDone, stopped, err := [], false, false, None;
      accepted, taken := [], [];
    }

    method PushItem(item: Item)
      requires Valid()
      modifies this
      ensures Valid() && View() == Push(old(View()), item)
      ensures taken == old(taken)
      ensures accepted == if old(serverDone || stopped) then old(accepted) else old(accepted) + [item]
    {
      if !serverDone && !stopped {
        items := items + [item];
        accepted := accepted + [item];
      }
    }

    /** What was accepted before the end is still handed out. */
    method EndStream(cause: Option<Cause>)
      requires Valid()
      modifies this
      ensures Valid() && View() == End(old(View()), cause)
      ensures accepted == old(accepted) && taken == old(taken) && items == old(items)
    {
      if !serverDone {
        serverDone := true;
        if err.None? { err := cause; }
      }
    }

    /** Hands out the next accepted item; says the stream is over only if all are taken, or it was stopped. */
    method NextItem() returns (item: Option<Item>)
      requires Valid() && !Waits(View())
      modifies this
      ensures Valid() && (View(), item) == Next(old(View()))
      ensures accepted == old(accepted) && taken <= accepted
      ensures item.Some? ==> taken == old(taken) + [item.value]
      ensures item.None? ==> taken == old(taken) && (stopped || (serverDone && taken == accepted))
    {
      if stopped || |items| == 0 { return None; }
      item := Some(items[0]);
      taken := taken + [items[0]];
      items := items[1..];
    }

    /** running: the server had not ended the stream, so it is to be cancelled there, which happens once. */
    method StopStream(cause: Option<Cause>) returns (running: bool)
      requires Valid()
      modifies this
      ensures Valid() && View() == Stop(old(View()), cause)
      ensures accepted == old(accepted) && taken == old(taken)
      ensures running <==> !old(stopped) && !old(serverDone)
      ensures stopped && serverDone && !Waits(View())
    {
      if stopped { return false; }
      stopped := true;
      if err.None? { err := cause; }
      running := !serverDone;
      serverDone := true;
      items := [];
    }
  }
}
