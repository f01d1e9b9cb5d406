/**
 * The client's subscription protocol (client/subscription.go, client/client.go).
 *
 * A subscription's subscribe frame must reach the server exactly once on every
 * connection, at most 64 frames may wait for their first answer, and an
 * unsubscribe must never be overtaken by a subscribe. Three locks are involved
 * (Client.mu, Client.subSendMu and one mutex per subscription), so the model is
 * a step system: one step per critical section, in any interleaving, with the
 * work still to be done after an unlock kept as explicit in-transit state.
 */
module ClientSubscriptions {
  import opened Common

  // IDs come from Client.newID and connections are compared by identity, so
  // neither is ever reused: both are modelled as growing numbers.
  type Sub = nat
  type Conn = nat

  const MAX_SUBSCRIBES_IN_FLIGHT := 64

  // ---------------------------------------------------------------------------
  // The fields guarded by Client.mu, and what each critical section does to them
  // ---------------------------------------------------------------------------

  datatype Table = Table(conn: Option<Conn>, subs: set<Sub>, inFlight: int, queue: seq<Sub>)

  datatype Admission = Dropped | Queued | Admitted

  /** The section of sendSubscribe: drop the request, queue it, or take a slot. */
  function Admit(t: Table, k: Conn, s: Sub): (Table, Admission) {
    if s !in t.subs || t.conn != Some(k) then (t, Dropped)
    else if t.inFlight >= MAX_SUBSCRIBES_IN_FLIGHT then (t.(queue := t.queue + [s]), Queued)
    else (t.(inFlight := t.inFlight + 1), Admitted)
  }

  /** The popping loop of releaseSubSlot; next collects what is to be written. */
  function Drain(t: Table, next: seq<Sub>): (r: (Table, seq<Sub>))
    ensures r.0.conn == t.conn && r.0.subs == t.subs
    decreases |t.queue|
  {
    if t.inFlight >= MAX_SUBSCRIBES_IN_FLIGHT || t.queue == [] then (t, next)
    else
      var s, rest := t.queue[0], t.(queue := t.queue[1..]);
      if s !in t.subs then Drain(rest, next)
      else Drain(rest.(inFlight := t.inFlight + 1), next + [s])
  }

  /** The section of releaseSubSlot. */
  function ReleaseSlot(t: Table, k: Conn): (Table, seq<Sub>) {
    if t.conn != Some(k) then (t, [])
    else Drain(t.(inFlight := t.inFlight - 1), [])
  }

  /** Drops the first occurrence of s. */
  function Without(q: seq<Sub>, s: Sub): seq<Sub> {
    if q == [] then []
    else if q[0] == s then q[1..]
    else [q[0]] + Without(q[1..], s)
  }

  /** The section of end: leave the table and the slot queue. */
  function Remove(t: Table, s: Sub): Table {
    t.(subs := t.subs - {s}, queue := Without(t.queue, s))
  }

  function Connect(t: Table, k: Conn): Table { t.(conn := Some(k), inFlight := 0, queue := []) }

  function Disconnect(t: Table): Table { t.(conn := None, inFlight := 0, queue := []) }

  // ---------------------------------------------------------------------------
  // Slots and the queue
  // ---------------------------------------------------------------------------

  /** Nobody waits while a slot is free, and only open subscriptions wait. */
  ghost predicate QueueInv(t: Table) {
    && (t.queue != [] ==> t.inFlight == MAX_SUBSCRIBES_IN_FLIGHT)
    && (t.conn.Some? ==> forall s :: s in t.queue ==> s in t.subs)
  }

  /** With only open subscriptions queued, the loop pops until the slots or the queue run out. */
  lemma {:induction false} DrainIs(t: Table, next: seq<Sub>)
    requires t.inFlight <= MAX_SUBSCRIBES_IN_FLIGHT && forall s :: s in t.queue ==> s in t.subs
    ensures var free := MAX_SUBSCRIBES_IN_FLIGHT - t.inFlight;
            var m := if |t.queue| <= free then |t.queue| else free;
            Drain(t, next) == (t.(inFlight := t.inFlight + m, queue := t.queue[m..]), next + t.queue[..m])
    decreases |t.queue|
  {
    if t.inFlight < MAX_SUBSCRIBES_IN_FLIGHT && t.queue != [] {
      var t' := t.(queue := t.queue[1..], inFlight := t.inFlight + 1);
      DrainIs(t', next + [t.queue[0]]);
      var free := MAX_SUBSCRIBES_IN_FLIGHT - t.inFlight;
      var m := if |t.queue| <= free then |t.queue| else free;
      assert t.queue[1..][..m - 1] == t.queue[1..m] && [t.queue[0]] + t.queue[1..m] == t.queue[..m];
      assert next + [t.queue[0]] + t.queue[1..m] == next + t.queue[..m];
    } else if t.queue == [] {
      assert next + t.queue[..0] == next;
    } else {
      assert next + t.queue[..0] == next;
    }
  }

  lemma {:induction false} WithoutCounts(q: seq<Sub>, s: Sub)
    ensures multiset(Without(q, s)) == multiset(q) - multiset{s}
  {
    if q != [] {
      assert q == [q[0]] + q[1..];
      if q[0] != s { WithoutCounts(q[1..], s); }
    }
  }

  /** A released slot goes to at most one waiting subscription, the first, and stays free only if none waits. */
  lemma ReleaseIs(t: Table, k: Conn) returns (m: nat)
    requires t.conn == Some(k) && QueueInv(t) && t.inFlight <= MAX_SUBSCRIBES_IN_FLIGHT
    ensures m <= 1 && m <= |t.queue|
    ensures ReleaseSlot(t, k) == (t.(inFlight := t.inFlight - 1 + m, queue := t.queue[m..]), t.queue[..m])
    ensures m == 0 ==> t.queue == []
  {
    DrainIs(t.(inFlight := t.inFlight - 1), []);
    m := if t.queue == [] then 0 else 1;
    assert [] + t.queue[..m] == t.queue[..m];
  }

  lemma RemoveKeepsQueue(t: Table, s: Sub)
    requires QueueInv(t) && multiset(t.queue)[s] <= 1
    ensures QueueInv(Remove(t, s)) && s !in Remove(t, s).queue
  {
    WithoutCounts(t.queue, s);
    forall x | x in Without(t.queue, s) ensures x in t.queue && x != s {
      assert x in multiset(Without(t.queue, s));
      assert x in multiset(t.queue);
    }
  }

  /** The same fields, updated in place the way client/subscription.go does. */
  class SlotTable {
    var conn: Option<Conn>
    var subs: set<Sub>
    var subInFlight: int
    var subQueue: seq<Sub>

    ghost function View(): Table
      reads this
    {
      Table(conn, subs, subInFlight, subQueue)
    }

    constructor ()
      ensures View() == Table(None, {}, 0, [])
    {
      conn, subs, subInFlight, subQueue := None, {}, 0, [];
    }

    method SendSubscribe(k: Conn, s: Sub) returns (outcome: Admission)
      modifies this
      ensures (View(), outcome) == Admit(old(View()), k, s)
      ensures old(QueueInv(View()) && subInFlight <= MAX_SUBSCRIBES_IN_FLIGHT) ==>
                && QueueInv(View()) && subInFlight <= MAX_SUBSCRIBES_IN_FLIGHT
                && (outcome.Admitted? ==> subQueue == [])  // a newcomer never overtakes the queue
    {
      if s !in subs || conn != Some(k) { return Dropped; }
      if subInFlight >= MAX_SUBSCRIBES_IN_FLIGHT {
        subQueue := subQueue + [s];
        return Queued;
      }
      subInFlight := subInFlight + 1;
      outcome := Admitted;
    }

    method ReleaseSubSlot(k: Conn) returns (next: seq<Sub>)
      modifies this
      ensures (View(), next) == ReleaseSlot(old(View()), k)
    {
      next := [];
      if conn != Some(k) { return; }
      subInFlight := subInFlight - 1;
      while subInFlight < MAX_SUBSCRIBES_IN_FLIGHT && |subQueue| > 0
        invariant conn == old(conn) && subs == old(subs)
        invariant Drain(View(), next) == ReleaseSlot(old(View()), k)
        decreases |subQueue|
      {
        var s := subQueue[0];
        subQueue := subQueue[1..];
        if s !in subs { continue; }
        subInFlight := subInFlight + 1;
        next := next + [s];
      }
    }

    method End(s: Sub) returns (told: Option<Conn>)
      modifies this
      ensures View() == Remove(old(View()), s) && told == old(conn)
      ensures old(QueueInv(View()) && multiset(subQueue)[s] <= 1) ==> QueueInv(View()) && s !in subQueue
    {
      if QueueInv(View()) && multiset(subQueue)[s] <= 1 { RemoveKeepsQueue(View(), s); }
      subs := subs - {s};
      var i := 0;
      while i < |subQueue| && subQueue[i] != s
        invariant 0 <= i <= |subQueue|
        invariant Without(subQueue, s) == subQueue[..i] + Without(subQueue[i..], s)
      {
        i := i + 1;
      }
      if i < |subQueue| {
        subQueue := subQueue[..i] + subQueue[i + 1..];
      }
      told := conn;
    }

    method MarkConnected(k: Conn) returns (resend: set<Sub>)
      modifies this
      ensures View() == Connect(old(View()), k) && resend == old(subs)
      ensures QueueInv(View()) && subInFlight <= MAX_SUBSCRIBES_IN_FLIGHT && resend == subs
    {
      conn, subInFlight, subQueue := Some(k), 0, [];
      resend := subs;
    }

    method MarkDisconnected(k: Conn) returns (lost: set<Sub>)
      modifies this
      ensures View() == if old(conn) == Some(k) then Disconnect(old(View())) else old(View())
      ensures lost == if old(conn) == Some(k) then old(subs) else {}
      ensures conn != Some(k) && (old(QueueInv(View())) ==> QueueInv(View()))
    {
      if conn != Some(k) { return {}; }
      conn, subInFlight, subQueue := None, 0, [];
      lost := subs;
    }
  }
}
