/**
 * What holds in every state the client's subscription protocol can reach.
 *
 * Each part of the invariant takes only the fields it speaks about, so a step
 * that leaves them alone keeps it for free.
 */
module ClientProtocolProofs {
  import opened Common
  import opened ClientSubscriptions
  import opened ClientProtocol

  // ---------------------------------------------------------------------------
  // Slots
  // ---------------------------------------------------------------------------

  /** Subscriptions waiting for their first answer on k. */
  ghost function AwaitingOn(awaiting: map<Sub, Conn>, k: Conn): set<Sub> {
    set s | s in awaiting && awaiting[s] == k
  }

  /** What the holder of subSendMu has a slot on k for but has not marked as sent. */
  ghost function Unmarked(job: Job, k: Conn): seq<Sub> {
    if job.Sending? && job.conn == k then
      if job.marked && job.toWrite != [] then job.toWrite[1..] else job.toWrite
    else []
  }

  /** The connection whose slot the reader is holding, between taking it and passing it on. */
  ghost function HeldBy(reader: Reader): Option<Conn> {
    if reader.Answered? || reader.Resending? then Some(reader.conn) else None
  }

  /** Every slot of k: awaiting, about to be marked, or taken and about to be released or reused. */
  ghost function SlotsHeld(awaiting: map<Sub, Conn>, job: Job, releasing: multiset<Conn>, held: Option<Conn>,
                           k: Conn): nat
  {
    |AwaitingOn(awaiting, k)| + |Unmarked(job, k)| + releasing[k] + (if held == Some(k) then 1 else 0)
  }

  ghost predicate SlotsInv(conn: Option<Conn>, inFlight: int, awaiting: map<Sub, Conn>, job: Job,
                           releasing: multiset<Conn>, held: Option<Conn>)
  {
    conn.Some? ==>
      && inFlight == SlotsHeld(awaiting, job, releasing, held, conn.value)
      && inFlight <= MAX_SUBSCRIBES_IN_FLIGHT
  }

  // ---------------------------------------------------------------------------
  // Exactly one place per open subscription
  // ---------------------------------------------------------------------------

  ghost function First(job: Job, k: Conn): multiset<Sub> {
    if job.Sending? && job.resend then multiset{} else multiset(Unmarked(job, k))
  }

  /**
   * In how many places s is on connection k: with a designated sender, queued,
   * held by the goroutine about to write it, or already sent.
   */
  ghost function Places(toSend: multiset<(Conn, Sub)>, queue: seq<Sub>, job: Job, sent: set<(Conn, Sub)>, k: Conn,
                        s: Sub): nat
  {
    toSend[(k, s)] + multiset(queue)[s] + First(job, k)[s] + (if (k, s) in sent then 1 else 0)
  }

  ghost predicate PlacesInv(t: Table, toSend: multiset<(Conn, Sub)>, job: Job, sent: set<(Conn, Sub)>) {
    t.conn.Some? ==> forall s :: s in t.subs ==> Places(toSend, t.queue, job, sent, t.conn.value, s) == 1
  }

  // ---------------------------------------------------------------------------
  // Connections
  // ---------------------------------------------------------------------------

  ghost predicate RunInv(conn: Option<Conn>, subs: set<Sub>, closed: bool, run: Run, lost: set<Sub>) {
    && (closed ==> conn.None? && subs == {})
    && (conn.Some? ==> run == Live(conn.value))
    && (run.Live? && !closed ==> conn == Some(run.conn))
    && (!run.Down? ==> lost == {})
  }

  ghost predicate ReadingInv(run: Run, reader: Reader) {
    && (run.Down? ==> reader.Ended?)
    && (reader.GotResult? ==> run.Live?)
  }

  /** A connection that is not yet published has been used for nothing. */
  ghost predicate Untouched(k: Conn, sent: set<(Conn, Sub)>, toSend: multiset<(Conn, Sub)>, wire: map<Conn, seq<Frame>>,
                            releasing: multiset<Conn>, job: Job)
  {
    && (forall s :: (k, s) !in sent && (k, s) !in toSend)
    && k !in wire && k !in releasing && (!job.Free? ==> job.conn != k)
  }

  ghost predicate HandshakeInv(run: Run, sent: set<(Conn, Sub)>, toSend: multiset<(Conn, Sub)>,
                               wire: map<Conn, seq<Frame>>, releasing: multiset<Conn>, job: Job)
  {
    run.Handshaking? ==> Untouched(run.conn, sent, toSend, wire, releasing, job)
  }

  // ---------------------------------------------------------------------------
  // The holder of subSendMu and the reader
  // ---------------------------------------------------------------------------

  ghost predicate Distinct(q: seq<Sub>) { forall i, j :: 0 <= i < j < |q| ==> q[i] != q[j] }

  ghost predicate AwaitingSent(awaiting: map<Sub, Conn>, sent: set<(Conn, Sub)>) {
    forall s :: s in awaiting ==> (awaiting[s], s) in sent
  }

  ghost predicate JobInv(job: Job, sent: set<(Conn, Sub)>, awaiting: map<Sub, Conn>) {
    job.Sending? ==>
      && job.toWrite != [] && Distinct(job.toWrite)
      && (job.marked ==> (job.conn, job.toWrite[0]) in sent)
      && (!job.resend ==> forall s :: s in Unmarked(job, job.conn) ==> (job.conn, s) !in sent)
      && (job.resend ==> |job.toWrite| == 1 && (job.conn, job.toWrite[0]) in sent)
      && (forall s :: s in Unmarked(job, job.conn) ==> s !in AwaitingOn(awaiting, job.conn))
  }

  /** While a goroutine still writes on an old connection, nothing has been sent on the new one. */
  ghost predicate StaleJobInv(job: Job, run: Run, sent: set<(Conn, Sub)>) {
    job.Sending? && !run.Down? && run.conn != job.conn ==> forall s :: (run.conn, s) !in sent
  }

  ghost predicate ReaderInv(reader: Reader, sent: set<(Conn, Sub)>, awaiting: map<Sub, Conn>, job: Job) {
    reader.Answered? || reader.Resending? ==>
      && (reader.conn, reader.sub) in sent
      && reader.sub !in AwaitingOn(awaiting, reader.conn)
      && reader.sub !in Unmarked(job, reader.conn)
  }

  // ---------------------------------------------------------------------------
  // Ending
  // ---------------------------------------------------------------------------

  ghost predicate EndInv(ending: set<Sub>, ended: set<Sub>, removed: set<Sub>, untaken: set<Sub>) {
    && ended == ending + removed && ending !! removed && untaken <= removed
  }

  ghost predicate RemovedInv(subs: set<Sub>, closed: bool, removed: set<Sub>, job: Job, sent: set<(Conn, Sub)>) {
    && removed !! subs
    && (job.Unsubscribing? ==> job.sub in removed)
    && (job.Sending? ==> forall s :: s in job.toWrite ==> s !in removed)
    && (!closed && job.Sending? ==> forall s :: s in job.toWrite ==> s in subs)
    && (!closed ==> forall p :: p in sent ==> p.1 in subs || p.1 in removed)
  }

  // ---------------------------------------------------------------------------
  // Frames on the wire
  // ---------------------------------------------------------------------------

  /** No subscribe frame for an ID follows its unsubscribe. */
  ghost predicate Ordered(w: seq<Frame>) {
    forall i, j :: 0 <= i < j < |w| && w[i].Unsubscribe? && w[j].Subscribe? ==> w[i].sub != w[j].sub
  }

  /** An ID gets at most one subscribe frame that is not a re-send, and at most one unsubscribe. */
  ghost predicate SentOnce(w: seq<Frame>) {
    forall i, j :: 0 <= i < j < |w| && w[i] == w[j] ==> w[i].Subscribe? && w[i].resend
  }

  ghost predicate WireInv(wire: map<Conn, seq<Frame>>, sent: set<(Conn, Sub)>, removed: set<Sub>) {
    forall k :: k in wire ==>
      && Ordered(wire[k]) && SentOnce(wire[k])
      && (forall f :: f in wire[k] ==> if f.Subscribe? then (k, f.sub) in sent else f.sub in removed)
  }

  /** What is about to be written is not on the wire yet. */
  ghost predicate WireJobInv(wire: map<Conn, seq<Frame>>, job: Job) {
    && (job.Sending? && !job.resend && job.conn in wire ==>
        forall s :: s in job.toWrite ==> Subscribe(s, false) !in wire[job.conn])
    && (job.Unsubscribing? ==> forall k :: k in wire ==> Unsubscribe(job.sub) !in wire[k])
  }

  /** A removed subscription the current connection knows about has been unsubscribed there. */
  ghost predicate ToldInv(conn: Option<Conn>, broken: set<Conn>, removed: set<Sub>, wire: map<Conn, seq<Frame>>,
                          job: Job)
  {
    conn.Some? && conn.value !in broken && conn.value in wire ==>
      forall s, again :: s in removed && Subscribe(s, again) in wire[conn.value] ==>
        Unsubscribe(s) in wire[conn.value] || job == Unsubscribing(s, conn.value)
  }

  // ---------------------------------------------------------------------------
  // Patches
  // ---------------------------------------------------------------------------

  ghost function FailingSub(reader: Reader): Option<Sub> { if reader.Failing? then Some(reader.sub) else None }

  /** An open patching subscription sent on the current connection has a value or awaits one. */
  ghost predicate PatchInv(run: Run, failing: Option<Sub>, sent: set<(Conn, Sub)>, wants: set<Sub>, ended: set<Sub>,
                           hasCur: set<Sub>, awaiting: map<Sub, Conn>)
  {
    !run.Down? ==>
      forall s :: (run.conn, s) in sent && s in wants && s !in ended && s !in hasCur ==>
        failing == Some(s) || s in AwaitingOn(awaiting, run.conn)
  }

  ghost predicate PatchReaderInv(run: Run, reader: Reader, sent: set<(Conn, Sub)>, wants: set<Sub>, ended: set<Sub>,
                                 hasCur: set<Sub>)
  {
    && (reader.Delivered? ==> reader.sub !in wants || reader.sub in ended || reader.sub in hasCur)
    && (!run.Down? && (reader.GotPatch? || reader.Unpatched? || reader.Marking?) ==>
        (run.conn, reader.sub) in sent && reader.sub in wants)
    && (reader.Unpatched? || reader.Marking? ==> reader.sub !in hasCur)
  }

  /** Between finding it has no value and asking for one, only end can take s's awaiting state. */
  ghost predicate UnpatchedInv(run: Run, reader: Reader, removed: set<Sub>, awaiting: map<Sub, Conn>) {
    !run.Down? && reader.Unpatched? ==> reader.sub in removed || reader.sub in AwaitingOn(awaiting, run.conn)
  }

  /** The value a patch would be applied to came from the current connection. */
  ghost predicate FreshInv(hasCur: set<Sub>, ended: set<Sub>, subs: set<Sub>, run: Run, lost: set<Sub>,
                           answers: set<(Conn, Sub)>)
  {
    forall s :: s in hasCur && s !in ended && s in subs ==>
      if run.Live? then (run.conn, s) in answers else run.Down? && s in lost
  }

  /** Who holds which subscription and which slot. */
  ghost predicate Accounts(st: State) {
    && RunInv(st.table.conn, st.table.subs, st.closed, st.run, st.lost)
    && ReadingInv(st.run, st.reader)
    && HandshakeInv(st.run, st.sent, st.toSend, st.wire, st.releasing, st.job)
    && JobInv(st.job, st.sent, st.awaiting)
    && StaleJobInv(st.job, st.run, st.sent)
    && ReaderInv(st.reader, st.sent, st.awaiting, st.job)
    && AwaitingSent(st.awaiting, st.sent)
    && SlotsInv(st.table.conn, st.table.inFlight, st.awaiting, st.job, st.releasing, HeldBy(st.reader))
    && QueueInv(st.table)
    && PlacesInv(st.table, st.toSend, st.job, st.sent)
  }

  /** What has been written, ended and delivered. */
  ghost predicate Frames(st: State) {
    && EndInv(st.ending, st.ended, st.removed, st.untaken)
    && RemovedInv(st.table.subs, st.closed, st.removed, st.job, st.sent)
    && WireInv(st.wire, st.sent, st.removed)
    && WireJobInv(st.wire, st.job)
    && ToldInv(st.table.conn, st.broken, st.removed, st.wire, st.job)
    && PatchInv(st.run, FailingSub(st.reader), st.sent, st.wants, st.ended, st.hasCur, st.awaiting)
    && PatchReaderInv(st.run, st.reader, st.sent, st.wants, st.ended, st.hasCur)
    && UnpatchedInv(st.run, st.reader, st.removed, st.awaiting)
    && FreshInv(st.hasCur, st.ended, st.table.subs, st.run, st.lost, st.answers)
  }

  ghost predicate Inv(st: State) { Accounts(st) && Frames(st) }

  // ---------------------------------------------------------------------------
  // Facts about slots, queues and frames
  // ---------------------------------------------------------------------------

  lemma AwaitingAdded(awaiting: map<Sub, Conn>, s: Sub, k: Conn)
    ensures AwaitingOn(awaiting[s := k], k) == AwaitingOn(awaiting, k) + {s}
    ensures forall k' :: k' != k ==> AwaitingOn(awaiting[s := k], k') == AwaitingOn(awaiting, k') - {s}
  {
  }

  lemma AwaitingTaken(awaiting: map<Sub, Conn>, s: Sub, k: Conn)
    ensures AwaitingOn(awaiting - {s}, k) == AwaitingOn(awaiting, k) - {s}
    ensures |AwaitingOn(awaiting - {s}, k)|
            == |AwaitingOn(awaiting, k)| - (if s in awaiting && awaiting[s] == k then 1 else 0)
  {
    assert AwaitingOn(awaiting - {s}, k) == AwaitingOn(awaiting, k) - {s};
  }

  /** Marking turns a slot held for s into s awaiting its answer. */
  lemma SlotsAfterMark(conn: Option<Conn>, inFlight: int, awaiting: map<Sub, Conn>, job: Job, releasing: multiset<Conn>,
                       held: Option<Conn>)
    requires SlotsInv(conn, inFlight, awaiting, job, releasing, held)
    requires job.Sending? && !job.marked && job.toWrite != [] && job.toWrite[0] !in AwaitingOn(awaiting, job.conn)
    requires conn.Some? && conn.value != job.conn ==> job.toWrite[0] !in AwaitingOn(awaiting, conn.value)
    ensures SlotsInv(conn, inFlight, awaiting[job.toWrite[0] := job.conn], job.(marked := true), releasing, held)
  {
    AwaitingAdded(awaiting, job.toWrite[0], job.conn);
  }

  /** Taking the awaiting state passes its slot on to exactly one releaser or to the reader. */
  lemma SlotsAfterTake(conn: Option<Conn>, inFlight: int, awaiting: map<Sub, Conn>, job: Job, releasing: multiset<Conn>,
                       held: Option<Conn>, s: Sub)
    requires SlotsInv(conn, inFlight, awaiting, job, releasing, held) && s in awaiting
    ensures SlotsInv(conn, inFlight, awaiting - {s}, job, releasing + multiset{awaiting[s]}, held)
    ensures held.None? ==> SlotsInv(conn, inFlight, awaiting - {s}, job, releasing, Some(awaiting[s]))
  {
    if conn.Some? { AwaitingTaken(awaiting, s, conn.value); }
  }

  lemma Tail(q: seq<Sub>)
    requires q != []
    ensures q[0] in q && forall s :: s in q[1..] ==> s in q
    ensures multiset(q) == multiset{q[0]} + multiset(q[1..])
  {
    assert q == [q[0]] + q[1..];
  }

  lemma UnmarkedIsToWrite(job: Job, k: Conn)
    ensures forall s :: s in Unmarked(job, k) ==> job.Sending? && s in job.toWrite
    ensures forall s :: s in First(job, k) ==> job.Sending? && s in job.toWrite
  {
    if job.Sending? && job.toWrite != [] { Tail(job.toWrite); }
  }

  lemma PlacesAfterNew(t: Table, toSend: multiset<(Conn, Sub)>, job: Job, sent: set<(Conn, Sub)>, s: Sub)
    requires PlacesInv(t, toSend, job, sent) && t.conn.Some? && s !in t.queue && (t.conn.value, s) !in sent
    requires (t.conn.value, s) !in toSend && s !in First(job, t.conn.value)
    ensures PlacesInv(t.(subs := t.subs + {s}), toSend + multiset{(t.conn.value, s)}, job, sent)
  {
  }

  lemma PlacesAfterMark(t: Table, toSend: multiset<(Conn, Sub)>, job: Job, sent: set<(Conn, Sub)>)
    requires PlacesInv(t, toSend, job, sent)
    requires job.Sending? && !job.marked && job.toWrite != [] && (job.resend <==> (job.conn, job.toWrite[0]) in sent)
    ensures PlacesInv(t, toSend, job.(marked := true), sent + {(job.conn, job.toWrite[0])})
  {
    var head := job.toWrite[0];
    Tail(job.toWrite);
    if t.conn.Some? {
      var k := t.conn.value;
      forall s | s in t.subs
        ensures Places(toSend, t.queue, job.(marked := true), sent + {(job.conn, head)}, k, s) == 1
      {
        assert Places(toSend, t.queue, job, sent, k, s) == 1;
        assert (k, s) in sent + {(job.conn, head)} <==> (k, s) in sent || (k == job.conn && s == head);
      }
    }
  }

  lemma AfterWriteUnmarked(job: Job)
    requires job.Sending? && job.marked && job.toWrite != []
    ensures forall k :: Unmarked(AfterWrite(job), k) == Unmarked(job, k) && First(AfterWrite(job), k) == First(job, k)
  {
  }

  lemma PlacesAfterWrite(t: Table, toSend: multiset<(Conn, Sub)>, job: Job, sent: set<(Conn, Sub)>)
    requires PlacesInv(t, toSend, job, sent) && job.Sending? && job.marked && job.toWrite != []
    ensures PlacesInv(t, toSend, AfterWrite(job), sent)
  {
    AfterWriteUnmarked(job);
    if t.conn.Some? {
      assert First(AfterWrite(job), t.conn.value) == First(job, t.conn.value);
    }
  }

  lemma QueuedOnce(t: Table, toSend: multiset<(Conn, Sub)>, job: Job, sent: set<(Conn, Sub)>, s: Sub)
    requires PlacesInv(t, toSend, job, sent) && QueueInv(t) && t.conn.Some?
    ensures multiset(t.queue)[s] <= 1
  {
    if s in t.subs {
      assert Places(toSend, t.queue, job, sent, t.conn.value, s) == 1;
    } else {
      assert s !in t.queue;
    }
  }

  lemma PlacesAfterRemove(t: Table, toSend: multiset<(Conn, Sub)>, job: Job, sent: set<(Conn, Sub)>, s: Sub)
    requires PlacesInv(t, toSend, job, sent) && QueueInv(t)
    ensures PlacesInv(Remove(t, s), toSend, job, sent) && QueueInv(Remove(t, s))
  {
    WithoutCounts(t.queue, s);
    if t.conn.Some? {
      QueuedOnce(t, toSend, job, sent, s);
      RemoveKeepsQueue(t, s);
      forall x | x in t.subs - {s} ensures Places(toSend, Without(t.queue, s), job, sent, t.conn.value, x) == 1 {
        assert Places(toSend, t.queue, job, sent, t.conn.value, x) == 1;
        assert multiset(Without(t.queue, s))[x] == multiset(t.queue)[x];
      }
    }
  }

  /** A freed slot goes to the head of the queue, or nobody is waiting for one. */
  lemma SlotsAfterRelease(t: Table, awaiting: map<Sub, Conn>, releasing: multiset<Conn>, held: Option<Conn>, k: Conn)
    requires SlotsInv(t.conn, t.inFlight, awaiting, Free, releasing, held) && QueueInv(t) && k in releasing
    ensures var (t', next) := ReleaseSlot(t, k);
            && t'.conn == t.conn && t'.subs == t.subs && QueueInv(t')
            && SlotsInv(t'.conn, t'.inFlight, awaiting, JobFor(k, next), releasing - multiset{k}, held)
  {
    if t.conn == Some(k) {
      var m := ReleaseIs(t, k);
      assert forall s :: s in t.queue[m..] ==> s in t.queue;
    }
  }

  lemma PlacesAfterRelease(t: Table, toSend: multiset<(Conn, Sub)>, sent: set<(Conn, Sub)>, awaiting: map<Sub, Conn>,
                           k: Conn)
    requires PlacesInv(t, toSend, Free, sent) && QueueInv(t) && t.conn == Some(k)
             && t.inFlight <= MAX_SUBSCRIBES_IN_FLIGHT
    requires AwaitingSent(awaiting, sent)
    ensures var (t', next) := ReleaseSlot(t, k);
            && PlacesInv(t', toSend, JobFor(k, next), sent) && JobInv(JobFor(k, next), sent, awaiting)
            && (forall s :: s in next ==> s in t.subs && (k, s) !in sent)
  {
    var m := ReleaseIs(t, k);
    var job := JobFor(k, t.queue[..m]);
    assert t.queue[..m] + t.queue[m..] == t.queue;
    assert multiset(t.queue) == multiset(t.queue[..m]) + multiset(t.queue[m..]);
    assert First(job, k) == multiset(t.queue[..m]);
    forall s | s in t.queue[..m] ensures s in t.subs && (k, s) !in sent {
      assert s in t.queue && multiset(t.queue)[s] >= 1;
      assert Places(toSend, t.queue, Free, sent, k, s) == 1;
    }
    forall s | s in t.subs ensures Places(toSend, t.queue[m..], job, sent, k, s) == 1 {
      assert Places(toSend, t.queue, Free, sent, k, s) == 1;
    }
  }

  lemma ReaderAfterMark(reader: Reader, sent: set<(Conn, Sub)>, awaiting: map<Sub, Conn>, job: Job)
    requires ReaderInv(reader, sent, awaiting, job) && AwaitingSent(awaiting, sent)
    requires job.Sending? && !job.marked && job.toWrite != []
    ensures var k, s := job.conn, job.toWrite[0];
            var sent' := sent + {(k, s)};
            ReaderInv(reader, sent', awaiting[s := k], job.(marked := true)) && AwaitingSent(awaiting[s := k], sent')
  {
    Tail(job.toWrite);
  }

  lemma JobAfterMark(job: Job, sent: set<(Conn, Sub)>, awaiting: map<Sub, Conn>)
    requires JobInv(job, sent, awaiting) && job.Sending? && !job.marked
    ensures JobInv(job.(marked := true), sent + {(job.conn, job.toWrite[0])}, awaiting[job.toWrite[0] := job.conn])
  {
    var q := job.toWrite;
    forall s | s in q[1..] ensures s in q && s != q[0] {
    }
    AwaitingAdded(awaiting, q[0], job.conn);
  }

  lemma PatchAfterMark(run: Run, failing: Option<Sub>, sent: set<(Conn, Sub)>, wants: set<Sub>, ended: set<Sub>,
                       hasCur: set<Sub>, awaiting: map<Sub, Conn>, k: Conn, s: Sub)
    requires PatchInv(run, failing, sent, wants, ended, hasCur, awaiting)
    requires !run.Down? && run.conn != k ==> (run.conn, s) !in sent
    ensures PatchInv(run, failing, sent + {(k, s)}, wants, ended, hasCur, awaiting[s := k])
  {
    AwaitingAdded(awaiting, s, k);
  }

  lemma SlotsAfterWrite(conn: Option<Conn>, inFlight: int, awaiting: map<Sub, Conn>, job: Job,
                        releasing: multiset<Conn>, held: Option<Conn>)
    requires SlotsInv(conn, inFlight, awaiting, job, releasing, held) && job.Sending? && job.marked && job.toWrite != []
    ensures SlotsInv(conn, inFlight, awaiting, AfterWrite(job), releasing, held)
  {
    AfterWriteUnmarked(job);
  }

  lemma ToldAfterWrite(conn: Option<Conn>, broken: set<Conn>, removed: set<Sub>, wire: map<Conn, seq<Frame>>,
                       job: Job, f: Frame)
    requires ToldInv(conn, broken, removed, wire, job) && job.Sending? && job.toWrite != []
    requires f.Subscribe? && f.sub !in removed
    ensures ToldInv(conn, broken, removed, wire, AfterWrite(job))
    ensures var w := if job.conn in wire then wire[job.conn] else [];
            ToldInv(conn, broken, removed, wire[job.conn := w + [f]], AfterWrite(job))
  {
  }

  lemma WireJobAfterWrite(wire: map<Conn, seq<Frame>>, job: Job)
    requires WireJobInv(wire, job) && job.Sending? && job.toWrite != [] && Distinct(job.toWrite)
    ensures WireJobInv(wire, AfterWrite(job))
    ensures var w := if job.conn in wire then wire[job.conn] else [];
            WireJobInv(wire[job.conn := w + [Subscribe(job.toWrite[0], job.resend)]], AfterWrite(job))
  {
    Tail(job.toWrite);
  }

  /** The reader passes its slot on, to a releaser or to the frame it re-sends. */
  lemma SlotsAfterHandOver(conn: Option<Conn>, inFlight: int, awaiting: map<Sub, Conn>, job: Job,
                           releasing: multiset<Conn>, k: Conn, s: Sub)
    requires SlotsInv(conn, inFlight, awaiting, job, releasing, Some(k))
    ensures SlotsInv(conn, inFlight, awaiting, job, releasing + multiset{k}, None)
    ensures job.Free? ==> SlotsInv(conn, inFlight, awaiting, Sending(k, [s], false, true), releasing, None)
  {
  }

  /** A re-send is not a first sending. */
  lemma PlacesAfterResend(t: Table, toSend: multiset<(Conn, Sub)>, sent: set<(Conn, Sub)>, k: Conn, s: Sub)
    requires PlacesInv(t, toSend, Free, sent)
    ensures PlacesInv(t, toSend, Sending(k, [s], false, true), sent)
  {
    assert forall k' :: First(Sending(k, [s], false, true), k') == First(Free, k');
  }

  lemma AwaitingAfterTake(job: Job, reader: Reader, sent: set<(Conn, Sub)>, awaiting: map<Sub, Conn>, s: Sub)
    requires JobInv(job, sent, awaiting) && ReaderInv(reader, sent, awaiting, job) && AwaitingSent(awaiting, sent)
    ensures JobInv(job, sent, awaiting - {s}) && ReaderInv(reader, sent, awaiting - {s}, job)
            && AwaitingSent(awaiting - {s}, sent)
    ensures s in awaiting ==> ReaderInv(Answered(awaiting[s], s), sent, awaiting - {s}, job)
  {
  }

  lemma PatchAfterTake(run: Run, failing: Option<Sub>, sent: set<(Conn, Sub)>, wants: set<Sub>, ended: set<Sub>,
                       hasCur: set<Sub>, awaiting: map<Sub, Conn>, s: Sub)
    requires PatchInv(run, failing, sent, wants, ended, hasCur, awaiting)
    ensures s !in wants || s in ended || s in hasCur ==>
              PatchInv(run, failing, sent, wants, ended, hasCur, awaiting - {s})
    ensures failing.None? ==> PatchInv(run, Some(s), sent, wants, ended, hasCur, awaiting - {s})
  {
  }

  lemma ReleasingAfterAdd(releasing: multiset<Conn>, run: Run, sent: set<(Conn, Sub)>, toSend: multiset<(Conn, Sub)>,
                          wire: map<Conn, seq<Frame>>, job: Job, k: Conn, s: Sub)
    requires HandshakeInv(run, sent, toSend, wire, releasing, job) && (k, s) in sent
    ensures HandshakeInv(run, sent, toSend, wire, releasing + multiset{k}, job)
  {
  }

  /** A re-sent frame goes out on the slot its first answer gave back. */
  lemma JobAfterResend(reader: Reader, sent: set<(Conn, Sub)>, awaiting: map<Sub, Conn>, k: Conn, s: Sub)
    requires ReaderInv(reader, sent, awaiting, Free) && reader == Resending(k, s)
    ensures JobInv(Sending(k, [s], false, true), sent, awaiting)
  {
    assert Unmarked(Sending(k, [s], false, true), k) == [s];
  }

  lemma PatchAfterNew(run: Run, reader: Reader, sent: set<(Conn, Sub)>, wants: set<Sub>, ended: set<Sub>,
                      hasCur: set<Sub>, awaiting: map<Sub, Conn>, s: Sub)
    requires PatchInv(run, FailingSub(reader), sent, wants, ended, hasCur, awaiting)
    requires PatchReaderInv(run, reader, sent, wants, ended, hasCur)
             && (reader.Idle? || reader.Ended? || reader.sub != s)
    requires forall k :: (k, s) !in sent
    ensures PatchInv(run, FailingSub(reader), sent, wants + {s}, ended, hasCur, awaiting)
    ensures PatchReaderInv(run, reader, sent, wants + {s}, ended, hasCur)
  {
  }

  /** A patch that finds no value finds its subscription awaiting one. */
  lemma PatchAfterTry(run: Run, s: Sub, sent: set<(Conn, Sub)>, wants: set<Sub>, ended: set<Sub>, hasCur: set<Sub>,
                      removed: set<Sub>, awaiting: map<Sub, Conn>)
    requires PatchInv(run, None, sent, wants, ended, hasCur, awaiting) && s !in ended && (s !in wants || s !in hasCur)
    requires PatchReaderInv(run, GotPatch(s), sent, wants, ended, hasCur) && !run.Down?
    ensures PatchReaderInv(run, Unpatched(s), sent, wants, ended, hasCur)
    ensures UnpatchedInv(run, Unpatched(s), removed, awaiting)
  {
  }

  lemma JobAfterAdmit(reader: Reader, run: Run, sent: set<(Conn, Sub)>, awaiting: map<Sub, Conn>, k: Conn, s: Sub)
    requires AwaitingSent(awaiting, sent) && (k, s) !in sent && ReaderInv(reader, sent, awaiting, Free)
             && run == Live(k)
    ensures var job := Sending(k, [s], false, false);
            JobInv(job, sent, awaiting) && ReaderInv(reader, sent, awaiting, job) && StaleJobInv(job, run, sent)
  {
    assert Unmarked(Sending(k, [s], false, false), k) == [s];
  }

  lemma SlotsAfterAdmit(t: Table, awaiting: map<Sub, Conn>, releasing: multiset<Conn>, held: Option<Conn>, k: Conn,
                        s: Sub)
    requires SlotsInv(t.conn, t.inFlight, awaiting, Free, releasing, held)
    ensures var (t', outcome) := Admit(t, k, s);
            SlotsInv(t'.conn, t'.inFlight, awaiting, if outcome.Admitted? then Sending(k, [s], false, false) else Free,
                     releasing, held)
  {
  }

  lemma ToSendAfterTake(toSend: multiset<(Conn, Sub)>, run: Run, sent: set<(Conn, Sub)>,
                        wire: map<Conn, seq<Frame>>, releasing: multiset<Conn>, p: (Conn, Sub))
    requires HandshakeInv(run, sent, toSend, wire, releasing, Free) && p in toSend
    ensures HandshakeInv(run, sent, toSend - multiset{p}, wire, releasing, Free)
    ensures run.Handshaking? ==> p.0 != run.conn
  {
  }

  lemma JobAfterWrite(job: Job, run: Run, reader: Reader, sent: set<(Conn, Sub)>, awaiting: map<Sub, Conn>)
    requires JobInv(job, sent, awaiting) && job.Sending? && job.marked
    requires StaleJobInv(job, run, sent) && ReaderInv(reader, sent, awaiting, job)
    ensures JobInv(AfterWrite(job), sent, awaiting)
    ensures StaleJobInv(AfterWrite(job), run, sent) && ReaderInv(reader, sent, awaiting, AfterWrite(job))
  {
    Tail(job.toWrite);
    AfterWriteUnmarked(job);
  }

  lemma FramesAfterAdmit(conn: Option<Conn>, broken: set<Conn>, wire: map<Conn, seq<Frame>>, sent: set<(Conn, Sub)>,
                         subs: set<Sub>, closed: bool, removed: set<Sub>, k: Conn, s: Sub)
    requires WireInv(wire, sent, removed) && (k, s) !in sent && s in subs
    requires RemovedInv(subs, closed, removed, Free, sent) && ToldInv(conn, broken, removed, wire, Free)
    ensures var job := Sending(k, [s], false, false);
            WireJobInv(wire, job) && RemovedInv(subs, closed, removed, job, sent)
                && ToldInv(conn, broken, removed, wire, job)
  {
    assert k in wire ==> forall g :: g in wire[k] && g.Subscribe? ==> g.sub != s;
  }

  lemma EndAfterClose(ending: set<Sub>, ended: set<Sub>, removed: set<Sub>, untaken: set<Sub>, s: Sub)
    requires EndInv(ending, ended, removed, untaken) && s !in ended
    ensures EndInv(ending + {s}, ended + {s}, removed, untaken)
  {
  }

  lemma WireAfterWrite(wire: map<Conn, seq<Frame>>, sent: set<(Conn, Sub)>, removed: set<Sub>, k: Conn, f: Frame)
    requires WireInv(wire, sent, removed)
    requires if f.Subscribe? then (k, f.sub) in sent && f.sub !in removed else f.sub in removed
    requires k in wire && (f.Unsubscribe? || !f.resend) ==> f !in wire[k]
    ensures WireInv(wire[k := (if k in wire then wire[k] else []) + [f]], sent, removed)
  {
    var w := if k in wire then wire[k] else [];
    forall i | 0 <= i < |w| ensures w[i].Unsubscribe? && f.Subscribe? ==> w[i].sub != f.sub {
      assert w[i] in w;
    }
  }

  lemma PlacesAfterQueued(t: Table, toSend: multiset<(Conn, Sub)>, sent: set<(Conn, Sub)>, k: Conn, s: Sub)
    requires PlacesInv(t, toSend, Free, sent) && (k, s) in toSend && t.conn == Some(k)
    ensures PlacesInv(t.(queue := t.queue + [s]), toSend - multiset{(k, s)}, Free, sent)
  {
    forall x | x in t.subs ensures Places(toSend - multiset{(k, s)}, t.queue + [s], Free, sent, k, x) == 1 {
      assert Places(toSend, t.queue, Free, sent, k, x) == 1;
    }
  }

  lemma PlacesAfterAdmitted(t: Table, toSend: multiset<(Conn, Sub)>, sent: set<(Conn, Sub)>, k: Conn, s: Sub, n: int)
    requires PlacesInv(t, toSend, Free, sent) && (k, s) in toSend && t.conn == Some(k)
    ensures PlacesInv(t.(inFlight := n), toSend - multiset{(k, s)}, Sending(k, [s], false, false), sent)
  {
    var job := Sending(k, [s], false, false);
    assert First(job, k) == multiset{s};
    forall x | x in t.subs ensures Places(toSend - multiset{(k, s)}, t.queue, job, sent, k, x) == 1 {
      assert Places(toSend, t.queue, Free, sent, k, x) == 1;
    }
  }

  lemma PlacesAfterDropped(t: Table, toSend: multiset<(Conn, Sub)>, sent: set<(Conn, Sub)>, k: Conn, s: Sub)
    requires PlacesInv(t, toSend, Free, sent) && (k, s) in toSend && (s !in t.subs || t.conn != Some(k))
    ensures PlacesInv(t, toSend - multiset{(k, s)}, Free, sent)
  {
    if t.conn.Some? {
      forall x | x in t.subs ensures Places(toSend - multiset{(k, s)}, t.queue, Free, sent, t.conn.value, x) == 1 {
        assert Places(toSend, t.queue, Free, sent, t.conn.value, x) == 1;
      }
    }
  }

  lemma PlacesAfterAdmit(t: Table, toSend: multiset<(Conn, Sub)>, sent: set<(Conn, Sub)>, k: Conn, s: Sub)
    requires PlacesInv(t, toSend, Free, sent) && QueueInv(t) && (k, s) in toSend
    requires t.conn.Some? ==> t.inFlight <= MAX_SUBSCRIBES_IN_FLIGHT
    ensures var (t', outcome) := Admit(t, k, s);
            && PlacesInv(t', toSend - multiset{(k, s)},
                         if outcome.Admitted? then Sending(k, [s], false, false) else Free, sent)
            && QueueInv(t')
            && (outcome.Admitted? ==> (k, s) !in sent)
  {
    match Admit(t, k, s).1
    case Dropped => PlacesAfterDropped(t, toSend, sent, k, s);
    case Queued => PlacesAfterQueued(t, toSend, sent, k, s);
    case Admitted =>
      assert Places(toSend, t.queue, Free, sent, k, s) == 1;
      PlacesAfterAdmitted(t, toSend, sent, k, s, t.inFlight + 1);
  }

  lemma PlacesAfterStray(t: Table, toSend: multiset<(Conn, Sub)>, job: Job, sent: set<(Conn, Sub)>, k: Conn, s: Sub)
    requires PlacesInv(t, toSend, job, sent) && s !in t.subs
    ensures PlacesInv(t, toSend + multiset{(k, s)}, job, sent)
  {
  }

  // ---------------------------------------------------------------------------
  // Every step keeps the invariant
  // ---------------------------------------------------------------------------

  lemma InitHolds()
    ensures Inv(INIT)
  {
  }

  lemma NewSubscriptionKeepsAccounts(st: State, s: Sub, w: bool)
    requires Inv(st) && Enabled(st, Step.NewSubscription(s, w))
    ensures Accounts(Apply(st, Step.NewSubscription(s, w)))
  {
    if st.table.conn.Some? {
      UnmarkedIsToWrite(st.job, st.table.conn.value);
      PlacesAfterNew(st.table, st.toSend, st.job, st.sent, s);
    }
  }

  lemma NewSubscriptionKeepsFrames(st: State, s: Sub, w: bool)
    requires Inv(st) && Enabled(st, Step.NewSubscription(s, w))
    ensures Frames(Apply(st, Step.NewSubscription(s, w)))
  {
    PatchAfterNew(st.run, st.reader, st.sent, st.wants, st.ended, st.hasCur, st.awaiting, s);
    if st.table.conn.Some? {
      UnmarkedIsToWrite(st.job, st.table.conn.value);
      PlacesAfterNew(st.table, st.toSend, st.job, st.sent, s);
    }
  }

  lemma NewSubscriptionKeeps(st: State, s: Sub, w: bool)
    requires Inv(st) && Enabled(st, Step.NewSubscription(s, w))
    ensures Inv(Apply(st, Step.NewSubscription(s, w)))
  {
    NewSubscriptionKeepsAccounts(st, s, w);
    NewSubscriptionKeepsFrames(st, s, w);
  }

  lemma SendSubscribeKeepsAccounts(st: State, k: Conn, s: Sub)
    requires Inv(st) && Enabled(st, Step.SendSubscribe(k, s))
    ensures Accounts(Apply(st, Step.SendSubscribe(k, s)))
  {
    SlotsAfterAdmit(st.table, st.awaiting, st.releasing, HeldBy(st.reader), k, s);
    PlacesAfterAdmit(st.table, st.toSend, st.sent, k, s);
    ToSendAfterTake(st.toSend, st.run, st.sent, st.wire, st.releasing, (k, s));
    if Admit(st.table, k, s).1.Admitted? {
      JobAfterAdmit(st.reader, st.run, st.sent, st.awaiting, k, s);
    }
  }

  lemma AdmittedKeepsFrames(st: State, k: Conn, s: Sub)
    requires Inv(st) && Enabled(st, Step.SendSubscribe(k, s)) && Admit(st.table, k, s).1.Admitted?
    ensures Frames(Apply(st, Step.SendSubscribe(k, s)))
  {
    PlacesAfterAdmit(st.table, st.toSend, st.sent, k, s);
    FramesAfterAdmit(st.table.conn, st.broken, st.wire, st.sent, st.table.subs, st.closed, st.removed, k, s);
  }

  lemma NotAdmittedKeepsFrames(st: State, k: Conn, s: Sub)
    requires Inv(st) && Enabled(st, Step.SendSubscribe(k, s)) && !Admit(st.table, k, s).1.Admitted?
    ensures Frames(Apply(st, Step.SendSubscribe(k, s)))
  {
    PlacesAfterAdmit(st.table, st.toSend, st.sent, k, s);
  }

  lemma SendSubscribeKeeps(st: State, k: Conn, s: Sub)
    requires Inv(st) && Enabled(st, Step.SendSubscribe(k, s))
    ensures Inv(Apply(st, Step.SendSubscribe(k, s)))
  {
    SendSubscribeKeepsAccounts(st, k, s);
    if Admit(st.table, k, s).1.Admitted? { AdmittedKeepsFrames(st, k, s); } else { NotAdmittedKeepsFrames(st, k, s); }
  }

  lemma MarkSentKeepsHandshake(st: State)
    requires Inv(st) && Enabled(st, Step.MarkSent)
    ensures var st' := Apply(st, Step.MarkSent);
            && HandshakeInv(st'.run, st'.sent, st'.toSend, st'.wire, st'.releasing, st'.job)
            && StaleJobInv(st'.job, st'.run, st'.sent) && AwaitingSent(st'.awaiting, st'.sent)
  {
    Tail(st.job.toWrite);
  }

  lemma MarkSentKeepsAccounts(st: State)
    requires Inv(st) && Enabled(st, Step.MarkSent)
    ensures Accounts(Apply(st, Step.MarkSent))
  {
    var k, s := st.job.conn, st.job.toWrite[0];
    MarkSentKeepsHandshake(st);
    Tail(st.job.toWrite);
    SlotsAfterMark(st.table.conn, st.table.inFlight, st.awaiting, st.job, st.releasing, HeldBy(st.reader));
    PlacesAfterMark(st.table, st.toSend, st.job, st.sent);
    ReaderAfterMark(st.reader, st.sent, st.awaiting, st.job);
    JobAfterMark(st.job, st.sent, st.awaiting);
  }

  lemma MarkSentKeepsFrames(st: State)
    requires Inv(st) && Enabled(st, Step.MarkSent)
    ensures Frames(Apply(st, Step.MarkSent))
  {
    var k, s := st.job.conn, st.job.toWrite[0];
    AwaitingAdded(st.awaiting, s, k);
    PatchAfterMark(st.run, FailingSub(st.reader), st.sent, st.wants, st.ended, st.hasCur, st.awaiting, k, s);
  }

  lemma MarkSentKeeps(st: State)
    requires Inv(st) && Enabled(st, Step.MarkSent)
    ensures Inv(Apply(st, Step.MarkSent))
  {
    MarkSentKeepsAccounts(st);
    MarkSentKeepsFrames(st);
  }

  lemma WriteSubscribeKeepsAccounts(st: State, o: Outcome)
    requires Inv(st) && Enabled(st, Step.WriteSubscribe(o))
    ensures Accounts(Apply(st, Step.WriteSubscribe(o)))
  {
    JobAfterWrite(st.job, st.run, st.reader, st.sent, st.awaiting);
    PlacesAfterWrite(st.table, st.toSend, st.job, st.sent);
    SlotsAfterWrite(st.table.conn, st.table.inFlight, st.awaiting, st.job, st.releasing, HeldBy(st.reader));
  }

  lemma WriteSubscribeKeepsFrames(st: State, o: Outcome)
    requires Inv(st) && Enabled(st, Step.WriteSubscribe(o))
    ensures Frames(Apply(st, Step.WriteSubscribe(o)))
  {
    var f := Subscribe(st.job.toWrite[0], st.job.resend);
    Tail(st.job.toWrite);
    WireAfterWrite(st.wire, st.sent, st.removed, st.job.conn, f);
    WireJobAfterWrite(st.wire, st.job);
    ToldAfterWrite(st.table.conn, st.broken, st.removed, st.wire, st.job, f);
  }

  lemma WriteSubscribeKeeps(st: State, o: Outcome)
    requires Inv(st) && Enabled(st, Step.WriteSubscribe(o))
    ensures Inv(Apply(st, Step.WriteSubscribe(o)))
  {
    WriteSubscribeKeepsAccounts(st, o);
    WriteSubscribeKeepsFrames(st, o);
  }

  lemma ReleaseSubSlotKeepsAccounts(st: State, k: Conn)
    requires Inv(st) && Enabled(st, Step.ReleaseSubSlot(k))
    ensures Accounts(Apply(st, Step.ReleaseSubSlot(k)))
  {
    SlotsAfterRelease(st.table, st.awaiting, st.releasing, HeldBy(st.reader), k);
    if st.table.conn == Some(k) { PlacesAfterRelease(st.table, st.toSend, st.sent, st.awaiting, k); }
  }

  lemma ReleaseSubSlotKeepsFrames(st: State, k: Conn)
    requires Inv(st) && Enabled(st, Step.ReleaseSubSlot(k))
    ensures Frames(Apply(st, Step.ReleaseSubSlot(k)))
  {
    SlotsAfterRelease(st.table, st.awaiting, st.releasing, HeldBy(st.reader), k);
    if st.table.conn == Some(k) { PlacesAfterRelease(st.table, st.toSend, st.sent, st.awaiting, k); }
  }

  lemma ReleaseSubSlotKeeps(st: State, k: Conn)
    requires Inv(st) && Enabled(st, Step.ReleaseSubSlot(k))
    ensures Inv(Apply(st, Step.ReleaseSubSlot(k)))
  {
    ReleaseSubSlotKeepsAccounts(st, k);
    ReleaseSubSlotKeepsFrames(st, k);
  }

  lemma StartEndKeeps(st: State, s: Sub)
    requires Inv(st) && Enabled(st, Step.StartEnd(s))
    ensures Inv(Apply(st, Step.StartEnd(s)))
  {
    EndAfterClose(st.ending, st.ended, st.removed, st.untaken, s);
  }

  lemma RemoveEndedKeepsAccounts(st: State, s: Sub)
    requires Inv(st) && Enabled(st, Step.RemoveEnded(s))
    ensures Accounts(Apply(st, Step.RemoveEnded(s)))
  {
    PlacesAfterRemove(st.table, st.toSend, st.job, st.sent, s);
  }

  lemma RemoveEndedKeepsFrames(st: State, s: Sub)
    requires Inv(st) && Enabled(st, Step.RemoveEnded(s))
    ensures Frames(Apply(st, Step.RemoveEnded(s)))
  {
    PlacesAfterRemove(st.table, st.toSend, st.job, st.sent, s);
  }

  lemma RemoveEndedKeeps(st: State, s: Sub)
    requires Inv(st) && Enabled(st, Step.RemoveEnded(s))
    ensures Inv(Apply(st, Step.RemoveEnded(s)))
  {
    RemoveEndedKeepsAccounts(st, s);
    RemoveEndedKeepsFrames(st, s);
  }

  lemma WriteUnsubscribeKeepsAccounts(st: State, ok: bool)
    requires Inv(st) && Enabled(st, Step.WriteUnsubscribe(ok))
    ensures Accounts(Apply(st, Step.WriteUnsubscribe(ok)))
  {
  }

  lemma WriteUnsubscribeKeepsFrames(st: State, ok: bool)
    requires Inv(st) && Enabled(st, Step.WriteUnsubscribe(ok))
    ensures Frames(Apply(st, Step.WriteUnsubscribe(ok)))
  {
    WireAfterWrite(st.wire, st.sent, st.removed, st.job.conn, Unsubscribe(st.job.sub));
  }

  lemma WriteUnsubscribeKeeps(st: State, ok: bool)
    requires Inv(st) && Enabled(st, Step.WriteUnsubscribe(ok))
    ensures Inv(Apply(st, Step.WriteUnsubscribe(ok)))
  {
    WriteUnsubscribeKeepsAccounts(st, ok);
    WriteUnsubscribeKeepsFrames(st, ok);
  }

  lemma TakeAwaitingOfEndedKeeps(st: State, s: Sub)
    requires Inv(st) && Enabled(st, Step.TakeAwaitingOfEnded(s))
    ensures Inv(Apply(st, Step.TakeAwaitingOfEnded(s)))
  {
    if s in st.awaiting {
      var k := st.awaiting[s];
      assert (k, s) in st.sent;
      SlotsAfterTake(st.table.conn, st.table.inFlight, st.awaiting, st.job, st.releasing, HeldBy(st.reader), s);
      ReleasingAfterAdd(st.releasing, st.run, st.sent, st.toSend, st.wire, st.job, k, s);
      AwaitingAfterTake(st.job, st.reader, st.sent, st.awaiting, s);
      PatchAfterTake(st.run, FailingSub(st.reader), st.sent, st.wants, st.ended, st.hasCur, st.awaiting, s);
    }
  }

  lemma DialKeeps(st: State, k: Conn)
    requires Inv(st) && Enabled(st, Step.Dial(k))
    ensures Inv(Apply(st, Step.Dial(k)))
  {
  }

  lemma MarkConnectedKeeps(st: State)
    requires Inv(st) && Enabled(st, Step.MarkConnected)
    ensures Inv(Apply(st, Step.MarkConnected))
  {
  }

  lemma ReaderEndsKeeps(st: State)
    requires Inv(st) && Enabled(st, Step.ReaderEnds)
    ensures Inv(Apply(st, Step.ReaderEnds))
  {
  }

  lemma ConnectFailsKeeps(st: State)
    requires Inv(st) && Enabled(st, Step.ConnectFails)
    ensures Inv(Apply(st, Step.ConnectFails))
  {
  }

  lemma MarkDisconnectedKeeps(st: State)
    requires Inv(st) && Enabled(st, Step.MarkDisconnected)
    ensures Inv(Apply(st, Step.MarkDisconnected))
  {
  }

  lemma ConnLostKeeps(st: State, s: Sub)
    requires Inv(st) && Enabled(st, Step.ConnLost(s))
    ensures Inv(Apply(st, Step.ConnLost(s)))
  {
  }

  lemma FailLaterKeeps(st: State, s: Sub)
    requires Inv(st) && Enabled(st, Step.FailLater(s))
    ensures Inv(Apply(st, Step.FailLater(s)))
  {
    if s !in st.ended { EndAfterClose(st.ending, st.ended, st.removed, st.untaken, s); }
  }

  lemma ShutdownKeeps(st: State)
    requires Inv(st) && Enabled(st, Step.Shutdown)
    ensures Inv(Apply(st, Step.Shutdown))
  {
  }

  lemma ResultArrivesKeeps(st: State, s: Sub)
    requires Inv(st) && Enabled(st, Step.ResultArrives(s))
    ensures Inv(Apply(st, Step.ResultArrives(s)))
  {
  }

  lemma DeliverKeeps(st: State, d: bool)
    requires Inv(st) && Enabled(st, Step.Deliver(d))
    ensures Inv(Apply(st, Step.Deliver(d)))
  {
    if st.reader.sub !in st.ended { EndAfterClose(st.ending, st.ended, st.removed, st.untaken, st.reader.sub); }
  }

  lemma TakeAnsweredKeeps(st: State)
    requires Inv(st) && Enabled(st, Step.TakeAnswered)
    ensures Inv(Apply(st, Step.TakeAnswered))
  {
    var s := st.reader.sub;
    if s in st.awaiting {
      SlotsAfterTake(st.table.conn, st.table.inFlight, st.awaiting, st.job, st.releasing, HeldBy(st.reader), s);
      AwaitingAfterTake(st.job, st.reader, st.sent, st.awaiting, s);
      PatchAfterTake(st.run, FailingSub(st.reader), st.sent, st.wants, st.ended, st.hasCur, st.awaiting, s);
    }
  }

  lemma TakeResendKeepsAccounts(st: State)
    requires Inv(st) && Enabled(st, Step.TakeResend)
    ensures Accounts(Apply(st, Step.TakeResend))
  {
    var k, s := st.reader.conn, st.reader.sub;
    assert (k, s) in st.sent;
    if s !in st.resend {
      SlotsAfterHandOver(st.table.conn, st.table.inFlight, st.awaiting, st.job, st.releasing, k, s);
      ReleasingAfterAdd(st.releasing, st.run, st.sent, st.toSend, st.wire, st.job, k, s);
    }
  }

  lemma TakeResendKeepsFrames(st: State)
    requires Inv(st) && Enabled(st, Step.TakeResend)
    ensures Frames(Apply(st, Step.TakeResend))
  {
  }

  lemma TakeResendKeeps(st: State)
    requires Inv(st) && Enabled(st, Step.TakeResend)
    ensures Inv(Apply(st, Step.TakeResend))
  {
    TakeResendKeepsAccounts(st);
    TakeResendKeepsFrames(st);
  }

  lemma ResendKeepsAccounts(st: State)
    requires Inv(st) && Enabled(st, Step.CheckResend)
    requires st.reader.sub in st.table.subs && st.table.conn == Some(st.reader.conn)
    ensures Accounts(Apply(st, Step.CheckResend))
  {
    var k, s := st.reader.conn, st.reader.sub;
    assert (k, s) in st.sent;
    SlotsAfterHandOver(st.table.conn, st.table.inFlight, st.awaiting, st.job, st.releasing, k, s);
    PlacesAfterResend(st.table, st.toSend, st.sent, k, s);
    JobAfterResend(st.reader, st.sent, st.awaiting, k, s);
  }

  lemma NoResendKeepsAccounts(st: State)
    requires Inv(st) && Enabled(st, Step.CheckResend)
    requires !(st.reader.sub in st.table.subs && st.table.conn == Some(st.reader.conn))
    ensures Accounts(Apply(st, Step.CheckResend))
  {
    var k, s := st.reader.conn, st.reader.sub;
    assert (k, s) in st.sent;
    SlotsAfterHandOver(st.table.conn, st.table.inFlight, st.awaiting, st.job, st.releasing, k, s);
    ReleasingAfterAdd(st.releasing, st.run, st.sent, st.toSend, st.wire, st.job, k, s);
  }

  lemma CheckResendKeepsAccounts(st: State)
    requires Inv(st) && Enabled(st, Step.CheckResend)
    ensures Accounts(Apply(st, Step.CheckResend))
  {
    if st.reader.sub in st.table.subs && st.table.conn == Some(st.reader.conn) {
      ResendKeepsAccounts(st);
    } else {
      NoResendKeepsAccounts(st);
    }
  }

  lemma CheckResendKeepsFrames(st: State)
    requires Inv(st) && Enabled(st, Step.CheckResend)
    ensures Frames(Apply(st, Step.CheckResend))
  {
  }

  lemma CheckResendKeeps(st: State)
    requires Inv(st) && Enabled(st, Step.CheckResend)
    ensures Inv(Apply(st, Step.CheckResend))
  {
    CheckResendKeepsAccounts(st);
    CheckResendKeepsFrames(st);
  }

  lemma ErrorArrivesKeeps(st: State, s: Sub)
    requires Inv(st) && Enabled(st, Step.ErrorArrives(s))
    ensures Inv(Apply(st, Step.ErrorArrives(s)))
  {
  }

  lemma TakeErrorKeeps(st: State)
    requires Inv(st) && Enabled(st, Step.TakeError)
    ensures Inv(Apply(st, Step.TakeError))
  {
    var s := st.reader.sub;
    if s in st.awaiting {
      var k := st.awaiting[s];
      assert (k, s) in st.sent;
      SlotsAfterTake(st.table.conn, st.table.inFlight, st.awaiting, st.job, st.releasing, HeldBy(st.reader), s);
      ReleasingAfterAdd(st.releasing, st.run, st.sent, st.toSend, st.wire, st.job, k, s);
      AwaitingAfterTake(st.job, st.reader, st.sent, st.awaiting, s);
      PatchAfterTake(st.run, FailingSub(st.reader), st.sent, st.wants, st.ended, st.hasCur, st.awaiting, s);
    }
  }

  lemma FailNowKeeps(st: State)
    requires Inv(st) && Enabled(st, Step.FailNow)
    ensures Inv(Apply(st, Step.FailNow))
  {
    if st.reader.sub !in st.ended { EndAfterClose(st.ending, st.ended, st.removed, st.untaken, st.reader.sub); }
  }

  lemma PatchArrivesKeeps(st: State, s: Sub)
    requires Inv(st) && Enabled(st, Step.PatchArrives(s))
    ensures Inv(Apply(st, Step.PatchArrives(s)))
  {
  }

  lemma TryPatchKeeps(st: State)
    requires Inv(st) && Enabled(st, Step.TryPatch)
    ensures Inv(Apply(st, Step.TryPatch))
  {
    var s := st.reader.sub;
    if s !in st.ended && (s !in st.wants || s !in st.hasCur) {
      PatchAfterTry(st.run, s, st.sent, st.wants, st.ended, st.hasCur, st.removed, st.awaiting);
    }
  }

  lemma CheckAwaitingKeeps(st: State)
    requires Inv(st) && Enabled(st, Step.CheckAwaiting)
    ensures Inv(Apply(st, Step.CheckAwaiting))
  {
    var k, s := st.run.conn, st.reader.sub;
    if !(s in st.awaiting && st.awaiting[s] == k) {
      PlacesAfterStray(st.table, st.toSend, st.job, st.sent, k, s);
    }
  }

  lemma MarkResendKeeps(st: State)
    requires Inv(st) && Enabled(st, Step.MarkResend)
    ensures Inv(Apply(st, Step.MarkResend))
  {
  }

  ghost predicate OfReader(step: Step) {
    || step.ResultArrives? || step.Deliver? || step.TakeAnswered? || step.TakeResend? || step.CheckResend?
    || step.ErrorArrives? || step.TakeError? || step.FailNow? || step.PatchArrives? || step.TryPatch?
    || step.CheckAwaiting? || step.MarkResend?
  }

  lemma ResultStepKeeps(st: State, step: Step)
    requires Inv(st) && Enabled(st, step)
    requires step.ResultArrives? || step.Deliver? || step.TakeAnswered? || step.TakeResend? || step.CheckResend?
    ensures Inv(Apply(st, step))
  {
    match step
    case ResultArrives(s) => ResultArrivesKeeps(st, s);
    case Deliver(d) => DeliverKeeps(st, d);
    case TakeAnswered => TakeAnsweredKeeps(st);
    case TakeResend => TakeResendKeeps(st);
    case CheckResend => CheckResendKeeps(st);
    case _ =>
  }

  lemma ErrorStepKeeps(st: State, step: Step)
    requires Inv(st) && Enabled(st, step) && (step.ErrorArrives? || step.TakeError? || step.FailNow?)
    ensures Inv(Apply(st, step))
  {
    match step
    case ErrorArrives(s) => ErrorArrivesKeeps(st, s);
    case TakeError => TakeErrorKeeps(st);
    case FailNow => FailNowKeeps(st);
    case _ =>
  }

  lemma PatchStepKeeps(st: State, step: Step)
    requires Inv(st) && Enabled(st, step)
    requires step.PatchArrives? || step.TryPatch? || step.CheckAwaiting? || step.MarkResend?
    ensures Inv(Apply(st, step))
  {
    match step
    case PatchArrives(s) => PatchArrivesKeeps(st, s);
    case TryPatch => TryPatchKeeps(st);
    case CheckAwaiting => CheckAwaitingKeeps(st);
    case MarkResend => MarkResendKeeps(st);
    case _ =>
  }

  lemma ReaderStepKeeps(st: State, step: Step)
    requires Inv(st) && Enabled(st, step) && OfReader(step)
    ensures Inv(Apply(st, step))
  {
    if step.ErrorArrives? || step.TakeError? || step.FailNow? {
      ErrorStepKeeps(st, step);
    } else if step.PatchArrives? || step.TryPatch? || step.CheckAwaiting? || step.MarkResend? {
      PatchStepKeeps(st, step);
    } else {
      ResultStepKeeps(st, step);
    }
  }

  ghost predicate OfSender(step: Step) {
    || step.NewSubscription? || step.SendSubscribe? || step.MarkSent? || step.WriteSubscribe?
    || step.ReleaseSubSlot?
  }

  lemma SenderStepKeeps(st: State, step: Step)
    requires Inv(st) && Enabled(st, step) && OfSender(step)
    ensures Inv(Apply(st, step))
  {
    match step
    case NewSubscription(s, w) => NewSubscriptionKeeps(st, s, w);
    case SendSubscribe(k, s) => SendSubscribeKeeps(st, k, s);
    case MarkSent => MarkSentKeeps(st);
    case WriteSubscribe(o) => WriteSubscribeKeeps(st, o);
    case ReleaseSubSlot(k) => ReleaseSubSlotKeeps(st, k);
    case _ =>
  }

  ghost predicate OfEnd(step: Step) {
    || step.StartEnd? || step.RemoveEnded? || step.WriteUnsubscribe? || step.TakeAwaitingOfEnded? || step.FailLater?
    || step.ConnLost?
  }

  lemma EndStepKeeps(st: State, step: Step)
    requires Inv(st) && Enabled(st, step) && OfEnd(step)
    ensures Inv(Apply(st, step))
  {
    match step
    case StartEnd(s) => StartEndKeeps(st, s);
    case RemoveEnded(s) => RemoveEndedKeeps(st, s);
    case WriteUnsubscribe(ok) => WriteUnsubscribeKeeps(st, ok);
    case TakeAwaitingOfEnded(s) => TakeAwaitingOfEndedKeeps(st, s);
    case FailLater(s) => FailLaterKeeps(st, s);
    case ConnLost(s) => ConnLostKeeps(st, s);
    case _ =>
  }

  lemma ConnStepKeeps(st: State, step: Step)
    requires Inv(st) && Enabled(st, step) && !OfReader(step) && !OfSender(step) && !OfEnd(step)
    ensures Inv(Apply(st, step))
  {
    match step
    case Dial(k) => DialKeeps(st, k);
    case MarkConnected => MarkConnectedKeeps(st);
    case ReaderEnds => ReaderEndsKeeps(st);
    case ConnectFails => ConnectFailsKeeps(st);
    case MarkDisconnected => MarkDisconnectedKeeps(st);
    case Shutdown => ShutdownKeeps(st);
    case _ =>
  }

  lemma StepKeeps(st: State, step: Step)
    requires Inv(st) && Enabled(st, step)
    ensures Inv(Apply(st, step))
  {
    if OfReader(step) {
      ReaderStepKeeps(st, step);
    } else if OfSender(step) {
      SenderStepKeeps(st, step);
    } else if OfEnd(step) {
      EndStepKeeps(st, step);
    } else {
      ConnStepKeeps(st, step);
    }
  }

  // ---------------------------------------------------------------------------
  // Over every run
  // ---------------------------------------------------------------------------

  ghost predicate Moves(run: seq<State>, i: nat)
    requires i + 1 < |run|
  {
    exists step :: Enabled(run[i], step) && run[i + 1] == Apply(run[i], step)
  }

  ghost predicate IsRun(run: seq<State>) {
    && run != [] && run[0] == INIT
    && (forall i :: 0 <= i < |run| - 1 ==> Moves(run, i))
  }

  lemma MoveKeeps(run: seq<State>, i: nat)
    requires IsRun(run) && 0 < i < |run| && Inv(run[i - 1])
    ensures Inv(run[i])
  {
    assert Moves(run, i - 1);
    var step :| Enabled(run[i - 1], step) && run[i] == Apply(run[i - 1], step);
    StepKeeps(run[i - 1], step);
  }

  lemma {:induction false} RunKeeps(run: seq<State>, i: nat)
    requires IsRun(run) && i < |run|
    ensures Inv(run[i])
  {
    if i == 0 {
      InitHolds();
    } else {
      RunKeeps(run, i - 1);
      MoveKeeps(run, i);
    }
  }

  lemma OnceMeansDistinct(q: seq<Sub>, a: nat, b: nat)
    requires a < b < |q| && multiset(q)[q[a]] <= 1
    ensures q[a] != q[b]
  {
    assert q == q[..a] + [q[a]] + q[a + 1..] && q[b] == q[a + 1..][b - a - 1];
    assert multiset(q) == multiset(q[..a]) + multiset{q[a]} + multiset(q[a + 1..]);
  }

  /** At most 64 slots are held, each by exactly one holder, and nobody queues twice or while a slot is free. */
  lemma SlotsAreAccountedFor(run: seq<State>, i: nat)
    requires IsRun(run) && i < |run| && run[i].table.conn.Some?
    ensures var st := run[i];
            var k := st.table.conn.value;
            && st.table.inFlight == |AwaitingOn(st.awaiting, k)| + |Unmarked(st.job, k)| + st.releasing[k]
                                    + (if HeldBy(st.reader) == Some(k) then 1 else 0)
            && st.table.inFlight <= MAX_SUBSCRIBES_IN_FLIGHT
            && (st.table.queue != [] ==> st.table.inFlight == MAX_SUBSCRIBES_IN_FLIGHT)
            && Distinct(st.table.queue) && (forall s :: s in st.table.queue ==> s in st.table.subs)
  {
    RunKeeps(run, i);
    var st := run[i];
    var q, k := st.table.queue, st.table.conn.value;
    forall a, b | 0 <= a < b < |q| ensures q[a] != q[b] {
      assert Places(st.toSend, q, st.job, st.sent, k, q[a]) == 1;
      OnceMeansDistinct(q, a, b);
    }
  }

  /** On every connection, current or old: one first frame and one unsubscribe per ID, never a subscribe after it. */
  lemma FramesAreOrdered(run: seq<State>, i: nat, k: Conn)
    requires IsRun(run) && i < |run|
    ensures Ordered(Wire(run[i], k)) && SentOnce(Wire(run[i], k))
  {
    RunKeeps(run, i);
  }

  /** The server is not left with a subscription the client has dropped. */
  lemma EndedSubscriptionsAreUnsubscribed(run: seq<State>, i: nat, s: Sub, again: bool)
    requires IsRun(run) && i < |run| && run[i].table.conn.Some? && run[i].table.conn.value !in run[i].broken
    requires s !in run[i].table.subs && Subscribe(s, again) in Wire(run[i], run[i].table.conn.value)
    ensures Unsubscribe(s) in Wire(run[i], run[i].table.conn.value)
            || run[i].job == Unsubscribing(s, run[i].table.conn.value)
  {
    RunKeeps(run, i);
    var st := run[i];
    var k := st.table.conn.value;
    assert (k, Subscribe(s, again).sub) in st.sent;
  }

  /** A patch meets a result of the connection it came on, or a subscription that awaits its first answer there. */
  lemma PatchesMeetFreshValues(run: seq<State>, i: nat, s: Sub)
    requires IsRun(run) && i < |run| && !run[i].closed
    requires run[i].reader == GotPatch(s) && s !in run[i].ended
    ensures var st := run[i];
            && st.run.Live?
            && (s in st.hasCur ==> (st.run.conn, s) in st.answers)
            && (s !in st.hasCur ==> s in AwaitingOn(st.awaiting, st.run.conn))
  {
    RunKeeps(run, i);
    var st := run[i];
    assert !st.run.Down?;
    assert (st.run.conn, s) in st.sent;
  }
}
