/**
 * Every interleaving of the client's subscription protocol: Subscribe, answers,
 * errors, patches, Close, oversized frames, drops, reconnects and shutdown.
 *
 * The server is arbitrary except in two points: it sends a result or a patch
 * only for a subscription whose subscribe frame it has got on this connection,
 * and a patch only if that frame asked for patches. Results may be sent any
 * number of times, and errors may carry any ID at any time.
 */
module ClientProtocol {
  import opened Common
  import opened ClientSubscriptions

  /** resend tells a re-sent subscribe frame from the first one on a connection. */
  datatype Frame = Subscribe(sub: Sub, resend: bool) | Unsubscribe(sub: Sub)

  /** What the holder of subSendMu has still to do; Free when nobody holds it. */
  datatype Job =
    | Free
    | Sending(conn: Conn, toWrite: seq<Sub>, marked: bool, resend: bool)
    | Unsubscribing(sub: Sub, conn: Conn)

  /** The read goroutine between two of its critical sections. */
  datatype Reader =
    | Idle
    | GotResult(sub: Sub)
    | Delivered(sub: Sub)
    | Answered(conn: Conn, sub: Sub)
    | Resending(conn: Conn, sub: Sub)
    | GotError(sub: Sub)
    | Failing(sub: Sub)
    | GotPatch(sub: Sub)
    | Unpatched(sub: Sub)
    | Marking(sub: Sub)
    | Ended

  /** The connection the run goroutine supervises. */
  datatype Run = Down | Handshaking(conn: Conn) | Live(conn: Conn)

  datatype State = State(
    table: Table,
    closed: bool,                    // Client.closed
    made: set<Sub>,                  // every subscription ever registered
    awaiting: map<Sub, Conn>,        // Subscription.awaiting, absent when nil
    resend: set<Sub>,                // Subscription.resend
    ended: set<Sub>,                 // Subscription.closed
    hasCur: set<Sub>,                // Subscription.hasCur
    wants: set<Sub>,                 // subscriptions made with WithPatch
    toSend: multiset<(Conn, Sub)>,   // sendSubscribe calls not yet at their check
    releasing: multiset<Conn>,       // releaseSubSlot calls not yet at their section
    ending: set<Sub>,                // end: closed, not yet out of the table
    untaken: set<Sub>,               // end: out of the table, takeAwaiting still to come
    job: Job,
    reader: Reader,
    run: Run,
    lost: set<Sub>,                  // connLost calls still to come
    toFail: set<Sub>,                // fail calls still to come: shutdown's, and those started for oversized frames
    // History, for stating properties only.
    wire: map<Conn, seq<Frame>>,     // frames written on each connection
    sent: set<(Conn, Sub)>,          // subscriptions marked as sent on a connection
    answers: set<(Conn, Sub)>,       // subscriptions that got a result on a connection
    removed: set<Sub>,               // subscriptions end has taken out of the table
    broken: set<Conn>,               // connections on which a write failed
    oversized: set<(Conn, Sub)>      // subscriptions whose frame was too large
  )

  datatype Outcome = Written | TooLarge | Failed

  datatype Step =
    | NewSubscription(sub: Sub, wantsPatch: bool)
    | SendSubscribe(conn: Conn, sub: Sub)
    | MarkSent
    | WriteSubscribe(outcome: Outcome)
    | ReleaseSubSlot(conn: Conn)
    | StartEnd(sub: Sub)
    | RemoveEnded(sub: Sub)
    | WriteUnsubscribe(ok: bool)
    | TakeAwaitingOfEnded(sub: Sub)
    | Dial(conn: Conn)
    | MarkConnected
    | ReaderEnds
    | ConnectFails
    | MarkDisconnected
    | ConnLost(sub: Sub)
    | FailLater(sub: Sub)
    | Shutdown
    | ResultArrives(sub: Sub)
    | Deliver(decodes: bool)
    | TakeAnswered
    | TakeResend
    | CheckResend
    | ErrorArrives(sub: Sub)
    | TakeError
    | FailNow
    | PatchArrives(sub: Sub)
    | TryPatch
    | CheckAwaiting
    | MarkResend

  const INIT := State(Table(None, {}, 0, []), false, {}, map[], {}, {}, {}, {}, multiset{}, multiset{},
                      {}, {}, Free, Ended, Down, {}, {}, map[], {}, {}, {}, {}, {})

  function Wire(st: State, k: Conn): seq<Frame> { if k in st.wire then st.wire[k] else [] }

  function Append(st: State, k: Conn, f: Frame): State { st.(wire := st.wire[k := Wire(st, k) + [f]]) }

  function Take(st: State, s: Sub): State { st.(awaiting := st.awaiting - {s}) }

  /** The server has got s's subscribe frame on the connection being read. */
  ghost predicate Received(st: State, s: Sub) {
    !st.run.Down? && exists again :: Subscribe(s, again) in Wire(st, st.run.conn)
  }

  /** newID counts up, so an ID it hands out is mentioned nowhere. */
  ghost predicate UnusedSub(st: State, s: Sub) {
    && s !in st.made && s !in st.table.subs && s !in st.table.queue
    && s !in st.ended && s !in st.hasCur && s !in st.removed
    && (forall k :: (k, s) !in st.toSend && (k, s) !in st.sent)
    && (st.job.Sending? ==> s !in st.job.toWrite)
    && (!st.reader.Idle? && !st.reader.Ended? ==> st.reader.sub != s)
  }

  /** Connections are compared by identity, so a newly dialled one is mentioned nowhere. */
  ghost predicate UnusedConn(st: State, k: Conn) {
    && k !in st.wire && k !in st.releasing
    && (forall s :: (k, s) !in st.toSend && (k, s) !in st.sent)
    && (!st.job.Free? ==> st.job.conn != k)
  }

  ghost predicate Enabled(st: State, step: Step) {
    match step
    case NewSubscription(s, _) => !st.closed && UnusedSub(st, s)
    case SendSubscribe(k, s) => (k, s) in st.toSend && st.job.Free?
    case MarkSent => st.job.Sending? && !st.job.marked && st.job.toWrite != []
    case WriteSubscribe(_) => st.job.Sending? && st.job.marked && st.job.toWrite != []
    case ReleaseSubSlot(k) => k in st.releasing && st.job.Free?
    case StartEnd(s) => s in st.made && s !in st.ended
    case RemoveEnded(s) => s in st.ending && st.job.Free?
    case WriteUnsubscribe(_) => st.job.Unsubscribing?
    case TakeAwaitingOfEnded(s) => s in st.untaken
    case Dial(k) => st.run.Down? && st.lost == {} && st.reader.Ended? && UnusedConn(st, k)
    case MarkConnected => st.run.Handshaking? && !st.closed
    case ReaderEnds => st.reader.Idle?
    case ConnectFails => st.run.Handshaking? && st.reader.Ended?
    case MarkDisconnected => st.run.Live? && st.reader.Ended?
    case ConnLost(s) => s in st.lost
    case FailLater(s) => s in st.toFail
    case Shutdown => !st.closed
    case ResultArrives(s) => st.reader.Idle? && s in st.table.subs && Received(st, s)
    case Deliver(_) => st.reader.GotResult?
    case TakeAnswered => st.reader.Delivered?
    case TakeResend => st.reader.Answered?
    case CheckResend => st.reader.Resending? && st.job.Free?
    case ErrorArrives(s) => st.reader.Idle? && s in st.table.subs
    case TakeError => st.reader.GotError?
    case FailNow => st.reader.Failing?
    case PatchArrives(s) => st.reader.Idle? && s in st.table.subs && Received(st, s) && s in st.wants
    case TryPatch => st.reader.GotPatch?
    case CheckAwaiting => st.reader.Unpatched? && !st.run.Down?
    case MarkResend => st.reader.Marking?
  }

  /** closeWith, which only the first caller gets past. */
  function CloseOnce(st: State, s: Sub): State {
    if s in st.ended then st else st.(ended := st.ended + {s}, ending := st.ending + {s})
  }

  function JobFor(k: Conn, next: seq<Sub>): Job { if next == [] then Free else Sending(k, next, false, false) }

  function AfterWrite(j: Job): Job
    requires j.Sending? && j.toWrite != []
  {
    if |j.toWrite| == 1 then Free else j.(toWrite := j.toWrite[1..], marked := false)
  }

  function Apply(st: State, step: Step): State
    requires Enabled(st, step)
  {
    match step
    case NewSubscription(s, wantsPatch) =>
      st.(made := st.made + {s},
          wants := if wantsPatch then st.wants + {s} else st.wants,
          table := st.table.(subs := st.table.subs + {s}),
          toSend := if st.table.conn.Some? then st.toSend + multiset{(st.table.conn.value, s)} else st.toSend)
    case SendSubscribe(k, s) =>
      var (t, outcome) := Admit(st.table, k, s);
      st.(toSend := st.toSend - multiset{(k, s)}, table := t,
          job := if outcome.Admitted? then Sending(k, [s], false, false) else Free)
    case MarkSent =>
      var s := st.job.toWrite[0];
      st.(awaiting := st.awaiting[s := st.job.conn], job := st.job.(marked := true),
          sent := st.sent + {(st.job.conn, s)})
    case WriteSubscribe(outcome) =>
      var j := st.job;
      var written := match outcome
        case Written => Append(st, j.conn, Subscribe(j.toWrite[0], j.resend))
        case TooLarge => st.(oversized := st.oversized + {(j.conn, j.toWrite[0])}, toFail := st.toFail + {j.toWrite[0]})
        case Failed => st.(broken := st.broken + {j.conn});
      written.(job := AfterWrite(j))
    case ReleaseSubSlot(k) =>
      var (t, next) := ReleaseSlot(st.table, k);
      st.(releasing := st.releasing - multiset{k}, table := t,
          job := JobFor(k, next))
    case StartEnd(s) => CloseOnce(st, s)
    case RemoveEnded(s) =>
      var st' := st.(ending := st.ending - {s}, table := Remove(st.table, s), removed := st.removed + {s});
      if st.table.conn.Some? then st'.(job := Unsubscribing(s, st.table.conn.value))
      else st'.(untaken := st.untaken + {s})
    case WriteUnsubscribe(ok) =>
      var written := if ok then Append(st, st.job.conn, Unsubscribe(st.job.sub))
                     else st.(broken := st.broken + {st.job.conn});
      written.(job := Free, untaken := st.untaken + {st.job.sub})
    case TakeAwaitingOfEnded(s) =>
      if s in st.awaiting then
        Take(st, s).(untaken := st.untaken - {s}, releasing := st.releasing + multiset{st.awaiting[s]})
      else st.(untaken := st.untaken - {s})
    case Dial(k) => st.(run := Handshaking(k), reader := Idle)
    case MarkConnected =>
      var k := st.run.conn;
      st.(run := Live(k), table := Connect(st.table, k),
          toSend := st.toSend + multiset(set s | s in st.table.subs :: (k, s)))
    case ReaderEnds => st.(reader := Ended)
    case ConnectFails => st.(run := Down)
    case MarkDisconnected =>
      if st.table.conn == Some(st.run.conn) then
        st.(run := Down, table := Disconnect(st.table), lost := st.table.subs)
      else st.(run := Down)
    case ConnLost(s) =>
      Take(st, s).(lost := st.lost - {s}, hasCur := st.hasCur - {s}, resend := st.resend - {s})
    case FailLater(s) => CloseOnce(st, s).(toFail := st.toFail - {s})
    case Shutdown =>
      st.(closed := true, table := st.table.(conn := None, subs := {}), toFail := st.toFail + st.table.subs)
    case ResultArrives(s) => st.(reader := GotResult(s))
    case Deliver(decodes) =>
      var s := st.reader.sub;
      if !decodes then CloseOnce(st, s).(reader := Delivered(s))
      else if s in st.ended then st.(reader := Delivered(s))
      else st.(reader := Delivered(s),
               hasCur := if s in st.wants then st.hasCur + {s} else st.hasCur,
               answers := if st.run.Down? then st.answers else st.answers + {(st.run.conn, s)})
    case TakeAnswered =>
      var s := st.reader.sub;
      if s in st.awaiting then Take(st, s).(reader := Answered(st.awaiting[s], s)) else st.(reader := Idle)
    case TakeResend =>
      var k, s := st.reader.conn, st.reader.sub;
      if s in st.resend then st.(reader := Resending(k, s), resend := st.resend - {s})
      else st.(reader := Idle, releasing := st.releasing + multiset{k})
    case CheckResend =>
      var k, s := st.reader.conn, st.reader.sub;
      if s in st.table.subs && st.table.conn == Some(k) then st.(reader := Idle, job := Sending(k, [s], false, true))
      else st.(reader := Idle, releasing := st.releasing + multiset{k})
    case ErrorArrives(s) => st.(reader := GotError(s))
    case TakeError =>
      var s := st.reader.sub;
      if s in st.awaiting then
        Take(st, s).(reader := Failing(s), releasing := st.releasing + multiset{st.awaiting[s]})
      else st.(reader := Idle)
    case FailNow => CloseOnce(st, st.reader.sub).(reader := Idle)
    case PatchArrives(s) => st.(reader := GotPatch(s))
    case TryPatch =>
      var s := st.reader.sub;
      if s !in st.ended && (s !in st.wants || s !in st.hasCur) then st.(reader := Unpatched(s))
      else st.(reader := Idle)
    case CheckAwaiting =>
      var k, s := st.run.conn, st.reader.sub;
      if s in st.awaiting && st.awaiting[s] == k then st.(reader := Marking(s))
      else st.(reader := Idle, toSend := st.toSend + multiset{(k, s)})
    case MarkResend => st.(reader := Idle, resend := st.resend + {st.reader.sub})
  }
}
