/**
 * What becomes of every subscription the client has opened: its frame reaches
 * the wire, its answer is awaited or has come, a re-send it needs is not
 * forgotten, and what has to be closed is closed.
 */
module ClientDelivery {
  import opened Common
  import opened ClientSubscriptions
  import opened ClientProtocol
  import opened ClientProtocolProofs

  // ---------------------------------------------------------------------------
  // Invariant
  // ---------------------------------------------------------------------------

  ghost predicate OnWire(wire: map<Conn, seq<Frame>>, k: Conn, s: Sub) { k in wire && Subscribe(s, false) in wire[k] }

  /** The first frame for s on k is marked and about to be written. */
  ghost predicate BeingWritten(job: Job, k: Conn, s: Sub) {
    job.Sending? && job.marked && !job.resend && job.conn == k && job.toWrite != [] && job.toWrite[0] == s
  }

  /** Marked as sent means written, unless the write failed or the frame was too large. */
  ghost predicate WrittenInv(sent: set<(Conn, Sub)>, broken: set<Conn>, oversized: set<(Conn, Sub)>,
                             wire: map<Conn, seq<Frame>>, job: Job)
  {
    forall p :: p in sent ==>
      p.0 in broken || p in oversized || OnWire(wire, p.0, p.1) || BeingWritten(job, p.0, p.1)
  }

  /** An open subscription sent on the current connection awaits an answer, or has had one. */
  ghost predicate AnsweredInv(run: Run, sent: set<(Conn, Sub)>, ended: set<Sub>, awaiting: map<Sub, Conn>,
                              answers: set<(Conn, Sub)>, reader: Reader)
  {
    && (!run.Down? ==> forall s :: (run.conn, s) in sent && s !in ended ==>
          s in AwaitingOn(awaiting, run.conn) || (run.conn, s) in answers || FailingSub(reader) == Some(s))
    && (reader.Delivered? && !run.Down? ==> reader.sub in ended || (run.conn, reader.sub) in answers)
  }

  /** Only what was sent is answered. */
  ghost predicate AnswersInv(answers: set<(Conn, Sub)>, sent: set<(Conn, Sub)>, run: Run, reader: Reader) {
    answers <= sent && (reader.GotResult? && !run.Down? ==> (run.conn, reader.sub) in sent)
  }

  /** The reader has taken s's answer and is about to see the re-send asked for, or an error closes s. */
  ghost predicate TakesOver(reader: Reader, k: Conn, s: Sub) {
    reader == Answered(k, s) || FailingSub(reader) == Some(s)
  }

  /** A re-send asked for waits on the first answer, until the reader takes both or the connection goes. */
  ghost predicate ResendInv(run: Run, closed: bool, ended: set<Sub>, awaiting: map<Sub, Conn>, resend: set<Sub>,
                            lost: set<Sub>, reader: Reader)
  {
    && (forall s :: s in resend && s !in ended && !closed ==>
          (run.Down? && s in lost) ||
          (run.Live? && (s in AwaitingOn(awaiting, run.conn) || TakesOver(reader, run.conn, s))))
    && (reader.Marking? && run.Live? && reader.sub !in ended ==> reader.sub in AwaitingOn(awaiting, run.conn))
  }

  /** What is not in the table any more is closed, or about to be. */
  ghost predicate ClosingInv(made: set<Sub>, subs: set<Sub>, toFail: set<Sub>, ended: set<Sub>,
                             oversized: set<(Conn, Sub)>)
  {
    && (forall s :: s in made ==> s in subs || s in toFail || s in ended)
    && (forall p :: p in oversized ==> p.1 in toFail || p.1 in ended)
  }

  /** What has been sent is on the wire, and answered or awaited. */
  ghost predicate SentWell(st: State) {
    && WrittenInv(st.sent, st.broken, st.oversized, st.wire, st.job)
    && AnsweredInv(st.run, st.sent, st.ended, st.awaiting, st.answers, st.reader)
    && AnswersInv(st.answers, st.sent, st.run, st.reader)
  }

  /** What has to be sent again or closed has not been forgotten. */
  ghost predicate Remembered(st: State) {
    && ResendInv(st.run, st.closed, st.ended, st.awaiting, st.resend, st.lost, st.reader)
    && ClosingInv(st.made, st.table.subs, st.toFail, st.ended, st.oversized)
  }

  ghost predicate Delivery(st: State) { SentWell(st) && Remembered(st) }

  lemma InitDelivers()
    ensures Delivery(INIT)
  {
  }

  // ---------------------------------------------------------------------------
  // Every step keeps it
  // ---------------------------------------------------------------------------

  /** What the proofs below need of the protocol's invariant. */
  ghost predicate Context(st: State) {
    && RunInv(st.table.conn, st.table.subs, st.closed, st.run, st.lost) && ReadingInv(st.run, st.reader)
    && HandshakeInv(st.run, st.sent, st.toSend, st.wire, st.releasing, st.job)
    && StaleJobInv(st.job, st.run, st.sent) && AwaitingSent(st.awaiting, st.sent)
    && EndInv(st.ending, st.ended, st.removed, st.untaken)
    && RemovedInv(st.table.subs, st.closed, st.removed, st.job, st.sent)
    && PatchReaderInv(st.run, st.reader, st.sent, st.wants, st.ended, st.hasCur)
    && UnpatchedInv(st.run, st.reader, st.removed, st.awaiting)
    && JobInv(st.job, st.sent, st.awaiting) && WireInv(st.wire, st.sent, st.removed)
  }

  /** The write leaves the frame on the wire, or the connection broken, or the frame known to be too large. */
  lemma WrittenAfterWrite(sent: set<(Conn, Sub)>, broken: set<Conn>, oversized: set<(Conn, Sub)>,
                          wire: map<Conn, seq<Frame>>, job: Job)
    requires WrittenInv(sent, broken, oversized, wire, job) && job.Sending? && job.marked && job.toWrite != []
    ensures var k, s, w := job.conn, job.toWrite[0], if job.conn in wire then wire[job.conn] else [];
            && WrittenInv(sent, broken, oversized, wire[k := w + [Subscribe(s, job.resend)]], AfterWrite(job))
            && WrittenInv(sent, broken + {k}, oversized, wire, AfterWrite(job))
            && WrittenInv(sent, broken, oversized + {(k, s)}, wire, AfterWrite(job))
  {
    var k, s, w := job.conn, job.toWrite[0], if job.conn in wire then wire[job.conn] else [];
    var wire' := wire[k := w + [Subscribe(s, job.resend)]];
    forall p | p in sent ensures p.0 in broken || p in oversized || OnWire(wire', p.0, p.1) {
      if OnWire(wire, p.0, p.1) {
        assert OnWire(wire', p.0, p.1);
      } else if BeingWritten(job, p.0, p.1) {
        assert OnWire(wire', p.0, p.1);
      }
    }
  }

  // What has been sent.

  lemma MarkSendsWell(st: State, step: Step)
    requires Context(st) && Delivery(st) && Enabled(st, step)
    requires step.MarkSent?
    ensures SentWell(Apply(st, step))
  {
  }

  lemma NewSendsWell(st: State, step: Step)
    requires Context(st) && Delivery(st) && Enabled(st, step)
    requires step.NewSubscription? || step.SendSubscribe? || step.ReleaseSubSlot?
    ensures SentWell(Apply(st, step))
  {
  }

  lemma CloseSendsWell(st: State, step: Step)
    requires Context(st) && Delivery(st) && Enabled(st, step)
    requires step.StartEnd? || step.FailLater?
    ensures SentWell(Apply(st, step))
  {
  }

  lemma RemoveSendsWell(st: State, step: Step)
    requires Context(st) && Delivery(st) && Enabled(st, step)
    requires step.RemoveEnded?
    ensures SentWell(Apply(st, step))
  {
  }

  lemma UnsubscribeSendsWell(st: State, step: Step)
    requires Context(st) && Delivery(st) && Enabled(st, step)
    requires step.WriteUnsubscribe?
    ensures SentWell(Apply(st, step))
  {
  }

  lemma UntakeSendsWell(st: State, step: Step)
    requires Context(st) && Delivery(st) && Enabled(st, step)
    requires step.TakeAwaitingOfEnded?
    ensures SentWell(Apply(st, step))
  {
  }

  lemma ConnSendsWell(st: State, step: Step)
    requires Context(st) && Delivery(st) && Enabled(st, step)
    requires step.Dial? || step.MarkConnected? || step.ReaderEnds? || step.ConnectFails?
    ensures SentWell(Apply(st, step))
  {
  }

  lemma DropSendsWell(st: State, step: Step)
    requires Context(st) && Delivery(st) && Enabled(st, step)
    requires step.MarkDisconnected? || step.ConnLost? || step.Shutdown?
    ensures SentWell(Apply(st, step))
  {
  }

  lemma ResultSendsWell(st: State, step: Step)
    requires Context(st) && Delivery(st) && Enabled(st, step)
    requires step.ResultArrives?
    ensures SentWell(Apply(st, step))
  {
  }

  lemma DeliverSendsWell(st: State, step: Step)
    requires Context(st) && Delivery(st) && Enabled(st, step)
    requires step.Deliver?
    ensures SentWell(Apply(st, step))
  {
  }

  lemma AnswerSendsWell(st: State, step: Step)
    requires Context(st) && Delivery(st) && Enabled(st, step)
    requires step.TakeAnswered?
    ensures SentWell(Apply(st, step))
  {
  }

  lemma TakeResendSendsWell(st: State, step: Step)
    requires Context(st) && Delivery(st) && Enabled(st, step)
    requires step.TakeResend?
    ensures SentWell(Apply(st, step))
  {
  }

  lemma CheckResendSendsWell(st: State, step: Step)
    requires Context(st) && Delivery(st) && Enabled(st, step)
    requires step.CheckResend?
    ensures SentWell(Apply(st, step))
  {
  }

  lemma ErrorArrivesSendsWell(st: State, step: Step)
    requires Context(st) && Delivery(st) && Enabled(st, step)
    requires step.ErrorArrives?
    ensures SentWell(Apply(st, step))
  {
  }

  lemma TakeErrorSendsWell(st: State, step: Step)
    requires Context(st) && Delivery(st) && Enabled(st, step)
    requires step.TakeError?
    ensures SentWell(Apply(st, step))
  {
  }

  lemma FailSendsWell(st: State, step: Step)
    requires Context(st) && Delivery(st) && Enabled(st, step)
    requires step.FailNow?
    ensures SentWell(Apply(st, step))
  {
  }

  lemma PatchArrivesSendsWell(st: State, step: Step)
    requires Context(st) && Delivery(st) && Enabled(st, step)
    requires step.PatchArrives?
    ensures SentWell(Apply(st, step))
  {
  }

  lemma TryPatchSendsWell(st: State, step: Step)
    requires Context(st) && Delivery(st) && Enabled(st, step)
    requires step.TryPatch?
    ensures SentWell(Apply(st, step))
  {
  }

  lemma CheckAwaitingSendsWell(st: State, step: Step)
    requires Context(st) && Delivery(st) && Enabled(st, step)
    requires step.CheckAwaiting?
    ensures SentWell(Apply(st, step))
  {
  }

  lemma MarkResendSendsWell(st: State, step: Step)
    requires Context(st) && Delivery(st) && Enabled(st, step)
    requires step.MarkResend?
    ensures SentWell(Apply(st, step))
  {
  }

  lemma WriteIs(st: State, outcome: Outcome)
    requires Enabled(st, WriteSubscribe(outcome))
    ensures var st', k, s := Apply(st, WriteSubscribe(outcome)), st.job.conn, st.job.toWrite[0];
      && st'.job == AfterWrite(st.job) && st'.sent == st.sent && st'.run == st.run && st'.ended == st.ended
      && st'.awaiting == st.awaiting && st'.answers == st.answers && st'.reader == st.reader
      && st'.wire == (if outcome.Written? then st.wire[k := Wire(st, k) + [Subscribe(s, st.job.resend)]] else st.wire)
      && st'.broken == (if outcome.Failed? then st.broken + {k} else st.broken)
      && st'.oversized == if outcome.TooLarge? then st.oversized + {(k, s)} else st.oversized
  {
  }

  lemma WriteAlsoIs(st: State, outcome: Outcome)
    requires Enabled(st, WriteSubscribe(outcome))
    ensures var st', s := Apply(st, WriteSubscribe(outcome)), st.job.toWrite[0];
      && st'.made == st.made && st'.table == st.table && st'.closed == st.closed && st'.resend == st.resend
      && st'.lost == st.lost && st'.toFail == if outcome.TooLarge? then st.toFail + {s} else st.toFail
  {
  }

  lemma TooLargeIsClosed(made: set<Sub>, subs: set<Sub>, toFail: set<Sub>, ended: set<Sub>,
                         oversized: set<(Conn, Sub)>, k: Conn, s: Sub)
    requires ClosingInv(made, subs, toFail, ended, oversized)
    ensures ClosingInv(made, subs, toFail + {s}, ended, oversized + {(k, s)})
  {
  }

  lemma WriteSendsWell(st: State, step: Step)
    requires Context(st) && Delivery(st) && Enabled(st, step)
    requires step.WriteSubscribe?
    ensures SentWell(Apply(st, step))
  {
    WriteIs(st, step.outcome);
    WrittenAfterWrite(st.sent, st.broken, st.oversized, st.wire, st.job);
  }

  lemma SenderStepSendsWell(st: State, step: Step)
    requires Context(st) && Delivery(st) && Enabled(st, step) && OfSender(step)
    ensures SentWell(Apply(st, step))
  {
    match step
    case MarkSent => MarkSendsWell(st, step);
    case NewSubscription(_, _) => NewSendsWell(st, step);
    case SendSubscribe(_, _) => NewSendsWell(st, step);
    case ReleaseSubSlot(_) => NewSendsWell(st, step);
    case WriteSubscribe(_) => WriteSendsWell(st, step);
    case _ =>
  }

  lemma EndStepSendsWell(st: State, step: Step)
    requires Context(st) && Delivery(st) && Enabled(st, step) && OfEnd(step)
    ensures SentWell(Apply(st, step))
  {
    match step
    case StartEnd(_) => CloseSendsWell(st, step);
    case FailLater(_) => CloseSendsWell(st, step);
    case RemoveEnded(_) => RemoveSendsWell(st, step);
    case WriteUnsubscribe(_) => UnsubscribeSendsWell(st, step);
    case TakeAwaitingOfEnded(_) => UntakeSendsWell(st, step);
    case ConnLost(_) => DropSendsWell(st, step);
    case _ =>
  }

  lemma ReaderStepSendsWell(st: State, step: Step)
    requires Context(st) && Delivery(st) && Enabled(st, step) && OfReader(step)
    ensures SentWell(Apply(st, step))
  {
    match step
    case ResultArrives(_) => ResultSendsWell(st, step);
    case Deliver(_) => DeliverSendsWell(st, step);
    case TakeAnswered => AnswerSendsWell(st, step);
    case TakeResend => TakeResendSendsWell(st, step);
    case CheckResend => CheckResendSendsWell(st, step);
    case ErrorArrives(_) => ErrorArrivesSendsWell(st, step);
    case TakeError => TakeErrorSendsWell(st, step);
    case FailNow => FailSendsWell(st, step);
    case PatchArrives(_) => PatchArrivesSendsWell(st, step);
    case TryPatch => TryPatchSendsWell(st, step);
    case CheckAwaiting => CheckAwaitingSendsWell(st, step);
    case MarkResend => MarkResendSendsWell(st, step);
    case _ =>
  }

  lemma StepSendsWell(st: State, step: Step)
    requires Context(st) && Delivery(st) && Enabled(st, step)
    ensures SentWell(Apply(st, step))
  {
    if OfReader(step) {
      ReaderStepSendsWell(st, step);
    } else if OfSender(step) {
      SenderStepSendsWell(st, step);
    } else if OfEnd(step) {
      EndStepSendsWell(st, step);
    } else if step.MarkDisconnected? || step.Shutdown? {
      DropSendsWell(st, step);
    } else {
      ConnSendsWell(st, step);
    }
  }

  // What has to be sent again or closed.

  lemma MarkRemembers(st: State, step: Step)
    requires Context(st) && Delivery(st) && Enabled(st, step)
    requires step.MarkSent?
    ensures Remembered(Apply(st, step))
  {
  }

  lemma NewRemembers(st: State, step: Step)
    requires Context(st) && Delivery(st) && Enabled(st, step)
    requires step.NewSubscription? || step.SendSubscribe? || step.ReleaseSubSlot?
    ensures Remembered(Apply(st, step))
  {
  }

  lemma CloseRemembers(st: State, step: Step)
    requires Context(st) && Delivery(st) && Enabled(st, step)
    requires step.StartEnd? || step.FailLater?
    ensures Remembered(Apply(st, step))
  {
  }

  lemma RemoveRemembers(st: State, step: Step)
    requires Context(st) && Delivery(st) && Enabled(st, step)
    requires step.RemoveEnded?
    ensures Remembered(Apply(st, step))
  {
  }

  lemma UnsubscribeRemembers(st: State, step: Step)
    requires Context(st) && Delivery(st) && Enabled(st, step)
    requires step.WriteUnsubscribe?
    ensures Remembered(Apply(st, step))
  {
  }

  lemma UntakeRemembers(st: State, step: Step)
    requires Context(st) && Delivery(st) && Enabled(st, step)
    requires step.TakeAwaitingOfEnded?
    ensures Remembered(Apply(st, step))
  {
  }

  lemma ConnRemembers(st: State, step: Step)
    requires Context(st) && Delivery(st) && Enabled(st, step)
    requires step.Dial? || step.MarkConnected? || step.ReaderEnds? || step.ConnectFails?
    ensures Remembered(Apply(st, step))
  {
  }

  lemma DropRemembers(st: State, step: Step)
    requires Context(st) && Delivery(st) && Enabled(st, step)
    requires step.MarkDisconnected? || step.ConnLost? || step.Shutdown?
    ensures Remembered(Apply(st, step))
  {
  }

  lemma ResultRemembers(st: State, step: Step)
    requires Context(st) && Delivery(st) && Enabled(st, step)
    requires step.ResultArrives?
    ensures Remembered(Apply(st, step))
  {
  }

  lemma DeliverRemembers(st: State, step: Step)
    requires Context(st) && Delivery(st) && Enabled(st, step)
    requires step.Deliver?
    ensures Remembered(Apply(st, step))
  {
  }

  lemma AnswerRemembers(st: State, step: Step)
    requires Context(st) && Delivery(st) && Enabled(st, step)
    requires step.TakeAnswered?
    ensures Remembered(Apply(st, step))
  {
  }

  lemma TakeResendRemembers(st: State, step: Step)
    requires Context(st) && Delivery(st) && Enabled(st, step)
    requires step.TakeResend?
    ensures Remembered(Apply(st, step))
  {
  }

  lemma CheckResendRemembers(st: State, step: Step)
    requires Context(st) && Delivery(st) && Enabled(st, step)
    requires step.CheckResend?
    ensures Remembered(Apply(st, step))
  {
  }

  lemma ErrorArrivesRemembers(st: State, step: Step)
    requires Context(st) && Delivery(st) && Enabled(st, step)
    requires step.ErrorArrives?
    ensures Remembered(Apply(st, step))
  {
  }

  lemma TakeErrorRemembers(st: State, step: Step)
    requires Context(st) && Delivery(st) && Enabled(st, step)
    requires step.TakeError?
    ensures Remembered(Apply(st, step))
  {
  }

  lemma FailRemembers(st: State, step: Step)
    requires Context(st) && Delivery(st) && Enabled(st, step)
    requires step.FailNow?
    ensures Remembered(Apply(st, step))
  {
  }

  lemma PatchArrivesRemembers(st: State, step: Step)
    requires Context(st) && Delivery(st) && Enabled(st, step)
    requires step.PatchArrives?
    ensures Remembered(Apply(st, step))
  {
  }

  lemma TryPatchRemembers(st: State, step: Step)
    requires Context(st) && Delivery(st) && Enabled(st, step)
    requires step.TryPatch?
    ensures Remembered(Apply(st, step))
  {
  }

  lemma CheckAwaitingRemembers(st: State, step: Step)
    requires Context(st) && Delivery(st) && Enabled(st, step)
    requires step.CheckAwaiting?
    ensures Remembered(Apply(st, step))
  {
  }

  lemma MarkResendRemembers(st: State, step: Step)
    requires Context(st) && Delivery(st) && Enabled(st, step)
    requires step.MarkResend?
    ensures Remembered(Apply(st, step))
  {
  }

  lemma WriteRemembers(st: State, step: Step)
    requires Context(st) && Delivery(st) && Enabled(st, step)
    requires step.WriteSubscribe?
    ensures Remembered(Apply(st, step))
  {
    WriteIs(st, step.outcome);
    WriteAlsoIs(st, step.outcome);
    TooLargeIsClosed(st.made, st.table.subs, st.toFail, st.ended, st.oversized, st.job.conn, st.job.toWrite[0]);
  }

  lemma SenderStepRemembers(st: State, step: Step)
    requires Context(st) && Delivery(st) && Enabled(st, step) && OfSender(step)
    ensures Remembered(Apply(st, step))
  {
    match step
    case MarkSent => MarkRemembers(st, step);
    case NewSubscription(_, _) => NewRemembers(st, step);
    case SendSubscribe(_, _) => NewRemembers(st, step);
    case ReleaseSubSlot(_) => NewRemembers(st, step);
    case WriteSubscribe(_) => WriteRemembers(st, step);
    case _ =>
  }

  lemma EndStepRemembers(st: State, step: Step)
    requires Context(st) && Delivery(st) && Enabled(st, step) && OfEnd(step)
    ensures Remembered(Apply(st, step))
  {
    match step
    case StartEnd(_) => CloseRemembers(st, step);
    case FailLater(_) => CloseRemembers(st, step);
    case RemoveEnded(_) => RemoveRemembers(st, step);
    case WriteUnsubscribe(_) => UnsubscribeRemembers(st, step);
    case TakeAwaitingOfEnded(_) => UntakeRemembers(st, step);
    case ConnLost(_) => DropRemembers(st, step);
    case _ =>
  }

  lemma ReaderStepRemembers(st: State, step: Step)
    requires Context(st) && Delivery(st) && Enabled(st, step) && OfReader(step)
    ensures Remembered(Apply(st, step))
  {
    match step
    case ResultArrives(_) => ResultRemembers(st, step);
    case Deliver(_) => DeliverRemembers(st, step);
    case TakeAnswered => AnswerRemembers(st, step);
    case TakeResend => TakeResendRemembers(st, step);
    case CheckResend => CheckResendRemembers(st, step);
    case ErrorArrives(_) => ErrorArrivesRemembers(st, step);
    case TakeError => TakeErrorRemembers(st, step);
    case FailNow => FailRemembers(st, step);
    case PatchArrives(_) => PatchArrivesRemembers(st, step);
    case TryPatch => TryPatchRemembers(st, step);
    case CheckAwaiting => CheckAwaitingRemembers(st, step);
    case MarkResend => MarkResendRemembers(st, step);
    case _ =>
  }

  lemma StepRemembers(st: State, step: Step)
    requires Context(st) && Delivery(st) && Enabled(st, step)
    ensures Remembered(Apply(st, step))
  {
    if OfReader(step) {
      ReaderStepRemembers(st, step);
    } else if OfSender(step) {
      SenderStepRemembers(st, step);
    } else if OfEnd(step) {
      EndStepRemembers(st, step);
    } else if step.MarkDisconnected? || step.Shutdown? {
      DropRemembers(st, step);
    } else {
      ConnRemembers(st, step);
    }
  }

  lemma StepDelivers(st: State, step: Step)
    requires Inv(st) && Delivery(st) && Enabled(st, step)
    ensures Delivery(Apply(st, step))
  {
    assert Context(st);
    StepSendsWell(st, step);
    StepRemembers(st, step);
  }

  lemma MoveDelivers(run: seq<State>, i: nat)
    requires IsRun(run) && i + 1 < |run| && Inv(run[i]) && Delivery(run[i])
    ensures Delivery(run[i + 1])
  {
    assert Moves(run, i);
    var step :| Enabled(run[i], step) && run[i + 1] == Apply(run[i], step);
    StepDelivers(run[i], step);
  }

  lemma {:induction false} RunDelivers(run: seq<State>, i: nat)
    requires IsRun(run) && i < |run|
    ensures Delivery(run[i])
  {
    if i == 0 {
      InitDelivers();
    } else {
      RunDelivers(run, i - 1);
      RunKeeps(run, i - 1);
      MoveDelivers(run, i - 1);
    }
  }

  // ---------------------------------------------------------------------------
  // Over every run
  // ---------------------------------------------------------------------------

  /** s has been sent on k and awaits its first answer there. */
  ghost predicate AwaitsFirstAnswer(st: State, k: Conn, s: Sub) {
    s in AwaitingOn(st.awaiting, k) && (k, s) !in st.answers
  }

  /**
   * On the current connection an open subscription that no error is closing is in exactly one place: with a designated
   * sender, queued, held by the goroutine about to mark it, awaiting its first answer, or answered.
   * In the last two its subscribe frame is on the wire or being written, unless the write failed or the frame was
   * too large.
   */
  lemma EveryOpenSubscriptionHasOnePlace(run: seq<State>, i: nat, s: Sub)
    requires IsRun(run) && i < |run| && run[i].table.conn.Some? && s in run[i].table.subs
    requires s !in run[i].ended && FailingSub(run[i].reader) != Some(s)
    ensures var st, k := run[i], run[i].table.conn.value;
            && st.toSend[(k, s)] + multiset(st.table.queue)[s] + First(st.job, k)[s]
               + (if AwaitsFirstAnswer(st, k, s) then 1 else 0) + (if (k, s) in st.answers then 1 else 0) == 1
            && (AwaitsFirstAnswer(st, k, s) || (k, s) in st.answers ==>
                  OnWire(st.wire, k, s) || BeingWritten(st.job, k, s) || k in st.broken || (k, s) in st.oversized)
  {
    RunDelivers(run, i);
    RunKeeps(run, i);
    var st, k := run[i], run[i].table.conn.value;
    assert Places(st.toSend, st.table.queue, st.job, st.sent, k, s) == 1;
    assert (k, s) in st.sent <==> AwaitsFirstAnswer(st, k, s) || (k, s) in st.answers;
  }

  /**
   * With no goroutine in transit and no failed write, the frame of an open subscription is on the wire and its answer
   * awaited or come, or the subscription waits behind 64 unanswered ones, or it is about to be closed as too large.
   */
  lemma NothingIsLost(run: seq<State>, i: nat, s: Sub)
    requires IsRun(run) && i < |run| && run[i].table.conn.Some? && s in run[i].table.subs && s !in run[i].ended
    requires run[i].toSend == multiset{} && run[i].releasing == multiset{} && run[i].job.Free? && run[i].reader.Idle?
    requires run[i].table.conn.value !in run[i].broken
    ensures var st, k := run[i], run[i].table.conn.value;
            || (OnWire(st.wire, k, s) && (AwaitsFirstAnswer(st, k, s) || (k, s) in st.answers))
            || (s in st.table.queue && |AwaitingOn(st.awaiting, k)| == MAX_SUBSCRIBES_IN_FLIGHT)
            || ((k, s) in st.oversized && s in st.toFail)
  {
    EveryOpenSubscriptionHasOnePlace(run, i, s);
    SlotsAreAccountedFor(run, i);
    RunDelivers(run, i);
  }

  /** A subscription whose frame is too large is closed or about to be, and after shutdown every subscription is. */
  lemma WhatMustCloseCloses(run: seq<State>, i: nat, s: Sub)
    requires IsRun(run) && i < |run| && s in run[i].made
    ensures (exists k :: (k, s) in run[i].oversized) || run[i].closed ==>
              s in run[i].ended || Enabled(run[i], FailLater(s))
  {
    RunDelivers(run, i);
    RunKeeps(run, i);
  }

  lemma StepAt(run: seq<State>, i: nat) returns (step: Step)
    requires IsRun(run) && i + 1 < |run|
    ensures Enabled(run[i], step) && run[i + 1] == Apply(run[i], step)
  {
    assert Moves(run, i);
    step :| Enabled(run[i], step) && run[i + 1] == Apply(run[i], step);
  }

  /** Only the read goroutine's own steps move it between two sections. */
  lemma OthersLeaveReader(st: State, step: Step)
    requires Enabled(st, step) && !OfReader(step)
    ensures Apply(st, step).reader == st.reader || st.reader.Idle? || st.reader.Ended?
  {
  }

  lemma OthersKeepResend(st: State, step: Step, s: Sub)
    requires Enabled(st, step) && !OfReader(step) && !step.ConnLost? && s in st.resend
    ensures s in Apply(st, step).resend
  {
  }

  lemma ReaderKeepsResend(st: State, step: Step, s: Sub)
    requires Enabled(st, step) && OfReader(step) && !step.TakeResend? && s in st.resend
    ensures s in Apply(st, step).resend
  {
  }

  lemma PatchMovesOn(st: State, step: Step, s: Sub)
    requires Enabled(st, step) && Apply(st, step).reader != st.reader && s !in st.ended
    requires UnpatchedInv(st.run, st.reader, st.removed, st.awaiting)
             && EndInv(st.ending, st.ended, st.removed, st.untaken)
    ensures st.reader == GotPatch(s) && s !in st.hasCur ==> Apply(st, step).reader == Unpatched(s)
    ensures st.reader == Unpatched(s) && st.run.Live? ==> Apply(st, step).reader == Marking(s)
    ensures st.reader == Marking(s) ==> s in Apply(st, step).resend
  {
    if !OfReader(step) { OthersLeaveReader(st, step); }
  }

  /** A patch for an open subscription without a value leads, as the reader moves on, to a re-send being asked for. */
  lemma PatchWithoutValueAsksAgain(run: seq<State>, i: nat, s: Sub)
    requires IsRun(run) && i + 1 < |run| && run[i + 1].reader != run[i].reader && s !in run[i].ended
    ensures run[i].reader == GotPatch(s) && s !in run[i].hasCur ==> run[i + 1].reader == Unpatched(s)
    ensures run[i].reader == Unpatched(s) && run[i].run.Live? ==> run[i + 1].reader == Marking(s)
    ensures run[i].reader == Marking(s) ==> s in run[i + 1].resend
  {
    RunKeeps(run, i);
    var step := StepAt(run, i);
    PatchMovesOn(run[i], step, s);
  }

  /** A re-send asked for waits on the first answer, or the reader takes that answer or the error that closes s. */
  lemma RequestedResendIsKept(run: seq<State>, i: nat, s: Sub)
    requires IsRun(run) && i < |run| && s in run[i].resend && s !in run[i].ended && !run[i].closed
    ensures if run[i].run.Live?
            then s in AwaitingOn(run[i].awaiting, run[i].run.conn) || TakesOver(run[i].reader, run[i].run.conn, s)
            else run[i].run.Down? && s in run[i].lost
  {
    RunDelivers(run, i);
  }

  lemma ResendLeaves(st: State, step: Step, s: Sub)
    requires Enabled(st, step) && s in st.resend && s !in Apply(st, step).resend
    ensures s in st.lost || exists c :: st.reader == Answered(c, s) && Apply(st, step).reader == Resending(c, s)
  {
    if step.TakeResend? {
      assert st.reader == Answered(st.reader.conn, s) && Apply(st, step).reader == Resending(st.reader.conn, s);
    } else if OfReader(step) {
      ReaderKeepsResend(st, step, s);
    } else if !step.ConnLost? {
      OthersKeepResend(st, step, s);
    }
  }

  lemma ResendingEnds(st: State, step: Step, k: Conn, s: Sub)
    requires Enabled(st, step) && st.reader == Resending(k, s) && Apply(st, step).reader != st.reader
    ensures if s in st.table.subs && st.table.conn == Some(k) then Apply(st, step).job == Sending(k, [s], false, true)
            else Apply(st, step).releasing == st.releasing + multiset{k}
  {
    if !OfReader(step) { OthersLeaveReader(st, step); }
  }

  /** It is forgotten only with its connection; otherwise the reader takes it, and then re-sends or frees the slot. */
  lemma RequestedResendIsServed(run: seq<State>, i: nat, k: Conn, s: Sub)
    requires IsRun(run) && i + 1 < |run|
    ensures s in run[i].resend && s !in run[i + 1].resend ==>
              s in run[i].lost || exists c :: run[i].reader == Answered(c, s) && run[i + 1].reader == Resending(c, s)
    ensures run[i].reader == Resending(k, s) && run[i + 1].reader != run[i].reader ==>
              if s in run[i].table.subs && run[i].table.conn == Some(k)
              then run[i + 1].job == Sending(k, [s], false, true)
              else run[i + 1].releasing == run[i].releasing + multiset{k}
  {
    var step := StepAt(run, i);
    if s in run[i].resend && s !in run[i + 1].resend { ResendLeaves(run[i], step, s); }
    if run[i].reader == Resending(k, s) && run[i + 1].reader != run[i].reader { ResendingEnds(run[i], step, k, s); }
  }
}
