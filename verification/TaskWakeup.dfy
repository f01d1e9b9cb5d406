/**
 * How a task's middleware learns that the task has ended (tasks/task_tree.go).
 *
 * The middleware's next() waits on a channel of capacity one that runManaged
 * installs; whoever ends the task records the end and sends on that channel.
 * The task may end before next() waits, or before the channel is there, and
 * any number of terminators may race; the middleware may call next() any number
 * of times. One step is one locked section, or one channel operation between
 * them.
 */
module TaskWakeup {
  import opened Common

  type Caller = nat

  datatype Status = Live | Completed | Failed(msg: string)

  /** The error next() returns: None for nil. */
  type Err = Option<string>

  function ErrOf(s: Status): Err { if s.Failed? then Some(s.msg) else None }

  /** A terminator between its sections: about to signal, or about to send. */
  datatype Stage = Decided(err: Err) | Sending(err: Err)

  /** One call of next(). received tells that it had to wait, and took what came over the channel. */
  datatype Next = Waiting | Returned(err: Err, received: bool)

  datatype State = State(
    status: Status,
    installed: bool,         // middlewareDone is set
    ended: bool,             // middlewareEnded
    endErr: Err,             // middlewareEndErr
    channel: seq<Err>,
    nexts: map<Caller, Next>,
    stages: map<Caller, Stage>
  )

  const INIT := State(Live, false, false, None, [], map[], map[])

  const CAPACITY := 1

  datatype Step =
    | Install                            // runManaged's first section
    | CallNext(c: Caller)                // the section of a call of next()
    | Receive(c: Caller)                 // it takes from the channel
    | Terminate(c: Caller, to: Status)   // the section of a terminator that sets the status
    | Signal(c: Caller)                  // the section of signalMiddlewareEnd
    | SendEnd(c: Caller)                 // its send, after that section

  /** A terminator that has sent or need not is free to be used again; the send waits for room. */
  predicate Enabled(st: State, step: Step) {
    match step
    case Install => !st.installed
    case CallNext(c) => st.installed && c !in st.nexts
    case Receive(c) => c in st.nexts && st.nexts[c].Waiting? && st.channel != []
    case Terminate(c, to) => c !in st.stages && !to.Live?
    case Signal(c) => c in st.stages && st.stages[c].Decided?
    case SendEnd(c) => c in st.stages && st.stages[c].Sending? && |st.channel| < CAPACITY
  }

  function Apply(st: State, step: Step): State
    requires Enabled(st, step)
  {
    match step
    case Install => st.(installed := true)
    case CallNext(c) => st.(nexts := st.nexts[c := if st.ended then Returned(st.endErr, false) else Waiting])
    case Receive(c) => st.(nexts := st.nexts[c := Returned(st.channel[0], true)], channel := st.channel[1..])
    case Terminate(c, to) =>
      if !st.status.Live? then st else st.(status := to, stages := st.stages[c := Decided(ErrOf(to))])
    case Signal(c) =>
      if st.ended then st.(stages := st.stages - {c})
      else
        var st' := st.(ended := true, endErr := st.stages[c].err);
        if st.installed then st'.(stages := st.stages[c := Sending(st.stages[c].err)])
        else st'.(stages := st.stages - {c})
    case SendEnd(c) =>
      st.(channel := st.channel + [st.stages[c].err], stages := st.stages - {c})
  }

  // ---------------------------------------------------------------------------
  // Invariant
  // ---------------------------------------------------------------------------

  ghost predicate Someone(stages: map<Caller, Stage>) { exists c :: c in stages }

  /** At most one terminator is under way, with the error of the status it set. */
  ghost predicate StagesInv(st: State) {
    && (forall c, d :: c in st.stages && d in st.stages ==> c == d)
    && (forall c :: c in st.stages ==> !st.status.Live? && st.stages[c].err == ErrOf(st.status))
    && (forall c :: c in st.stages ==> (st.stages[c].Sending? <==> st.ended))
    && (!st.status.Live? && !st.ended ==> Someone(st.stages))
  }

  /** Some call of next() took what was sent. */
  ghost predicate Served(nexts: map<Caller, Next>) { exists c :: c in nexts && nexts[c].Returned? && nexts[c].received }

  ghost predicate Waits(nexts: map<Caller, Next>) { exists c :: c in nexts && nexts[c].Waiting? }

  /** What was sent, is being sent or has been received: one message for ever. */
  ghost function Messages(st: State): nat {
    |st.channel| + (if st.ended && Someone(st.stages) then 1 else 0) + if Served(st.nexts) then 1 else 0
  }

  ghost predicate EndInv(st: State) {
    && (st.ended ==> !st.status.Live? && st.endErr == ErrOf(st.status))
    && (!st.ended ==> Messages(st) == 0)
    && (forall e :: e in st.channel ==> e == ErrOf(st.status))
    && Messages(st) <= CAPACITY
    && (forall c :: c in st.nexts && st.nexts[c].Returned? ==> st.ended && st.nexts[c].err == ErrOf(st.status))
    && (st.nexts != map[] ==> st.installed)
    && (st.ended && Waits(st.nexts) ==> Messages(st) == 1)
  }

  ghost predicate Inv(st: State) { StagesInv(st) && EndInv(st) }

  lemma TerminateKeeps(st: State, c: Caller, to: Status)
    requires Inv(st) && Enabled(st, Terminate(c, to))
    ensures Inv(Apply(st, Terminate(c, to)))
  {
    if st.status.Live? {
      var stages := Apply(st, Terminate(c, to)).stages;
      assert forall d :: d in stages ==> d == c || d in st.stages;
      assert c in stages;
    }
  }

  lemma SignalKeeps(st: State, c: Caller)
    requires Inv(st) && Enabled(st, Signal(c))
    ensures Inv(Apply(st, Signal(c)))
  {
    var st' := Apply(st, Signal(c));
    assert forall d :: d in st.stages ==> d == c;
    if st.installed { assert c in st'.stages; }
  }

  lemma SendKeeps(st: State, c: Caller)
    requires Inv(st) && Enabled(st, SendEnd(c))
    ensures Inv(Apply(st, SendEnd(c)))
  {
    var st' := Apply(st, SendEnd(c));
    assert forall d :: d in st.stages ==> d == c;
    assert !Someone(st'.stages) && Someone(st.stages);
  }

  lemma NextKeeps(st: State, step: Step)
    requires Inv(st) && Enabled(st, step) && (step.Install? || step.CallNext? || step.Receive?)
    ensures Inv(Apply(st, step))
  {
    var nexts := Apply(st, step).nexts;
    if !step.Install? {
      assert forall d :: d in nexts && d != step.c ==> d in st.nexts && nexts[d] == st.nexts[d];
      assert step.c in nexts;
    }
    if step.CallNext? {
      assert Served(nexts) <==> Served(st.nexts) by { NextsWith(st.nexts, step.c, nexts[step.c]); }
      if st.ended { NextsWith(st.nexts, step.c, nexts[step.c]); }
    } else if step.Receive? {
      assert st.channel[0] in st.channel;
      NextsWith(st.nexts, step.c, nexts[step.c]);
    }
  }

  lemma NextsWith(nexts: map<Caller, Next>, c: Caller, next: Next)
    requires c in nexts ==> nexts[c].Waiting?
    ensures Served(nexts[c := next]) <==> Served(nexts) || (next.Returned? && next.received)
    ensures Waits(nexts[c := next]) ==> Waits(nexts) || next.Waiting?
  {
    var nexts' := nexts[c := next];
    if Served(nexts) {
      var d :| d in nexts && nexts[d].Returned? && nexts[d].received;
      assert d in nexts' && nexts'[d] == nexts[d];
    }
    if next.Returned? && next.received { assert c in nexts' && nexts'[c] == next; }
    if Waits(nexts') {
      var d :| d in nexts' && nexts'[d].Waiting?;
      assert d == c || nexts[d].Waiting?;
    }
  }

  lemma StepKeeps(st: State, step: Step)
    requires Inv(st) && Enabled(st, step)
    ensures Inv(Apply(st, step))
  {
    match step
    case Terminate(c, to) => TerminateKeeps(st, c, to);
    case Signal(c) => SignalKeeps(st, c);
    case SendEnd(c) => SendKeeps(st, c);
    case _ => NextKeeps(st, step);
  }

  // ---------------------------------------------------------------------------
  // Over every run
  // ---------------------------------------------------------------------------

  ghost predicate Moves(run: seq<State>, i: nat)
    requires i + 1 < |run|
  {
    exists step :: Enabled(run[i], step) && run[i + 1] == Apply(run[i], step)
  }

  ghost predicate IsRun(run: seq<State>) {
    && run != [] && run[0] == INIT
    && (forall i :: 0 <= i < |run| - 1 ==> Moves(run, i))
  }

  lemma {:induction false} RunKeeps(run: seq<State>, i: nat)
    requires IsRun(run) && i < |run|
    ensures Inv(run[i])
  {
    if i > 0 {
      RunKeeps(run, i - 1);
      assert Moves(run, i - 1);
      var step :| Enabled(run[i - 1], step) && run[i] == Apply(run[i - 1], step);
      StepKeeps(run[i - 1], step);
    }
  }

  /** Whatever next() returns is the outcome the task shows, however early or late the task ended. */
  lemma NextReturnsTheOutcome(run: seq<State>, i: nat, c: Caller)
    requires IsRun(run) && i < |run| && c in run[i].nexts && run[i].nexts[c].Returned?
    ensures !run[i].status.Live? && run[i].nexts[c].err == ErrOf(run[i].status)
  {
    RunKeeps(run, i);
  }

  /** The one send on the channel always has room. */
  lemma SendNeverBlocks(run: seq<State>, i: nat, c: Caller)
    requires IsRun(run) && i < |run| && c in run[i].stages && run[i].stages[c].Sending?
    ensures Enabled(run[i], SendEnd(c))
  {
    RunKeeps(run, i);
    assert Someone(run[i].stages);
  }

  /**
   * Once the task has ended, a next() that waits can receive, or a terminator that cannot block is on its way to it,
   * exactly if no other call of next() has received what was sent: a middleware that calls next() once is never left
   * waiting, and of several calls waiting at once all but one are.
   */
  lemma NoSignalIsLost(run: seq<State>, i: nat, c: Caller)
    requires IsRun(run) && i < |run| && c in run[i].nexts && run[i].nexts[c].Waiting? && !run[i].status.Live?
    ensures (Enabled(run[i], Receive(c)) ||
             exists d :: d in run[i].stages && (Enabled(run[i], Signal(d)) || Enabled(run[i], SendEnd(d))))
            <==> !Served(run[i].nexts)
  {
    RunKeeps(run, i);
    assert Waits(run[i].nexts);
    if run[i].channel == [] && !Served(run[i].nexts) {
      assert Someone(run[i].stages);
      var d :| d in run[i].stages;
      assert Enabled(run[i], Signal(d)) || Enabled(run[i], SendEnd(d));
    }
  }

  /** The signal of a terminator under way is the last thing a waiting next() needs. */
  lemma SignalsLeadToReturn(run: seq<State>, i: nat, c: Caller, d: Caller)
    requires IsRun(run) && i < |run| && c in run[i].nexts && run[i].nexts[c].Waiting? && d in run[i].stages
    ensures run[i].stages[d].Decided? ==>
      var st := Apply(run[i], Signal(d)); Enabled(st, SendEnd(d)) && Enabled(Apply(st, SendEnd(d)), Receive(c))
    ensures run[i].stages[d].Sending? ==>
      Enabled(run[i], SendEnd(d)) && Enabled(Apply(run[i], SendEnd(d)), Receive(c))
  {
    RunKeeps(run, i);
    assert Someone(run[i].stages);
  }

  /** An outcome, once there, stays, whoever races to end the task. */
  lemma {:induction false} OutcomeStays(run: seq<State>, i: nat, j: nat)
    requires IsRun(run) && i <= j < |run| && !run[i].status.Live?
    ensures run[j].status == run[i].status
    decreases j
  {
    if i < j {
      OutcomeStays(run, i, j - 1);
      assert Moves(run, j - 1);
    }
  }
}
