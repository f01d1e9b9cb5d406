/**
 * Pairing auth verdicts with the callers that wait for them (client/client.go).
 *
 * The server answers auth frames in order and verdicts carry no ID. A caller
 * may give up while its frame is unanswered, so the client counts abandoned
 * frames and drops that many verdicts. One connection, any number of
 * authenticate calls, any race between a ctx that ends and the read loop. The
 * server's auth timeout sends a frame that looks like a verdict, and a call
 * may write its frame to the connection before this one.
 */
module ClientAuth {
  import opened Common

  /** One call of authenticate. */
  type Waiter = nat

  /** A verdict is named after the frame it answers: None for the server's timeout, which answers none. */
  type Answer = Option<Waiter>

  datatype Result = Verdict(of: Answer) | ConnectionLost | GaveUp | SendError

  /** How far the holder of authMu has come. */
  datatype Holder =
    | NoHolder
    | Registered(w: Waiter)            // authWait is set
    | Counted(w: Waiter)               // authSent is raised
    | Selecting(w: Waiter)             // the frame is out; selecting on verdict, drop and ctx
    | MustReceive(w: Waiter)           // ctx ended after the read loop took the verdict
    | Leaving(w: Waiter, result: Result)

  /** The read loop between its sections for one verdict. */
  datatype Reader = Idle | Matching(of: Answer) | Handing(to: Waiter, of: Answer) | Ended

  datatype State = State(
    holder: Holder,
    authWait: Option<Waiter>,
    authSent: int,
    authAbandoned: nat,
    outstanding: seq<Waiter>,          // frames the server has still to answer, oldest first
    reader: Reader,
    chans: map<Waiter, Answer>,        // each waiter's channel, with the verdict in it
    returned: map<Waiter, Result>,
    hasToken: bool,                    // Options.AuthToken is set
    misread: bool,                     // history: a timeout was taken for a verdict
    strays: nat                        // history: frames counted here and written to an older connection
  )

  datatype Step =
    | Begin(w: Waiter)
    | CountUp
    | Send(ok: bool)
    | SendAstray                         // RefreshAuth read its connection before a reconnect, and its watch after
    | Receive
    | SeeDrop
    | CtxEnds
    | Leave
    | VerdictArrives
    | TimeoutArrives
    | Match
    | HandOver
    | ReaderEnds

  function Init(hasToken: bool): State { State(NoHolder, None, 0, 0, [], Idle, map[], map[], hasToken, false, 0) }

  predicate Known(st: State, w: Waiter) {
    w in st.returned || w in st.chans || w in st.outstanding || st.reader == Matching(Some(w))
  }

  predicate Enabled(st: State, step: Step) {
    match step
    case Begin(w) => st.holder.NoHolder? && !Known(st, w)
    case CountUp => st.holder.Registered?
    case Send(_) => st.holder.Counted?
    case SendAstray => st.holder.Counted?
    case Receive => (st.holder.Selecting? || st.holder.MustReceive?) && st.holder.w in st.chans
    case SeeDrop => st.holder.Selecting? && st.reader.Ended?
    case CtxEnds => st.holder.Selecting?
    case Leave => st.holder.Leaving?
    case VerdictArrives => st.reader.Idle? && st.outstanding != []
    case TimeoutArrives => st.reader.Idle?
    case Match => st.reader.Matching?
    case HandOver => st.reader.Handing? && st.reader.to !in st.chans
    case ReaderEnds => st.reader.Idle?
  }

  /** The read loop's first section for a verdict, solicited if a frame is out. */
  function Arrive(st: State, of: Answer): State {
    if st.authSent - 1 >= 0 then st.(authSent := st.authSent - 1, reader := Matching(of)) else st.(authSent := 0)
  }

  function Apply(st: State, step: Step): State
    requires Enabled(st, step)
  {
    match step
    case Begin(w) => st.(holder := Registered(w), authWait := Some(w))
    case CountUp => st.(holder := Counted(st.holder.w), authSent := st.authSent + 1)
    case Send(ok) =>
      var w := st.holder.w;
      if ok then st.(holder := Selecting(w), outstanding := st.outstanding + [w])
      else st.(holder := Leaving(w, SendError), authSent := st.authSent - 1)
    case SendAstray => st.(holder := Selecting(st.holder.w), strays := st.strays + 1)
    case Receive => st.(holder := Leaving(st.holder.w, Verdict(st.chans[st.holder.w])))
    case SeeDrop => st.(holder := Leaving(st.holder.w, ConnectionLost))
    case CtxEnds =>
      var w := st.holder.w;
      if st.authWait == Some(w) then
        st.(holder := Leaving(w, GaveUp), authWait := None, authAbandoned := st.authAbandoned + 1)
      else st.(holder := MustReceive(w))
    case Leave =>
      var w := st.holder.w;
      st.(holder := NoHolder, authWait := if st.authWait == Some(w) then None else st.authWait,
          returned := st.returned[w := st.holder.result])
    case VerdictArrives => Arrive(st.(outstanding := st.outstanding[1..]), Some(st.outstanding[0]))
    case TimeoutArrives =>
      if st.hasToken then st else Arrive(st.(misread := st.misread || st.authSent > 0), None)
    case Match =>
      if st.authAbandoned > 0 then st.(reader := Idle, authAbandoned := st.authAbandoned - 1)
      else if st.authWait.Some? then st.(reader := Handing(st.authWait.value, st.reader.of), authWait := None)
      else st.(reader := Idle)
    case HandOver => st.(reader := Idle, chans := st.chans[st.reader.to := st.reader.of])
    case ReaderEnds => st.(reader := Ended)
  }

  // ---------------------------------------------------------------------------
  // Invariant
  // ---------------------------------------------------------------------------

  /** Frames whose verdict the client has not yet matched with anyone. */
  function Unmatched(st: State): seq<Waiter> {
    (if st.reader.Matching? && st.reader.of.Some? then [st.reader.of.value] else []) + st.outstanding
  }

  /** The caller still interested in a verdict that is yet to come. */
  predicate Live(st: State) { st.holder.Selecting? && st.authWait == Some(st.holder.w) }

  /** x's caller stopped waiting before its verdict came. */
  predicate Abandoned(st: State, x: Waiter) {
    (x in st.returned && st.returned[x] == GaveUp) || st.holder == Leaving(x, GaveUp)
  }

  ghost predicate CountInv(st: State) {
    !st.reader.Ended? ==>
      && |Unmatched(st)| + st.strays == st.authAbandoned + (if Live(st) then 1 else 0)
      && (st.strays == 0 && Live(st) ==> Unmatched(st)[|Unmatched(st)| - 1] == st.holder.w)
      && st.authSent == |st.outstanding| + st.strays + (if st.holder.Counted? then 1 else 0)
  }

  /** x is a frame whose caller gave up, or the live caller's. */
  ghost predicate Accounted(st: State, x: Waiter) { Abandoned(st, x) || (Live(st) && x == st.holder.w) }

  /** The holder's frame can only be the last of frames, and only once it has been sent. */
  ghost predicate OwnLast(holder: Holder, frames: seq<Waiter>) {
    !holder.NoHolder? ==> forall i :: 0 <= i < |frames| && frames[i] == holder.w ==>
      i == |frames| - 1 && !holder.Registered? && !holder.Counted?
  }

  ghost predicate FramesInv(st: State) {
    !st.reader.Ended? ==>
      (forall x :: x in Unmatched(st) ==> Accounted(st, x)) && OwnLast(st.holder, Unmatched(st))
  }

  ghost predicate HolderInv(st: State) {
    && (!st.holder.NoHolder? ==> st.holder.w !in st.returned)
    && (st.authWait.Some? ==> !st.holder.NoHolder? && st.holder.w == st.authWait.value && !st.holder.MustReceive?)
    && (st.authWait.Some? && st.holder.Leaving? ==> st.reader.Ended? || st.holder.result.SendError?)
    && ((st.holder.Registered? || st.holder.Counted?) ==> st.authWait == Some(st.holder.w))
    && (st.holder.Leaving? && st.holder.result.Verdict? ==> st.holder.result.of == Some(st.holder.w))
    && (st.holder.Leaving? && st.holder.result.SendError? ==> st.authWait == Some(st.holder.w))
  }

  /** A verdict the read loop has taken for a waiter is that waiter's own and reaches it. */
  ghost predicate HandInv(st: State) {
    && (st.reader.Handing? ==>
        && st.reader.of == Some(st.reader.to) && st.reader.to !in st.chans && st.authWait.None?
        && (st.holder.Selecting? || st.holder.MustReceive?) && st.holder.w == st.reader.to)
    && ((st.holder.Selecting? || st.holder.MustReceive?) && st.authWait.None? ==>
        st.reader == Handing(st.holder.w, Some(st.holder.w)) || st.holder.w in st.chans)
    && (st.authWait.Some? ==> st.authWait.value !in st.chans)
    && (forall w :: w in st.chans ==> st.chans[w] == Some(w))
    && (forall w :: w in st.returned && st.returned[w].Verdict? ==> st.returned[w].of == Some(w))
  }

  ghost predicate PairingInv(st: State) {
    && CountInv(st) && FramesInv(st) && HolderInv(st) && HandInv(st)
    && (st.reader.Matching? ==> st.reader.of.Some?)
  }

  /** Verdicts are paired with their callers as long as no timeout is taken for one, which a token rules out. */
  ghost predicate Inv(st: State) { (st.hasToken ==> !st.misread) && (!st.misread ==> PairingInv(st)) }

  lemma InitHolds(hasToken: bool)
    ensures Inv(Init(hasToken))
  {
  }

  /** The steps of a caller. */
  predicate OfCaller(step: Step) {
    || step.Begin? || step.CountUp? || step.Send? || step.SendAstray?
    || step.Receive? || step.SeeDrop? || step.CtxEnds? || step.Leave?
  }

  lemma SendFrames(st: State)
    requires PairingInv(st) && Enabled(st, Send(true))
    ensures CountInv(Apply(st, Send(true))) && FramesInv(Apply(st, Send(true)))
  {
    var st', frames := Apply(st, Send(true)), Unmatched(st);
    assert Unmatched(st') == frames + [st.holder.w];
    assert forall x :: Accounted(st, x) ==> Accounted(st', x);
    assert st.holder.w !in frames || st.reader.Ended?;
  }

  lemma CallerMovesNoFrame(st: State, step: Step)
    requires PairingInv(st) && Enabled(st, step) && OfCaller(step) && step != Send(true)
    ensures Unmatched(Apply(st, step)) == Unmatched(st) && CountInv(Apply(st, step))
  {
  }

  lemma AccountedStays(st: State, step: Step, x: Waiter)
    requires HolderInv(st) && HandInv(st) && Enabled(st, step) && OfCaller(step) && step != Send(true)
    requires !st.reader.Ended? && Accounted(st, x)
    ensures Accounted(Apply(st, step), x)
  {
  }

  lemma CallerKeepsFrames(st: State, step: Step)
    requires PairingInv(st) && Enabled(st, step) && OfCaller(step) && step != Send(true)
    ensures FramesInv(Apply(st, step))
  {
    CallerMovesNoFrame(st, step);
    if !st.reader.Ended? {
      forall x | x in Unmatched(st) ensures Accounted(Apply(st, step), x) { AccountedStays(st, step, x); }
    }
  }

  lemma StartKeeps(st: State, step: Step)
    requires PairingInv(st) && Enabled(st, step)
    requires step.Begin? || step.CountUp? || step.Send? || step.SendAstray?
    ensures HolderInv(Apply(st, step)) && HandInv(Apply(st, step))
  {
  }

  lemma FinishKeeps(st: State, step: Step)
    requires PairingInv(st) && Enabled(st, step) && (step.Receive? || step.SeeDrop? || step.CtxEnds? || step.Leave?)
    ensures HolderInv(Apply(st, step)) && HandInv(Apply(st, step))
  {
  }

  lemma CallerKeeps(st: State, step: Step)
    requires PairingInv(st) && Enabled(st, step) && OfCaller(step)
    ensures PairingInv(Apply(st, step))
  {
    if step == Send(true) {
      SendFrames(st);
    } else {
      CallerMovesNoFrame(st, step);
      CallerKeepsFrames(st, step);
    }
    if step.Begin? || step.CountUp? || step.Send? || step.SendAstray? {
      StartKeeps(st, step);
    } else {
      FinishKeeps(st, step);
    }
  }

  /** With no abandoned frame left, the verdict being matched is the live waiter's, and no frame went astray. */
  lemma MatchedIsLive(st: State)
    requires PairingInv(st) && st.reader.Matching? && st.authAbandoned == 0
    ensures st.strays == 0 && st.outstanding == [] && Live(st) && Some(st.holder.w) == st.reader.of
  {
    assert |Unmatched(st)| == 1 + |st.outstanding|;
  }

  lemma HandsOver(st: State)
    requires PairingInv(st) && Enabled(st, Match) && st.authAbandoned == 0
    ensures PairingInv(Apply(st, Match))
  {
    MatchedIsLive(st);
    assert Unmatched(Apply(st, Match)) == [];
  }

  lemma DropsFirst(st: State)
    requires PairingInv(st) && Enabled(st, Match) && st.authAbandoned > 0
    ensures PairingInv(Apply(st, Match))
  {
    var st', frames := Apply(st, Match), Unmatched(st);
    assert frames == [st.reader.of.value] + Unmatched(st');
    assert forall i :: 0 <= i < |Unmatched(st')| ==> Unmatched(st')[i] == frames[i + 1];
    forall x | x in Unmatched(st') ensures Accounted(st', x) {
      assert x in frames && Accounted(st, x);
    }
  }

  /** The steps of the read loop that leave frames and callers as they are. */
  predicate MovesNobody(st: State, step: Step) {
    step.HandOver? || step.ReaderEnds? || step.VerdictArrives? || (step.TimeoutArrives? && st.authSent <= 0)
  }

  lemma ReaderMovesNoFrame(st: State, step: Step)
    requires CountInv(st) && Enabled(st, step) && MovesNobody(st, step)
    ensures var st' := Apply(st, step);
            && Unmatched(st') == Unmatched(st) && st'.holder == st.holder && st'.returned == st.returned
            && st'.authWait == st.authWait && (st.reader.Ended? ==> st'.reader.Ended?)
  {
  }

  lemma ReaderKeepsFrames(st: State, st': State)
    requires FramesInv(st) && Unmatched(st') == Unmatched(st) && st'.holder == st.holder && st'.returned == st.returned
    requires st'.authWait == st.authWait && (st.reader.Ended? ==> st'.reader.Ended?)
    ensures FramesInv(st')
  {
    assert forall x :: Accounted(st, x) ==> Accounted(st', x);
  }

  lemma ReaderKeeps(st: State, step: Step)
    requires PairingInv(st) && Enabled(st, step) && MovesNobody(st, step)
    ensures PairingInv(Apply(st, step))
  {
    ReaderMovesNoFrame(st, step);
    ReaderKeepsFrames(st, Apply(st, step));
  }

  lemma StepKeeps(st: State, step: Step)
    requires Inv(st) && Enabled(st, step)
    ensures Inv(Apply(st, step))
  {
    if !Apply(st, step).misread {
      if OfCaller(step) {
        CallerKeeps(st, step);
      } else if step.Match? {
        if st.authAbandoned == 0 { HandsOver(st); } else { DropsFirst(st); }
      } else if !(step.TimeoutArrives? && st.hasToken) {
        ReaderKeeps(st, step);
      }
    }
  }

  // ---------------------------------------------------------------------------
  // Over every run
  // ---------------------------------------------------------------------------

  ghost predicate Moves(run: seq<State>, i: nat)
    requires i + 1 < |run|
  {
    exists step :: Enabled(run[i], step) && run[i + 1] == Apply(run[i], step)
  }

  ghost predicate IsRun(run: seq<State>) {
    && run != [] && run[0] == Init(run[0].hasToken)
    && (forall i :: 0 <= i < |run| - 1 ==> Moves(run, i))
  }

  lemma {:induction false} RunKeeps(run: seq<State>, i: nat)
    requires IsRun(run) && i < |run|
    ensures Inv(run[i])
  {
    if i == 0 {
      InitHolds(run[0].hasToken);
    } else {
      RunKeeps(run, i - 1);
      assert Moves(run, i - 1);
      var step :| Enabled(run[i - 1], step) && run[i] == Apply(run[i - 1], step);
      StepKeeps(run[i - 1], step);
    }
  }

  /**
   * With a token, and without one as long as no timeout was taken for a verdict, whatever verdict a caller returns with
   * is the server's answer to that caller's own frame.
   */
  lemma VerdictAnswersOwnFrame(run: seq<State>, i: nat, w: Waiter)
    requires IsRun(run) && i < |run| && w in run[i].returned && run[i].returned[w].Verdict?
    requires run[i].hasToken || !run[i].misread
    ensures run[i].returned[w].of == Some(w)
  {
    RunKeeps(run, i);
  }

  /** While the read loop lives, the unanswered frames are the abandoned ones and then the live waiter's. */
  lemma OutstandingIsAbandonedThenLive(run: seq<State>, i: nat)
    requires IsRun(run) && i < |run| && !run[i].reader.Ended?
    requires (run[i].hasToken || !run[i].misread) && run[i].strays == 0
    ensures var st := run[i];
            && |Unmatched(st)| == st.authAbandoned + (if Live(st) then 1 else 0)
            && (forall j :: 0 <= j < st.authAbandoned ==> Abandoned(st, Unmatched(st)[j]))
            && (Live(st) ==> Unmatched(st)[st.authAbandoned] == st.holder.w)
  {
    RunKeeps(run, i);
    var st := run[i];
    forall j | 0 <= j < st.authAbandoned ensures Abandoned(st, Unmatched(st)[j]) {
      assert Unmatched(st)[j] in Unmatched(st) && Accounted(st, Unmatched(st)[j]);
    }
  }

  /**
   * The loop never mistakes a verdict for an unsolicited one. A verdict it does not drop is the live waiter's own; one
   * it drops belongs to a caller that gave up, or else to the live waiter, after a frame went astray.
   */
  lemma EveryVerdictIsPlaced(run: seq<State>, i: nat)
    requires IsRun(run) && i < |run|
    requires run[i].hasToken || !run[i].misread
    ensures Enabled(run[i], VerdictArrives) ==> run[i].authSent >= 1
    ensures run[i].reader.Matching? ==>
              var of := run[i].reader.of;
              && of.Some? && (run[i].authAbandoned == 0 ==> run[i].authWait == of)
              && (Abandoned(run[i], of.value) <==> !(Live(run[i]) && run[i].authWait == of))
              && (run[i].authAbandoned > 0 && !Abandoned(run[i], of.value) ==> run[i].strays > 0)
  {
    RunKeeps(run, i);
    var st := run[i];
    if st.reader.Matching? {
      assert Unmatched(st)[0] == st.reader.of.value && Unmatched(st)[0] in Unmatched(st);
      assert Accounted(st, st.reader.of.value);
      if st.authAbandoned == 0 { MatchedIsLive(st); }
      if Live(st) && st.authWait == st.reader.of { WaitingMatchIsAlone(st); }
    }
  }

  /** While the caller of the verdict being matched waits, as many frames count as abandoned as have gone astray. */
  lemma WaitingMatchIsAlone(st: State)
    requires PairingInv(st) && st.reader.Matching? && Live(st) && st.reader.of == Some(st.holder.w)
    ensures st.outstanding == [] && st.authAbandoned == st.strays
  {
    assert Unmatched(st)[0] == st.holder.w;
    assert |Unmatched(st)| == 1 + |st.outstanding|;
  }

  lemma StepKeepsStrays(st: State, step: Step)
    requires Enabled(st, step)
    ensures st.strays <= Apply(st, step).strays
  {
  }

  lemma {:induction false} StraysStay(run: seq<State>, i: nat, j: nat)
    requires IsRun(run) && i <= j < |run|
    ensures run[i].strays <= run[j].strays
    decreases j
  {
    if i < j {
      StraysStay(run, i, j - 1);
      assert Moves(run, j - 1);
      var step :| Enabled(run[j - 1], step) && run[j] == Apply(run[j - 1], step);
      StepKeepsStrays(run[j - 1], step);
    }
  }

  /**
   * A caller that still waits when its verdict is matched loses it exactly if some frame has gone astray: so after
   * one frame went astray on a connection, every later caller on it loses its verdict.
   */
  lemma WaitingCallerLosesVerdictExactly(run: seq<State>, i: nat, j: nat)
    requires IsRun(run) && i <= j < |run| && (run[j].hasToken || !run[j].misread)
    requires run[j].reader.Matching? && Live(run[j]) && run[j].reader.of == Some(run[j].holder.w)
    ensures run[j].strays > 0 <==> Apply(run[j], Match).reader == Idle
    ensures run[j].strays == 0 <==> Apply(run[j], Match).reader == Handing(run[j].holder.w, run[j].reader.of)
    ensures run[i].strays > 0 ==> run[j].strays > 0
  {
    RunKeeps(run, j);
    WaitingMatchIsAlone(run[j]);
    StraysStay(run, i, j);
  }

  /** A caller whose ctx ended after its verdict was taken is not left waiting. */
  lemma TakenVerdictArrives(run: seq<State>, i: nat)
    requires IsRun(run) && i < |run|
    requires run[i].hasToken || !run[i].misread
    ensures run[i].reader.Handing? ==> Enabled(run[i], HandOver)
    ensures run[i].holder.MustReceive? ==> Enabled(run[i], Receive) || Enabled(run[i], HandOver)
  {
    RunKeeps(run, i);
  }

  lemma RunOn(run: seq<State>, step: Step) returns (run': seq<State>)
    requires IsRun(run) && Enabled(run[|run| - 1], step)
    ensures IsRun(run') && run'[|run'| - 1] == Apply(run[|run| - 1], step)
  {
    run' := run + [Apply(run[|run| - 1], step)];
    forall i | 0 <= i < |run'| - 1 ensures Moves(run', i) {
      if i < |run| - 1 {
        assert Moves(run, i);
        var step :| Enabled(run[i], step) && run[i + 1] == Apply(run[i], step);
      }
      assert run'[i] == run[i];
    }
  }

  /** Without a token, a caller of RefreshAuth may be given the server's timeout as the verdict on its frame. */
  lemma TimeoutTakenForVerdict(w: Waiter) returns (run: seq<State>)
    ensures IsRun(run) && w in run[|run| - 1].returned && run[|run| - 1].returned[w] == Verdict(None)
  {
    run := [Init(false)];
    run := RunOn(run, Begin(w));
    run := RunOn(run, CountUp);
    run := RunOn(run, Send(true));
    run := RunOn(run, TimeoutArrives);
    run := RunOn(run, Match);
    run := RunOn(run, HandOver);
    run := RunOn(run, Receive);
    run := RunOn(run, Leave);
  }

  /** After a frame that went astray and was given up, the next caller's verdict is dropped. */
  lemma StrayFrameCostsAVerdict(w: Waiter, next: Waiter) returns (run: seq<State>)
    requires w != next
    ensures IsRun(run) && var st := run[|run| - 1];
      && st.hasToken && st.holder == Selecting(next) && st.reader == Idle && st.authWait == Some(next)
      && st.outstanding == [] && next !in st.chans
  {
    run := [Init(true)];
    run := RunOn(run, Begin(w));
    run := RunOn(run, CountUp);
    run := RunOn(run, SendAstray);
    run := RunOn(run, CtxEnds);
    run := RunOn(run, Leave);
    run := RunOn(run, Begin(next));
    run := RunOn(run, CountUp);
    run := RunOn(run, Send(true));
    run := RunOn(run, VerdictArrives);
    run := RunOn(run, Match);
  }
}
