/**
 * The in-flight registry of one server connection (connection.go).
 *
 * Request IDs come from the client and may be reused while in flight. Sequence
 * tokens tell an entry from its replacement, a refresh that finds a client
 * frame running is deferred to it, and closing sweeps what is registered.
 */
module ServerRegistry {
  import opened Common

  type Id = string

  /** One execution: a client request, a client subscribe or a server-driven refresh. */
  type Exec = nat

  /** inflight; exec stands for the cancel func it stores. */
  datatype Entry = Entry(seqNo: nat, exec: Exec, refresh: bool, refreshAgain: bool)

  /** The fields guarded by Conn.mu. */
  datatype Registry = Registry(closed: bool, reqSeq: nat, requests: map<Id, Entry>)

  /** A new entry under the next token. */
  function Entered(r: Registry, id: Id, e: Exec, refresh: bool): Registry {
    r.(reqSeq := r.reqSeq + 1, requests := r.requests[id := Entry(r.reqSeq + 1, e, refresh, false)])
  }

  /** The execution a new entry for id shadows. */
  function Shadow(r: Registry, id: Id): Option<Exec> {
    if id in r.requests then Some(r.requests[id].exec) else None
  }

  /** The section of registerRequest: the token, and the shadowed execution to cancel. */
  function Register(r: Registry, id: Id, e: Exec): (Registry, nat, Option<Exec>) {
    if r.closed then (r, 0, None) else (Entered(r, id, e, false), r.reqSeq + 1, Shadow(r, id))
  }

  /** The section of unregisterRequest: whether a refresh was deferred to the request. */
  function Unregister(r: Registry, id: Id, seqNo: nat): (Registry, bool) {
    if id in r.requests && seqNo != 0 && r.requests[id].seqNo == seqNo
    then (r.(requests := r.requests - {id}), r.requests[id].refreshAgain)
    else (r, false)
  }

  datatype RefreshOutcome = Refused | Deferred | Started(seqNo: nat, shadowed: Option<Exec>)

  /** The section of registerRefresh. */
  function RegisterRefresh(r: Registry, id: Id, e: Exec): (Registry, RefreshOutcome) {
    if r.closed then (r, Refused)
    else if id in r.requests && !r.requests[id].refresh then
      (r.(requests := r.requests[id := r.requests[id].(refreshAgain := true)]), Deferred)
    else
      (Entered(r, id, e, true), Started(r.reqSeq + 1, Shadow(r, id)))
  }

  /** Tokens in use are among those handed out, and no two entries share one. */
  ghost predicate TokensInv(r: Registry) {
    && (forall i :: i in r.requests ==> 0 < r.requests[i].seqNo <= r.reqSeq)
    && (forall i, j :: i in r.requests && j in r.requests && i != j ==> r.requests[i].seqNo != r.requests[j].seqNo)
  }

  /** The registry as the connection updates it. */
  class Conn {
    var closed: bool
    var reqSeq: nat
    var requests: map<Id, Entry>

    ghost function View(): Registry
      reads this
    {
      Registry(closed, reqSeq, requests)
    }

    constructor ()
      ensures View() == Registry(false, 0, map[])
    {
      closed, reqSeq, requests := false, 0, map[];
    }

    method RegisterRequest(id: Id, e: Exec) returns (seqNo: nat, shadowed: Option<Exec>)
      modifies this
      ensures (View(), seqNo, shadowed) == Register(old(View()), id, e)
      ensures forall i :: i != id ==>
              (i in requests <==> i in old(requests)) && (i in requests ==> requests[i] == old(requests)[i])
      ensures old(TokensInv(View())) ==> TokensInv(View())
      ensures old(TokensInv(View())) && !closed ==>
                seqNo != 0 && forall i :: i in old(requests) ==> old(requests)[i].seqNo != seqNo
    {
      if closed { return 0, None; }
      shadowed := if id in requests then Some(requests[id].exec) else None;
      reqSeq := reqSeq + 1;
      seqNo := reqSeq;
      requests := requests[id := Entry(seqNo, e, false, false)];
    }

    method UnregisterRequest(id: Id, seqNo: nat) returns (refreshAgain: bool)
      modifies this
      ensures (View(), refreshAgain) == Unregister(old(View()), id, seqNo)
      ensures forall i :: i in old(requests) && old(requests)[i].seqNo != seqNo ==>
              i in requests && requests[i] == old(requests)[i]
      ensures requests.Keys <= old(requests.Keys) && (old(TokensInv(View())) ==> TokensInv(View()))
    {
      if id in requests && seqNo != 0 && requests[id].seqNo == seqNo {
        refreshAgain := requests[id].refreshAgain;
        requests := requests - {id};
      } else {
        refreshAgain := false;
      }
    }

    method RegisterRefreshOf(id: Id, e: Exec) returns (outcome: RefreshOutcome)
      modifies this
      ensures (View(), outcome) == RegisterRefresh(old(View()), id, e)
      ensures forall i :: i in old(requests) && (i != id || !old(requests)[i].refresh) ==>
                i in requests && requests[i].exec == old(requests)[i].exec
                    && requests[i].seqNo == old(requests)[i].seqNo
      ensures outcome.Started? && outcome.shadowed.Some? ==>
                id in old(requests) && old(requests)[id].refresh && outcome.shadowed == Some(old(requests)[id].exec)
      ensures outcome.Deferred? ==> id in requests && requests[id].refreshAgain && !requests[id].refresh
      ensures old(TokensInv(View())) ==> TokensInv(View())
    {
      if closed { return Refused; }
      if id in requests && !requests[id].refresh {
        requests := requests[id := requests[id].(refreshAgain := true)];
        return Deferred;
      }
      var shadowed := if id in requests then Some(requests[id].exec) else None;
      reqSeq := reqSeq + 1;
      requests := requests[id := Entry(reqSeq, e, true, false)];
      outcome := Started(reqSeq, shadowed);
    }

    /** The section of closeWithCause, which cancels under the lock. */
    method Close() returns (first: bool, cancelled: set<Exec>)
      modifies this
      ensures first == !old(closed) && View() == old(View()).(closed := true)
      ensures cancelled == if first then set id | id in requests :: requests[id].exec else {}
    {
      if closed { return false, {}; }
      closed := true;
      first := true;
      cancelled := {};
      var rest := requests.Keys;
      while rest != {}
        invariant rest <= requests.Keys && requests == old(requests) && reqSeq == old(reqSeq) && closed
        invariant cancelled == set id | id in requests.Keys - rest :: requests[id].exec
        decreases |rest|
      {
        var id :| id in rest;
        cancelled := cancelled + {requests[id].exec};
        rest := rest - {id};
      }
    }
  }

  // ---------------------------------------------------------------------------
  // Every interleaving of frames, refreshes, finishing handlers and close
  // ---------------------------------------------------------------------------

  datatype Kind = Request | Subscribe | Refresh

  /** An execution that has registered (or come too late to) and has not unregistered. */
  datatype Run = Run(id: Id, kind: Kind, seqNo: nat, began: nat)

  datatype State = State(
    reg: Registry,
    swept: bool,                 // unregisterConn has run
    registering: Option<Exec>,   // who holds the index lock in register, past its check that the connection is open
    subs: set<Id>,               // this connection's subscriptions in the index
    maxSubs: nat,                // MaxSubscriptions, 0 for no cap
    execs: map<Exec, Run>,
    cancelled: set<Exec>,
    cancelling: set<Exec>,       // cancel funcs taken out of the registry, not yet called
    launched: multiset<Id>,      // refresh goroutines before their existence check
    checked: multiset<Id>,       // refresh goroutines past it
    deferred: multiset<Id>,      // handlers about to run a refresh deferred to them
    unsubscribing: multiset<Id>, // unsubscribe frames between cancelling and unregistering
    // History.
    used: set<Exec>,
    now: nat,
    due: map<Id, nat>            // when the latest refresh not yet answered or superseded came due
  )

  datatype Step =
    | ClientFrame(id: Id, kind: Kind, e: Exec)
    | CancelFrame(id: Id)
    | UnsubscribeFrame(id: Id)
    | DropSubscription(id: Id)
    | CallCancel(e: Exec)
    | CheckOpen(e: Exec)         // register takes the index lock and looks at closed under the connection's
    | Insert                     // the rest of register
    | Finish(e: Exec)
    | RefreshDue(id: Id)
    | CheckExists(id: Id)
    | StartRefresh(id: Id, e: Exec)
    | RunDeferred(id: Id)
    | Close
    | Sweep

  /** The index lock is free, as far as this connection's own goroutines are concerned. */
  predicate IndexFree(st: State) { st.registering.None? }

  ghost predicate Enabled(st: State, step: Step) {
    match step
    case ClientFrame(_, kind, e) => kind != Refresh && e !in st.used
    case DropSubscription(id) => id in st.unsubscribing && IndexFree(st)
    case CallCancel(e) => e in st.cancelling
    case CheckOpen(e) => e in st.execs && st.execs[e].kind == Subscribe && IndexFree(st)
    case Insert => st.registering.Some? && st.registering.value in st.execs
    case Finish(e) => e in st.execs && st.registering != Some(e)
    case RefreshDue(id) => id in st.subs && IndexFree(st)
    case CheckExists(id) => id in st.launched && IndexFree(st)
    case StartRefresh(id, e) => id in st.checked && e !in st.used
    case RunDeferred(id) => id in st.deferred && IndexFree(st)
    case Close => !st.reg.closed
    case Sweep => st.reg.closed && IndexFree(st)
    case _ => true
  }

  function Shadowed(o: Option<Exec>): set<Exec> { if o.Some? then {o.value} else {} }

  function Tick(st: State): State { st.(now := st.now + 1) }

  function CapReached(st: State): bool { st.maxSubs > 0 && |st.subs| >= st.maxSubs }

  function Apply(st: State, step: Step): State
    requires Enabled(st, step)
  {
    var t := Tick(st);
    match step
    case ClientFrame(id, kind, e) =>
      var (reg, seqNo, shadowed) := Register(st.reg, id, e);
      t.(reg := reg, used := st.used + {e}, execs := st.execs[e := Run(id, kind, seqNo, t.now)],
         cancelling := st.cancelling + if st.reg.closed then {e} else Shadowed(shadowed),
         due := st.due - {id})
    case CancelFrame(id) =>
      t.(cancelling := st.cancelling + (if id in st.reg.requests then {st.reg.requests[id].exec} else {}),
          due := st.due - {id})
    case UnsubscribeFrame(id) =>
      t.(cancelling := st.cancelling + (if id in st.reg.requests then {st.reg.requests[id].exec} else {}),
          due := st.due - {id},
         unsubscribing := st.unsubscribing + multiset{id})
    case DropSubscription(id) =>
      t.(unsubscribing := st.unsubscribing - multiset{id}, subs := st.subs - {id}, due := st.due - {id})
    case CallCancel(e) => t.(cancelling := st.cancelling - {e}, cancelled := st.cancelled + {e})
    case CheckOpen(e) => if st.reg.closed then t else t.(registering := Some(e))
    case Insert =>
      var id := st.execs[st.registering.value].id;
      var t' := t.(registering := None);
      if id !in st.subs && CapReached(st) then t' else t'.(subs := st.subs + {id})
    case Finish(e) =>
      var run := st.execs[e];
      var (reg, again) := Unregister(st.reg, run.id, run.seqNo);
      var answered := run.kind == Refresh && e !in st.cancelled && run.id in st.due && st.due[run.id] < run.began;
      t.(reg := reg, execs := st.execs - {e},
         deferred := if again && run.kind != Refresh then st.deferred + multiset{run.id} else st.deferred,
         due := if answered then st.due - {run.id} else st.due)
    case RefreshDue(id) =>
      t.(launched := st.launched + multiset{id}, due := if st.reg.closed then st.due else st.due[id := t.now])
    case CheckExists(id) =>
      t.(launched := st.launched - multiset{id},
         checked := if id in st.subs then st.checked + multiset{id} else st.checked)
    case StartRefresh(id, e) =>
      var (reg, outcome) := RegisterRefresh(st.reg, id, e);
      var t' := t.(reg := reg, used := st.used + {e}, checked := st.checked - multiset{id});
      if outcome.Started? then
        t'.(execs := st.execs[e := Run(id, Refresh, outcome.seqNo, t.now)],
            cancelling := st.cancelling + Shadowed(outcome.shadowed))
      else t'
    case RunDeferred(id) =>
      t.(deferred := st.deferred - multiset{id},
         launched := if id in st.subs then st.launched + multiset{id} else st.launched)
    case Close =>
      t.(reg := st.reg.(closed := true), due := map[],
         cancelled := st.cancelled + set id | id in st.reg.requests :: st.reg.requests[id].exec)
    case Sweep => t.(subs := {}, swept := true)
  }

  ghost predicate Init(st: State) {
    st == State(Registry(false, 0, map[]), false, None, {}, st.maxSubs, map[], {}, {},
                multiset{}, multiset{}, multiset{}, multiset{},
                {}, 0, map[])
  }

  // ---------------------------------------------------------------------------
  // Invariant
  // ---------------------------------------------------------------------------

  /** Every entry is an unfinished execution's own, under its own token. */
  ghost predicate EntriesInv(reg: Registry, execs: map<Exec, Run>) {
    && (forall id :: id in reg.requests ==>
          var en := reg.requests[id];
          && en.exec in execs && execs[en.exec].id == id && execs[en.exec].seqNo == en.seqNo
          && 0 < en.seqNo <= reg.reqSeq
          && (en.refresh <==> execs[en.exec].kind == Refresh)
          && (en.refresh ==> !en.refreshAgain))
    && (forall e :: e in execs ==> execs[e].seqNo <= reg.reqSeq)
    && (forall e, f :: e in execs && f in execs && e != f && execs[e].seqNo != 0 ==> execs[e].seqNo != execs[f].seqNo)
  }

  ghost predicate IsEntry(reg: Registry, e: Exec, run: Run) { run.id in reg.requests && reg.requests[run.id].exec == e }

  /** An unfinished execution is its ID's entry, or has been cancelled, or is about to be. */
  ghost predicate CancelInv(reg: Registry, execs: map<Exec, Run>, cancelled: set<Exec>, cancelling: set<Exec>) {
    && (forall e :: e in execs ==> IsEntry(reg, e, execs[e]) || e in cancelled || e in cancelling)
    && (reg.closed ==> forall e :: e in execs ==> e in cancelled || e in cancelling)
  }

  ghost predicate UsedInv(execs: map<Exec, Run>, cancelled: set<Exec>, cancelling: set<Exec>, used: set<Exec>) {
    execs.Keys <= used && cancelling <= used && cancelled <= used
  }

  ghost predicate ClockInv(now: nat, execs: map<Exec, Run>, due: map<Id, nat>) {
    && (forall e :: e in execs ==> execs[e].began <= now)
    && (forall id :: id in due ==> due[id] <= now)
  }

  ghost predicate SubsInv(swept: bool, closed: bool, registering: Option<Exec>, execs: map<Exec, Run>, subs: set<Id>,
                          maxSubs: nat)
  {
    && (swept ==> closed && subs == {} && registering.None?)
    && (registering.Some? ==> registering.value in execs)
    && (maxSubs > 0 ==> |subs| <= maxSubs)
  }

  /** The live refresh entry that answers a refresh due at time d: begun later and not cancelled. */
  ghost predicate Answering(reg: Registry, execs: map<Exec, Run>, cancelled: set<Exec>, cancelling: set<Exec>, id: Id,
                            d: nat)
  {
    && id in reg.requests && reg.requests[id].refresh && reg.requests[id].exec in execs
    && execs[reg.requests[id].exec].began > d
    && reg.requests[id].exec !in cancelled && reg.requests[id].exec !in cancelling
  }

  /** A refresh that came due is on its way, running, or deferred to the request that runs. */
  ghost predicate Coming(st: State, id: Id)
    requires id in st.due
  {
    || id in st.launched || id in st.checked || id in st.deferred
    || (id in st.reg.requests && st.reg.requests[id].refreshAgain)
    || Answering(st.reg, st.execs, st.cancelled, st.cancelling, id, st.due[id])
  }

  ghost predicate DueInv(st: State) {
    && (st.reg.closed ==> st.due == map[])
    && (forall id :: id in st.due ==> id in st.subs && Coming(st, id))
  }

  ghost predicate ExecsInv(st: State) {
    && EntriesInv(st.reg, st.execs)
    && CancelInv(st.reg, st.execs, st.cancelled, st.cancelling)
    && UsedInv(st.execs, st.cancelled, st.cancelling, st.used)
  }

  ghost predicate Inv(st: State) {
    && ExecsInv(st)
    && ClockInv(st.now, st.execs, st.due)
    && SubsInv(st.swept, st.reg.closed, st.registering, st.execs, st.subs, st.maxSubs)
    && DueInv(st)
  }

  lemma InitHolds(st: State)
    requires Init(st)
    ensures Inv(st)
  {
  }

  lemma EnterKeepsEntries(reg: Registry, execs: map<Exec, Run>, id: Id, e: Exec, kind: Kind, began: nat)
    requires EntriesInv(reg, execs) && e !in execs
    ensures EntriesInv(Entered(reg, id, e, kind == Refresh), execs[e := Run(id, kind, reg.reqSeq + 1, began)])
  {
  }

  lemma EnterKeepsCancel(reg: Registry, execs: map<Exec, Run>, cancelled: set<Exec>, cancelling: set<Exec>,
                         id: Id, e: Exec, run: Run, refresh: bool)
    requires CancelInv(reg, execs, cancelled, cancelling) && !reg.closed && run.id == id
    ensures CancelInv(Entered(reg, id, e, refresh), execs[e := run], cancelled, cancelling + Shadowed(Shadow(reg, id)))
  {
    var reg', execs' := Entered(reg, id, e, refresh), execs[e := run];
    var cancelling' := cancelling + Shadowed(Shadow(reg, id));
    forall f | f in execs' ensures IsEntry(reg', f, execs'[f]) || f in cancelled || f in cancelling' {
      if f != e { assert IsEntry(reg, f, execs[f]) || f in cancelled || f in cancelling; }
    }
  }

  /** A new entry gets a new token, and whatever it shadows is about to be cancelled. */
  lemma EnterKeeps(reg: Registry, execs: map<Exec, Run>, cancelled: set<Exec>, cancelling: set<Exec>, used: set<Exec>,
                   id: Id, e: Exec, kind: Kind, began: nat)
    requires EntriesInv(reg, execs) && CancelInv(reg, execs, cancelled, cancelling)
             && UsedInv(execs, cancelled, cancelling, used)
    requires e !in used && !reg.closed
    ensures var reg', execs' := Entered(reg, id, e, kind == Refresh), execs[e := Run(id, kind, reg.reqSeq + 1, began)];
            var shadowed := Shadow(reg, id);
            && EntriesInv(reg', execs') && CancelInv(reg', execs', cancelled, cancelling + Shadowed(shadowed))
            && UsedInv(execs', cancelled, cancelling + Shadowed(shadowed), used + {e})
  {
    EnterKeepsEntries(reg, execs, id, e, kind, began);
    EnterKeepsCancel(reg, execs, cancelled, cancelling, id, e, Run(id, kind, reg.reqSeq + 1, began), kind == Refresh);
  }

  /** An execution that comes after close never enters the map and is cancelled at once. */
  lemma LateKeeps(reg: Registry, execs: map<Exec, Run>, cancelled: set<Exec>, cancelling: set<Exec>, used: set<Exec>,
                  id: Id, e: Exec, kind: Kind, began: nat)
    requires EntriesInv(reg, execs) && CancelInv(reg, execs, cancelled, cancelling)
             && UsedInv(execs, cancelled, cancelling, used)
    requires e !in used && reg.closed
    ensures var execs' := execs[e := Run(id, kind, 0, began)];
            && EntriesInv(reg, execs') && CancelInv(reg, execs', cancelled, cancelling + {e})
            && UsedInv(execs', cancelled, cancelling + {e}, used + {e})
  {
    var execs' := execs[e := Run(id, kind, 0, began)];
    forall f | f in execs' ensures IsEntry(reg, f, execs'[f]) || f in cancelled || f in cancelling + {e} {
      if f != e { assert IsEntry(reg, f, execs[f]) || f in cancelled || f in cancelling; }
    }
  }

  lemma LeaveIs(reg: Registry, execs: map<Exec, Run>, e: Exec)
    requires EntriesInv(reg, execs) && e in execs
    ensures Unregister(reg, execs[e].id, execs[e].seqNo) ==
            if IsEntry(reg, e, execs[e])
            then (reg.(requests := reg.requests - {execs[e].id}), reg.requests[execs[e].id].refreshAgain)
            else (reg, false)
  {
  }

  lemma LeaveKeepsEntries(reg: Registry, execs: map<Exec, Run>, e: Exec)
    requires EntriesInv(reg, execs) && e in execs
    ensures EntriesInv(if IsEntry(reg, e, execs[e]) then reg.(requests := reg.requests - {execs[e].id}) else reg,
                       execs - {e})
  {
  }

  lemma LeaveKeepsCancel(reg: Registry, execs: map<Exec, Run>, cancelled: set<Exec>, cancelling: set<Exec>, e: Exec)
    requires CancelInv(reg, execs, cancelled, cancelling) && e in execs
    ensures CancelInv(if IsEntry(reg, e, execs[e]) then reg.(requests := reg.requests - {execs[e].id}) else reg,
                      execs - {e}, cancelled, cancelling)
  {
    var reg' := if IsEntry(reg, e, execs[e]) then reg.(requests := reg.requests - {execs[e].id}) else reg;
    forall f | f in execs - {e} ensures IsEntry(reg', f, execs[f]) || f in cancelled || f in cancelling {
      assert IsEntry(reg, f, execs[f]) || f in cancelled || f in cancelling;
    }
  }

  /** Unregistering removes an execution's own entry or none. */
  lemma LeaveKeeps(reg: Registry, execs: map<Exec, Run>, cancelled: set<Exec>, cancelling: set<Exec>, e: Exec)
    requires EntriesInv(reg, execs) && CancelInv(reg, execs, cancelled, cancelling) && e in execs
    ensures var (reg', again) := Unregister(reg, execs[e].id, execs[e].seqNo);
            && EntriesInv(reg', execs - {e}) && CancelInv(reg', execs - {e}, cancelled, cancelling)
            && (reg' == if IsEntry(reg, e, execs[e]) then reg.(requests := reg.requests - {execs[e].id}) else reg)
            && (again <==> IsEntry(reg, e, execs[e]) && reg.requests[execs[e].id].refreshAgain)
  {
    LeaveIs(reg, execs, e);
    LeaveKeepsEntries(reg, execs, e);
    LeaveKeepsCancel(reg, execs, cancelled, cancelling, e);
  }

  /** A new entry for id leaves what is coming for other IDs alone. */
  lemma OthersStillCome(st: State, st': State, id: Id, e: Exec, x: Id)
    requires Inv(st) && x in st.due && x != id && !st.reg.closed && e !in st.used
    requires e in st'.execs && st'.reg.requests == Entered(st.reg, id, e, st'.execs[e].kind == Refresh).requests
    requires st'.execs == st.execs[e := st'.execs[e]] && st'.cancelled == st.cancelled
    requires st'.cancelling <= st.cancelling + Shadowed(Shadow(st.reg, id))
    requires st'.launched == st.launched && st'.deferred == st.deferred && x in st'.due && st'.due[x] == st.due[x]
    requires x in st.checked ==> x in st'.checked
    ensures Coming(st', x)
  {
    if x in st.reg.requests && id in st.reg.requests {
      assert st.execs[st.reg.requests[x].exec].id == x && st.execs[st.reg.requests[id].exec].id == id;
    }
  }

  /** Deferring only marks the running request. */
  lemma DeferKeeps(reg: Registry, execs: map<Exec, Run>, cancelled: set<Exec>, cancelling: set<Exec>, id: Id)
    requires EntriesInv(reg, execs) && CancelInv(reg, execs, cancelled, cancelling)
    requires id in reg.requests && !reg.requests[id].refresh
    ensures var reg' := reg.(requests := reg.requests[id := reg.requests[id].(refreshAgain := true)]);
            EntriesInv(reg', execs) && CancelInv(reg', execs, cancelled, cancelling)
  {
    var reg' := reg.(requests := reg.requests[id := reg.requests[id].(refreshAgain := true)]);
    forall f | f in execs ensures IsEntry(reg', f, execs[f]) || f in cancelled || f in cancelling {
      assert IsEntry(reg, f, execs[f]) || f in cancelled || f in cancelling;
    }
  }

  lemma EntryKeepsClock(st: State, step: Step)
    requires ClockInv(st.now, st.execs, st.due) && Enabled(st, step) && (step.ClientFrame? || step.StartRefresh?)
    ensures var st' := Apply(st, step); ClockInv(st'.now, st'.execs, st'.due)
  {
    var st' := Apply(st, step);
    forall e | e in st'.execs ensures st'.execs[e].began <= st'.now {
      assert e == step.e || (e in st.execs && st'.execs[e] == st.execs[e]);
    }
  }

  lemma FinishKeepsClock(st: State, e: Exec)
    requires ClockInv(st.now, st.execs, st.due) && Enabled(st, Finish(e))
    ensures var st' := Apply(st, Finish(e)); ClockInv(st'.now, st'.execs, st'.due)
  {
  }

  lemma OtherKeepsClock(st: State, step: Step)
    requires ClockInv(st.now, st.execs, st.due) && Enabled(st, step)
    requires !step.ClientFrame? && !step.StartRefresh? && !step.Finish?
    ensures var st' := Apply(st, step); ClockInv(st'.now, st'.execs, st'.due)
  {
  }

  lemma ClockKeeps(st: State, step: Step)
    requires ClockInv(st.now, st.execs, st.due) && Enabled(st, step)
    ensures var st' := Apply(st, step); ClockInv(st'.now, st'.execs, st'.due)
  {
    match step
    case ClientFrame(_, _, _) => EntryKeepsClock(st, step);
    case StartRefresh(_, _) => EntryKeepsClock(st, step);
    case Finish(e) => FinishKeepsClock(st, e);
    case _ => OtherKeepsClock(st, step);
  }

  lemma IndexStepKeepsSubs(st: State, step: Step)
    requires SubsInv(st.swept, st.reg.closed, st.registering, st.execs, st.subs, st.maxSubs) && Enabled(st, step)
    requires step.DropSubscription? || step.CheckOpen? || step.Insert? || step.Sweep?
    ensures var st' := Apply(st, step);
      SubsInv(st'.swept, st'.reg.closed, st'.registering, st'.execs, st'.subs, st'.maxSubs)
  {
  }

  lemma OtherStepKeepsSubs(st: State, step: Step)
    requires SubsInv(st.swept, st.reg.closed, st.registering, st.execs, st.subs, st.maxSubs) && Enabled(st, step)
    requires !step.DropSubscription? && !step.CheckOpen? && !step.Insert? && !step.Sweep?
    ensures var st' := Apply(st, step);
      SubsInv(st'.swept, st'.reg.closed, st'.registering, st'.execs, st'.subs, st'.maxSubs)
  {
  }

  lemma SubsKeep(st: State, step: Step)
    requires SubsInv(st.swept, st.reg.closed, st.registering, st.execs, st.subs, st.maxSubs) && Enabled(st, step)
    ensures var st' := Apply(st, step);
      SubsInv(st'.swept, st'.reg.closed, st'.registering, st'.execs, st'.subs, st'.maxSubs)
  {
    if step.DropSubscription? || step.CheckOpen? || step.Insert? || step.Sweep? {
      IndexStepKeepsSubs(st, step);
    } else {
      OtherStepKeepsSubs(st, step);
    }
  }

  // The executions and the registry.

  lemma OpenFrameIs(st: State, id: Id, kind: Kind, e: Exec)
    requires Enabled(st, ClientFrame(id, kind, e)) && !st.reg.closed
    ensures var st' := Apply(st, ClientFrame(id, kind, e));
      && st'.reg == Entered(st.reg, id, e, kind == Refresh) && st'.used == st.used + {e}
      && st'.execs == st.execs[e := Run(id, kind, st.reg.reqSeq + 1, st.now + 1)]
      && st'.cancelled == st.cancelled && st'.cancelling == st.cancelling + Shadowed(Shadow(st.reg, id))
  {
  }

  lemma StartedIs(st: State, id: Id, e: Exec)
    requires Enabled(st, StartRefresh(id, e)) && RegisterRefresh(st.reg, id, e).1.Started?
    ensures var st' := Apply(st, StartRefresh(id, e));
      && st'.reg == Entered(st.reg, id, e, true) && st'.used == st.used + {e}
      && st'.execs == st.execs[e := Run(id, Refresh, st.reg.reqSeq + 1, st.now + 1)]
      && st'.cancelled == st.cancelled && st'.cancelling == st.cancelling + Shadowed(Shadow(st.reg, id))
  {
  }

  lemma OpenFrameKeepsExecs(st: State, id: Id, kind: Kind, e: Exec)
    requires ExecsInv(st) && Enabled(st, ClientFrame(id, kind, e)) && !st.reg.closed
    ensures ExecsInv(Apply(st, ClientFrame(id, kind, e)))
  {
    EnterKeeps(st.reg, st.execs, st.cancelled, st.cancelling, st.used, id, e, kind, st.now + 1);
    OpenFrameIs(st, id, kind, e);
  }

  lemma LateFrameKeepsExecs(st: State, id: Id, kind: Kind, e: Exec)
    requires ExecsInv(st) && Enabled(st, ClientFrame(id, kind, e)) && st.reg.closed
    ensures ExecsInv(Apply(st, ClientFrame(id, kind, e)))
  {
    LateKeeps(st.reg, st.execs, st.cancelled, st.cancelling, st.used, id, e, kind, st.now + 1);
  }

  lemma StartedKeepsExecs(st: State, id: Id, e: Exec)
    requires ExecsInv(st) && Enabled(st, StartRefresh(id, e)) && RegisterRefresh(st.reg, id, e).1.Started?
    ensures ExecsInv(Apply(st, StartRefresh(id, e)))
  {
    EnterKeeps(st.reg, st.execs, st.cancelled, st.cancelling, st.used, id, e, Refresh, st.now + 1);
    StartedIs(st, id, e);
  }

  lemma DeferredKeepsExecs(st: State, id: Id, e: Exec)
    requires ExecsInv(st) && Enabled(st, StartRefresh(id, e)) && !RegisterRefresh(st.reg, id, e).1.Started?
    ensures ExecsInv(Apply(st, StartRefresh(id, e)))
  {
    if !st.reg.closed { DeferKeeps(st.reg, st.execs, st.cancelled, st.cancelling, id); }
  }

  lemma FinishKeepsExecs(st: State, e: Exec)
    requires ExecsInv(st) && Enabled(st, Step.Finish(e))
    ensures ExecsInv(Apply(st, Step.Finish(e)))
  {
    LeaveKeeps(st.reg, st.execs, st.cancelled, st.cancelling, e);
  }

  lemma CancelKeepsExecs(st: State, step: Step)
    requires ExecsInv(st) && Enabled(st, step) && (step.CancelFrame? || step.UnsubscribeFrame? || step.CallCancel?)
    ensures ExecsInv(Apply(st, step))
  {
  }

  lemma CloseKeepsExecs(st: State)
    requires ExecsInv(st) && Enabled(st, Step.Close)
    ensures ExecsInv(Apply(st, Step.Close))
  {
  }

  lemma ExecsKeep(st: State, step: Step)
    requires ExecsInv(st) && Enabled(st, step)
    ensures ExecsInv(Apply(st, step))
  {
    match step
    case ClientFrame(id, kind, e) =>
      if st.reg.closed { LateFrameKeepsExecs(st, id, kind, e); } else { OpenFrameKeepsExecs(st, id, kind, e); }
    case StartRefresh(id, e) =>
      if RegisterRefresh(st.reg, id, e).1.Started? {
        StartedKeepsExecs(st, id, e);
      } else {
        DeferredKeepsExecs(st, id, e);
      }
    case Finish(e) => FinishKeepsExecs(st, e);
    case CancelFrame(_) => CancelKeepsExecs(st, step);
    case UnsubscribeFrame(_) => CancelKeepsExecs(st, step);
    case CallCancel(_) => CancelKeepsExecs(st, step);
    case Close => CloseKeepsExecs(st);
    case _ =>
  }

  // The refreshes that are due.

  lemma FrameKeepsDue(st: State, id: Id, kind: Kind, e: Exec)
    requires Inv(st) && Enabled(st, ClientFrame(id, kind, e))
    ensures DueInv(Apply(st, ClientFrame(id, kind, e)))
  {
    var st' := Apply(st, ClientFrame(id, kind, e));
    forall x | x in st'.due ensures Coming(st', x) {
      OthersStillCome(st, st', id, e, x);
    }
  }

  /** A finish answers what is due, or leaves it coming. */
  lemma ComesAfterFinish(st: State, e: Exec, x: Id)
    requires Inv(st) && Enabled(st, Step.Finish(e)) && x in Apply(st, Step.Finish(e)).due
    ensures x in st.due && Coming(Apply(st, Step.Finish(e)), x)
  {
    LeaveKeeps(st.reg, st.execs, st.cancelled, st.cancelling, e);
    assert Coming(st, x);
  }

  lemma FinishKeepsDue(st: State, e: Exec)
    requires Inv(st) && Enabled(st, Step.Finish(e))
    ensures DueInv(Apply(st, Step.Finish(e)))
  {
    var st' := Apply(st, Step.Finish(e));
    forall x | x in st'.due ensures x in st'.subs && Coming(st', x) { ComesAfterFinish(st, e, x); }
  }

  lemma StartedKeepsDue(st: State, id: Id, e: Exec)
    requires Inv(st) && Enabled(st, StartRefresh(id, e)) && RegisterRefresh(st.reg, id, e).1.Started?
    ensures DueInv(Apply(st, StartRefresh(id, e)))
  {
    var st' := Apply(st, StartRefresh(id, e));
    forall x | x in st'.due ensures Coming(st', x) {
      if x != id { OthersStillCome(st, st', id, e, x); }
    }
  }

  lemma DeferredKeepsDue(st: State, id: Id, e: Exec)
    requires Inv(st) && Enabled(st, StartRefresh(id, e)) && !RegisterRefresh(st.reg, id, e).1.Started?
    ensures DueInv(Apply(st, StartRefresh(id, e)))
  {
    var st' := Apply(st, StartRefresh(id, e));
    forall x | x in st'.due ensures Coming(st', x) {
      assert Coming(st, x);
    }
  }

  lemma CancelKeepsDue(st: State, step: Step)
    requires Inv(st) && Enabled(st, step)
    requires step.CancelFrame? || step.UnsubscribeFrame? || step.CallCancel? || step.Close?
    ensures DueInv(Apply(st, step))
  {
  }

  lemma IndexStepKeepsDue(st: State, step: Step)
    requires Inv(st) && Enabled(st, step)
    requires step.DropSubscription? || step.CheckOpen? || step.Insert? || step.Sweep?
    ensures DueInv(Apply(st, step))
  {
    var st' := Apply(st, step);
    assert forall x :: x in st'.due ==> Coming(st, x);
  }

  lemma LaunchKeepsDue(st: State, step: Step)
    requires Inv(st) && Enabled(st, step) && (step.RefreshDue? || step.CheckExists? || step.RunDeferred?)
    ensures DueInv(Apply(st, step))
  {
    var st' := Apply(st, step);
    assert forall x :: x in st.due ==> Coming(st, x);
  }

  lemma DueKeeps(st: State, step: Step)
    requires Inv(st) && Enabled(st, step)
    ensures DueInv(Apply(st, step))
  {
    match step
    case ClientFrame(id, kind, e) => FrameKeepsDue(st, id, kind, e);
    case Finish(e) => FinishKeepsDue(st, e);
    case StartRefresh(id, e) =>
      if RegisterRefresh(st.reg, id, e).1.Started? { StartedKeepsDue(st, id, e); } else { DeferredKeepsDue(st, id, e); }
    case CancelFrame(_) => CancelKeepsDue(st, step);
    case UnsubscribeFrame(_) => CancelKeepsDue(st, step);
    case CallCancel(_) => CancelKeepsDue(st, step);
    case Close => CancelKeepsDue(st, step);
    case RefreshDue(_) => LaunchKeepsDue(st, step);
    case CheckExists(_) => LaunchKeepsDue(st, step);
    case RunDeferred(_) => LaunchKeepsDue(st, step);
    case _ => IndexStepKeepsDue(st, step);
  }

  lemma StepKeeps(st: State, step: Step)
    requires Inv(st) && Enabled(st, step)
    ensures Inv(Apply(st, step))
  {
    ClockKeeps(st, step);
    SubsKeep(st, step);
    ExecsKeep(st, step);
    DueKeeps(st, step);
  }

  // ---------------------------------------------------------------------------
  // Over every run
  // ---------------------------------------------------------------------------

  ghost predicate Moves(run: seq<State>, i: nat)
    requires i + 1 < |run|
  {
    exists step :: Enabled(run[i], step) && run[i + 1] == Apply(run[i], step)
  }

  ghost predicate IsRun(run: seq<State>) {
    && run != [] && Init(run[0])
    && (forall i :: 0 <= i < |run| - 1 ==> Moves(run, i))
  }

  lemma StepAt(run: seq<State>, i: nat) returns (step: Step)
    requires IsRun(run) && i + 1 < |run|
    ensures Enabled(run[i], step) && run[i + 1] == Apply(run[i], step)
  {
    assert Moves(run, i);
    step :| Enabled(run[i], step) && run[i + 1] == Apply(run[i], step);
  }

  lemma {:induction false} RunKeeps(run: seq<State>, i: nat)
    requires IsRun(run) && i < |run|
    ensures Inv(run[i])
  {
    if i == 0 {
      InitHolds(run[0]);
    } else {
      RunKeeps(run, i - 1);
      var step := StepAt(run, i - 1);
      StepKeeps(run[i - 1], step);
    }
  }

  /** No execution is orphaned: a frame or a close can still reach it, or it has been or is being cancelled. */
  lemma NoExecutionIsOrphaned(run: seq<State>, i: nat, e: Exec)
    requires IsRun(run) && i < |run| && e in run[i].execs
    ensures var st := run[i];
            var r := st.execs[e];
            || (!st.reg.closed && r.id in st.reg.requests && st.reg.requests[r.id].exec == e
                && st.reg.requests[r.id].seqNo == r.seqNo)
            || e in st.cancelled || e in st.cancelling
  {
    RunKeeps(run, i);
    assert IsEntry(run[i].reg, e, run[i].execs[e]) || e in run[i].cancelled || e in run[i].cancelling;
  }

  /** A finishing execution never takes a replacement's entry with it. */
  lemma FinishTakesOnlyItsOwn(run: seq<State>, i: nat, e: Exec, id: Id)
    requires IsRun(run) && i < |run| && Enabled(run[i], Finish(e))
    requires id in run[i].reg.requests && run[i].reg.requests[id].exec != e
    ensures var reg' := Apply(run[i], Finish(e)).reg;
            id in reg'.requests && reg'.requests[id] == run[i].reg.requests[id]
  {
    RunKeeps(run, i);
    LeaveKeeps(run[i].reg, run[i].execs, run[i].cancelled, run[i].cancelling, e);
  }

  /** A refresh cancels at most the refresh it supersedes, never a client's request or subscribe. */
  lemma RefreshCancelsOnlyRefreshes(run: seq<State>, i: nat, id: Id, e: Exec, victim: Exec)
    requires IsRun(run) && i < |run| && Enabled(run[i], StartRefresh(id, e))
    requires victim !in run[i].cancelling && victim in Apply(run[i], StartRefresh(id, e)).cancelling
    ensures victim in run[i].execs && run[i].execs[victim].kind == Refresh && run[i].execs[victim].id == id
    ensures Apply(run[i], StartRefresh(id, e)).cancelled == run[i].cancelled
  {
    RunKeeps(run, i);
  }

  /** As long as it is due, a refresh is on its way, running uncancelled since, or deferred to a running request. */
  lemma DueRefreshIsComing(run: seq<State>, i: nat, id: Id)
    requires IsRun(run) && i < |run| && id in run[i].due
    ensures var st := run[i];
            && id in st.subs
            && (|| id in st.launched || id in st.checked || id in st.deferred
                || (id in st.reg.requests && st.reg.requests[id].refreshAgain)
                || Answering(st.reg, st.execs, st.cancelled, st.cancelling, id, st.due[id]))
  {
    RunKeeps(run, i);
    assert Coming(run[i], id);
  }

  /** It stops being due only when a later refresh finishes, a client frame names its ID, or the connection closes. */
  lemma DueRefreshEndsByAnswer(run: seq<State>, i: nat, id: Id) returns (step: Step)
    requires IsRun(run) && i + 1 < |run| && id in run[i].due && id !in run[i + 1].due
    ensures Enabled(run[i], step) && run[i + 1] == Apply(run[i], step)
    ensures
      || step.Close?
      || (step.ClientFrame? && step.id == id) || step == CancelFrame(id) || step == UnsubscribeFrame(id)
         || step == DropSubscription(id)
      || (step.Finish? && step.e in run[i].execs && step.e !in run[i].cancelled
          && run[i].execs[step.e].kind == Refresh && run[i].execs[step.e].id == id
          && run[i].execs[step.e].began > run[i].due[id])
  {
    step := StepAt(run, i);
  }

  lemma SweptStays(st: State, step: Step)
    requires Enabled(st, step) && st.swept
    ensures Apply(st, step).swept
  {
  }

  lemma {:induction false} SweptForever(run: seq<State>, i: nat, j: nat)
    requires IsRun(run) && i <= j < |run| && run[i].swept
    ensures run[j].swept
    decreases j - i
  {
    if i < j {
      SweptForever(run, i, j - 1);
      var step := StepAt(run, j - 1);
      SweptStays(run[j - 1], step);
    }
  }

  /**
   * Once close has swept the index, no handler can put a subscription of this connection back, though the connection
   * may close between register's look at it and the insertion: the sweep waits for the index lock.
   */
  lemma NoSubscriptionOutlivesClose(run: seq<State>, i: nat, j: nat)
    requires IsRun(run) && i <= j < |run| && run[i].swept
    ensures run[j].reg.closed && run[j].subs == {}
  {
    SweptForever(run, i, j);
    RunKeeps(run, j);
  }

  lemma SubscriptionsStayCapped(run: seq<State>, i: nat)
    requires IsRun(run) && i < |run| && run[i].maxSubs > 0
    ensures |run[i].subs| <= run[i].maxSubs
  {
    RunKeeps(run, i);
  }
}
