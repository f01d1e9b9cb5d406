/**
 * Calls and the frames that complete them (client/call.go, client/client.go).
 *
 * A pending call can be removed from the table by seven parties: a result, an
 * error, an unusable binary frame, a rejected stream, a dropped connection, the
 * client's shutdown, and the caller itself. Whoever removes it is its only
 * completer. Tables hold calls, streams and subscriptions under IDs from one
 * counter, so a frame finds at most one of them.
 */
module ClientCalls {
  import opened Common

  type Id = nat
  type Conn = nat

  datatype Msg = Response | ApiError | BadBinary | NotACall | ConnectionLost | Closed

  /** The three tables guarded by Client.mu that frames are routed through. */
  datatype Tables = Tables(pending: set<Id>, streams: set<Id>, subs: set<Id>)

  /** What a frame was routed to. */
  datatype Target = Nobody | ToCall | ToStream | ToSub

  /** deliverResult. */
  function RouteResult(t: Tables, id: Id): (Tables, Target) {
    if id in t.pending then (t.(pending := t.pending - {id}), ToCall)
    else if id in t.streams then (t.(streams := t.streams - {id}), ToStream)
    else (t, if id in t.subs then ToSub else Nobody)
  }

  /** handleError, which routes by the same order and skips frames without an ID (None). */
  function RouteError(t: Tables, id: Option<Id>): (Tables, Target) {
    match id
    case None => (t, Nobody)
    case Some(i) => RouteResult(t, i)
  }

  /** The unsupported-frame branch of handleBinary, which never looks at streams. */
  function RouteBadBinary(t: Tables, id: Id): (Tables, Target) {
    (t.(pending := t.pending - {id}),
     if id in t.pending then ToCall else if id in t.subs then ToSub else Nobody)
  }

  /** stream_item and stream_chunk: a stream keeps its entry, anything else is a call made the wrong way. */
  function RouteStreamItem(t: Tables, id: Id): (Tables, Target) {
    if id in t.streams then (t, ToStream)
    else (t.(pending := t.pending - {id}), if id in t.pending then ToCall else Nobody)
  }

  function RouteStreamEnd(t: Tables, id: Id): (Tables, Target) {
    if id in t.streams then (t.(streams := t.streams - {id}), ToStream)
    else (t.(pending := t.pending - {id}), if id in t.pending then ToCall else Nobody)
  }

  ghost predicate Disjoint(t: Tables) { t.pending !! t.streams && t.pending !! t.subs && t.streams !! t.subs }

  function Count(b: bool): nat { if b then 1 else 0 }

  function Entries(t: Tables): nat { |t.pending| + |t.streams| + |t.subs| }

  lemma WithoutOne(s: set<Id>, id: Id)
    ensures |s| == |s - {id}| + Count(id in s)
    ensures id !in s ==> s - {id} == s
  {
    if id in s { assert s == (s - {id}) + {id}; } else { assert s - {id} == s; }
  }

  lemma TakesAtMostOne(t: Tables, t': Tables, id: Id)
    requires Disjoint(t) && t'.subs == t.subs
    requires t'.pending == t.pending - {id} && (t'.streams == t.streams || t'.streams == t.streams - {id})
    ensures Entries(t') <= Entries(t) <= Entries(t') + 1
  {
    WithoutOne(t.pending, id);
    WithoutOne(t.streams, id);
  }

  /** The tables as the client mutates them. */
  class Router {
    var pending: set<Id>
    var streams: set<Id>
    var subs: set<Id>

    ghost function View(): Tables
      reads this
    {
      Tables(pending, streams, subs)
    }

    method TakePending(id: Id) returns (there: bool)
      modifies this
      ensures View() == old(View()).(pending := old(pending) - {id}) && there == (id in old(pending))
    {
      if id !in pending { return false; }
      pending := pending - {id};
      there := true;
    }

    method DeliverResult(id: Id) returns (target: Target)
      modifies this
      ensures (View(), target) == RouteResult(old(View()), id)
      ensures old(Disjoint(View())) ==>
                && Disjoint(View()) && id !in pending && id !in streams
                && Entries(old(View())) == Entries(View()) + Count(target.ToCall? || target.ToStream?)
    {
      WithoutOne(pending, id);
      WithoutOne(streams, id);
      if id in pending {
        pending := pending - {id};
        return ToCall;
      }
      if id in streams {
        streams := streams - {id};
        return ToStream;
      }
      target := if id in subs then ToSub else Nobody;
    }

    method HandleBadBinary(id: Id) returns (target: Target)
      modifies this
      ensures (View(), target) == RouteBadBinary(old(View()), id)
      ensures streams == old(streams) && subs == old(subs) && id !in pending
      ensures Entries(old(View())) == Entries(View()) + Count(target.ToCall?)
    {
      WithoutOne(pending, id);
      var ok := TakePending(id);
      target := if ok then ToCall else if id in subs then ToSub else Nobody;
    }

    method HandleStreamEnd(id: Id) returns (target: Target)
      modifies this
      ensures (View(), target) == RouteStreamEnd(old(View()), id)
      ensures old(Disjoint(View())) ==>
                && Disjoint(View()) && id !in pending && id !in streams
                && Entries(old(View())) == Entries(View()) + Count(target.ToCall? || target.ToStream?)
    {
      WithoutOne(pending, id);
      WithoutOne(streams, id);
      if id in streams {
        streams := streams - {id};
        return ToStream;
      }
      var ok := TakePending(id);
      target := if ok then ToCall else Nobody;
    }
  }

  // ---------------------------------------------------------------------------
  // Every interleaving of callers, the read loop, drops and shutdown
  // ---------------------------------------------------------------------------

  datatype Result = Got(msg: Msg) | TooLarge | SendFailed | CtxEnded

  datatype Caller = Sending | Waiting | Draining | Done(result: Result)

  datatype State = State(
    conn: Option<Conn>,
    closed: bool,
    tables: Tables,
    callers: map<Id, Caller>,
    completing: map<Id, seq<Msg>>,  // taken from pending, not yet sent to the call's channel
    chans: map<Id, Msg>,            // the channel's one buffer slot
    // History.
    used: set<Id>,                  // every ID handed out
    sends: multiset<Id>,            // channel sends so far
    causes: set<(Id, Msg)>          // what arrived for which ID
  )

  datatype Step =
    | Register(id: Id, conn: Conn)
    | RegisterStream(id: Id)
    | RegisterSub(id: Id)
    | DropSub(id: Id)
    | DropStream(id: Id)
    | SendOk(id: Id)
    | SendTooLarge(id: Id)
    | SendFails(id: Id)
    | Receive(id: Id)
    | CtxEnds(id: Id)
    | ResultFrame(id: Id)
    | ErrorFrame(about: Option<Id>)
    | BadBinaryFrame(id: Id)
    | StreamItemFrame(id: Id)
    | StreamEndFrame(id: Id)
    | Complete(id: Id)
    | Connected(conn: Conn)
    | Disconnected
    | Shutdown

  const INIT := State(None, false, Tables({}, {}, {}), map[], map[], map[], {}, multiset{}, {})

  function Owing(completing: map<Id, seq<Msg>>, id: Id): seq<Msg> { if id in completing then completing[id] else [] }

  ghost predicate Enabled(st: State, step: Step) {
    match step
    case Register(id, k) => id !in st.used && st.conn == Some(k)
    case RegisterStream(id) => id !in st.used && st.conn.Some?
    case RegisterSub(id) => id !in st.used && !st.closed
    case DropSub(id) => id in st.tables.subs
    case DropStream(id) => id in st.tables.streams
    case SendOk(id) => id in st.callers && st.callers[id] == Sending
    case SendTooLarge(id) => id in st.callers && st.callers[id] == Sending
    case SendFails(id) => id in st.callers && st.callers[id] == Sending
    case Receive(id) => id in st.callers && st.callers[id] in {Waiting, Draining} && id in st.chans
    case CtxEnds(id) => id in st.callers && st.callers[id] == Waiting
    case Complete(id) => Owing(st.completing, id) != [] && id !in st.chans
    case Connected(_) => !st.closed
    case Disconnected => st.conn.Some?
    case Shutdown => !st.closed
    case _ => true
  }

  /** What the party that was routed to a call owes it. */
  function Owe(st: State, routed: (Tables, Target), id: Id, msg: Msg): State {
    var st' := st.(tables := routed.0, causes := st.causes + {(id, msg)});
    if routed.1.ToCall? then st'.(completing := st.completing[id := Owing(st.completing, id) + [msg]]) else st'
  }

  function OweAll(st: State, msg: Msg): State {
    st.(tables := Tables({}, {}, st.tables.subs),
        completing := map id | id in st.completing.Keys + st.tables.pending ::
                        Owing(st.completing, id) + if id in st.tables.pending then [msg] else [],
        causes := st.causes + set id | id in st.tables.pending :: (id, msg))
  }

  function TakeBack(st: State, id: Id): State { st.(tables := st.tables.(pending := st.tables.pending - {id})) }

  function Apply(st: State, step: Step): State
    requires Enabled(st, step)
  {
    match step
    case Register(id, _) =>
      st.(used := st.used + {id}, callers := st.callers[id := Sending],
          tables := st.tables.(pending := st.tables.pending + {id}))
    case RegisterStream(id) =>
      st.(used := st.used + {id}, tables := st.tables.(streams := st.tables.streams + {id}))
    case RegisterSub(id) => st.(used := st.used + {id}, tables := st.tables.(subs := st.tables.subs + {id}))
    case DropSub(id) => st.(tables := st.tables.(subs := st.tables.subs - {id}))
    case DropStream(id) => st.(tables := st.tables.(streams := st.tables.streams - {id}))
    case SendOk(id) => st.(callers := st.callers[id := Waiting])
    case SendTooLarge(id) => TakeBack(st, id).(callers := st.callers[id := Done(TooLarge)])
    case SendFails(id) =>
      if id in st.tables.pending then TakeBack(st, id).(callers := st.callers[id := Done(SendFailed)])
      else st.(callers := st.callers[id := Waiting])
    case Receive(id) => st.(callers := st.callers[id := Done(Got(st.chans[id]))], chans := st.chans - {id})
    case CtxEnds(id) =>
      if id in st.tables.pending then TakeBack(st, id).(callers := st.callers[id := Done(CtxEnded)])
      else st.(callers := st.callers[id := Draining])
    case ResultFrame(id) => Owe(st, RouteResult(st.tables, id), id, Response)
    case ErrorFrame(about) => if about.None? then st else Owe(st, RouteError(st.tables, about), about.value, ApiError)
    case BadBinaryFrame(id) => Owe(st, RouteBadBinary(st.tables, id), id, BadBinary)
    case StreamItemFrame(id) => Owe(st, RouteStreamItem(st.tables, id), id, NotACall)
    case StreamEndFrame(id) => Owe(st, RouteStreamEnd(st.tables, id), id, NotACall)
    case Complete(id) =>
      st.(completing := st.completing[id := st.completing[id][1..]], chans := st.chans[id := st.completing[id][0]],
          sends := st.sends + multiset{id})
    case Connected(k) => st.(conn := Some(k))
    case Disconnected => OweAll(st.(conn := None), ConnectionLost)
    case Shutdown => OweAll(st.(conn := None, closed := true), Closed).(tables := Tables({}, {}, {}))
  }

  // ---------------------------------------------------------------------------
  // Invariant
  // ---------------------------------------------------------------------------

  /** Still pending, or taken by one party whose message is on its way or already sent. */
  ghost function Parties(pending: set<Id>, completing: map<Id, seq<Msg>>, sends: multiset<Id>, id: Id): nat {
    (if id in pending then 1 else 0) + |Owing(completing, id)| + sends[id]
  }

  /** A call that has not returned has one party to complete it; one that has returned is nobody's business. */
  ghost predicate CallInv(caller: Caller, pending: bool, parties: nat, sends: nat, buffered: bool) {
    && parties <= 1 && sends <= parties
    && (buffered ==> sends == 1)
    && match caller
       case Done(Got(_)) => sends == 1 && !buffered
       case Done(TooLarge) => !pending
       case Done(_) => parties == 0
       case Draining => !pending && parties == 1 && (sends == 1 ==> buffered)
       case _ => parties == 1 && (sends == 1 ==> buffered)
  }

  ghost predicate CallersInv(pending: set<Id>, callers: map<Id, Caller>, completing: map<Id, seq<Msg>>,
                             sends: multiset<Id>, chans: map<Id, Msg>)
  {
    && (forall id :: id in callers ==>
          CallInv(callers[id], id in pending, Parties(pending, completing, sends, id), sends[id], id in chans))
    && (forall id :: id !in callers ==> Parties(pending, completing, sends, id) == 0 && id !in chans)
  }

  ghost predicate CausesInv(callers: map<Id, Caller>, completing: map<Id, seq<Msg>>, chans: map<Id, Msg>,
                            causes: set<(Id, Msg)>)
  {
    && (forall id, m :: id in completing && m in completing[id] ==> (id, m) in causes)
    && (forall id :: id in chans ==> (id, chans[id]) in causes)
    && (forall id :: id in callers && callers[id].Done? && callers[id].result.Got? ==>
        (id, callers[id].result.msg) in causes)
  }

  ghost predicate TablesInv(tables: Tables, callers: map<Id, Caller>, used: set<Id>) {
    && Disjoint(tables)
    && tables.pending <= used && tables.streams <= used && tables.subs <= used && callers.Keys <= used
  }

  ghost predicate Inv(st: State) {
    && TablesInv(st.tables, st.callers, st.used)
    && CallersInv(st.tables.pending, st.callers, st.completing, st.sends, st.chans)
    && CausesInv(st.callers, st.completing, st.chans, st.causes)
  }

  lemma InitHolds()
    ensures Inv(INIT)
  {
  }

  /** Routing takes at most the one entry the frame's ID names. */
  ghost predicate Routed(t: Tables, routed: (Tables, Target), id: Id) {
    && (routed.1.ToCall? <==> id in t.pending)
    && routed.0.pending == t.pending - {id}
    && (routed.0.streams == t.streams || routed.0.streams == t.streams - {id})
    && routed.0.subs == t.subs
  }

  lemma RoutesTakeOne(t: Tables, id: Id)
    requires Disjoint(t)
    ensures Routed(t, RouteResult(t, id), id) && Routed(t, RouteBadBinary(t, id), id)
    ensures Routed(t, RouteStreamItem(t, id), id) && Routed(t, RouteStreamEnd(t, id), id)
  {
    if id !in t.pending { assert t.pending - {id} == t.pending; }
  }

  lemma OweTakes(pending: set<Id>, callers: map<Id, Caller>, completing: map<Id, seq<Msg>>, sends: multiset<Id>,
                 chans: map<Id, Msg>, id: Id, msg: Msg)
    requires CallersInv(pending, callers, completing, sends, chans) && id in pending
    ensures CallersInv(pending - {id}, callers, completing[id := Owing(completing, id) + [msg]], sends, chans)
  {
    var completing' := completing[id := Owing(completing, id) + [msg]];
    forall x ensures Parties(pending - {id}, completing', sends, x) == Parties(pending, completing, sends, x) {
    }
  }

  lemma OweKeeps(st: State, routed: (Tables, Target), id: Id, msg: Msg)
    requires Inv(st) && Routed(st.tables, routed, id)
    ensures Inv(Owe(st, routed, id, msg))
  {
    if id in st.tables.pending {
      OweTakes(st.tables.pending, st.callers, st.completing, st.sends, st.chans, id, msg);
    } else {
      assert routed.0.pending == st.tables.pending;
    }
  }

  lemma OweAllKeepsCalls(st: State, msg: Msg)
    requires CallersInv(st.tables.pending, st.callers, st.completing, st.sends, st.chans)
    ensures CallersInv({}, st.callers, OweAll(st, msg).completing, st.sends, st.chans)
  {
    var completing' := OweAll(st, msg).completing;
    forall x ensures Parties({}, completing', st.sends, x) == Parties(st.tables.pending, st.completing, st.sends, x) {
    }
  }

  lemma OweAllKeeps(st: State, msg: Msg)
    requires Inv(st)
    ensures Inv(OweAll(st, msg)) && Inv(OweAll(st, msg).(tables := Tables({}, {}, {})))
  {
    OweAllKeepsCalls(st, msg);
    var st' := OweAll(st, msg);
    assert CausesInv(st'.callers, st'.completing, st'.chans, st'.causes);
  }

  /** What one caller does, when it leaves the others' messages and slots alone. */
  lemma CallerMoves(pending: set<Id>, callers: map<Id, Caller>, completing: map<Id, seq<Msg>>, sends: multiset<Id>,
                    chans: map<Id, Msg>, id: Id, caller: Caller, pending': set<Id>, chans': map<Id, Msg>)
    requires CallersInv(pending, callers, completing, sends, chans) && id in callers
    requires pending' == pending || pending' == pending - {id}
    requires chans' == chans || chans' == chans - {id}
    requires CallInv(caller, id in pending', Parties(pending', completing, sends, id), sends[id], id in chans')
    ensures CallersInv(pending', callers[id := caller], completing, sends, chans')
  {
    forall x | x != id ensures Parties(pending', completing, sends, x) == Parties(pending, completing, sends, x) {
    }
  }

  predicate OfCaller(step: Step) {
    step.SendOk? || step.SendTooLarge? || step.SendFails? || step.Receive? || step.CtxEnds?
  }

  lemma CallerKeepsCalls(st: State, step: Step)
    requires Inv(st) && Enabled(st, step) && OfCaller(step)
    ensures var st' := Apply(st, step);
      CallersInv(st'.tables.pending, st'.callers, st'.completing, st'.sends, st'.chans)
  {
    var st' := Apply(st, step);
    CallerMoves(st.tables.pending, st.callers, st.completing, st.sends, st.chans, step.id, st'.callers[step.id],
                st'.tables.pending, st'.chans);
  }

  lemma CallerIs(st: State, step: Step)
    requires Enabled(st, step) && OfCaller(step)
    ensures var st', id := Apply(st, step), step.id;
      && id in st.callers && st'.tables.streams == st.tables.streams && st'.tables.subs == st.tables.subs
      && st'.tables.pending <= st.tables.pending && st'.used == st.used
      && id in st'.callers && st'.callers == st.callers[id := st'.callers[id]]
      && st'.completing == st.completing && st'.causes == st.causes
      && (st'.chans == st.chans || st'.chans == st.chans - {id})
      && (st'.callers[id].Done? && st'.callers[id].result.Got? ==>
            id in st.chans && st'.callers[id].result.msg == st.chans[id])
  {
  }

  lemma CausesStay(callers: map<Id, Caller>, completing: map<Id, seq<Msg>>, chans: map<Id, Msg>, causes: set<(Id, Msg)>,
                   id: Id, caller: Caller, chans': map<Id, Msg>)
    requires CausesInv(callers, completing, chans, causes) && (chans' == chans || chans' == chans - {id})
    requires caller.Done? && caller.result.Got? ==> id in chans && caller.result.msg == chans[id]
    ensures CausesInv(callers[id := caller], completing, chans', causes)
  {
  }

  lemma CallerStepKeeps(st: State, step: Step)
    requires Inv(st) && Enabled(st, step) && OfCaller(step)
    ensures Inv(Apply(st, step))
  {
    CallerKeepsCalls(st, step);
    CallerIs(st, step);
    CausesStay(st.callers, st.completing, st.chans, st.causes, step.id, Apply(st, step).callers[step.id],
               Apply(st, step).chans);
  }

  lemma CompleteKeepsCauses(st: State, id: Id)
    requires CausesInv(st.callers, st.completing, st.chans, st.causes) && Enabled(st, Complete(id))
    ensures var st' := Apply(st, Complete(id)); CausesInv(st'.callers, st'.completing, st'.chans, st'.causes)
  {
  }

  lemma CompleteKeeps(st: State, id: Id)
    requires Inv(st) && Enabled(st, Complete(id))
    ensures Inv(Apply(st, Complete(id)))
  {
    var st' := Apply(st, Complete(id));
    var pending := st.tables.pending;
    forall x ensures Parties(pending, st'.completing, st'.sends, x) == Parties(pending, st.completing, st.sends, x) {
    }
    CompleteKeepsCauses(st, id);
  }

  lemma RegisterCallKeeps(st: State, id: Id, k: Conn)
    requires Inv(st) && Enabled(st, Register(id, k))
    ensures Inv(Apply(st, Register(id, k)))
  {
    var st' := Apply(st, Register(id, k));
    forall x ensures Parties(st'.tables.pending, st.completing, st.sends, x)
                     == Parties(st.tables.pending, st.completing, st.sends, x) + if x == id then 1 else 0
    {
    }
  }

  lemma StepKeeps(st: State, step: Step)
    requires Inv(st) && Enabled(st, step)
    ensures Inv(Apply(st, step))
  {
    match step
    case ResultFrame(id) => RoutesTakeOne(st.tables, id); OweKeeps(st, RouteResult(st.tables, id), id, Response);
    case ErrorFrame(about) =>
      if about.Some? {
        RoutesTakeOne(st.tables, about.value);
        OweKeeps(st, RouteError(st.tables, about), about.value, ApiError);
      }
    case BadBinaryFrame(id) => RoutesTakeOne(st.tables, id); OweKeeps(st, RouteBadBinary(st.tables, id), id, BadBinary);
    case StreamItemFrame(id) =>
      RoutesTakeOne(st.tables, id);
      OweKeeps(st, RouteStreamItem(st.tables, id), id, NotACall);
    case StreamEndFrame(id) => RoutesTakeOne(st.tables, id); OweKeeps(st, RouteStreamEnd(st.tables, id), id, NotACall);
    case Complete(id) => CompleteKeeps(st, id);
    case Disconnected => OweAllKeeps(st.(conn := None), ConnectionLost);
    case Shutdown => OweAllKeeps(st.(conn := None, closed := true), Closed);
    case SendOk(_) => CallerStepKeeps(st, step);
    case SendTooLarge(_) => CallerStepKeeps(st, step);
    case SendFails(_) => CallerStepKeeps(st, step);
    case Receive(_) => CallerStepKeeps(st, step);
    case CtxEnds(_) => CallerStepKeeps(st, step);
    case Register(id, k) => RegisterCallKeeps(st, id, k);
    case _ =>
  }

  // ---------------------------------------------------------------------------
  // Over every run
  // ---------------------------------------------------------------------------

  ghost predicate Moves(run: seq<State>, i: nat)
    requires i + 1 < |run|
  {
    exists step :: Enabled(run[i], step) && run[i + 1] == Apply(run[i], step)
  }

  ghost predicate IsRun(run: seq<State>) {
    && run != [] && run[0] == INIT
    && (forall i :: 0 <= i < |run| - 1 ==> Moves(run, i))
  }

  lemma {:induction false} RunKeeps(run: seq<State>, i: nat)
    requires IsRun(run) && i < |run|
    ensures Inv(run[i])
  {
    if i == 0 {
      InitHolds();
    } else {
      RunKeeps(run, i - 1);
      assert Moves(run, i - 1);
      var step :| Enabled(run[i - 1], step) && run[i] == Apply(run[i - 1], step);
      StepKeeps(run[i - 1], step);
    }
  }

  /** A call's channel gets at most one send, and that send finds the buffer empty. */
  lemma CompletionNeverBlocks(run: seq<State>, i: nat, id: Id)
    requires IsRun(run) && i < |run|
    ensures run[i].sends[id] + |Owing(run[i].completing, id)| <= 1
    ensures Owing(run[i].completing, id) != [] ==> Enabled(run[i], Complete(id))
  {
    RunKeeps(run, i);
  }

  /** A caller that has not returned is waiting for exactly one party: never none, never two. */
  lemma CallerIsNeverStranded(run: seq<State>, i: nat, id: Id)
    requires IsRun(run) && i < |run| && id in run[i].callers && !run[i].callers[id].Done?
    ensures var st := run[i];
            var pending, owing, buffered := id in st.tables.pending, |Owing(st.completing, id)|, id in st.chans;
            && (if pending then 1 else 0) + owing + (if buffered then 1 else 0) == 1
            && (st.callers[id].Draining? ==> !pending)
  {
    RunKeeps(run, i);
  }

  lemma StepKeepsOutcome(st: State, step: Step, id: Id)
    requires TablesInv(st.tables, st.callers, st.used) && Enabled(st, step)
    requires id in st.callers && st.callers[id].Done?
    ensures id in Apply(st, step).callers && Apply(st, step).callers[id] == st.callers[id]
  {
  }

  lemma StepAt(run: seq<State>, i: nat) returns (step: Step)
    requires IsRun(run) && i + 1 < |run|
    ensures Inv(run[i]) && Enabled(run[i], step) && run[i + 1] == Apply(run[i], step)
  {
    RunKeeps(run, i);
    assert Moves(run, i);
    step :| Enabled(run[i], step) && run[i + 1] == Apply(run[i], step);
  }

  lemma {:induction false} OutcomeStays(run: seq<State>, i: nat, j: nat, id: Id)
    requires IsRun(run) && i <= j < |run| && id in run[i].callers && run[i].callers[id].Done?
    ensures id in run[j].callers && run[j].callers[id] == run[i].callers[id]
    decreases j - i
  {
    if i < j {
      OutcomeStays(run, i, j - 1, id);
      var step := StepAt(run, j - 1);
      StepKeepsOutcome(run[j - 1], step, id);
    }
  }

  /** The outcome a caller returned with is the only one it ever has, and a received one arrived under its own ID. */
  lemma OutcomeIsFinal(run: seq<State>, i: nat, j: nat, id: Id)
    requires IsRun(run) && i <= j < |run| && id in run[i].callers && run[i].callers[id].Done?
    ensures id in run[j].callers && run[j].callers[id] == run[i].callers[id]
    ensures run[j].callers[id].result.Got? ==> (id, run[j].callers[id].result.msg) in run[j].causes
  {
    OutcomeStays(run, i, j, id);
    RunKeeps(run, j);
  }

  /** The frames that carry an ID. */
  predicate IsFrame(step: Step, id: Id) {
    step in {ResultFrame(id), ErrorFrame(Some(id)), BadBinaryFrame(id), StreamItemFrame(id), StreamEndFrame(id)}
  }

  lemma OweTakesOne(st: State, routed: (Tables, Target), id: Id, msg: Msg, other: Id)
    requires Disjoint(st.tables) && Routed(st.tables, routed, id)
    ensures var st' := Owe(st, routed, id, msg);
            && Entries(st'.tables) <= Entries(st.tables) <= Entries(st'.tables) + 1
            && |Owing(st'.completing, id)| + Count(id in st'.tables.pending)
               == |Owing(st.completing, id)| + Count(id in st.tables.pending)
            && (other != id ==> Owing(st'.completing, other) == Owing(st.completing, other)
                                && (other in st'.tables.pending <==> other in st.tables.pending))
  {
    TakesAtMostOne(st.tables, routed.0, id);
  }

  lemma FrameTakesOne(st: State, step: Step, id: Id, other: Id)
    requires IsFrame(step, id) && Disjoint(st.tables)
    ensures var st' := Apply(st, step);
            && Entries(st'.tables) <= Entries(st.tables) <= Entries(st'.tables) + 1
            && |Owing(st'.completing, id)| + Count(id in st'.tables.pending)
               == |Owing(st.completing, id)| + Count(id in st.tables.pending)
            && (other != id ==> Owing(st'.completing, other) == Owing(st.completing, other)
                                && (other in st'.tables.pending <==> other in st.tables.pending))
  {
    RoutesTakeOne(st.tables, id);
    match step
    case ResultFrame(_) => OweTakesOne(st, RouteResult(st.tables, id), id, Response, other);
    case ErrorFrame(about) => OweTakesOne(st, RouteError(st.tables, about), id, ApiError, other);
    case BadBinaryFrame(_) => OweTakesOne(st, RouteBadBinary(st.tables, id), id, BadBinary, other);
    case StreamItemFrame(_) => OweTakesOne(st, RouteStreamItem(st.tables, id), id, NotACall, other);
    case StreamEndFrame(_) => OweTakesOne(st, RouteStreamEnd(st.tables, id), id, NotACall, other);
  }

  /**
   * A frame's ID is in at most one table. The frame takes at most one entry out of the three tables together,
   * and a message is owed anew only to the call whose pending entry it took: one at most, and to nobody else.
   */
  lemma FrameReachesOneThing(run: seq<State>, i: nat, step: Step, id: Id, other: Id)
    requires IsRun(run) && i < |run| && IsFrame(step, id)
    ensures var st, st' := run[i], Apply(run[i], step);
            var t, t' := st.tables, st'.tables;
            && Count(id in t.pending) + Count(id in t.streams) + Count(id in t.subs) <= 1
            && Entries(t') <= Entries(t) <= Entries(t') + 1
            && |Owing(st'.completing, id)| + Count(id in t'.pending)
               == |Owing(st.completing, id)| + Count(id in t.pending) <= 1
            && (other != id ==> Owing(st'.completing, other) == Owing(st.completing, other)
                                && (other in t'.pending <==> other in t.pending))
  {
    RunKeeps(run, i);
    assert Parties(run[i].tables.pending, run[i].completing, run[i].sends, id) <= 1;
    FrameTakesOne(run[i], step, id, other);
  }

  /** A dropped connection leaves no call behind: each pending one is owed exactly the loss. */
  lemma DropCompletesEveryCall(run: seq<State>, i: nat, id: Id)
    requires IsRun(run) && i < |run| && Enabled(run[i], Disconnected) && id in run[i].tables.pending
    ensures var st' := Apply(run[i], Disconnected);
            st'.tables.pending == {} && Owing(st'.completing, id) == [ConnectionLost] && id !in st'.chans
  {
    RunKeeps(run, i);
  }
}
