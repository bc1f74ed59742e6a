/** Every request in flight at once: the global semaphore encloses the node slot, which encloses
    the pending entry (internal/relay/proxy.go, internal/relay/registry.go, internal/relay/server.go). */
module Admission {
  import opened Basics
  import opened Errors
  import opened Nodes
  import R = Response
  import Scheduler

  /** How far a request is. A stage ends with one atomic step of its handler; the Done stages are
      the deferred clean-ups, which run innermost first. */
  datatype Stage =
    | Counted              // RequestsTotal incremented
    | Checked              // the queue had room; waiting not yet incremented
    | Waiting              // in acquire's select
    | Leaving              // holds a token; still counted as waiting
    | LeavingWith(code: Code)
    | Admitted
    | Picked(n: nat)       // WaitForNode returned node n
    | Reserved(n: nat)
    | Pending(n: nat)
    | DonePending(n: nat)
    | DoneReserved(n: nat)
    | DoneAdmitted
    | Done

  datatype Verdict = InFlight | Successful | Failed | ClientGone | WriteError

  datatype Request = Request(stage: Stage, verdict: Verdict, status: int, code: Option<Code>)

  /** Node objects are numbered in order of creation; a number is the identity of one. peak is history:
      the largest limit ever in force. */
  datatype NodeSlots = NodeSlots(slots: Slots, peak: int)

  datatype State = State(
    requests: seq<Request>,
    nodes: seq<NodeSlots>,
    tokens: int,
    waiting: int,
    pending: set<nat>,
    total: nat,
    success: nat,
    failed: nat,
    canceled: nat)

  datatype Config = Config(maxConcurrency: int, queueLength: int)

  datatype Action =
    | CheckQueue
    | Enter
    | TakeToken
    | WaitEnds(ctx: bool)                                   // context, or queue timeout
    | Leave
    | Pick(n: nat)
    | NoNode(why: Scheduler.WaitError)
    | Reserve
    | AddPending
    | SendFails
    | Forward(ttft: bool, idle: bool, run: seq<R.Event>)    // forwardResponse, as one run of its loop
    | RemovePending
    | FreeSlot
    | ReturnToken

  datatype Event =
    | Arrive
    | Of(r: nat, a: Action)
    | SetLimit(n: nat, v: int)
    | Join(limit: int)                                      // a node object is created

  const Start := State([], [], 0, 0, {}, 0, 0, 0, 0)
  const Newcomer := Request(Counted, InFlight, 0, None)

  function Put(s: State, r: nat, q: Request): State
    requires r < |s.requests|
  {
    s.(requests := s.requests[r := q])
  }

  function Go(s: State, r: nat, to: Stage): State
    requires r < |s.requests|
  {
    Put(s, r, s.requests[r].(stage := to))
  }

  /** A failure decided by handleProxy itself: counted, recorded, and on to stage `to`. */
  function Refuse(s: State, r: nat, to: Stage, code: Code): State
    requires r < |s.requests|
  {
    Put(s, r, Request(to, Failed, HTTPStatus(code), Some(code))).(failed := s.failed + 1)
  }

  function VerdictOf(o: R.Outcome): Verdict {
    match o
    case Succeeded => Successful
    case FailedWith(_) => Failed
    case CanceledByClient => ClientGone
    case WriteFailed => WriteError
  }

  /** The end of forwardResponse: its counters and its record are those of the run. */
  function Finish(s: State, r: nat, n: nat, fw: R.Forward): State
    requires r < |s.requests| && fw.phase.Ended?
  {
    Put(s, r, Request(DonePending(n), VerdictOf(fw.phase.outcome), fw.recStatus, fw.recCode))
      .(success := s.success + fw.successes, failed := s.failed + fw.failures, canceled := s.canceled + fw.cancels)
  }

  function SetSlots(s: State, n: nat, x: Slots): State
    requires n < |s.nodes|
  {
    s.(nodes := s.nodes[n := s.nodes[n].(slots := x)])
  }

  /** An action whose stage or condition does not hold changes nothing. */
  function Act(cfg: Config, s: State, r: nat, a: Action): State
    requires r < |s.requests|
  {
    match (a, s.requests[r].stage)
    case (CheckQueue, Counted) =>
      if s.waiting >= cfg.queueLength then Refuse(s, r, Done, QueueFull) else Go(s, r, Checked)
    case (Enter, Checked) => Go(s, r, Waiting).(waiting := s.waiting + 1)
    case (TakeToken, Waiting) =>
      if s.tokens < cfg.maxConcurrency then Go(s, r, Leaving).(tokens := s.tokens + 1) else s
    case (WaitEnds(ctx), Waiting) => Go(s, r, LeavingWith(if ctx then Canceled else QueueTimeout))
    case (Leave, Leaving) => Go(s, r, Admitted).(waiting := s.waiting - 1)
    case (Leave, LeavingWith(code)) => Refuse(s, r, Done, code).(waiting := s.waiting - 1)
    case (Pick(n), Admitted) => if n < |s.nodes| then Go(s, r, Picked(n)) else s
    case (NoNode(why), Admitted) => Refuse(s, r, DoneAdmitted, Scheduler.ClassifySelectorErr(why))
    case (Reserve, Picked(n)) =>
      if n >= |s.nodes| then s else
      var (x, ok) := ReserveSlot(s.nodes[n].slots);
      if ok then SetSlots(Go(s, r, Reserved(n)), n, x) else Refuse(s, r, DoneAdmitted, NoAvailableNode)
    case (AddPending, Reserved(n)) => Go(s, r, Pending(n)).(pending := s.pending + {r})
    case (SendFails, Pending(n)) => Refuse(s, r, DonePending(n), NoAvailableNode)
    case (Forward(ttft, idle, run), Pending(n)) =>
      var fw := R.Run(R.Fresh(ttft, idle), run).fw;
      if fw.phase.Ended? then Finish(s, r, n, fw) else s
    case (RemovePending, DonePending(n)) => Go(s, r, DoneReserved(n)).(pending := s.pending - {r})
    case (FreeSlot, DoneReserved(n)) =>
      if n < |s.nodes| then SetSlots(Go(s, r, DoneAdmitted), n, ReleaseSlot(s.nodes[n].slots)) else s
    case (ReturnToken, DoneAdmitted) => Go(s, r, Done).(tokens := s.tokens - 1)
    case _ => s
  }

  function Step(cfg: Config, s: State, e: Event): State {
    match e
    case Arrive => s.(requests := s.requests + [Newcomer], total := s.total + 1)
    case Of(r, a) => if r < |s.requests| then Act(cfg, s, r, a) else s
    case SetLimit(n, v) =>
      if n >= |s.nodes| then s else
      var x := ChangeLimit(s.nodes[n].slots, v);
      s.(nodes := s.nodes[n := NodeSlots(x, if x.limit > s.nodes[n].peak then x.limit else s.nodes[n].peak)])
    case Join(limit) =>
      var l := if limit <= 0 then 8 else limit;
      s.(nodes := s.nodes + [NodeSlots(Slots(0, l), l)])
  }

  function Run(cfg: Config, es: seq<Event>): State {
    if es == [] then Start else Step(cfg, Run(cfg, es[..|es| - 1]), es[|es| - 1])
  }

  // --------------------------------------------------------- who holds what

  predicate InAcquire(q: Request) {
    q.stage.Waiting? || q.stage.Leaving? || q.stage.LeavingWith?
  }

  predicate HasToken(q: Request) {
    match q.stage
    case Counted => false
    case Checked => false
    case Waiting => false
    case LeavingWith(_) => false
    case Done => false
    case _ => true
  }

  predicate HoldsSlot(q: Request) {
    q.stage.Reserved? || q.stage.Pending? || q.stage.DonePending? || q.stage.DoneReserved?
  }

  predicate HoldsSlotOf(q: Request, n: nat) {
    HoldsSlot(q) && q.stage.n == n
  }

  function HolderOf(n: nat): Request -> bool {
    (q: Request) => HoldsSlotOf(q, n)
  }

  predicate IsPending(q: Request) {
    q.stage.Pending? || q.stage.DonePending?
  }

  function Actives(nodes: seq<NodeSlots>): seq<int> {
    seq(|nodes|, i requires 0 <= i < |nodes| => nodes[i].slots.active)
  }

  ghost predicate TokenInv(cfg: Config, s: State) {
    s.tokens == Count(s.requests, HasToken) <= cfg.maxConcurrency
  }

  ghost predicate WaitInv(s: State) {
    s.waiting == Count(s.requests, InAcquire)
  }

  ghost predicate SlotInv(s: State) {
    && (forall n | 0 <= n < |s.nodes| ::
          s.nodes[n].slots.active == Count(s.requests, HolderOf(n)) <= s.nodes[n].peak
          && s.nodes[n].slots.limit <= s.nodes[n].peak)
    && Sum(Actives(s.nodes)) == Count(s.requests, HoldsSlot)
    && (forall r | 0 <= r < |s.requests| && (HoldsSlot(s.requests[r]) || s.requests[r].stage.Picked?) ::
          s.requests[r].stage.n < |s.nodes|)
  }

  ghost predicate PendingInv(s: State) {
    && (forall r: nat :: r in s.pending <==> r < |s.requests| && IsPending(s.requests[r]))
    && |s.pending| == Count(s.requests, IsPending)
  }

  // --------------------------------------------------------- each kept by every step

  /** What one action does to the request that takes it and to the rest of the state. */
  lemma ActShape(cfg: Config, s: State, r: nat, a: Action)
    requires r < |s.requests|
    ensures var t := Act(cfg, s, r, a);
      && |t.requests| == |s.requests| && t.requests == s.requests[r := t.requests[r]]
      && |t.nodes| == |s.nodes| && t.total == s.total
  {
    hide R.Run;
    var t := Act(cfg, s, r, a);
    assert t == s ==> t.requests == s.requests[r := s.requests[r]];
  }

  lemma TokensKept(cfg: Config, s: State, r: nat, a: Action)
    requires r < |s.requests| && TokenInv(cfg, s)
    ensures TokenInv(cfg, Act(cfg, s, r, a))
  {
    var t := Act(cfg, s, r, a);
    ActShape(cfg, s, r, a);
    CountUpdate(s.requests, r, t.requests[r], HasToken);
    hide Count, R.Run;
  }

  lemma WaitingKept(cfg: Config, s: State, r: nat, a: Action)
    requires r < |s.requests| && WaitInv(s)
    ensures WaitInv(Act(cfg, s, r, a))
  {
    var t := Act(cfg, s, r, a);
    ActShape(cfg, s, r, a);
    CountUpdate(s.requests, r, t.requests[r], InAcquire);
    hide Count, R.Run;
  }

  lemma PendingMoved(s: State, t: State, r: nat)
    requires PendingInv(s) && r < |s.requests|
    requires |t.requests| == |s.requests| && t.requests == s.requests[r := t.requests[r]]
    requires t.pending == if IsPending(t.requests[r]) then s.pending + {r} else s.pending - {r}
    ensures PendingInv(t)
  {
    CountUpdate(s.requests, r, t.requests[r], IsPending);
    SetPutSize(s.pending, r);
    SetDropSize(s.pending, r);
    hide Count, HTTPStatus;
    assert IsPending(s.requests[r]) <==> r in s.pending;
  }

  lemma PendingShape(cfg: Config, s: State, r: nat, a: Action)
    requires r < |s.requests|
    ensures var t := Act(cfg, s, r, a); var p, q := s.requests[r], t.requests[r];
      if a.AddPending? && p.stage.Reserved? then IsPending(q) && t.pending == s.pending + {r}
      else if a.RemovePending? && p.stage.DonePending? then !IsPending(q) && t.pending == s.pending - {r}
      else IsPending(q) == IsPending(p) && t.pending == s.pending
  {
    hide R.Run, HTTPStatus;
  }

  lemma PendingKept(cfg: Config, s: State, r: nat, a: Action)
    requires r < |s.requests| && PendingInv(s)
    ensures PendingInv(Act(cfg, s, r, a))
  {
    assert IsPending(s.requests[r]) <==> r in s.pending;
    ActShape(cfg, s, r, a);
    PendingShape(cfg, s, r, a);
    hide PendingInv, Act;
    assert s.pending == if r in s.pending then s.pending + {r} else s.pending - {r};
    PendingMoved(s, Act(cfg, s, r, a), r);
  }

  /** A step that moves request r and may change node n's slots to x, in step with each other. */
  lemma SlotsKeptBy(s: State, t: State, r: nat, n: nat, x: Slots)
    requires SlotInv(s) && r < |s.requests| && n < |s.nodes|
    requires |t.requests| == |s.requests| && t.requests == s.requests[r := t.requests[r]]
    requires t.nodes == s.nodes[n := s.nodes[n].(slots := x)]
    requires HoldsSlot(s.requests[r]) ==> s.requests[r].stage.n == n
    requires HoldsSlot(t.requests[r]) || t.requests[r].stage.Picked? ==> t.requests[r].stage.n == n
    requires x.active == s.nodes[n].slots.active - (if HoldsSlot(s.requests[r]) then 1 else 0)
                         + (if HoldsSlot(t.requests[r]) then 1 else 0)
    requires x.active <= s.nodes[n].peak && x.limit <= s.nodes[n].peak
    ensures SlotInv(t)
  {
    var q := t.requests[r];
    forall m | 0 <= m < |s.nodes|
      ensures Count(t.requests, HolderOf(m)) ==
              Count(s.requests, HolderOf(m)) - (if HoldsSlotOf(s.requests[r], m) then 1 else 0)
                                             + (if HoldsSlotOf(q, m) then 1 else 0)
    {
      CountUpdate(s.requests, r, q, HolderOf(m));
    }
    CountUpdate(s.requests, r, q, HoldsSlot);
    assert Actives(t.nodes) == Actives(s.nodes)[n := x.active];
    SumUpdate(Actives(s.nodes), n, x.active);
    hide Count, Sum;
  }

  /** A step that leaves nodes alone and slots where they are. */
  lemma SlotsUntouched(s: State, t: State, r: nat)
    requires SlotInv(s) && r < |s.requests|
    requires |t.requests| == |s.requests| && t.requests == s.requests[r := t.requests[r]] && t.nodes == s.nodes
    requires HoldsSlot(t.requests[r]) <==> HoldsSlot(s.requests[r])
    requires HoldsSlot(t.requests[r]) ==> t.requests[r].stage.n == s.requests[r].stage.n
    requires t.requests[r].stage.Picked? ==> t.requests[r].stage.n < |s.nodes|
    ensures SlotInv(t)
  {
    var q := t.requests[r];
    forall m | 0 <= m < |s.nodes|
      ensures Count(t.requests, HolderOf(m)) == Count(s.requests, HolderOf(m))
    {
      CountUpdate(s.requests, r, q, HolderOf(m));
    }
    CountUpdate(s.requests, r, q, HoldsSlot);
    hide Count, Sum;
  }

  /** The guard in Release is never needed: whoever frees a slot is counted. */
  lemma FreedSlotIsCounted(s: State, r: nat)
    requires SlotInv(s) && r < |s.requests| && HoldsSlot(s.requests[r])
    ensures s.requests[r].stage.n < |s.nodes| && s.nodes[s.requests[r].stage.n].slots.active > 0
  {
    CountPositive(s.requests, r, HolderOf(s.requests[r].stage.n));
  }

  lemma ReserveKept(cfg: Config, s: State, r: nat)
    requires r < |s.requests| && SlotInv(s) && s.requests[r].stage.Picked?
    ensures SlotInv(Act(cfg, s, r, Reserve))
  {
    var t, n := Act(cfg, s, r, Reserve), s.requests[r].stage.n;
    ActShape(cfg, s, r, Reserve);
    var (x, ok) := ReserveSlot(s.nodes[n].slots);
    hide Count, Sum, HTTPStatus;
    if ok {
      SlotsKeptBy(s, t, r, n, x);
    } else {
      SlotsUntouched(s, t, r);
    }
  }

  lemma FreeKept(cfg: Config, s: State, r: nat)
    requires r < |s.requests| && SlotInv(s) && s.requests[r].stage.DoneReserved?
    ensures SlotInv(Act(cfg, s, r, FreeSlot))
  {
    var n := s.requests[r].stage.n;
    ActShape(cfg, s, r, FreeSlot);
    FreedSlotIsCounted(s, r);
    hide Count, Sum, HTTPStatus;
    SlotsKeptBy(s, Act(cfg, s, r, FreeSlot), r, n, ReleaseSlot(s.nodes[n].slots));
  }

  lemma SlotsKept(cfg: Config, s: State, r: nat, a: Action)
    requires r < |s.requests| && SlotInv(s)
    ensures SlotInv(Act(cfg, s, r, a))
  {
    if a.Reserve? && s.requests[r].stage.Picked? {
      ReserveKept(cfg, s, r);
    } else if a.FreeSlot? && s.requests[r].stage.DoneReserved? {
      FreeKept(cfg, s, r);
    } else {
      ActShape(cfg, s, r, a);
      hide SlotInv, R.Run, HTTPStatus;
      SlotsUntouched(s, Act(cfg, s, r, a), r);
    }
  }

  // --------------------------------------------------------- outcomes

  predicate IsInFlight(q: Request) {
    q.verdict == InFlight
  }

  predicate IsSuccessful(q: Request) {
    q.verdict == Successful
  }

  predicate IsFailed(q: Request) {
    q.verdict == Failed
  }

  predicate IsClientGone(q: Request) {
    q.verdict == ClientGone
  }

  predicate IsWriteError(q: Request) {
    q.verdict == WriteError
  }

  /** A request is in flight until its outcome is decided, and its record never carries a code
      with a status that is not the code's. */
  predicate RecordOk(q: Request) {
    && (q.verdict == InFlight <==>
          q.stage.Counted? || q.stage.Checked? || q.stage.Waiting? || q.stage.Leaving? || q.stage.LeavingWith?
          || q.stage.Admitted? || q.stage.Picked? || q.stage.Reserved? || q.stage.Pending?)
    && (q.code.Some? ==> (q.verdict == Failed || q.verdict == ClientGone) && q.status == HTTPStatus(q.code.value))
    && (q.verdict == Failed ==> q.code.Some?)
  }

  ghost predicate OutcomeInv(s: State) {
    && s.total == |s.requests|
    && s.success == Count(s.requests, IsSuccessful)
    && s.failed == Count(s.requests, IsFailed)
    && s.canceled == Count(s.requests, IsClientGone)
    && forall r | 0 <= r < |s.requests| :: RecordOk(s.requests[r])
  }

  /** What a finished forwardResponse adds to the counters is one, in the bucket of its outcome. */
  lemma ForwardCounts(ttft: bool, idle: bool, run: seq<R.Event>)
    ensures var fw := R.Run(R.Fresh(ttft, idle), run).fw;
      fw.phase.Ended? ==>
        var v := VerdictOf(fw.phase.outcome);
        && fw.successes == (if v == Successful then 1 else 0)
        && fw.failures == (if v == Failed then 1 else 0)
        && fw.cancels == (if v == ClientGone then 1 else 0)
        && (fw.recCode.Some? ==> (v == Failed || v == ClientGone) && fw.recStatus == HTTPStatus(fw.recCode.value))
        && (v == Failed ==> fw.recCode.Some?)
  {
    R.ReachableStream(ttft, idle, run);
  }

  function Bit(b: bool): nat {
    if b then 1 else 0
  }

  /** The counters move with the verdict of the request that acts. */
  lemma VerdictCounted(cfg: Config, s: State, r: nat, a: Action)
    requires r < |s.requests| && RecordOk(s.requests[r])
    ensures var t := Act(cfg, s, r, a); var p, q := s.requests[r], t.requests[r];
      && RecordOk(q)
      && t.success - s.success == Bit(IsSuccessful(q)) - Bit(IsSuccessful(p))
      && t.failed - s.failed == Bit(IsFailed(q)) - Bit(IsFailed(p))
      && t.canceled - s.canceled == Bit(IsClientGone(q)) - Bit(IsClientGone(p))
  {
    if a.Forward? {
      ForwardCounts(a.ttft, a.idle, a.run);
    }
    hide R.Run, HTTPStatus;
  }

  lemma OutcomesKept(cfg: Config, s: State, r: nat, a: Action)
    requires r < |s.requests| && OutcomeInv(s)
    ensures OutcomeInv(Act(cfg, s, r, a))
  {
    var t := Act(cfg, s, r, a);
    ActShape(cfg, s, r, a);
    VerdictCounted(cfg, s, r, a);
    CountUpdate(s.requests, r, t.requests[r], IsSuccessful);
    CountUpdate(s.requests, r, t.requests[r], IsFailed);
    CountUpdate(s.requests, r, t.requests[r], IsClientGone);
    hide Count, Act, RecordOk;
  }

  // --------------------------------------------------------- all of it, after every interleaving

  ghost predicate Inv(cfg: Config, s: State) {
    TokenInv(cfg, s) && WaitInv(s) && SlotInv(s) && PendingInv(s) && OutcomeInv(s)
  }

  lemma ArrivalSlots(cfg: Config, s: State)
    requires SlotInv(s)
    ensures SlotInv(Step(cfg, s, Arrive))
  {
    CountAppend(s.requests, Newcomer, HoldsSlot);
    forall n: nat
      ensures Count(s.requests + [Newcomer], HolderOf(n)) == Count(s.requests, HolderOf(n))
    {
      CountAppend(s.requests, Newcomer, HolderOf(n));
    }
    hide Count, Sum;
  }

  lemma ArrivalKept(cfg: Config, s: State)
    requires Inv(cfg, s)
    ensures Inv(cfg, Step(cfg, s, Arrive))
  {
    ArrivalSlots(cfg, s);
    CountAppend(s.requests, Newcomer, HasToken);
    CountAppend(s.requests, Newcomer, InAcquire);
    CountAppend(s.requests, Newcomer, IsPending);
    CountAppend(s.requests, Newcomer, IsSuccessful);
    CountAppend(s.requests, Newcomer, IsFailed);
    CountAppend(s.requests, Newcomer, IsClientGone);
    hide Count, SlotInv, HTTPStatus;
  }

  lemma LimitKept(cfg: Config, s: State, n: nat, v: int)
    requires Inv(cfg, s)
    ensures Inv(cfg, Step(cfg, s, SetLimit(n, v)))
  {
    if n < |s.nodes| {
      assert Actives(Step(cfg, s, SetLimit(n, v)).nodes) == Actives(s.nodes);
    }
    hide Count, Sum;
  }

  lemma JoinKept(cfg: Config, s: State, limit: int)
    requires Inv(cfg, s)
    ensures Inv(cfg, Step(cfg, s, Join(limit)))
  {
    var t := Step(cfg, s, Join(limit));
    assert Actives(t.nodes)[..|s.nodes|] == Actives(s.nodes);
    CountNone(s.requests, HolderOf(|s.nodes|));
    hide Count, Sum;
    assert Sum(Actives(t.nodes)) == Sum(Actives(s.nodes)) + 0 by {
      SumAppendZero(Actives(s.nodes), Actives(t.nodes));
    }
  }

  lemma SumAppendZero(a: seq<int>, b: seq<int>)
    requires |b| == |a| + 1 && b[..|a|] == a && b[|a|] == 0
    ensures Sum(b) == Sum(a)
  {
  }

  lemma {:induction false} Reachable(cfg: Config, es: seq<Event>)
    requires cfg.maxConcurrency >= 0
    ensures Inv(cfg, Run(cfg, es))
  {
    hide Act, TokenInv, WaitInv, SlotInv, PendingInv, OutcomeInv;
    if es == [] {
      StartIsGood(cfg);
    } else {
      var s, e := Run(cfg, es[..|es| - 1]), es[|es| - 1];
      Reachable(cfg, es[..|es| - 1]);
      match e
      case Arrive => ArrivalKept(cfg, s);
      case SetLimit(n, v) => LimitKept(cfg, s, n, v);
      case Join(limit) => JoinKept(cfg, s, limit);
      case Of(r, a) =>
        if r < |s.requests| {
          TokensKept(cfg, s, r, a);
          WaitingKept(cfg, s, r, a);
          SlotsKept(cfg, s, r, a);
          PendingKept(cfg, s, r, a);
          OutcomesKept(cfg, s, r, a);
        }
    }
  }

  lemma StartIsGood(cfg: Config)
    requires cfg.maxConcurrency >= 0
    ensures Inv(cfg, Start)
  {
    assert Actives(Start.nodes) == [];
  }

  /** At every step of any number of requests: pending entries, node slots in use, semaphore tokens
      and the configured limit, each at most the next; and waiting counts who is inside acquire. */
  lemma ResourcesNest(cfg: Config, es: seq<Event>)
    requires cfg.maxConcurrency >= 0
    ensures var s := Run(cfg, es);
      && |s.pending| <= Sum(Actives(s.nodes)) <= s.tokens <= cfg.maxConcurrency
      && s.waiting == Count(s.requests, InAcquire) >= 0
  {
    Reachable(cfg, es);
    var s := Run(cfg, es);
    CountImplies(s.requests, IsPending, HoldsSlot);
    CountImplies(s.requests, HoldsSlot, HasToken);
  }

  /** When every handler has returned, by whatever exit, everything has been given back. */
  lemma EverythingReturned(cfg: Config, es: seq<Event>)
    requires cfg.maxConcurrency >= 0
    requires forall r | 0 <= r < |Run(cfg, es).requests| :: Run(cfg, es).requests[r].stage == Done
    ensures var s := Run(cfg, es);
      && s.pending == {} && s.tokens == 0 && s.waiting == 0
      && forall n | 0 <= n < |s.nodes| :: s.nodes[n].slots.active == 0
  {
    Reachable(cfg, es);
    var s := Run(cfg, es);
    CountNone(s.requests, HasToken);
    CountNone(s.requests, InAcquire);
    forall n | 0 <= n < |s.nodes|
      ensures s.nodes[n].slots.active == 0
    {
      CountNone(s.requests, HolderOf(n));
    }
    hide Run, Count;
    assert forall r: nat :: r !in s.pending;
  }

  /** Every counted request is in exactly one bucket: successful, failed, canceled, undecided, or
      ended by a failed write to its client, which no counter records. */
  lemma OutcomesConserved(cfg: Config, es: seq<Event>)
    requires cfg.maxConcurrency >= 0
    ensures var s := Run(cfg, es);
      && s.total == s.success + s.failed + s.canceled
                    + Count(s.requests, IsInFlight) + Count(s.requests, IsWriteError)
      && forall r | 0 <= r < |s.requests| && s.requests[r].code.Some? ::
           s.requests[r].status == HTTPStatus(s.requests[r].code.value)
  {
    Reachable(cfg, es);
    OneBucketEach(Run(cfg, es).requests);
    hide Run, Count;
  }

  lemma {:induction false} OneBucketEach(qs: seq<Request>)
    ensures |qs| == Count(qs, IsSuccessful) + Count(qs, IsFailed) + Count(qs, IsClientGone)
                    + Count(qs, IsInFlight) + Count(qs, IsWriteError)
  {
    if qs != [] {
      OneBucketEach(qs[..|qs| - 1]);
    }
  }

  // --------------------------------------------------------- limits that move

  /** A node's slots: in use by exactly the requests that hold one, never more than the largest limit
      ever in force. */
  lemma SlotsCounted(cfg: Config, es: seq<Event>, n: nat)
    requires cfg.maxConcurrency >= 0 && n < |Run(cfg, es).nodes|
    ensures var s := Run(cfg, es);
      s.nodes[n].slots.active == Count(s.requests, HolderOf(n)) <= s.nodes[n].peak
  {
    Reachable(cfg, es);
  }

  /** A step gives node n one more slot only if the limit in force leaves room, and then by one; at or
      above a lowered limit the number in use can only fall. */
  lemma GrowthRespectsLimit(cfg: Config, s: State, e: Event, n: nat)
    requires n < |s.nodes|
    ensures n < |Step(cfg, s, e).nodes|
    ensures var before, after := s.nodes[n].slots, Step(cfg, s, e).nodes[n].slots;
      && (after.active > before.active ==>
            after.active == before.active + 1 <= before.limit && after.limit == before.limit)
      && (before.active >= before.limit ==> after.active <= before.active)
  {
    hide R.Run;
  }

  /** A node joins with no slot in use and its limit, or 8 when it gives none; a limit is set only to a
      positive value, and then to just that. */
  lemma LimitsAsGiven(cfg: Config, s: State, limit: int, n: nat)
    ensures var t := Step(cfg, s, Join(limit));
      |t.nodes| == |s.nodes| + 1 && t.nodes[..|s.nodes|] == s.nodes
      && t.nodes[|s.nodes|].slots == Slots(0, if limit >= 1 then limit else 8)
    ensures n < |s.nodes| ==>
      var t := Step(cfg, s, SetLimit(n, limit));
      && |t.nodes| == |s.nodes| && t.nodes[n].slots.active == s.nodes[n].slots.active
      && t.nodes[n].slots.limit == if limit >= 1 then limit else s.nodes[n].slots.limit
  {
  }

  // --------------------------------------------------------- the waiting queue

  predicate IsChecked(q: Request) {
    q.stage == Checked
  }

  /** Never, along the run, are more than k requests between the queue check and the increment. */
  predicate AtMostChecking(cfg: Config, es: seq<Event>, k: nat) {
    && Count(Run(cfg, es).requests, IsChecked) <= k
    && (es != [] ==> AtMostChecking(cfg, es[..|es| - 1], k))
  }

  lemma CheckedAct(cfg: Config, s: State, r: nat, a: Action)
    requires r < |s.requests|
    ensures var t := Act(cfg, s, r, a); var p, q := s.requests[r], t.requests[r];
      || (IsChecked(q) == IsChecked(p) && t.waiting <= s.waiting)
      || (IsChecked(q) && !IsChecked(p) && t.waiting == s.waiting < cfg.queueLength)
      || (!IsChecked(q) && IsChecked(p) && t.waiting == s.waiting + 1)
  {
    hide R.Run, HTTPStatus;
  }

  lemma CheckedStep(cfg: Config, s: State, e: Event)
    ensures var t := Step(cfg, s, e);
      var c, d := Count(s.requests, IsChecked), Count(t.requests, IsChecked);
      || (d == c && t.waiting <= s.waiting)
      || (d == c + 1 && t.waiting == s.waiting < cfg.queueLength)
      || (d == c - 1 && t.waiting == s.waiting + 1)
  {
    var t := Step(cfg, s, e);
    match e
    case Arrive => CountAppend(s.requests, t.requests[|s.requests|], IsChecked);
    case Of(r, a) =>
      if r < |s.requests| {
        ActShape(cfg, s, r, a);
        CheckedAct(cfg, s, r, a);
        CountUpdate(s.requests, r, t.requests[r], IsChecked);
      }
      hide Count, Act, R.Run;
    case _ =>
  }

  /** The check and the increment are two steps, so waiting can pass the queue length; but by less than
      the number of requests that were ever between the two at once. */
  lemma {:induction false} WaitingBounded(cfg: Config, es: seq<Event>, k: nat)
    requires cfg.maxConcurrency >= 0 && cfg.queueLength >= 0 && k >= 1 && AtMostChecking(cfg, es, k)
    ensures var s := Run(cfg, es);
      s.waiting + Count(s.requests, IsChecked) <= (if cfg.queueLength == 0 then 0 else cfg.queueLength + k - 1)
  {
    hide Count, Step;
    if es == [] {
      NobodyWaits();
    } else {
      var init := es[..|es| - 1];
      WaitingBounded(cfg, init, k);
      ResourcesNest(cfg, init);
      CheckedStep(cfg, Run(cfg, init), es[|es| - 1]);
    }
  }

  lemma NobodyWaits()
    ensures Start.waiting == 0 && Count(Start.requests, IsChecked) == 0
  {
  }

  lemma CheckingAppend(cfg: Config, es: seq<Event>, e: Event, k: nat)
    requires AtMostChecking(cfg, es, k) && Count(Step(cfg, Run(cfg, es), e).requests, IsChecked) <= k
    ensures AtMostChecking(cfg, es + [e], k)
    ensures Run(cfg, es + [e]) == Step(cfg, Run(cfg, es), e)
  {
    assert (es + [e])[..|es|] == es;
  }

  lemma ArrivesUnchecked(cfg: Config, s: State)
    ensures var t := Step(cfg, s, Arrive);
      && t.waiting == s.waiting && Count(t.requests, IsChecked) == Count(s.requests, IsChecked)
      && |t.requests| == |s.requests| + 1 && t.requests[|s.requests|] == Newcomer
  {
    CountAppend(s.requests, Newcomer, IsChecked);
    hide Count;
  }

  lemma NewcomerChecks(cfg: Config, s: State, r: nat)
    requires r < |s.requests| && s.requests[r] == Newcomer && s.waiting < cfg.queueLength
    ensures var t := Step(cfg, s, Of(r, CheckQueue));
      t.waiting == s.waiting && Count(t.requests, IsChecked) == Count(s.requests, IsChecked) + 1
  {
    CountUpdate(s.requests, r, Newcomer.(stage := Checked), IsChecked);
    hide Count, R.Run, HTTPStatus;
  }

  /** One more request passes the check while the queue has room. */
  lemma CheckOne(cfg: Config, es: seq<Event>, k: nat) returns (more: seq<Event>)
    requires AtMostChecking(cfg, es, k) && Run(cfg, es).waiting < cfg.queueLength
    requires Count(Run(cfg, es).requests, IsChecked) < k
    ensures AtMostChecking(cfg, more, k) && Run(cfg, more).waiting == Run(cfg, es).waiting
    ensures Count(Run(cfg, more).requests, IsChecked) == Count(Run(cfg, es).requests, IsChecked) + 1
  {
    hide Run, Count, AtMostChecking, Step;
    var s := Run(cfg, es);
    var r := |s.requests|;
    ArrivesUnchecked(cfg, s);
    CheckingAppend(cfg, es, Arrive, k);
    NewcomerChecks(cfg, Run(cfg, es + [Arrive]), r);
    CheckingAppend(cfg, es + [Arrive], Of(r, CheckQueue), k);
    more := es + [Arrive] + [Of(r, CheckQueue)];
  }

  lemma {:induction false} FindChecked(qs: seq<Request>) returns (r: nat)
    requires Count(qs, IsChecked) > 0
    ensures r < |qs| && qs[r].stage == Checked
  {
    if IsChecked(qs[|qs| - 1]) {
      r := |qs| - 1;
    } else {
      r := FindChecked(qs[..|qs| - 1]);
    }
  }

  /** The requests that passed the check all become waiting. */
  lemma {:induction false} EnterAll(cfg: Config, es: seq<Event>, k: nat, c: nat) returns (more: seq<Event>)
    requires AtMostChecking(cfg, es, k) && Count(Run(cfg, es).requests, IsChecked) == c
    ensures AtMostChecking(cfg, more, k) && Run(cfg, more).waiting == Run(cfg, es).waiting + c
    ensures Count(Run(cfg, more).requests, IsChecked) == 0
    decreases c
  {
    assert c <= k;
    if c == 0 {
      more := es;
    } else {
      var s := Run(cfg, es);
      hide Run, AtMostChecking, Count;
      var r := FindChecked(s.requests);
      CountUpdate(s.requests, r, s.requests[r].(stage := Waiting), IsChecked);
      CheckingAppend(cfg, es, Of(r, Enter), k);
      more := EnterAll(cfg, es + [Of(r, Enter)], k, c - 1);
    }
  }

  /** Any number of waiting requests up to the queue length, one after another. */
  lemma {:induction false} FillQueue(cfg: Config, k: nat, w: nat) returns (es: seq<Event>)
    requires k >= 1 && w <= cfg.queueLength
    ensures AtMostChecking(cfg, es, k) && Run(cfg, es).waiting == w
    ensures Count(Run(cfg, es).requests, IsChecked) == 0
  {
    if w == 0 {
      NobodyWaits();
      es := [];
    } else {
      es := FillQueue(cfg, k, w - 1);
      hide Run, AtMostChecking, Count;
      es := CheckOne(cfg, es, k);
      es := EnterAll(cfg, es, k, 1);
    }
  }

  lemma {:induction false} CheckMany(cfg: Config, es: seq<Event>, k: nat, c: nat) returns (more: seq<Event>)
    requires AtMostChecking(cfg, es, k) && Run(cfg, es).waiting < cfg.queueLength && c <= k
    requires Count(Run(cfg, es).requests, IsChecked) == 0
    ensures AtMostChecking(cfg, more, k) && Run(cfg, more).waiting == Run(cfg, es).waiting
    ensures Count(Run(cfg, more).requests, IsChecked) == c
  {
    if c == 0 {
      more := es;
    } else {
      more := CheckMany(cfg, es, k, c - 1);
      hide Run, AtMostChecking, Count;
      more := CheckOne(cfg, more, k);
    }
  }

  /** The bound of WaitingBounded is reached, for every queue length, limit and k. */
  lemma {:induction false} WaitingBoundReached(cfg: Config, k: nat) returns (es: seq<Event>)
    requires cfg.queueLength >= 1 && k >= 1
    ensures AtMostChecking(cfg, es, k) && Run(cfg, es).waiting == cfg.queueLength + k - 1
  {
    hide Run, AtMostChecking, Count;
    es := FillQueue(cfg, k, cfg.queueLength - 1);
    es := CheckMany(cfg, es, k, k);
    es := EnterAll(cfg, es, k, k);
  }

  ghost predicate QueueLengthRespected(cfg: Config, k: nat) {
    forall es :: AtMostChecking(cfg, es, k) ==> Run(cfg, es).waiting <= cfg.queueLength
  }

  /** The queue length bounds the queue, over all runs, exactly when no two requests are ever between
      the check and the increment at once. */
  lemma QueueLengthRespectedIff(cfg: Config, k: nat)
    requires cfg.maxConcurrency >= 0 && cfg.queueLength >= 1 && k >= 1
    ensures QueueLengthRespected(cfg, k) <==> k == 1
  {
    hide Run, AtMostChecking, Count;
    var es := WaitingBoundReached(cfg, k);
    forall es | k == 1 && AtMostChecking(cfg, es, k)
      ensures Run(cfg, es).waiting <= cfg.queueLength
    {
      WaitingBounded(cfg, es, k);
    }
  }

  /** A queue of length one with two requests waiting. */
  lemma WaitingPassesQueueLength()
    ensures Run(Config(1, 1), [Arrive, Arrive, Of(0, CheckQueue), Of(1, CheckQueue), Of(0, Enter), Of(1, Enter)])
              .waiting == 2
  {
    var cfg := Config(1, 1);
    var e2 := [Arrive, Arrive];
    var e3 := e2 + [Of(0, CheckQueue)];
    var e4 := e3 + [Of(1, CheckQueue)];
    var e5 := e4 + [Of(0, Enter)];
    RunAppend(cfg, [], Arrive);
    RunAppend(cfg, [Arrive], Arrive);
    assert [] + [Arrive] == [Arrive] && [Arrive] + [Arrive] == e2;
    assert Run(cfg, e2) == Start.(requests := [Newcomer, Newcomer], total := 2);
    RunAppend(cfg, e2, Of(0, CheckQueue));
    RunAppend(cfg, e3, Of(1, CheckQueue));
    RunAppend(cfg, e4, Of(0, Enter));
    RunAppend(cfg, e5, Of(1, Enter));
    hide Run;
    assert e5 + [Of(1, Enter)]
        == [Arrive, Arrive, Of(0, CheckQueue), Of(1, CheckQueue), Of(0, Enter), Of(1, Enter)];
  }

  lemma RunAppend(cfg: Config, es: seq<Event>, e: Event)
    ensures Run(cfg, es + [e]) == Step(cfg, Run(cfg, es), e)
  {
    assert (es + [e])[..|es|] == es;
  }
}
