/** Node health: heartbeats move it up and down (internal/relay/registry.go), the monitor suspects
    and finally closes a silent node (internal/relay/wss.go). Times are in nanoseconds. */
module Health {
  import opened Basics
  import opened Nodes
  import opened Scheduler

  const SECOND := 1_000_000_000

  function HeartbeatSeconds(timeoutS: int): int {
    if timeoutS / 3 < 5 then 5 else timeoutS / 3
  }

  /** The monitored connection: when the node last spoke, its state, how often it was found
      missing, and, once the monitor closed it, when. */
  datatype Watch = Watch(last: int, state: NodeState, missed: nat, closedAt: Option<int>)

  datatype HealthEvent =
    | Heartbeat(at: int, healthy: bool)
    | Tick(at: int)
    | Administer(at: int, to: NodeState)   // DrainNode and the like

  function WatchStep(w: Watch, timeoutS: int, e: HealthEvent): Watch {
    if w.closedAt.Some? then w else
    match e
    case Heartbeat(at, healthy) => w.(last := at, state := Beat(w.state, healthy))
    case Administer(_, to) => w.(state := to)
    case Tick(at) =>
      var age, timeout := at - w.last, timeoutS * SECOND;
      if age > 2 * timeout then w.(missed := w.missed + 1, closedAt := Some(at))
      else if age > timeout && w.state != Suspect then w.(missed := w.missed + 1, state := Suspect)
      else w
  }

  function WatchRun(w: Watch, timeoutS: int, es: seq<HealthEvent>): Watch {
    if es == [] then w else WatchStep(WatchRun(w, timeoutS, es[..|es| - 1]), timeoutS, es[|es| - 1])
  }

  /** The monitor of one connection. */
  class Monitor {
    const node: Node
    const timeoutS: int
    var missed: nat
    var closedAt: Option<int>

    constructor (node: Node, timeoutS: int)
      ensures this.node == node && this.timeoutS == timeoutS && missed == 0 && closedAt == None
    {
      this.node, this.timeoutS, this.missed, this.closedAt := node, timeoutS, 0, None;
    }

    ghost function View(): Watch
      reads this, node
    {
      Watch(node.heartbeat, node.state, missed, closedAt)
    }

    /** One turn of the monitor loop; false ends it. */
    method OnTick(now: int) returns (goOn: bool)
      requires closedAt.None?
      modifies this, node
      ensures View() == WatchStep(old(View()), timeoutS, Tick(now))
      ensures goOn == closedAt.None?
    {
      var age := now - node.heartbeat;
      var timeout := timeoutS * SECOND;
      if age > 2 * timeout {
        missed := missed + 1;
        closedAt := Some(now);
        return false;
      }
      if age > timeout && node.state != Suspect {
        node.SetState(Suspect);
        missed := missed + 1;
      }
      goOn := true;
    }

    /** The loop, with the read loop's heartbeats in between, as a schedule. */
    method Run(schedule: seq<HealthEvent>)
      requires closedAt.None?
      modifies this, node
      ensures View() == WatchRun(old(View()), timeoutS, schedule)
    {
      var i := 0;
      var goOn := true;
      while i < |schedule|
        invariant i <= |schedule| && goOn == closedAt.None?
        invariant View() == WatchRun(old(View()), timeoutS, schedule[..i])
      {
        assert schedule[..i + 1][..i] == schedule[..i];
        if goOn {
          match schedule[i] {
            case Heartbeat(at, healthy) => node.MarkHeartbeat(at, healthy);
            case Administer(_, to) => node.SetState(to);
            case Tick(at) => goOn := OnTick(at);
          }
        }
        i := i + 1;
      }
      assert schedule[..i] == schedule;
    }
  }

  /** The monitor's period in seconds: a third of the timeout, rounded down, but at least five. */
  lemma PeriodInSeconds(timeoutS: int)
    ensures HeartbeatSeconds(timeoutS) >= 5
    ensures timeoutS >= 15 ==> 3 * HeartbeatSeconds(timeoutS) <= timeoutS < 3 * HeartbeatSeconds(timeoutS) + 3
    ensures timeoutS < 15 ==> HeartbeatSeconds(timeoutS) == 5
  {
  }

  /** The ticks that find the node silent: above twice the timeout, or above the timeout and not yet Suspect. */
  function SilentTicks(w: Watch, timeoutS: int, es: seq<HealthEvent>): nat {
    if es == [] then 0 else
    var v, e := WatchRun(w, timeoutS, es[..|es| - 1]), es[|es| - 1];
    SilentTicks(w, timeoutS, es[..|es| - 1])
    + if e.Tick? && v.closedAt.None?
         && (e.at - v.last > 2 * timeoutS * 1_000_000_000
             || (e.at - v.last > timeoutS * 1_000_000_000 && v.state != Suspect))
      then 1 else 0
  }

  /** Over every run: missed counts exactly those ticks; an administrator's state holds at once, and changes
      neither the time of the last heartbeat nor that count. */
  lemma {:induction false} MissedCounts(w: Watch, timeoutS: int, es: seq<HealthEvent>, e: HealthEvent)
    requires timeoutS >= 0
    ensures WatchRun(w, timeoutS, es).missed == w.missed + SilentTicks(w, timeoutS, es)
    ensures var v, t := WatchRun(w, timeoutS, es), WatchRun(w, timeoutS, es + [e]);
      && (e.Administer? && v.closedAt.None? ==>
            t.state == e.to && t.last == v.last && t.missed == v.missed && t.closedAt.None?)
      && (e.Heartbeat? && v.closedAt.None? ==> t.last == e.at && t.missed == v.missed && t.closedAt.None?)
  {
    assert (es + [e])[..|es|] == es;
    if es != [] {
      MissedCounts(w, timeoutS, es[..|es| - 1], e);
    }
  }

  // -------------------------------------------------------------- time bounds

  function Ticks(es: seq<HealthEvent>): nat {
    if es == [] then 0 else Ticks(es[..|es| - 1]) + if es[|es| - 1].Tick? then 1 else 0
  }

  function LastBeat(first: int, es: seq<HealthEvent>): int {
    if es == [] then first
    else if es[|es| - 1].Heartbeat? then es[|es| - 1].at
    else LastBeat(first, es[..|es| - 1])
  }

  /** Events in time order from start on, the k-th tick at start + k periods. */
  predicate Timeline(start: int, timeoutS: int, es: seq<HealthEvent>) {
    if es == [] then true else
    var init, e := es[..|es| - 1], es[|es| - 1];
    && Timeline(start, timeoutS, init)
    && (if init == [] then start <= e.at else init[|init| - 1].at <= e.at)
    && (e.Tick? ==> e.at == start + (Ticks(init) + 1) * (HeartbeatSeconds(timeoutS) * SECOND))
  }

  function Max(a: int, b: int): int {
    if a > b then a else b
  }

  /** The age limit known when n ticks have passed without closing. */
  ghost predicate AgeInv(w: Watch, start: int, first: int, timeoutS: int, n: nat) {
    var period := HeartbeatSeconds(timeoutS) * SECOND;
    var bound := Max(2 * timeoutS * SECOND, start - first);
    match w.closedAt
    case None => start + n * period - w.last <= bound
    case Some(at) => 2 * timeoutS * SECOND < at - w.last <= bound + period
  }

  lemma {:induction false} TicksInPast(start: int, timeoutS: int, es: seq<HealthEvent>)
    requires Timeline(start, timeoutS, es)
    ensures start + Ticks(es) * (HeartbeatSeconds(timeoutS) * SECOND) <= if es == [] then start else es[|es| - 1].at
  {
    if es != [] {
      TicksInPast(start, timeoutS, es[..|es| - 1]);
    }
  }

  lemma {:induction false} AgesBounded(w: Watch, start: int, timeoutS: int, es: seq<HealthEvent>)
    requires timeoutS >= 0 && w.closedAt.None? && w.last <= start && Timeline(start, timeoutS, es)
    ensures var r := WatchRun(w, timeoutS, es);
      r.closedAt.None? ==> AgeInv(r, start, w.last, timeoutS, Ticks(es))
    ensures var r := WatchRun(w, timeoutS, es);
      r.closedAt.Some? ==> AgeInv(r, start, w.last, timeoutS, 0)
  {
    if es != [] {
      var init, e := es[..|es| - 1], es[|es| - 1];
      AgesBounded(w, start, timeoutS, init);
      TicksInPast(start, timeoutS, init);
    }
  }

  /** A connection is closed by the monitor only at an age above twice the timeout, and at most one
      period later than that (or than the delay between registration and the monitor's start). */
  lemma ClosedInWindow(w: Watch, start: int, timeoutS: int, es: seq<HealthEvent>)
    requires timeoutS >= 0 && w.closedAt.None? && w.last <= start && Timeline(start, timeoutS, es)
    ensures var r := WatchRun(w, timeoutS, es);
      r.closedAt.Some? ==>
        var age := r.closedAt.value - r.last;
        2 * timeoutS * SECOND < age
        <= Max(2 * timeoutS * SECOND, start - w.last) + (if timeoutS < 15 then 5 else timeoutS / 3) * SECOND
  {
    AgesBounded(w, start, timeoutS, es);
  }

  /** It is closed by then: no tick passes at an age above twice the timeout without closing. */
  lemma SilenceCloses(w: Watch, timeoutS: int, es: seq<HealthEvent>, now: int)
    requires now - WatchRun(w, timeoutS, es).last > 2 * timeoutS * SECOND
    ensures WatchRun(w, timeoutS, es + [Tick(now)]).closedAt.Some?
  {
    assert (es + [Tick(now)])[..|es|] == es;
  }

  /** The tick es[i] came at an age in (T, 2T] and left the node Suspect. */
  ghost predicate SuspectedAt(w: Watch, timeoutS: int, es: seq<HealthEvent>, i: int)
    requires 0 <= i < |es|
  {
    && es[i].Tick?
    && timeoutS * SECOND < es[i].at - WatchRun(w, timeoutS, es[..i]).last <= 2 * timeoutS * SECOND
    && WatchRun(w, timeoutS, es[..i + 1]).state == Suspect
    && WatchRun(w, timeoutS, es[..i + 1]).closedAt.None?
  }

  /** Some tick did so in the silence that lasts at the end of es: no heartbeat came after it. */
  ghost predicate SuspectedThisSilence(w: Watch, timeoutS: int, es: seq<HealthEvent>) {
    exists i :: 0 <= i < |es| && SuspectedAt(w, timeoutS, es, i)
                && WatchRun(w, timeoutS, es[..i]).last == WatchRun(w, timeoutS, es).last
  }

  lemma SuspectedBefore(w: Watch, timeoutS: int, es: seq<HealthEvent>, i: int)
    requires 0 <= i < |es| - 1 && SuspectedAt(w, timeoutS, es[..|es| - 1], i)
    ensures SuspectedAt(w, timeoutS, es, i) && es[..|es| - 1][..i] == es[..i]
  {
    hide WatchRun;
    var init := es[..|es| - 1];
    assert init[..i] == es[..i] && init[..i + 1] == es[..i + 1];
  }

  lemma SuspectedEarlier(w: Watch, timeoutS: int, es: seq<HealthEvent>)
    requires es != [] && SuspectedThisSilence(w, timeoutS, es[..|es| - 1])
    requires WatchRun(w, timeoutS, es).last == WatchRun(w, timeoutS, es[..|es| - 1]).last
    ensures SuspectedThisSilence(w, timeoutS, es)
  {
    hide WatchRun, SuspectedAt;
    var init := es[..|es| - 1];
    var i :| 0 <= i < |init| && SuspectedAt(w, timeoutS, init, i)
             && WatchRun(w, timeoutS, init[..i]).last == WatchRun(w, timeoutS, init).last;
    SuspectedBefore(w, timeoutS, es, i);
  }

  lemma {:induction false} LastTickSawSilence(w: Watch, start: int, timeoutS: int, es: seq<HealthEvent>, now: int)
    requires timeoutS >= 5 && w.closedAt.None? && start - timeoutS * SECOND <= w.last <= start
    requires Timeline(start, timeoutS, es) && WatchRun(w, timeoutS, es).closedAt.None?
    requires now == start + (Ticks(es) + 1) * (HeartbeatSeconds(timeoutS) * SECOND)
    requires now - WatchRun(w, timeoutS, es).last > 2 * timeoutS * SECOND
    ensures SuspectedThisSilence(w, timeoutS, es)
  {
    TicksInPast(start, timeoutS, es);
    PeriodWithinTimeout(timeoutS);
    var period := HeartbeatSeconds(timeoutS) * SECOND;
    assert now == start + Ticks(es) * period + period;
    if es != [] {
      var init, e := es[..|es| - 1], es[|es| - 1];
      var v := WatchRun(w, timeoutS, init);
      assert WatchRun(w, timeoutS, es) == WatchStep(v, timeoutS, e);
      hide WatchRun, SuspectedThisSilence, HeartbeatSeconds;
      if e.Tick? {
        TickSawSilence(w, timeoutS, es, period);
      } else if e.Administer? {
        LastTickSawSilence(w, start, timeoutS, init, now);
        SuspectedEarlier(w, timeoutS, es);
      }
    }
  }

  lemma PeriodWithinTimeout(timeoutS: int)
    requires timeoutS >= 5
    ensures 0 < HeartbeatSeconds(timeoutS) * SECOND <= timeoutS * SECOND
  {
  }

  lemma TickSawSilence(w: Watch, timeoutS: int, es: seq<HealthEvent>, period: int)
    requires timeoutS >= 5 && period <= timeoutS * SECOND
    requires es != [] && es[|es| - 1].Tick? && WatchRun(w, timeoutS, es).closedAt.None?
    requires es[|es| - 1].at + period - WatchRun(w, timeoutS, es).last > 2 * timeoutS * SECOND
    ensures SuspectedThisSilence(w, timeoutS, es)
  {
    var n := |es| - 1;
    assert es[..n + 1] == es;
    assert SuspectedAt(w, timeoutS, es, n);
  }

  /** With a timeout of at least 5 s, a node that is closed was suspected in the same silence: since its
      last heartbeat some tick found it silent for more than the timeout but at most twice that, and
      left it Suspect. */
  lemma {:induction false} SuspectBeforeClose(w: Watch, start: int, timeoutS: int, es: seq<HealthEvent>)
    requires timeoutS >= 5 && w.closedAt.None? && start - timeoutS * SECOND <= w.last <= start
    requires Timeline(start, timeoutS, es)
    requires WatchRun(w, timeoutS, es).closedAt.Some?
    ensures SuspectedThisSilence(w, timeoutS, es)
  {
    var init, e := es[..|es| - 1], es[|es| - 1];
    if WatchRun(w, timeoutS, init).closedAt.Some? {
      SuspectBeforeClose(w, start, timeoutS, init);
    } else {
      LastTickSawSilence(w, start, timeoutS, init, e.at);
    }
    SuspectedEarlier(w, timeoutS, es);
  }

  /** No gap between successive heartbeats exceeds the timeout. */
  predicate RegularBeats(first: int, timeoutS: int, es: seq<HealthEvent>) {
    if es == [] then true else
    var init, e := es[..|es| - 1], es[|es| - 1];
    RegularBeats(first, timeoutS, init)
    && (e.Heartbeat? ==> e.at - LastBeat(first, init) <= timeoutS * SECOND)
  }

  /** A node whose heartbeats keep coming is never marked, never counted missing, never closed. */
  lemma {:induction false} RegularNeverSuspected(w: Watch, start: int, timeoutS: int, es: seq<HealthEvent>, now: int)
    requires timeoutS >= 0 && w.closedAt.None? && w.last <= start && Timeline(start, timeoutS, es)
    requires RegularBeats(w.last, timeoutS, es)
    requires es != [] ==> es[|es| - 1].at <= now
    requires now - LastBeat(w.last, es) <= timeoutS * SECOND
    ensures var r := WatchRun(w, timeoutS, es);
      r.closedAt.None? && r.missed == w.missed && r.last == LastBeat(w.last, es)
  {
    if es != [] {
      var init, e := es[..|es| - 1], es[|es| - 1];
      RegularNeverSuspected(w, start, timeoutS, init, if e.Heartbeat? then e.at else now);
    }
  }

  // -------------------------------------------------------------- state runs

  function Beats(state: NodeState, run: seq<bool>): NodeState {
    if run == [] then state else Beat(Beats(state, run[..|run| - 1]), run[|run| - 1])
  }

  /** Whole runs of heartbeats, from any state. */
  lemma {:induction false} HeartbeatRuns(state: NodeState, run: seq<bool>)
    ensures state in {Online, Degraded} && run != [] ==>
              Beats(state, run) == if run[|run| - 1] then Online else Degraded
    ensures state == Suspect ==>
              (Beats(state, run) == Suspect <==> forall i | 0 <= i < |run| :: !run[i])
    ensures state == Suspect && Beats(state, run) != Suspect ==>
              Beats(state, run) == if run[|run| - 1] then Online else Degraded
    ensures state in {Connecting, Draining, Offline} ==> Beats(state, run) == state
  {
    if run != [] {
      HeartbeatRuns(state, run[..|run| - 1]);
    }
  }

  datatype NodeOp = OpBeat(at: int, healthy: bool) | OpReserve | OpRelease | OpLimit(v: int)
                  | OpModels(models: map<string, ModelCap>)

  function Apply(v: NodeView, op: NodeOp): NodeView {
    match op
    case OpBeat(at, healthy) => v.(state := Beat(v.state, healthy), heartbeat := at)
    case OpReserve => v.(slots := ReserveSlot(v.slots).0)
    case OpRelease => v.(slots := ReleaseSlot(v.slots))
    case OpLimit(l) => v.(slots := ChangeLimit(v.slots, l))
    case OpModels(models) => v.(models := models)
  }

  /** One operation on the node itself. */
  method Perform(n: Node, op: NodeOp) returns (ok: bool)
    modifies n
    ensures n.View() == Apply(old(n.View()), op)
    ensures ok == (op.OpReserve? ==> old(n.active) < old(n.limit))
  {
    ok := true;
    match op {
      case OpBeat(at, healthy) => n.MarkHeartbeat(at, healthy);
      case OpReserve => ok := n.Reserve();
      case OpRelease => n.Release();
      case OpLimit(v) => n.SetMaxConcurrency(v);
      case OpModels(models) => n.SetModels(models);
    }
  }

  function ApplyAll(v: NodeView, ops: seq<NodeOp>): NodeView {
    if ops == [] then v else Apply(ApplyAll(v, ops[..|ops| - 1]), ops[|ops| - 1])
  }

  /** Traffic, heartbeats and configuration never bring a draining node back, and the scheduler
      never picks it meanwhile. */
  lemma {:induction false} DrainingStays(nodes: map<string, NodeView>, id: string, ops: seq<NodeOp>,
                                         model: string, capability: string)
    requires id in nodes && nodes[id].state == Draining
    ensures ApplyAll(nodes[id], ops).state == Draining
    ensures !SelectionCorrect(nodes[id := ApplyAll(nodes[id], ops)], model, capability, Chosen(id))
  {
    if ops != [] {
      DrainingStays(nodes, id, ops[..|ops| - 1], model, capability);
    }
  }

  /** Some tick comes at an age above twice the timeout. */
  predicate Overdue(first: int, timeoutS: int, es: seq<HealthEvent>) {
    es != [] && var init, e := es[..|es| - 1], es[|es| - 1];
    Overdue(first, timeoutS, init) || (e.Tick? && e.at - LastBeat(first, init) > 2 * timeoutS * SECOND)
  }

  /** Some tick, before any that is overdue, comes at an age above the timeout but not above twice that. */
  predicate Missed(first: int, timeoutS: int, es: seq<HealthEvent>) {
    es != [] && var init, e := es[..|es| - 1], es[|es| - 1];
    || Missed(first, timeoutS, init)
    || (!Overdue(first, timeoutS, init)
        && e.Tick? && timeoutS * SECOND < e.at - LastBeat(first, init) <= 2 * timeoutS * SECOND)
  }

  predicate NoAdministration(es: seq<HealthEvent>) {
    forall i | 0 <= i < |es| :: !es[i].Administer?
  }

  /** Over any run of heartbeats and ticks a draining node is closed exactly when a tick is overdue, and has
      left that state exactly when one came in the window before. */
  lemma {:induction false} DrainingLeavesBySilence(w: Watch, timeoutS: int, es: seq<HealthEvent>)
    requires timeoutS >= 0 && w.closedAt.None? && w.state == Draining && NoAdministration(es)
    ensures var r := WatchRun(w, timeoutS, es);
      && (r.state != Draining <==> Missed(w.last, timeoutS, es))
      && (r.closedAt.Some? <==> Overdue(w.last, timeoutS, es))
      && (r.closedAt.None? ==> r.last == LastBeat(w.last, es))
  {
    if es != [] {
      DrainingLeavesBySilence(w, timeoutS, es[..|es| - 1]);
    }
  }

  /** Draining is not permanent: a late tick and then a healthy heartbeat put the node back online. */
  lemma DrainingUndone()
    ensures WatchRun(Watch(0, Draining, 0, None), 60, [Tick(80 * SECOND), Heartbeat(81 * SECOND, true)]).state == Online
  {
    var w := Watch(0, Draining, 0, None);
    var es := [Tick(80 * SECOND), Heartbeat(81 * SECOND, true)];
    assert es[..1] == [es[0]] && es[..1][..0] == [];
    assert WatchRun(w, 60, es[..1]) == WatchStep(w, 60, es[0]);
  }
}
