/** handleProxy on the real objects and the admission machine tell the same story: the contract of
    Proxy.HandleProxy is what one request's own actions do to the machine. */
module Passage {
  import opened Basics
  import opened Admission
  import opened Errors
  import opened Nodes
  import opened Proxy
  import R = Response
  import Scheduler

  /** The actions of one request, one after the other. */
  function ActAll(cfg: Config, s: State, r: nat, acts: seq<Action>): (t: State)
    requires r < |s.requests|
    ensures |t.requests| == |s.requests|
    decreases |acts|
  {
    if acts == [] then s else
    ActShape(cfg, s, r, acts[0]);
    ActAll(cfg, Act(cfg, s, r, acts[0]), r, acts[1..])
  }

  lemma {:induction false} ActAllConcat(cfg: Config, s: State, r: nat, a: seq<Action>, b: seq<Action>)
    requires r < |s.requests|
    ensures ActAll(cfg, s, r, a + b) == ActAll(cfg, ActAll(cfg, s, r, a), r, b)
    decreases |a|
  {
    if a == [] {
      assert a + b == b;
    } else {
      ActShape(cfg, s, r, a[0]);
      assert (a + b)[1..] == a[1..] + b;
      ActAllConcat(cfg, Act(cfg, s, r, a[0]), r, a[1..], b);
      hide Act;
    }
  }

  /** Up to the token, or to the refusal. */
  function Entry(full: bool, pick: AcquireCase): seq<Action> {
    if full then [CheckQueue] else
    match pick
    case GetsToken => [CheckQueue, Enter, TakeToken, Leave]
    case TimerFires => [CheckQueue, Enter, WaitEnds(false), Leave]
    case ContextEnds => [CheckQueue, Enter, WaitEnds(true), Leave]
  }

  /** From the token on. reached says whether request message and body got out. */
  function Rest(node: Option<nat>, room: bool, why: Scheduler.WaitError, reached: bool,
                ttft: bool, idle: bool, schedule: seq<R.Event>): seq<Action>
  {
    match node
    case None => [NoNode(why), ReturnToken]
    case Some(n) =>
      if !room then [Pick(n), Reserve, ReturnToken]
      else [Pick(n), Reserve, AddPending] + [if reached then Forward(ttft, idle, schedule) else SendFails]
           + [RemovePending, FreeSlot, ReturnToken]
  }

  function Three(s: State): (nat, nat, nat) {
    (s.success, s.failed, s.canceled)
  }

  /** t is s after request r left by x, everything it took given back. */
  ghost predicate Left(s: State, t: State, r: nat, x: Exit)
    requires r < |s.requests|
  {
    && t.tokens == s.tokens && t.waiting == s.waiting && t.pending == s.pending
    && t.nodes == s.nodes && t.total == s.total
    && |t.requests| == |s.requests| && t.requests == s.requests[r := t.requests[r]]
    && t.requests[r].stage == Done && t.requests[r].status == x.rec.status && t.requests[r].code == x.rec.code
    && Proxy.Counted(Three(s), Three(t), x.bucket)
    && t.requests[r].verdict == match x.bucket
                                case AsSuccess => Successful
                                case AsFailed => Failed
                                case AsCanceled => ClientGone
                                case Uncounted => WriteError
  }

  lemma FourActs(cfg: Config, s: State, r: nat, a: Action, b: Action, c: Action, d: Action)
    requires r < |s.requests|
    ensures |Act(cfg, s, r, a).requests| == |s.requests|
    ensures |Act(cfg, Act(cfg, s, r, a), r, b).requests| == |s.requests|
    ensures |Act(cfg, Act(cfg, Act(cfg, s, r, a), r, b), r, c).requests| == |s.requests|
    ensures ActAll(cfg, s, r, [a, b, c]) == Act(cfg, Act(cfg, Act(cfg, s, r, a), r, b), r, c)
    ensures ActAll(cfg, s, r, [a, b, c, d]) == Act(cfg, Act(cfg, Act(cfg, Act(cfg, s, r, a), r, b), r, c), r, d)
  {
    ActShape(cfg, s, r, a);
    var s1 := Act(cfg, s, r, a);
    ActShape(cfg, s1, r, b);
    var s2 := Act(cfg, s1, r, b);
    ActShape(cfg, s2, r, c);
    var s3 := Act(cfg, s2, r, c);
    hide Act;
    assert [a, b, c][1..] == [b, c] && [b, c][1..] == [c] && [c][1..] == [];
    assert [a, b, c, d][1..] == [b, c, d] && [b, c, d][1..] == [c, d] && [c, d][1..] == [d] && [d][1..] == [];
    assert ActAll(cfg, s2, r, [c]) == ActAll(cfg, s3, r, []);
    assert ActAll(cfg, s1, r, [b, c]) == ActAll(cfg, s2, r, [c]);
    assert ActAll(cfg, s3, r, [d]) == ActAll(cfg, Act(cfg, s3, r, d), r, []);
    assert ActAll(cfg, s2, r, [c, d]) == ActAll(cfg, s3, r, [d]);
    assert ActAll(cfg, s1, r, [b, c, d]) == ActAll(cfg, s2, r, [c, d]);
  }

  lemma Entered(cfg: Config, s: State, r: nat, pick: AcquireCase)
    requires r < |s.requests| && s.requests[r] == Newcomer && (pick.GetsToken? ==> s.tokens < cfg.maxConcurrency)
    ensures var full := s.waiting >= cfg.queueLength;
      var t := ActAll(cfg, s, r, Entry(full, pick));
      match Refusal(full, pick)
      case None => t == Go(s, r, Admitted).(tokens := s.tokens + 1)
      case Some(code) => t == Admission.Refuse(s, r, Done, code)
  {
    var full := s.waiting >= cfg.queueLength;
    if full {
      ActShape(cfg, s, r, CheckQueue);
      assert [CheckQueue][1..] == [];
      assert ActAll(cfg, s, r, [CheckQueue]) == ActAll(cfg, Act(cfg, s, r, CheckQueue), r, []);
    } else {
      FourActs(cfg, s, r, CheckQueue, Enter,
               if pick.GetsToken? then TakeToken else WaitEnds(pick.ContextEnds?),
               Leave);
    }
    hide ActAll, R.Run, HTTPStatus;
  }

  /** What it takes to hold a pending entry on node n. */
  lemma SlotTaken(cfg: Config, s: State, r: nat, n: nat)
    requires r < |s.requests| && s.requests[r].stage == Admitted && n < |s.nodes|
    requires s.nodes[n].slots.active < s.nodes[n].slots.limit
    ensures var x := s.nodes[n].slots;
      ActAll(cfg, s, r, [Pick(n), Reserve, AddPending]) ==
      SetSlots(Go(s, r, Pending(n)), n, x.(active := x.active + 1)).(pending := s.pending + {r})
  {
    FourActs(cfg, s, r, Pick(n), Reserve, AddPending, AddPending);
    hide ActAll, R.Run, HTTPStatus;
  }

  /** The deferred clean-ups, innermost first. */
  lemma SlotFreed(cfg: Config, s: State, r: nat, n: nat)
    requires r < |s.requests| && s.requests[r].stage == DonePending(n) && n < |s.nodes| && s.nodes[n].slots.active > 0
    ensures var x := s.nodes[n].slots;
      ActAll(cfg, s, r, [RemovePending, FreeSlot, ReturnToken]) ==
      SetSlots(Go(s, r, Done), n, x.(active := x.active - 1)).(pending := s.pending - {r}, tokens := s.tokens - 1)
  {
    FourActs(cfg, s, r, RemovePending, FreeSlot, ReturnToken, ReturnToken);
    hide ActAll, R.Run, HTTPStatus;
  }

  /** From the token on, whatever the obstacle. */
  lemma {:induction false} RestLeaves(cfg: Config, s: State, r: nat, node: Option<nat>, why: Scheduler.WaitError,
                                      reached: bool, ttft: bool, idle: bool, schedule: seq<R.Event>,
                                      view: Option<NodeView>)
    requires r < |s.requests| && s.requests[r] == Newcomer.(stage := Admitted) && r !in s.pending
    requires node.Some? ==> node.value < |s.nodes| && view.Some? && view.value.slots == s.nodes[node.value].slots
    requires node.None? ==> view.None?
    requires R.Run(R.Fresh(ttft, idle), schedule).fw.phase.Ended?
    ensures var room := node.Some? && HasRoom(view.value);
      Left(s.(tokens := s.tokens - 1), ActAll(cfg, s, r, Rest(node, room, why, reached, ttft, idle, schedule)), r,
           ExitOf(Obstacle(view, why, reached), R.Run(R.Fresh(ttft, idle), schedule)))
  {
    hide ActAll, R.Run, Left, Act;
    if node.None? {
      NobodyLeaves(cfg, s, r, why, R.Run(R.Fresh(ttft, idle), schedule));
    } else if !HasRoom(view.value) {
      FullLeaves(cfg, s, r, node.value, R.Run(R.Fresh(ttft, idle), schedule));
    } else {
      SlotLeaves(cfg, s, r, node.value, reached, ttft, idle, schedule);
    }
  }

  lemma NobodyLeaves(cfg: Config, s: State, r: nat, why: Scheduler.WaitError, response: R.Stream)
    requires r < |s.requests| && s.requests[r] == Newcomer.(stage := Admitted) && response.fw.phase.Ended?
    ensures Left(s.(tokens := s.tokens - 1), ActAll(cfg, s, r, [NoNode(why), ReturnToken]), r,
                 ExitOf(Some(Scheduler.ClassifySelectorErr(why)), response))
  {
    TwoActs(cfg, s, r, NoNode(why), ReturnToken);
    hide ActAll, R.Run, HTTPStatus, Scheduler.ClassifySelectorErr;
  }

  lemma FullLeaves(cfg: Config, s: State, r: nat, n: nat, response: R.Stream)
    requires r < |s.requests| && s.requests[r] == Newcomer.(stage := Admitted) && response.fw.phase.Ended?
    requires n < |s.nodes| && s.nodes[n].slots.active >= s.nodes[n].slots.limit
    ensures Left(s.(tokens := s.tokens - 1), ActAll(cfg, s, r, [Pick(n), Reserve, ReturnToken]), r,
                 ExitOf(Some(NoAvailableNode), response))
  {
    FourActs(cfg, s, r, Pick(n), Reserve, ReturnToken, ReturnToken);
    hide ActAll, R.Run, HTTPStatus;
  }

  lemma TwoActs(cfg: Config, s: State, r: nat, a: Action, b: Action)
    requires r < |s.requests|
    ensures |Act(cfg, s, r, a).requests| == |s.requests|
    ensures ActAll(cfg, s, r, [a, b]) == Act(cfg, Act(cfg, s, r, a), r, b)
  {
    ActShape(cfg, s, r, a);
    var s1 := Act(cfg, s, r, a);
    hide Act;
    assert [a, b][1..] == [b] && [b][1..] == [];
    assert ActAll(cfg, s1, r, [b]) == ActAll(cfg, Act(cfg, s1, r, b), r, []);
  }

  lemma {:induction false} SlotLeaves(cfg: Config, s: State, r: nat, n: nat, reached: bool, ttft: bool, idle: bool,
                                      schedule: seq<R.Event>)
    requires r < |s.requests| && s.requests[r] == Newcomer.(stage := Admitted) && r !in s.pending
    requires n < |s.nodes| && s.nodes[n].slots.active < s.nodes[n].slots.limit
    requires R.Run(R.Fresh(ttft, idle), schedule).fw.phase.Ended?
    ensures var a := if reached then Forward(ttft, idle, schedule) else SendFails;
      Left(s.(tokens := s.tokens - 1),
           ActAll(cfg, s, r, [Pick(n), Reserve, AddPending] + [a] + [RemovePending, FreeSlot, ReturnToken]), r,
           ExitOf(if reached then None else Some(NoAvailableNode), R.Run(R.Fresh(ttft, idle), schedule)))
  {
    var a := if reached then Forward(ttft, idle, schedule) else SendFails;
    var s1 := ActAll(cfg, s, r, [Pick(n), Reserve, AddPending]);
    SlotTaken(cfg, s, r, n);
    ActAllConcat(cfg, s, r, [Pick(n), Reserve, AddPending], [a]);
    ActAllConcat(cfg, s, r, [Pick(n), Reserve, AddPending] + [a], [RemovePending, FreeSlot, ReturnToken]);
    ActShape(cfg, s1, r, a);
    assert [a][1..] == [];
    assert ActAll(cfg, s1, r, [a]) == ActAll(cfg, Act(cfg, s1, r, a), r, []);
    Conversed(cfg, s1, r, n, reached, ttft, idle, schedule);
    SlotFreed(cfg, Act(cfg, s1, r, a), r, n);
    hide ActAll, R.Run, Act, HTTPStatus;
    assert s.nodes[n := s.nodes[n].(slots := s.nodes[n].slots)] == s.nodes;
    assert s.pending + {r} - {r} == s.pending;
  }

  /** The one action that decides the outcome. */
  lemma Conversed(cfg: Config, s: State, r: nat, n: nat, reached: bool, ttft: bool, idle: bool, schedule: seq<R.Event>)
    requires r < |s.requests| && s.requests[r].stage == Pending(n)
    requires R.Run(R.Fresh(ttft, idle), schedule).fw.phase.Ended?
    ensures var a := if reached then Forward(ttft, idle, schedule) else SendFails;
      var t := Act(cfg, s, r, a);
      var x := ExitOf(if reached then None else Some(NoAvailableNode), R.Run(R.Fresh(ttft, idle), schedule));
      && |t.requests| == |s.requests| && t.requests == s.requests[r := t.requests[r]]
      && t.requests[r].stage == DonePending(n)
      && t.requests[r].status == x.rec.status && t.requests[r].code == x.rec.code
      && t == s.(requests := t.requests, success := t.success, failed := t.failed, canceled := t.canceled)
      && Proxy.Counted(Three(s), Three(t), x.bucket)
      && t.requests[r].verdict == match x.bucket
                                  case AsSuccess => Successful
                                  case AsFailed => Failed
                                  case AsCanceled => ClientGone
                                  case Uncounted => WriteError
  {
    ForwardCounts(ttft, idle, schedule);
    hide R.Run, HTTPStatus;
  }

  /** Undisturbed, a request that has just been counted leaves the machine as HandleProxy says: with the
      record, the bucket and the give-backs of its first obstacle or of its response. */
  lemma {:induction false} PassageIsHandleProxy(cfg: Config, s: State, r: nat, admit: AcquireCase, node: Option<nat>,
                                                view: Option<NodeView>, why: Scheduler.WaitError, reached: bool,
                                                ttft: bool, idle: bool, schedule: seq<R.Event>)
    requires r < |s.requests| && s.requests[r] == Newcomer && r !in s.pending
    requires admit.GetsToken? ==> s.tokens < cfg.maxConcurrency
    requires node.Some? ==> node.value < |s.nodes| && view.Some? && view.value.slots == s.nodes[node.value].slots
    requires node.None? ==> view.None?
    requires R.Run(R.Fresh(ttft, idle), schedule).fw.phase.Ended?
    ensures var full := s.waiting >= cfg.queueLength;
      var refusal := Refusal(full, admit);
      var path := Entry(full, admit)
                  + if refusal.Some? then []
                    else Rest(node, node.Some? && HasRoom(view.value), why, reached, ttft, idle, schedule);
      Left(s, ActAll(cfg, s, r, path), r,
           ExitOf(FirstObstacle(refusal, view, why, reached), R.Run(R.Fresh(ttft, idle), schedule)))
  {
    var full := s.waiting >= cfg.queueLength;
    var refusal := Refusal(full, admit);
    var entry := Entry(full, admit);
    var rest := Rest(node, node.Some? && HasRoom(view.value), why, reached, ttft, idle, schedule);
    Entered(cfg, s, r, admit);
    hide R.Run, Left, ExitOf, Obstacle, Rest, Entry, Refusal, ActAll;
    if refusal.Some? {
      assert entry + [] == entry;
      RefusedLeaves(s, r, refusal.value, R.Run(R.Fresh(ttft, idle), schedule));
    } else {
      ActAllConcat(cfg, s, r, entry, rest);
      AdmittedLeaves(cfg, s, r, node, view, why, reached, ttft, idle, schedule);
    }
  }

  lemma RefusedLeaves(s: State, r: nat, code: Code, response: R.Stream)
    requires r < |s.requests| && s.requests[r] == Newcomer && response.fw.phase.Ended?
    ensures Left(s, Admission.Refuse(s, r, Done, code), r, ExitOf(Some(code), response))
  {
    hide HTTPStatus;
  }

  lemma {:induction false} AdmittedLeaves(cfg: Config, s: State, r: nat, node: Option<nat>, view: Option<NodeView>,
                                          why: Scheduler.WaitError, reached: bool, ttft: bool, idle: bool,
                                          schedule: seq<R.Event>)
    requires r < |s.requests| && s.requests[r] == Newcomer && r !in s.pending
    requires node.Some? ==> node.value < |s.nodes| && view.Some? && view.value.slots == s.nodes[node.value].slots
    requires node.None? ==> view.None?
    requires R.Run(R.Fresh(ttft, idle), schedule).fw.phase.Ended?
    ensures Left(s, ActAll(cfg, Go(s, r, Admitted).(tokens := s.tokens + 1), r,
                           Rest(node, node.Some? && HasRoom(view.value), why, reached, ttft, idle, schedule)), r,
                 ExitOf(Obstacle(view, why, reached), R.Run(R.Fresh(ttft, idle), schedule)))
  {
    var t := Go(s, r, Admitted).(tokens := s.tokens + 1);
    RestLeaves(cfg, t, r, node, why, reached, ttft, idle, schedule, view);
    hide ActAll, R.Run, HTTPStatus, Rest, ExitOf, Obstacle;
  }
}
