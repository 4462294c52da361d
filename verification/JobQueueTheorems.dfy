/**
 * What the job queue's invariants mean for its users: idle machines have nothing left to do, nobody is
 * overtaken, everybody is told once, and no two jobs share a board.
 */
module JobQueueTheorems {
  import opened Wrappers
  import opened Coordinates
  import opened CandidateFilter
  import opened AllocatorModel
  import opened AllocatorTheorems
  import opened Oracle
  import opened AllocatorClass
  import opened JobQueueModel

  // ----- progress

  /** The queues have been processed: they are in order and every machine has nothing more to do. */
  ghost predicate Rested(q: Q, bound: nat) {
    Base(q) && QueuesOk(q, bound) && |q.views| == |q.machines| && AllSettled(q, |q.machines|)
  }

  /** Machine i has nothing allocated and nothing in quarantine. */
  ghost predicate IdleMachine(q: Q, i: nat) {
    && i < |q.machines| == |q.views|
    && Idle(q.machines[i].allocator.machine, q.views[i]) && DeadInMachine(q.machines[i].allocator.machine)
  }

  /** The allocator of machine i is in a good state. */
  lemma AllocatorGood(q: Q, i: nat)
    requires Base(q) && i < |q.machines|
    ensures |q.views| == |q.machines| && Inv(q.machines[i].allocator.machine, q.views[i])
  {
    Open(q);
    assert Sane(Hosts(q.machines)[i], q.views[i]);
  }

  /** The job at the head of a settled queue could be served by the machine, and has just been refused by it. */
  lemma HeadRefused(q: Q, i: nat, bound: nat)
    requires Rested(q, bound) && i < |q.machines| && q.machines[i].queue != []
    ensures var s := q.machines[i].queue[0];
            && s in q.all && q.all[s].pending && Candidate(q.all[s], q.machines[i])
            && q.all[s].demand.request.Sensible()
            && Outcome(q.machines[i].allocator.machine, q.views[i], q.all[s].demand, q.views[i], None)
  {
    var s := q.machines[i].queue[0];
    assert Settled(q, i) && QueueOk(q.machines[i], q.all, q.jobs, bound, q.stranded);
    assert s in q.machines[i].queue;
    CandidateSensible(q.all[s], q.machines[i]);
  }

  /**
   * Progress across all layers. Once the queues have been processed, an idle machine has an empty queue, unless
   * the job at its head asks for any one board and no corner triad of the machine has a working board.
   */
  lemma IdleMachineHasNoQueue(q: Q, i: nat, bound: nat)
    requires Rested(q, bound) && IdleMachine(q, i)
    ensures q.machines[i].queue == []
         || (&& q.machines[i].queue[0] in q.all
             && var request := q.all[q.machines[i].queue[0]].demand.request;
                request.ForOneBoard() && !request.ThisBoard? && !CornerWorks(q.machines[i].allocator.machine))
  {
    if q.machines[i].queue != [] {
      HeadRefused(q, i, bound);
      AllocatorGood(q, i);
      var m, v, d := q.machines[i].allocator.machine, q.views[i], q.all[q.machines[i].queue[0]].demand;
      if d.request.ForOneBoard() && !d.request.ThisBoard? {
        AnyBoardSucceeds(m, v, d, v, None);
      } else {
        OracleExact(m, v, d, v, None);
      }
    }
  }

  /** The exception is real, and such a head stays: the idle machine refuses it whatever happens. */
  lemma StuckHead(q: Q, i: nat, s: Serial, v: State, r: Option<Allocation>)
    requires Base(q) && IdleMachine(q, i) && s in q.all
    requires q.all[s].demand.request.ForOneBoard() && !q.all[s].demand.request.ThisBoard?
    requires !CornerWorks(q.machines[i].allocator.machine)
    requires Outcome(q.machines[i].allocator.machine, q.views[i], q.all[s].demand, v, r)
    ensures r == None && v == q.views[i]
  {
    AllocatorGood(q, i);
    AnyBoardSucceeds(q.machines[i].allocator.machine, q.views[i], q.all[s].demand, v, r);
  }

  /** The job for any one board is queued at the machine of three triads. */
  lemma QueuedAtEndsDead(made: Q, a: Allocator) returns (q: Q)
    requires Orderly(made) && QueuesOk(made, 0) && made.machines == [MachineRec("m", {}, a, [])]
    requires a.machine == Machine(3, 1, EndsDead(), {}) && made.stranded == {}
    requires made.all == map[0 := NewJob(7, Some("m"), None, Demand(AnyBoard, Limits(None, None, false)))]
    ensures q == made.(machines := [MachineRec("m", {}, a, [0])]) && Orderly(q) && QueuesOk(q, 1)
  {
    q := made.(machines := [MachineRec("m", {}, a, [0])]);
    AnyBoardOracleCanBeWrong();
    assert Candidate(made.all[0], made.machines[0]);
    assert OfferedTo(made.machines, q.machines, made.all[0], 0, 1);
    OfferedKeeps(made, q.machines, 0);
  }

  /**
   * It does happen: on three triads in a row of which only the middle one works, a job for any one board waits at
   * the head of the queue for ever, though the machine is idle.
   */
  lemma IdleMachineCanStarve(a: Allocator) returns (q: Q)
    requires a.machine == Machine(3, 1, EndsDead(), {})
    ensures Rested(q, 1) && IdleMachine(q, 0) && q.machines[0].queue == [0]
  {
    var d := Demand(AnyBoard, Limits(None, None, false));
    var made := OneJobOneMachine(a, d);
    q := QueuedAtEndsDead(made, a);
    AllocatorGood(q, 0);
    AnyBoardOracleCanBeWrong();
    var v, r := OutcomeExists(a.machine, q.views[0], d);
    StuckHead(q, 0, 0, v, r);
    assert Settled(q, 0);
  }

  /** A queue with one machine and one job for it, not yet queued. */
  lemma OneJobOneMachine(a: Allocator, d: Demand) returns (q: Q)
    requires a.machine.Positive()
    ensures Orderly(q) && QueuesOk(q, 0) && q.machines == [MachineRec("m", {}, a, [])]
    ensures q.views == [Initial(a.machine, 1)] && q.postpone == 0 && q.jobs == [0] && q.stranded == {}
    ensures q.all == map[0 := NewJob(7, Some("m"), None, d)]
  {
    var rec := MachineRec("m", {}, a, []);
    NewQueueHolds();
    InitialHolds(a.machine, 1);
    AddMachineKeepsBase(NewQueue(), rec, Initial(a.machine, 1));
    var empty := AddMachine(NewQueue(), rec, Initial(a.machine, 1));
    CreateKeepsBase(empty, NewJob(7, Some("m"), None, d));
    CreateKeepsOrder(empty, NewJob(7, Some("m"), None, d));
    q := Create(empty, NewJob(7, Some("m"), None, d));
    assert QueueOk(rec, q.all, q.jobs, 0, {});
  }

  function EndsDead(): set<Board> {
    {Board(0, 0, 0), Board(0, 0, 1), Board(0, 0, 2), Board(2, 0, 0), Board(2, 0, 1), Board(2, 0, 2)}
  }

  /**
   * Nobody waits without a reason: on every machine that could serve a waiting job, the job is in the queue unless it
   * is stranded, and then some job created no later waits there too and has just been refused.
   */
  lemma WaitsForARefusal(q: Q, s: Serial, i: nat)
    requires Rested(q, q.nextSerial) && i < |q.machines| && s in q.jobs && Waits(q, i, s)
    ensures s in q.machines[i].queue <==> s !in q.stranded
    ensures s !in q.stranded ==>
              && q.machines[i].queue != []
              && var t := q.machines[i].queue[0];
                 && t <= s && Waits(q, i, t)
                 && Outcome(q.machines[i].allocator.machine, q.views[i], q.all[t].demand, q.views[i], None)
  {
    Open(q);
    MissingExactly(q, i, q.nextSerial, s);
    if s !in q.stranded {
      HeadIsFirst(q.machines[i], q.all, q.jobs, q.nextSerial, q.stranded, s);
      HeadRefused(q, i, q.nextSerial);
    }
  }

  // ----- order of service

  /**
   * No overtaking. In everything that has happened, whatever was suspended, rebuilt, added or removed: when a
   * machine started a job, every earlier job that it could ever serve had already been allocated or cancelled, or was
   * stranded just then.
   */
  lemma NoOvertaking(q: Q, k: nat, s: Serial) returns (l: nat)
    requires Orderly(q) && k < |q.log| && q.log[k].OnAllocate? && q.log[k].serial in q.all
    requires s in q.all && s < q.log[k].serial && Candidate(q.all[s], RecOf(q.log[k].host))
    ensures (l < k && q.log[l].Decides(s)) || s in q.log[k].stranded
  {
    Open(q);
    assert Fair(q.all, q.log, k);
    l := 0;
    if s !in q.log[k].stranded {
      assert Decided(q.log[..k], s);
      l :| 0 <= l < k && q.log[..k][l].Decides(s);
    }
  }

  /** A machine only ever starts jobs that ask for it and that it could serve. */
  lemma StartsCandidates(q: Q, k: nat)
    requires Orderly(q) && k < |q.log| && q.log[k].OnAllocate? && q.log[k].serial in q.all
    ensures Candidate(q.all[q.log[k].serial], RecOf(q.log[k].host))
  {
    assert Fair(q.all, q.log, k);
  }

  /** A job is meant for the machine it names or, if it names none, for every machine that has all the tags wanted. */
  predicate MeantFor(machineName: Option<string>, wanted: set<string>, name: string, tags: set<string>) {
    match machineName
    case Some(n) => name == n
    case None => forall tag :: tag in wanted ==> tag in tags
  }

  /** The machine's oracle says yes. */
  ghost predicate OracleSaysYes(m: Machine, d: Demand) {
    !Raises(m, d) && Possible(m, d)
  }

  /** A machine only ever starts jobs that are meant for it and for which its oracle says yes; they are then on it. */
  lemma StartedWhereAsked(q: Q, k: nat)
    requires Orderly(q) && k < |q.log| && q.log[k].OnAllocate? && q.log[k].serial in q.all
    ensures var j, host := q.all[q.log[k].serial], q.log[k].host;
            && j.machine == Some(host.name) && MeantFor(j.machineName, j.tags, host.name, host.tags)
            && OracleSaysYes(host.allocator.machine, j.demand)
  {
    assert Fair(q.all, q.log, k);
  }

  /** A job that waits is in the queues of exactly those machines that it is meant for and whose oracle says yes. */
  lemma QueuedWhereAsked(q: Q, i: nat, bound: nat, s: Serial)
    requires QueuesOk(q, bound) && i < |q.machines| && s < bound && s !in q.stranded
    requires s in q.jobs && s in q.all && q.all[s].pending
    ensures var j, rec := q.all[s], q.machines[i];
            s in rec.queue <==>
              MeantFor(j.machineName, j.tags, rec.name, rec.tags) && OracleSaysYes(rec.allocator.machine, j.demand)
  {
    assert QueueOk(q.machines[i], q.all, q.jobs, bound, q.stranded);
  }

  /** What offering a job to all machines does to the queue of each, in the same terms. */
  lemma OfferedWhereAsked(before: seq<MachineRec>, after: seq<MachineRec>, j: Job, s: Serial, i: nat)
    requires OfferedTo(before, after, j, s, |before|) && i < |before|
    ensures i < |after| && HostOf(after[i]) == HostOf(before[i])
    ensures var rec := before[i];
            after[i].queue ==
              if MeantFor(j.machineName, j.tags, rec.name, rec.tags) && OracleSaysYes(rec.allocator.machine, j.demand)
              then rec.queue + [s] else rec.queue
  {
    assert after[i] == Offer(before[i], j, s);
  }

  /** A machine that the job would be meant for raises an error about it. */
  ghost predicate SomeoneRaises(machines: seq<MachineRec>, machineName: Option<string>, wanted: set<string>, d: Demand) {
    exists i :: 0 <= i < |machines| && Raises(machines[i].allocator.machine, d)
                && MeantFor(machineName, wanted, machines[i].name, machines[i].tags)
  }

  /**
   * What a new job asks for is what it was created with; without a machine or tags, the tag "default". It is refused for
   * a used identifier or for naming both, and is an error if a machine it is meant for raises one.
   */
  lemma CreatedAsAsked(q: Q, id: int, machineName: Option<string>, tags: Option<set<string>>, d: Demand)
    ensures var j := NewJob(id, machineName, tags, d);
            && j.id == id && j.pending && j.machineName == machineName && j.demand == d && j.machine == None
            && (machineName.None? ==> j.tags == if tags.Some? then tags.value else {"default"})
    ensures var wanted := if tags.Some? then tags.value else {"default"};
            CreationFor(q, id, machineName, tags, d) ==
              if exists s :: s in q.jobs && s in q.all && q.all[s].id == id then DuplicateId
              else if machineName.Some? && tags.Some? then MachineAndTags
              else if q.postpone == 0 && SomeoneRaises(q.machines, machineName, wanted, d) then ValueError
              else Accepted
  {
    var j := NewJob(id, machineName, tags, d);
    if s :| s in q.jobs && s in q.all && q.all[s].id == id {
      var k := PositionOf(q, s);
      assert HasJob(q, id);
    }
    if HasJob(q, id) {
      var k :| 0 <= k < |q.jobs| && q.jobs[k] in q.all && q.all[q.jobs[k]].id == id;
      assert q.jobs[k] in q.jobs;
    }
    var wanted := if tags.Some? then tags.value else {"default"};
    assert forall i :: 0 <= i < |q.machines| ==>
             (Matches(j, q.machines[i]) <==> MeantFor(machineName, wanted, q.machines[i].name, q.machines[i].tags));
  }

  /** In particular jobs with the same needs that are not stranded are served first come, first served, wherever that is. */
  lemma EqualNeedsInOrder(q: Q, k: nat, s: Serial) returns (l: nat)
    requires Orderly(q) && k < |q.log| && q.log[k].OnAllocate? && q.log[k].serial in q.all
    requires s in q.all && s < q.log[k].serial && SameNeeds(q.all[s], q.all[q.log[k].serial])
    ensures (l < k && q.log[l].Decides(s)) || s in q.log[k].stranded
  {
    StartsCandidates(q, k);
    l := NoOvertaking(q, k, s);
  }

  /** Of the jobs that wait for a machine, its queue misses exactly those that are stranded. */
  lemma MissingExactly(q: Q, i: nat, bound: nat, t: Serial)
    requires QueuesOk(q, bound) && i < |q.machines| && t in q.jobs && t < bound && Waits(q, i, t)
    ensures t !in q.machines[i].queue <==> t in q.stranded
  {
    assert QueueOk(q.machines[i], q.all, q.jobs, bound, q.stranded);
  }

  /** Starting the head of machine i's queue would overtake job t, which waits for the machine as well. */
  ghost predicate Overtakes(q: Q, i: nat, t: Serial) {
    && i < |q.machines| && q.machines[i].queue != []
    && t in q.jobs && Waits(q, i, t) && t < q.machines[i].queue[0]
  }

  /**
   * Exactly when somebody is overtaken: the head of a queue is started ahead of a job created earlier if and only if
   * that job is stranded, and so missing from the queue.
   */
  lemma OvertakesExactly(q: Q, i: nat, bound: nat, t: Serial)
    requires QueuesOk(q, bound) && i < |q.machines| && q.machines[i].queue != []
    requires t in q.jobs && t in q.all && Waits(q, i, t)
    ensures Overtakes(q, i, t) <==> t in q.stranded && t < q.machines[i].queue[0]
    ensures Overtakes(q, i, t) ==> t !in q.machines[i].queue
    ensures q.stranded == {} ==> !Overtakes(q, i, t)
  {
    var rec := q.machines[i];
    assert QueueOk(rec, q.all, q.jobs, bound, q.stranded);
    assert rec.queue[0] in rec.queue;
    if t < rec.queue[0] && t !in q.stranded {
      HeadIsFirst(rec, q.all, q.jobs, bound, q.stranded, t);
    }
  }

  /**
   * After a rebuilding that broke off, the queue of a machine misses exactly those jobs that wait for it and were
   * created after the one at which it broke off.
   */
  lemma MissingAfterBreak(q0: Q, q: Q, k: nat, i: nat, t: Serial)
    requires BrokenOffAt(q0, q, k) && i < |q.machines| && t in q.jobs && Waits(q, i, t)
    ensures t !in q.machines[i].queue <==> q0.jobs[k] < t
  {
    Open(q);
    MissingExactly(q, i, q.nextSerial, t);
  }

  // ----- rebuilding that breaks off

  /**
   * The rebuilding of the queues can fail: two jobs created while queue management was suspended, for a machine
   * that is not there. The first is cancelled, and the loop over the dictionary cannot go on to the second.
   */
  lemma RebuildCanBreakOff() returns (q: Q)
    ensures Base(q) && q.postpone == 0 && q.machines == [] && |q.jobs| == 2 && Interrupts(q, 0) && BreaksOff(q)
  {
    var d := Demand(AnyBoard, Limits(None, None, false));
    NewQueueHolds();
    PostponeKeepsBase(NewQueue(), 1);
    var q0 := NewQueue().(postpone := 1);
    var q1 := Create(q0, NewJob(1, Some("m"), None, d));
    CreateKeepsBase(q0, NewJob(1, Some("m"), None, d));
    CreateKeepsBase(q1, NewJob(2, Some("m"), None, d));
    var q2 := Create(q1, NewJob(2, Some("m"), None, d));
    PostponeKeepsBase(q2, 0);
    q := q2.(postpone := 0);
    assert q.jobs == [0, 1];
    assert Interrupts(q, 0);
  }

  /** A job about which a machine raises an error breaks off every rebuilding for as long as it and the machine stay. */
  lemma ErrorStays(q: Q, q': Q, s: Serial)
    requires Base(q) && Base(q') && Evolves(q, q')
    requires s in q.all && q.all[s].pending && Balks(q.machines, q.all[s], |q.machines|)
    ensures s in q'.all && q'.all[s] == q.all[s] && BreaksOff(q')
  {
    Open(q');
    BalksNowhere(q.machines, q.all[s], |q.machines|);
    assert Moved(q.machines, q.all[s], q'.all[s]);
    CandidatesByHost(q.machines, q'.machines, q.all[s]);
    var k := PositionOf(q', s);
    assert Interrupts(q', k);
  }

  /** Asking for a torus of one board gives such a job: the error is raised after the job has been entered. */
  lemma TorusOfOneBoardStays(a: Allocator) returns (q: Q)
    requires a.machine.Positive()
    ensures Base(q) && q.machines == [MachineRec("m", {}, a, [])] && q.jobs == [0] && 0 in q.all && q.all[0].pending
    ensures Balks(q.machines, q.all[0], 1) && BreaksOff(q)
  {
    q := OneJobOneMachine(a, Demand(AnyBoard, Limits(None, None, true)));
    assert Matches(q.all[0], q.machines[0]);
    EvolvesReflexive(q);
    ErrorStays(q, q, 0);
  }

  // ----- callbacks

  /** A job is told of its allocation or its cancellation never while it waits, and exactly once afterwards. */
  lemma ToldOnce(q: Q, s: Serial)
    requires Base(q) && s in q.all
    ensures q.all[s].pending ==> forall k :: 0 <= k < |q.log| ==> !q.log[k].Decides(s)
    ensures !q.all[s].pending ==> exists k :: 0 <= k < |q.log| && q.log[k].Decides(s)
    ensures forall k, l :: 0 <= k < |q.log| && 0 <= l < |q.log| && q.log[k].Decides(s) && q.log[l].Decides(s) ==> k == l
  {
    Open(q);
    assert q.all[s].pending <==> !Decided(q.log, s);
  }

  // ----- jobs and allocations

  /** Job s runs on machine i under this allocation identifier. */
  predicate Tenant(q: Q, i: nat, s: Serial, id: int)
    requires i < |q.machines|
  {
    s in q.jobs && s in q.all && RunsOn(q.all[s], q.machines[i].name) && q.all[s].allocationId == id
  }

  /** Every live allocation of a machine belongs to exactly one job, and every allocated job has one. */
  lemma OneJobPerAllocation(q: Q, i: nat)
    requires Base(q) && i < |q.machines|
    ensures |q.views| == |q.machines|
    ensures forall id :: id in q.views[i].live <==> exists s :: Tenant(q, i, s, id)
    ensures forall id, s, t :: Tenant(q, i, s, id) && Tenant(q, i, t, id) ==> s == t
  {
    Open(q);
    assert Owners(Hosts(q.machines)[i].name, q.views[i].live, q.all, q.jobs);
    forall id | id in q.views[i].live
      ensures exists s :: Tenant(q, i, s, id)
    {
      assert Owned(q.machines[i].name, id, q.all, q.jobs);
      var s :| s in q.jobs && s in q.all && RunsOn(q.all[s], q.machines[i].name) && q.all[s].allocationId == id;
      assert Tenant(q, i, s, id);
    }
  }

  /** The boards held under an allocation identifier. */
  function HeldUnder(v: State, id: int): set<Board> {
    if id in v.live && v.live[id] in v.ledger then v.ledger[v.live[id]].boards else {}
  }

  /** The boards held for a job on machine i. */
  function BoardsFor(q: Q, s: Serial, i: nat): set<Board> {
    if s in q.all && i < |q.views| then HeldUnder(q.views[i], q.all[s].allocationId) else {}
  }

  /** Two jobs allocated on the same machine hold boards, and share none; all their boards work and are the machine's. */
  lemma JobsShareNoBoards(q: Q, s: Serial, t: Serial, i: nat)
    requires Base(q) && i < |q.machines| && s != t
    requires s in q.all && Tenant(q, i, s, q.all[s].allocationId)
    requires t in q.all && Tenant(q, i, t, q.all[t].allocationId)
    ensures BoardsFor(q, s, i) != {} && BoardsFor(q, s, i) !! BoardsFor(q, t, i)
    ensures forall b :: b in BoardsFor(q, s, i) ==>
              var m := q.machines[i].allocator.machine; InMachine(b, m.width, m.height) && b !in m.deadBoards
  {
    AllocatorGood(q, i);
    OneJobPerAllocation(q, i);
    var m, v := q.machines[i].allocator.machine, q.views[i];
    var id, other := q.all[s].allocationId, q.all[t].allocationId;
    assert id in v.live && other in v.live && id != other;
    LiveApart(m, v, id, other);
    assert BoardsFor(q, s, i) == v.ledger[v.live[id]].boards && BoardsFor(q, t, i) == v.ledger[v.live[other]].boards;
    GripRect(m, v, v.live[id]);
    forall b | b in BoardsFor(q, s, i)
      ensures InMachine(b, m.width, m.height) && b !in m.deadBoards
    {
      GrantsInMachine(m, v, v.live[id], b);
    }
  }

  lemma LiveApart(m: Machine, v: State, id: int, other: int)
    requires Inv(m, v) && id in v.live && other in v.live && id != other
    ensures v.live[id] in v.ledger && v.live[other] in v.ledger
    ensures v.ledger[v.live[id]].boards !! v.ledger[v.live[other]].boards
  {
    assert ClaimsOk(v);
    GrantsDisjoint(m, v, v.live[id], v.live[other]);
  }

  /** A job that runs on machine i keeps its boards while quarantines are checked and others are allocated. */
  lemma TenantKeepsBoards(q: Q, i: nat, t: Serial, v: State)
    requires Base(q) && i < |q.machines| && t in q.all && Tenant(q, i, t, q.all[t].allocationId)
    requires forall id :: id in q.views[i].live ==> id in v.live && v.live[id] == q.views[i].live[id]
    requires forall id :: id in q.views[i].live ==>
               var h := q.views[i].live[id]; h in q.views[i].ledger ==> h in v.ledger && v.ledger[h] == q.views[i].ledger[h]
    ensures BoardsFor(q.(views := q.views[i := v]), t, i) == BoardsFor(q, t, i)
    ensures q.all[t].allocationId in v.live && q.all[t].allocationId in q.views[i].live
  {
    AllocatorGood(q, i);
    OneJobPerAllocation(q, i);
    assert ClaimsOk(q.views[i]);
  }

  /** Checking the quarantine and allocating leave every live holding as it was. */
  lemma LiveHoldingsStay(m: Machine, secondsBeforeFree: int, now: int, v0: State, d: Demand, v: State, a: Allocation)
    requires Inv(m, v0) && d.request.Sensible() && Outcome(m, CheckFree(m, secondsBeforeFree, v0, now), d, v, Some(a))
    ensures Inv(m, v) && a.id in v.live && a.id !in v0.live && v.live[a.id] in v.ledger
    ensures v.ledger[v.live[a.id]].boards == a.boards
    ensures forall id :: id in v0.live ==>
              && id in v.live && v.live[id] == v0.live[id]
              && v0.live[id] in v0.ledger && v0.live[id] in v.ledger && v.ledger[v0.live[id]] == v0.ledger[v0.live[id]]
  {
    var v1 := CheckFree(m, secondsBeforeFree, v0, now);
    CheckFreeKeeps(m, secondsBeforeFree, v0, now);
    var n := CheckFreeDrops(m, secondsBeforeFree, v0, now);
    OutcomeKeeps(m, v1, d, v, Some(a));
    assert ClaimsOk(v0) && ClaimsOk(v1);
  }

  /** Whatever an attempt comes to, the other jobs on the machine keep their boards. */
  lemma OthersKeepBoards(q: Q, i: nat, s: Serial, now: int, v: State, r: Option<Allocation>, id: int)
    requires Base(q) && Gives(q, i, s, now, v, r) && id in q.views[i].live
    ensures HeldUnder(v, id) == HeldUnder(q.views[i], id)
  {
    AllocatorGood(q, i);
    CandidateSensible(q.all[s], q.machines[i]);
    var m := q.machines[i].allocator.machine;
    CheckKeepsBoards(q, i, now, id);
    var v0 := CheckedView(q, i, now);
    OutcomeKeeps(m, v0, q.all[s].demand, v, r);
    assert ClaimsOk(v0);
  }

  lemma CheckKeepsBoards(q: Q, i: nat, now: int, id: int)
    requires Base(q) && i < |q.machines| == |q.views| && id in q.views[i].live
    ensures Inv(q.machines[i].allocator.machine, CheckedView(q, i, now))
    ensures id in CheckedView(q, i, now).live && HeldUnder(CheckedView(q, i, now), id) == HeldUnder(q.views[i], id)
  {
    AllocatorGood(q, i);
    var a := q.machines[i].allocator;
    CheckFreeKeeps(a.machine, a.secondsBeforeFree, q.views[i], now);
    var n := CheckFreeDrops(a.machine, a.secondsBeforeFree, q.views[i], now);
    assert ClaimsOk(q.views[i]) && ClaimsOk(CheckedView(q, i, now));
  }

  /**
   * What the owner of the queue is told: a job that starts is given boards, all of them, and no job that runs on
   * the same machine holds any of those; the others' boards stay as they are. It does not matter who else waits.
   */
  lemma StartGivesFreeBoards(q: Q, i: nat, s: Serial, now: int, v: State, a: Allocation, t: Serial)
    requires Base(q) && Gives(q, i, s, now, v, Some(a))
    requires t in q.all && Tenant(q, i, t, q.all[t].allocationId)
    ensures var q' := Start(q, i, s, v, a);
            && Base(q') && q'.log == q.log + [OnAllocate(s, HostOf(q.machines[i]), a, q.stranded)]
            && BoardsFor(q', s, i) == a.boards && a.boards != {}
            && BoardsFor(q', t, i) == BoardsFor(q, t, i) && BoardsFor(q, t, i) !! a.boards
  {
    Open(q);
    var q' := Start(q, i, s, v, a);
    AllocatorGood(q, i);
    CandidateSensible(q.all[s], q.machines[i]);
    LiveHoldingsStay(
      q.machines[i].allocator.machine, q.machines[i].allocator.secondsBeforeFree, now, q.views[i], q.all[s].demand, v, a);
    TenantKeepsBoards(q, i, t, v);
    AfterAttempt(q, i, s, now, v, Some(a));
    JobsShareNoBoards(q', s, t, i);
  }

  // ----- running jobs while queues are processed or rebuilt

  lemma EventKeepsBase(q: Q, e: Event)
    requires Base(q) && Happens(q, e)
    ensures Base(After(q, e)) && Hosts(After(q, e).machines) == Hosts(q.machines)
  {
    match e
    case Tried(i, s, now, v, r) => AfterAttempt(q, i, s, now, v, r);
    case GivenUp(k) => CancelKeepsBase(q, k);
    case Requeued(queues, _) =>
      Open(q);
      Close(After(q, e));
  }

  lemma SameName(q: Q, q': Q, i: nat)
    requires Hosts(q.machines) == Hosts(q'.machines) && i < |q.machines|
    ensures |q.machines| == |q'.machines| && q.machines[i].name == q'.machines[i].name
  {
    assert |q.machines| == |Hosts(q.machines)| == |q'.machines|;
    assert Hosts(q.machines)[i] == Hosts(q'.machines)[i];
  }

  lemma EventKeepsTenant(q: Q, e: Event, i: nat, t: Serial)
    requires Base(q) && Happens(q, e) && i < |q.machines|
    requires t in q.all && Tenant(q, i, t, q.all[t].allocationId)
    ensures var q' := After(q, e);
            && i < |q'.machines| && t in q'.all && q'.all[t] == q.all[t] && Tenant(q', i, t, q.all[t].allocationId)
            && BoardsFor(q', t, i) == BoardsFor(q, t, i)
  {
    EventKeepsBase(q, e);
    SameName(q, After(q, e), i);
    OneJobPerAllocation(q, i);
    match e
    case Tried(j, s, now, v, r) =>
      if j == i {
        OthersKeepBoards(q, i, s, now, v, r, q.all[t].allocationId);
      }
    case GivenUp(k) =>
      Open(q);
      RemoveExact(q.jobs, k);
    case Requeued(_, _) =>
  }

  /** However the queues are processed or rebuilt, and whether or not that breaks off, running jobs keep their boards. */
  lemma {:induction false} TenantsStay(q: Q, events: seq<Event>, q': Q, i: nat, t: Serial)
    requires Base(q) && Leads(q, events, q') && i < |q.machines|
    requires t in q.all && Tenant(q, i, t, q.all[t].allocationId)
    ensures Base(q') && Hosts(q'.machines) == Hosts(q.machines)
    ensures i < |q'.machines| && t in q'.all && q'.all[t] == q.all[t] && Tenant(q', i, t, q.all[t].allocationId)
    ensures BoardsFor(q', t, i) == BoardsFor(q, t, i)
    decreases |events|
  {
    if events != [] {
      EventKeepsBase(q, events[0]);
      EventKeepsTenant(q, events[0], i, t);
      TenantsStay(After(q, events[0]), events[1..], q', i, t);
    }
  }

  // ----- a job is overtaken

  /** The one machine with all its boards working, named m. */
  const TRIAD := Machine(1, 1, {}, {})

  function AskFor(id: int, name: string): Job {
    NewJob(id, Some(name), None, Demand(AnyBoard, Limits(None, None, false)))
  }

  /** A machine m and, created while queue management was suspended, one job for a machine that has gone and one for m. */
  lemma TwoWaiting(a: Allocator) returns (q: Q)
    requires a.machine == TRIAD
    ensures Orderly(q) && q == Q([MachineRec("m", {}, a, [])], [Initial(TRIAD, 1)],
              map[0 := AskFor(1, "gone"), 1 := AskFor(2, "m")], [0, 1], 2, 0, [], {})
  {
    var rec, v := MachineRec("m", {}, a, []), Initial(TRIAD, 1);
    NewQueueHolds();
    InitialHolds(TRIAD, 1);
    AddMachineKeepsBase(NewQueue(), rec, v);
    var q0 := AddMachine(NewQueue(), rec, v);
    CreateKeepsBase(q0, AskFor(1, "gone"));
    CreateKeepsOrder(q0, AskFor(1, "gone"));
    var q1 := Create(q0, AskFor(1, "gone"));
    CreateKeepsBase(q1, AskFor(2, "m"));
    CreateKeepsOrder(q1, AskFor(2, "m"));
    q := Create(q1, AskFor(2, "m"));
    assert q.all == map[0 := AskFor(1, "gone"), 1 := AskFor(2, "m")];
  }

  /** Cancelling a job for want of machines, whoever is then stranded. */
  lemma CancelEvolves(q: Q, k: nat, stranded: set<Serial>)
    requires Orderly(q) && Happens(q, GivenUp(k))
    ensures Orderly(Cancel(q, k).(stranded := stranded)) && Evolves(q, Cancel(q, k).(stranded := stranded))
  {
    var q1, q' := Cancel(q, k), Cancel(q, k).(stranded := stranded);
    CancelKeepsBase(q, k);
    CancelKeepsOrder(q, k);
    Open(q);
    Open(q1);
    Close(q');
    CourseOfOne(q, GivenUp(k));
    CourseOfRequeue(q1, q');
    CourseGoesOn(q, q1, q');
    RemoveExact(q.jobs, k);
    assert forall s :: s in q.all ==> Moved(q.machines, q.all[s], q'.all[s]);
  }

  /** The rebuilding cancels the first job, and breaks off; the second is left out of the queue of m. */
  lemma SecondIsStranded(a: Allocator, q0: Q) returns (q: Q)
    requires a.machine == TRIAD && Orderly(q0) && q0.machines == [MachineRec("m", {}, a, [])]
    requires q0.jobs == [0, 1] && q0.all == map[0 := AskFor(1, "gone"), 1 := AskFor(2, "m")]
    requires q0.nextSerial == 2 && q0.postpone == 0 && q0.stranded == {}
    ensures BreaksOff(q0) && BrokenOffAt(q0, q, 0) && q == Cancel(q0, 0).(stranded := {1}) && q.jobs == [1]
  {
    assert Interrupts(q0, 0);
    CancelEvolves(q0, 0, {1});
    q := Cancel(q0, 0).(stranded := {1});
    OnlySecondLeft(q);
  }

  lemma OnlySecondLeft(q: Q)
    requires q.jobs == [1] && 1 in q.all && q.all[1].pending && q.stranded == {1} && q.nextSerial == 2
    requires |q.machines| == 1 && q.machines[0].queue == []
    ensures LeftOut(q, 0) == {1} && QueuesOk(q, 2)
  {
    assert QueueOk(q.machines[0], q.all, q.jobs, 2, q.stranded);
  }

  /** A third job, also for m, is created and queued, ahead of the second. */
  lemma ThirdIsQueued(a: Allocator, q: Q) returns (q': Q)
    requires a.machine == TRIAD && Orderly(q) && QueuesOk(q, 2) && q.machines == [MachineRec("m", {}, a, [])]
    requires q.jobs == [1] && q.all.Keys == {0, 1} && q.all[1] == AskFor(2, "m")
    requires q.nextSerial == 2 && q.postpone == 0 && q.stranded == {1}
    ensures q' == Create(q, AskFor(3, "m")).(machines := [MachineRec("m", {}, a, [2])])
    ensures Orderly(q') && QueuesOk(q', 3) && Waits(q', 0, 1) && Waits(q', 0, 2)
  {
    var q1 := Create(q, AskFor(3, "m"));
    CreateKeepsBase(q, AskFor(3, "m"));
    CreateKeepsOrder(q, AskFor(3, "m"));
    CreateKeepsQueues(q, AskFor(3, "m"));
    q' := q1.(machines := [MachineRec("m", {}, a, [2])]);
    assert |TRIAD.deadBoards| == 0;
    assert OfferedTo(q1.machines, q'.machines, q1.all[2], 2, 1);
    OfferedKeeps(q1, q'.machines, 2);
  }

  /** The third job starts, while the second, created before it with the same needs, waits. */
  lemma ThirdOvertakes(a: Allocator, q: Q, now: int) returns (v: State, r: Allocation)
    requires a.machine == TRIAD && Orderly(q) && QueuesOk(q, 3) && q.machines == [MachineRec("m", {}, a, [2])]
    requires q.views == [Initial(TRIAD, 1)] && q.jobs == [1, 2] && q.stranded == {1}
    requires Waits(q, 0, 1) && Waits(q, 0, 2) && q.all[2] == AskFor(3, "m")
    ensures Happens(q, Tried(0, 2, now, v, Some(r))) && Orderly(Start(q, 0, 2, v, r))
    ensures Overtakes(q, 0, 1)
  {
    AllocatorGood(q, 0);
    CheckFreeQuiet(TRIAD, a.secondsBeforeFree, q.views[0], now);
    assert Board(0, 0, 0) !in TRIAD.deadBoards;
    assert 0 in Working(TRIAD.deadBoards, 0, 0);
    var v', r' := OutcomeExists(TRIAD, q.views[0], q.all[2].demand);
    AnyBoardSucceeds(TRIAD, q.views[0], q.all[2].demand, v', r');
    v, r := v', r'.value;
    AfterAttempt(q, 0, 2, now, v, Some(r));
    HeadReady(q, 0, 3);
    StartKeepsOrder(q, 0, 2, v, r);
    assert 1 == q.jobs[0];
  }

  /**
   * Overtaking is real. Two jobs wait, one for a machine that has gone and one for m. The rebuilding of the queues
   * cancels the first and breaks off. A third job with the needs of the second is created and started at once; the
   * second waits on.
   */
  lemma OvertakingHappens(a: Allocator, now: int) returns (q0: Q, q1: Q, q2: Q, q3: Q)
    requires a.machine == TRIAD
    ensures Orderly(q0) && q0.postpone == 0 && BreaksOff(q0) && BrokenOffAt(q0, q1, 0)
    ensures q2 == Create(q1, AskFor(3, "m")).(machines := [MachineRec("m", {}, a, [2])]) && QueuesOk(q2, 3)
    ensures Course(q2, q3) && Orderly(q3) && Overtakes(q2, 0, 1)
    ensures 1 in q3.jobs && 1 in q3.all && 2 in q3.all && SameNeeds(q3.all[1], q3.all[2])
    ensures q3.all[1].pending && RunsOn(q3.all[2], "m") && q3.log != []
    ensures var last := q3.log[|q3.log| - 1]; last.OnAllocate? && last.serial == 2 && last.stranded == {1}
  {
    q0 := TwoWaiting(a);
    q1 := SecondIsStranded(a, q0);
    q2 := ThirdIsQueued(a, q1);
    var v, r := ThirdOvertakes(a, q2, now);
    q3 := Start(q2, 0, 2, v, r);
    CourseOfOne(q2, Tried(0, 2, now, v, Some(r)));
    assert 1 == q3.jobs[0];
  }
}
