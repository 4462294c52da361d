/**
 * The controller and its job queue together. The queue announces allocations, cancellations and withdrawals to
 * the controller, and the controller gives boards back to the queue; the two always agree on who has which boards,
 * and so the queue never gives away a board on which some command is still to be carried out.
 */
module ServerTheorems {
  import opened Wrappers
  import opened Coordinates
  import opened CandidateFilter
  import opened AllocatorModel
  import opened AllocatorTheorems
  import opened JobQueueModel
  import opened JobQueueTheorems
  import Control = ControllerModel
  import Runs = ControllerTheorems

  type Given = map<int, Option<Control.Grant>>

  // ----- agreement

  /** The controller takes job s for what it is: waiting, or allocated with the boards that are held for it. */
  ghost predicate Agrees(q: Q, s: Serial, given: Given)
    requires s in q.all
  {
    var j := q.all[s];
    j.id in given
    && match given[j.id]
       case None => j.pending
       case Some(g) =>
         && !j.pending && j.machine == Some(g.machine)
         && forall i {:trigger BoardsFor(q, s, i)} ::
              0 <= i < |q.machines| && q.machines[i].name == g.machine ==>
                g.boards == BoardsFor(q, s, i) && Enclosed(q.machines[i].allocator.machine, g)
  }

  /** Every link that leads from the boards to others is among those around the job. */
  ghost predicate Enclosed(m: Machine, g: Control.Grant) {
    m.Positive() && forall p: Port :: p.0 in g.boards && 0 <= p.0.z < 3 && FarEnd(m, p).0 !in g.boards ==> p in g.periphery
  }

  /** The controller believes of the same jobs as the queue that the queue knows them, and knows their boards. */
  ghost predicate Tied(q: Q, given: Given) {
    && (forall s {:trigger Agrees(q, s, given)} :: s in q.jobs && s in q.all ==> Agrees(q, s, given))
    && (forall id {:trigger HasJob(q, id)} :: id in given ==> HasJob(q, id))
  }

  /** Job s and the boards held for it are the same in both states. */
  ghost predicate Untouched(q: Q, q': Q, s: Serial)
    requires s in q.all
  {
    && s in q'.all && q'.all[s] == q.all[s]
    && forall i {:trigger BoardsFor(q', s, i)} :: 0 <= i < |q'.machines| && RunsOn(q.all[s], q'.machines[i].name) ==>
         && i < |q.machines| && q.machines[i].name == q'.machines[i].name
         && q.machines[i].allocator == q'.machines[i].allocator
         && BoardsFor(q', s, i) == BoardsFor(q, s, i)
  }

  lemma StillAgrees(q: Q, q': Q, s: Serial, given: Given, given': Given)
    requires s in q.all && Agrees(q, s, given) && Untouched(q, q', s)
    requires q.all[s].id in given' && given'[q.all[s].id] == given[q.all[s].id]
    ensures Agrees(q', s, given')
  {
  }

  /** A step of the queue that makes and ends no job keeps the agreement. */
  lemma QuietKeepsTied(q: Q, q': Q, given: Given)
    requires Base(q) && Tied(q, given) && q'.jobs == q.jobs
    requires forall s :: s in q.jobs && s in q.all ==> Untouched(q, q', s)
    ensures Tied(q', given)
  {
    Open(q);
    forall s | s in q'.jobs && s in q'.all
      ensures Agrees(q', s, given)
    {
      assert Agrees(q, s, given) && Untouched(q, q', s);
      StillAgrees(q, q', s, given, given);
    }
    forall id | id in given
      ensures HasJob(q', id)
    {
      var k := JobOf(q, given, id);
      assert Untouched(q, q', q.jobs[k]);
      assert IsJob(q', k, id);
    }
  }

  /** Where the job is that the controller knows by this identifier. */
  lemma JobOf(q: Q, given: Given, id: int) returns (k: nat)
    requires Tied(q, given) && id in given
    ensures IsJob(q, k, id) && Agrees(q, q.jobs[k], given)
  {
    assert HasJob(q, id);
    k :| 0 <= k < |q.jobs| && q.jobs[k] in q.all && q.all[q.jobs[k]].id == id;
    assert Agrees(q, q.jobs[k], given);
  }

  /** The controller knows no other job under the same identifier. */
  lemma OtherId(q: Q, s: Serial, t: Serial)
    requires Base(q) && s in q.jobs && t in q.jobs && s != t
    ensures s in q.all && t in q.all && q.all[s].id != q.all[t].id
  {
    Open(q);
  }

  /** A job that the queue forgets, and the controller too, leaves the rest in agreement. */
  lemma LossKeepsTied(q: Q, q': Q, given: Given, k: nat)
    requires Base(q) && Tied(q, given) && k < |q.jobs| && q.jobs[k] in q.all && q'.jobs == Remove(q.jobs, k)
    requires forall s :: s in q.jobs && s in q.all && s != q.jobs[k] ==> Untouched(q, q', s)
    ensures Tied(q', given - {q.all[q.jobs[k]].id})
  {
    Open(q);
    RemoveExact(q.jobs, k);
    var given' := given - {q.all[q.jobs[k]].id};
    forall s | s in q'.jobs && s in q'.all
      ensures Agrees(q', s, given')
    {
      OtherId(q, s, q.jobs[k]);
      assert Agrees(q, s, given) && Untouched(q, q', s);
      StillAgrees(q, q', s, given, given');
    }
    forall id | id in given'
      ensures HasJob(q', id)
    {
      var l := JobOf(q, given, id);
      assert Untouched(q, q', q.jobs[l]);
      var m := PositionOf(q', q.jobs[l]);
      assert IsJob(q', m, id);
    }
  }

  lemma CreateKeepsTied(q: Q, given: Given, j: Job)
    requires Base(q) && Tied(q, given) && j.pending && j.id !in given
    ensures Tied(JobQueueModel.Create(q, j), given[j.id := None])
  {
    Open(q);
    var q', given' := JobQueueModel.Create(q, j), given[j.id := None];
    forall s | s in q'.jobs && s in q'.all
      ensures Agrees(q', s, given')
    {
      if s != q.nextSerial {
        assert Agrees(q, s, given) && Untouched(q, q', s);
        StillAgrees(q, q', s, given, given');
      }
    }
    forall id | id in given'
      ensures HasJob(q', id)
    {
      if id == j.id {
        assert IsJob(q', |q.jobs|, id);
      } else {
        var k := JobOf(q, given, id);
        assert IsJob(q', k, id);
      }
    }
  }

  // ----- allocation

  /** What the controller is told of an allocation. */
  function GrantFor(name: string, a: Allocation): Control.Grant {
    Control.Grant(name, a.boards, a.periphery)
  }

  /** A job that runs on a machine has its allocation there. */
  lemma RunsUnder(q: Q, s: Serial, i: nat)
    requires Base(q) && s in q.jobs && s in q.all && i < |q.machines| && RunsOn(q.all[s], q.machines[i].name)
    ensures i < |q.views| && q.all[s].allocationId in q.views[i].live
  {
    assert Tenant(q, i, s, q.all[s].allocationId);
    OneJobPerAllocation(q, i);
  }

  /** New states of the allocators that leave every live allocation as it was leave the jobs as they were. */
  lemma ViewChangeTouchesNobody(q: Q, q': Q, i: nat, v: State, s: Serial)
    requires Base(q) && i < |q.machines| == |q.views| && s in q.jobs && s in q.all
    requires q'.machines == q.machines && q'.views == q.views[i := v] && s in q'.all && q'.all[s] == q.all[s]
    requires var id := q.all[s].allocationId; id in q.views[i].live ==> HeldUnder(v, id) == HeldUnder(q.views[i], id)
    ensures Untouched(q, q', s)
  {
    forall k | 0 <= k < |q'.machines| && RunsOn(q.all[s], q'.machines[k].name)
      ensures BoardsFor(q', s, k) == BoardsFor(q, s, k)
    {
      RunsUnder(q, s, k);
    }
  }

  lemma RefusalKeepsTied(q: Q, given: Given, i: nat, s: Serial, now: int, v: State)
    requires Base(q) && Tied(q, given) && Gives(q, i, s, now, v, None)
    ensures Tied(q.(views := q.views[i := v]), given)
  {
    var q' := q.(views := q.views[i := v]);
    forall t | t in q.jobs && t in q.all
      ensures Untouched(q, q', t)
    {
      if q.all[t].allocationId in q.views[i].live {
        OthersKeepBoards(q, i, s, now, v, None, q.all[t].allocationId);
      }
      ViewChangeTouchesNobody(q, q', i, v, t);
    }
    QuietKeepsTied(q, q', given);
  }

  lemma CheckKeepsTied(q: Q, given: Given, i: nat, now: int)
    requires Base(q) && Tied(q, given) && i < |q.machines| == |q.views|
    ensures Tied(q.(views := q.views[i := CheckedView(q, i, now)]), given)
  {
    var v := CheckedView(q, i, now);
    var q' := q.(views := q.views[i := v]);
    forall t | t in q.jobs && t in q.all
      ensures Untouched(q, q', t)
    {
      if q.all[t].allocationId in q.views[i].live {
        CheckKeepsBoards(q, i, now, q.all[t].allocationId);
      }
      ViewChangeTouchesNobody(q, q', i, v, t);
    }
    QuietKeepsTied(q, q', given);
  }

  /** The job that starts is held the boards announced. */
  lemma StartedHolds(q: Q, i: nat, s: Serial, now: int, v: State, a: Allocation)
    requires Base(q) && Gives(q, i, s, now, v, Some(a))
    ensures Base(JobQueueModel.Start(q, i, s, v, a)) && HeldUnder(v, a.id) == a.boards && a.id !in q.views[i].live
  {
    AllocatorGood(q, i);
    CandidateSensible(q.all[s], q.machines[i]);
    var alloc := q.machines[i].allocator;
    LiveHoldingsStay(alloc.machine, alloc.secondsBeforeFree, now, q.views[i], q.all[s].demand, v, a);
    AfterAttempt(q, i, s, now, v, Some(a));
  }

  lemma StartKeepsTied(q: Q, given: Given, i: nat, s: Serial, now: int, v: State, a: Allocation)
    requires Base(q) && Tied(q, given) && Gives(q, i, s, now, v, Some(a))
    ensures Tied(JobQueueModel.Start(q, i, s, v, a), given[q.all[s].id := Some(GrantFor(q.machines[i].name, a))])
  {
    Open(q);
    var q', given' := JobQueueModel.Start(q, i, s, v, a), given[q.all[s].id := Some(GrantFor(q.machines[i].name, a))];
    StartedHolds(q, i, s, now, v, a);
    forall t | t in q'.jobs && t in q'.all
      ensures Agrees(q', t, given')
    {
      if t == s {
        StarterEnclosed(q, i, s, now, v, a);
        StarterAgrees(q, i, s, v, a, given');
      } else {
        if q.all[t].allocationId in q.views[i].live {
          OthersKeepBoards(q, i, s, now, v, Some(a), q.all[t].allocationId);
        }
        OtherId(q, s, t);
        ViewChangeTouchesNobody(q, q', i, v, t);
        assert Agrees(q, t, given);
        StillAgrees(q, q', t, given, given');
      }
    }
    StartKeepsIds(q, given, i, s, v, a);
  }

  lemma StarterEnclosed(q: Q, i: nat, s: Serial, now: int, v: State, a: Allocation)
    requires Base(q) && Gives(q, i, s, now, v, Some(a))
    ensures Enclosed(q.machines[i].allocator.machine, GrantFor(q.machines[i].name, a))
  {
    var m, d, v0 := q.machines[i].allocator.machine, q.all[s].demand, CheckedView(q, i, now);
    AllocatorGood(q, i);
    CandidateSensible(q.all[s], q.machines[i]);
    CheckFreeQuiet(m, q.machines[i].allocator.secondsBeforeFree, q.views[i], now);
    if d.request.ForOneBoard() {
      var b := SingleBoardGrant(m, v0, d, v, a);
    } else {
      GrantMatchesRectangle(m, v0, d, v, a);
    }
  }

  lemma StarterAgrees(q: Q, i: nat, s: Serial, v: State, a: Allocation, given: Given)
    requires Base(q) && i < |q.machines| == |q.views| && s in q.all && HeldUnder(v, a.id) == a.boards
    requires Enclosed(q.machines[i].allocator.machine, GrantFor(q.machines[i].name, a))
    requires q.all[s].id in given && given[q.all[s].id] == Some(GrantFor(q.machines[i].name, a))
    ensures Agrees(JobQueueModel.Start(q, i, s, v, a), s, given)
  {
    forall k | 0 <= k < |q.machines| && q.machines[k].name == q.machines[i].name
      ensures k == i
    {
      NameIsUnique(q, i, k);
    }
  }

  lemma StartKeepsIds(q: Q, given: Given, i: nat, s: Serial, v: State, a: Allocation)
    requires Tied(q, given) && i < |q.machines| == |q.views| && s in q.all && s in q.jobs
    ensures forall id :: id in given || id == q.all[s].id ==> HasJob(JobQueueModel.Start(q, i, s, v, a), id)
  {
    var q' := JobQueueModel.Start(q, i, s, v, a);
    forall id | id in given || id == q.all[s].id
      ensures HasJob(q', id)
    {
      if id == q.all[s].id {
        var k := PositionOf(q, s);
        assert IsJob(q', k, id);
      } else {
        var k := JobOf(q, given, id);
        assert IsJob(q', k, id);
      }
    }
  }

  // ----- free boards

  /** The controller's view of the machines shows every working board of this one. */
  ghost predicate Shown(site: Control.Site, rec: MachineRec) {
    var m := rec.allocator.machine;
    rec.name in site && forall b :: InMachine(b, m.width, m.height) && b !in m.deadBoards ==> b in site[rec.name]
  }

  ghost predicate AllShown(site: Control.Site, machines: seq<MachineRec>) {
    forall i {:trigger Shown(site, machines[i])} :: 0 <= i < |machines| ==> Shown(site, machines[i])
  }

  /** Every link in the periphery of an allocation is that of one of its boards. */
  lemma PeripheryOfBoards(m: Machine, v0: State, d: Demand, v: State, a: Allocation, p: Port)
    requires Inv(m, v0) && d.request.Sensible() && Outcome(m, v0, d, v, Some(a)) && p in a.periphery
    ensures p.0 in a.boards
  {
    if !d.request.ForOneBoard() {
      GrantMatchesRectangle(m, v0, d, v, a);
    }
  }

  lemma GrantIsOk(site: Control.Site, q: Q, i: nat, s: Serial, now: int, v: State, a: Allocation)
    requires Base(q) && Gives(q, i, s, now, v, Some(a)) && AllShown(site, q.machines)
    ensures Control.GrantOk(site, GrantFor(q.machines[i].name, a))
  {
    var m, d, v0 := q.machines[i].allocator.machine, q.all[s].demand, CheckedView(q, i, now);
    AllocatorGood(q, i);
    CandidateSensible(q.all[s], q.machines[i]);
    CheckFreeQuiet(m, q.machines[i].allocator.secondsBeforeFree, q.views[i], now);
    OutcomeKeeps(m, v0, d, v, Some(a));
    assert Shown(site, q.machines[i]);
    GripRect(m, v, v.live[a.id]);
    forall b | b in a.boards
      ensures b in site[q.machines[i].name]
    {
      GrantsInMachine(m, v, v.live[a.id], b);
    }
    forall p | p in a.periphery
      ensures p.0 in a.boards
    {
      PeripheryOfBoards(m, v0, d, v, a, p);
    }
  }

  /** What the queue gives away, the controller believes to be given to nobody. */
  lemma QueueGivesFreeBoards(site: Control.Site, q: Q, c: Control.C, i: nat, s: Serial, now: int, v: State, a: Allocation)
    requires Base(q) && Control.Inv(site, c) && Tied(q, c.queue) && AllShown(site, q.machines)
    requires Gives(q, i, s, now, v, Some(a))
    ensures Control.Grantable(site, c, q.all[s].id, GrantFor(q.machines[i].name, a))
    ensures q.all[s].id in c.records
  {
    Open(q);
    var id, g := q.all[s].id, GrantFor(q.machines[i].name, a);
    assert Agrees(q, s, c.queue);
    GrantIsOk(site, q, i, s, now, v, a);
    assert Control.JobOk(site, c, id);
    forall other | other in c.queue && c.queue[other].Some?
      ensures Control.Apart(g, c.queue[other].value)
    {
      var k := JobOf(q, c.queue, other);
      if c.queue[other].value.machine == g.machine {
        TenantApart(q, i, s, now, v, a, q.jobs[k]);
        assert BoardsFor(q, q.jobs[k], i) == c.queue[other].value.boards;
      }
    }
  }

  lemma TenantApart(q: Q, i: nat, s: Serial, now: int, v: State, a: Allocation, t: Serial)
    requires Base(q) && Gives(q, i, s, now, v, Some(a)) && t in q.jobs && t in q.all
    requires RunsOn(q.all[t], q.machines[i].name)
    ensures BoardsFor(q, t, i) !! a.boards
  {
    Open(q);
    assert Tenant(q, i, t, q.all[t].allocationId);
    StartGivesFreeBoards(q, i, s, now, v, a, t);
  }

  // ----- the server as a whole

  datatype Server = Server(q: Q, c: Control.C)

  /** Everything that can happen to the two. */
  datatype Step =
    | Create(job: Job)
    | CreateRefused
    | Start(i: nat, s: Serial, now: int, v: State, allocation: Allocation, order: seq<Control.Frame>)
    | Refuse(i: nat, s: Serial, now: int, v: State)
    | Check(i: nat, now: int)
    | GiveUp(k: nat)
    | Destroy(k: nat, order: seq<Control.Frame>)
    | Switch(id: int, on: bool, order: seq<Control.Frame>)
    | Limit(most: nat)
    | Complete(ticket: nat, success: bool, order: seq<Control.Frame>, k: nat, i: nat, now: int)
    | Join(rec: MachineRec)
    | Requeue(machines: seq<MachineRec>, stranded: set<Serial>, postpone: nat)

  /** What the controller does at this step, if anything. */
  ghost function Told(q: Q, a: Step): Option<Runs.Action> {
    match a
    case Create(_) => Some(Runs.DoCreate)
    case CreateRefused => Some(Runs.DoCreateRefused)
    case Start(i, s, _, _, allocation, order) =>
      if i < |q.machines| && s in q.all
      then Some(Runs.DoAllocate(q.all[s].id, GrantFor(q.machines[i].name, allocation), order)) else None
    case GiveUp(k) => if k < |q.jobs| && q.jobs[k] in q.all then Some(Runs.DoCancel(q.all[q.jobs[k]].id)) else None
    case Destroy(k, order) =>
      if k < |q.jobs| && q.jobs[k] in q.all then Some(Runs.DoDestroy(q.all[q.jobs[k]].id, order)) else None
    case Switch(id, on, order) => Some(Runs.DoSwitch(id, on, order))
    case Limit(most) => Some(Runs.DoSetMaxRetired(most))
    case Complete(t, success, order, _, _, _) => Some(Runs.DoComplete(t, success, order))
    case _ => None
  }

  /** What the queue, its machines, the users and the hardware may do; nothing is said of boards being free. */
  ghost predicate Possible(site: Control.Site, x: Server, a: Step) {
    var q, c := x.q, x.c;
    match a
    case Create(j) => j.pending && j.machine.None? && j.id == c.nextId
    case CreateRefused => true
    case Start(i, s, now, v, allocation, order) =>
      && Gives(q, i, s, now, v, Some(allocation))
      && var g := GrantFor(q.machines[i].name, allocation);
         Control.GrantOk(site, g) ==> Control.Ordering(order, Control.FramesOf(site, g))
    case Refuse(i, s, now, v) => Gives(q, i, s, now, v, None)
    case Check(i, _) => i < |q.machines| == |q.views|
    case GiveUp(k) => k < |q.jobs| && q.jobs[k] in q.all && q.all[q.jobs[k]].pending
    case Destroy(k, order) =>
      k < |q.jobs| && q.jobs[k] in q.all && Control.OrderFor(site, c, q.all[q.jobs[k]].id, order)
    case Switch(id, _, order) => Control.OrderFor(site, c, id, order)
    case Limit(_) => true
    case Complete(t, _, order, k, i, _) =>
      && Control.FirstInLine(c, t) && Control.OrderFor(site, c, c.bmp[t].job, order)
      && IsJob(q, k, c.bmp[t].job) && i < |q.machines| && RunsOn(q.all[q.jobs[k]], q.machines[i].name)
    case Join(rec) =>
      && rec.allocator.machine.Positive() && Shown(site, rec)
      && forall i :: 0 <= i < |q.machines| ==> q.machines[i].name != rec.name
    case Requeue(machines, _, _) => Hosts(machines) == Hosts(q.machines)
  }

  /** The controller after the step. */
  ghost function NextC(site: Control.Site, x: Server, a: Step): Control.C {
    var action := Told(x.q, a);
    if action.Some? && Runs.Defined(site, x.c, action.value) then Runs.Next(site, x.c, action.value) else x.c
  }

  /** The queue after the step; when a completion takes boards from a job, the queue is asked to free them. */
  ghost function NextQ(site: Control.Site, x: Server, a: Step): Q
    requires Possible(site, x, a)
  {
    var q, c := x.q, x.c;
    match a
    case Create(j) => JobQueueModel.Create(q, j)
    case Start(i, s, _, v, allocation, _) => JobQueueModel.Start(q, i, s, v, allocation)
    case Refuse(i, _, _, v) => q.(views := q.views[i := v])
    case Check(i, now) => q.(views := q.views[i := CheckedView(q, i, now)])
    case GiveUp(k) => JobQueueModel.Cancel(q, k)
    case Destroy(k, _) => if q.all[q.jobs[k]].id in c.live then JobQueueModel.Destroy(q, k) else q
    case Complete(t, success, order, k, i, now) =>
      var q1 := if success || c.bmp[t].job !in c.live then q else JobQueueModel.Destroy(q, k);
      if c.bmp[t].job !in NextC(site, x, a).queue && Freeable(q1, k, i) then Freed(q1, k, i, now) else q1
    case Join(rec) => JobQueueModel.AddMachine(q, rec, AllocatorModel.Initial(rec.allocator.machine, 1))
    case Requeue(machines, stranded, postpone) => q.(machines := machines, stranded := stranded, postpone := postpone)
    case _ => q
  }

  ghost function Next(site: Control.Site, x: Server, a: Step): Server
    requires Possible(site, x, a)
  {
    Server(NextQ(site, x, a), NextC(site, x, a))
  }

  /** The queue is in order, and the controller believes of it what is so. */
  ghost predicate Matched(site: Control.Site, q: Q, given: Given) {
    Base(q) && Tied(q, given) && AllShown(site, q.machines)
  }

  /** Queue and controller are both in order, and agree. */
  ghost predicate Good(site: Control.Site, x: Server) {
    Matched(site, x.q, x.c.queue) && Control.Inv(site, x.c)
  }

  /** A job that waits in the queue is live. */
  lemma WaitingIsLive(site: Control.Site, x: Server, k: nat)
    requires Good(site, x) && k < |x.q.jobs| && x.q.jobs[k] in x.q.all && x.q.all[x.q.jobs[k]].pending
    ensures var id := x.q.all[x.q.jobs[k]].id; id in x.c.live && id in x.c.queue && x.c.queue[id] == None
  {
    var s := x.q.jobs[k];
    assert s in x.q.jobs;
    assert Agrees(x.q, s, x.c.queue);
    assert Control.JobOk(site, x.c, x.q.all[s].id);
  }

  /** All that the queue makes the controller do, the controller may do: above all, boards given away are free. */
  lemma QueueIsTrusted(site: Control.Site, x: Server, a: Step)
    requires Good(site, x) && Possible(site, x, a) && Told(x.q, a).Some?
    ensures Runs.Allowed(site, x.c, Told(x.q, a).value)
  {
    match a
    case Start(i, s, now, v, allocation, _) =>
      QueueGivesFreeBoards(site, x.q, x.c, i, s, now, v, allocation);
    case GiveUp(k) =>
      WaitingIsLive(site, x, k);
    case Destroy(k, _) =>
      Control.CanBeDestroyed(site, x.c, x.q.all[x.q.jobs[k]].id);
    case Switch(id, on, order) =>
      Control.SwitchJobKeeps(site, x.c, id, on, order);
    case Complete(t, success, order, _, _, _) =>
      Control.CanBeDestroyed(site, x.c, x.c.bmp[t].job);
      Control.DestroyKeepsLine(site, x.c, t, order);
    case _ =>
  }

  lemma ControllerKeeps(site: Control.Site, x: Server, a: Step)
    requires Good(site, x) && Possible(site, x, a)
    ensures Control.Inv(site, NextC(site, x, a))
  {
    if Told(x.q, a).Some? {
      QueueIsTrusted(site, x, a);
      Runs.NextKeeps(site, x.c, Told(x.q, a).value);
    }
  }

  // ----- steps of the queue

  lemma DestroyKeepsTied(site: Control.Site, x: Server, k: nat, order: seq<Control.Frame>)
    requires Good(site, x) && k < |x.q.jobs| && x.q.jobs[k] in x.q.all
    requires x.q.all[x.q.jobs[k]].id in x.c.live && Control.Destroyable(site, x.c, x.q.all[x.q.jobs[k]].id)
    ensures var q' := JobQueueModel.Destroy(x.q, k);
            Base(q') && Tied(q', Control.Destroy(site, x.c, x.q.all[x.q.jobs[k]].id, order).queue)
  {
    var q, s := x.q, x.q.jobs[k];
    assert s in q.jobs;
    assert Agrees(q, s, x.c.queue);
    if q.all[s].pending {
      CancelKeepsBase(q, k);
      CancelKeepsTied(q, x.c.queue, k);
    } else {
      AnnounceKeepsBase(q, s);
      AnnounceKeepsTied(q, x.c.queue, s);
    }
  }

  lemma CancelKeepsTied(q: Q, given: Given, k: nat)
    requires Base(q) && Tied(q, given) && k < |q.jobs| && q.jobs[k] in q.all && q.all[q.jobs[k]].pending
    ensures Tied(JobQueueModel.Cancel(q, k), given - {q.all[q.jobs[k]].id})
  {
    var q' := JobQueueModel.Cancel(q, k);
    forall s | s in q.jobs && s in q.all && s != q.jobs[k]
      ensures Untouched(q, q', s)
    {
    }
    LossKeepsTied(q, q', given, k);
  }

  lemma AnnounceKeepsTied(q: Q, given: Given, s: Serial)
    requires Base(q) && Tied(q, given)
    ensures Tied(AnnounceFree(q, s), given)
  {
    var q' := AnnounceFree(q, s);
    forall t | t in q.jobs && t in q.all
      ensures Untouched(q, q', t)
    {
    }
    QuietKeepsTied(q, q', given);
  }

  lemma FreedKeepsTied(q: Q, given: Given, k: nat, i: nat, now: int)
    requires Base(q) && Tied(q, given) && Freeable(q, k, i)
    ensures Base(Freed(q, k, i, now)) && Tied(Freed(q, k, i, now), given - {q.all[q.jobs[k]].id})
  {
    var q', id := Freed(q, k, i, now), q.all[q.jobs[k]].allocationId;
    ReleaseFacts(q.machines[i].allocator.machine, q.views[i], id, now);
    DropKeepsBase(q, k, i, q'.views[i]);
    forall s | s in q.jobs && s in q.all && s != q.jobs[k]
      ensures Untouched(q, q', s)
    {
      OthersSurvive(q, k, i, now, s);
    }
    LossKeepsTied(q, q', given, k);
  }

  lemma OthersSurvive(q: Q, k: nat, i: nat, now: int, s: Serial)
    requires Base(q) && Freeable(q, k, i) && s in q.jobs && s in q.all && s != q.jobs[k]
    ensures Untouched(q, Freed(q, k, i, now), s)
  {
    var q' := Freed(q, k, i, now);
    forall l | 0 <= l < |q'.machines| && RunsOn(q.all[s], q'.machines[l].name)
      ensures BoardsFor(q', s, l) == BoardsFor(q, s, l)
    {
      RunsUnder(q, s, l);
      if l == i {
        assert q.jobs[k] in q.jobs;
        assert Tenant(q, i, s, q.all[s].allocationId) && Tenant(q, i, q.jobs[k], q.all[q.jobs[k]].allocationId);
        OneJobPerAllocation(q, i);
      }
    }
  }

  lemma JoinKeepsTied(q: Q, given: Given, rec: MachineRec, v: State)
    requires Base(q) && Tied(q, given) && forall i :: 0 <= i < |q.machines| ==> q.machines[i].name != rec.name
    ensures Tied(JobQueueModel.AddMachine(q, rec, v), given)
  {
    Open(q);
    var q' := JobQueueModel.AddMachine(q, rec, v);
    forall s | s in q.jobs && s in q.all
      ensures Untouched(q, q', s)
    {
      if !q.all[s].pending {
        var k := PositionOf(q, s);
        var i := AllocationHeld(q, k);
        assert q.all[s].machine == Some(q.machines[i].name) != Some(rec.name);
      }
      forall l | 0 <= l < |q'.machines| && RunsOn(q.all[s], q'.machines[l].name)
        ensures l < |q.machines| && q.machines[l] == q'.machines[l] && BoardsFor(q', s, l) == BoardsFor(q, s, l)
      {
      }
    }
    QuietKeepsTied(q, q', given);
  }

  lemma RequeueKeeps(
    site: Control.Site, q: Q, given: Given, machines: seq<MachineRec>, stranded: set<Serial>, postpone: nat)
    requires Matched(site, q, given) && Hosts(machines) == Hosts(q.machines)
    ensures Matched(site, q.(machines := machines, stranded := stranded, postpone := postpone), given)
  {
    var q' := q.(machines := machines, stranded := stranded, postpone := postpone);
    Open(q);
    assert |machines| == |Hosts(machines)| == |q.machines|;
    forall i | 0 <= i < |machines|
      ensures machines[i].name == q.machines[i].name && machines[i].allocator == q.machines[i].allocator
    {
      assert Hosts(machines)[i] == Hosts(q.machines)[i];
    }
    Close(q');
    forall s | s in q.jobs && s in q.all
      ensures Untouched(q, q', s)
    {
    }
    QuietKeepsTied(q, q', given);
    forall i | 0 <= i < |machines|
      ensures Shown(site, machines[i])
    {
      assert Shown(site, q.machines[i]);
    }
  }

  /** A completion takes nothing from the controller's view of the queue but, perhaps, the job of the command. */
  lemma CompletionQueue(site: Control.Site, c: Control.C, t: nat, success: bool, order: seq<Control.Frame>)
    requires Control.Inv(site, c) && Runs.Allowed(site, c, Runs.DoComplete(t, success, order))
    ensures var id := c.bmp[t].job; var queue := Control.Complete(site, c, t, success, order).queue;
            && (queue == c.queue || queue == c.queue - {id})
            && id in c.queue && c.queue[id].Some?
  {
    Runs.TargetsAreHeld(site, c, t);
  }

  lemma CompletionKeeps(site: Control.Site, x: Server, a: Step)
    requires Good(site, x) && Possible(site, x, a) && a.Complete?
    ensures Matched(site, NextQ(site, x, a), NextC(site, x, a).queue)
  {
    QueueIsTrusted(site, x, a);
    CompletionQueue(site, x.c, a.ticket, a.success, a.order);
    JobIsAllocated(x.q, x.c.queue, x.c.bmp[a.ticket].job, a.k);
    var q1 := if a.success || x.c.bmp[a.ticket].job !in x.c.live then x.q else AnnounceFree(x.q, x.q.jobs[a.k]);
    AnnouncementKeeps(site, x.q, x.c.queue, x.q.jobs[a.k]);
    CanBeFreed(q1, a.k, a.i);
    FreedKeepsTied(q1, x.c.queue, a.k, a.i, a.now);
  }

  lemma JobIsAllocated(q: Q, given: Given, id: int, k: nat)
    requires Tied(q, given) && IsJob(q, k, id) && id in given && given[id].Some?
    ensures !q.all[q.jobs[k]].pending
  {
    assert q.jobs[k] in q.jobs;
    assert Agrees(q, q.jobs[k], given);
  }

  lemma AnnouncementKeeps(site: Control.Site, q: Q, given: Given, s: Serial)
    requires Matched(site, q, given) && s in q.all
    ensures Matched(site, AnnounceFree(q, s), given)
  {
    AnnounceKeepsBase(q, s);
    AnnounceKeepsTied(q, given, s);
  }

  lemma CanBeFreed(q: Q, k: nat, i: nat)
    requires Base(q) && k < |q.jobs| && q.jobs[k] in q.all && i < |q.machines| && RunsOn(q.all[q.jobs[k]], q.machines[i].name)
    ensures Freeable(q, k, i)
  {
    AllocatorGood(q, i);
    assert q.jobs[k] in q.jobs;
    RunsUnder(q, q.jobs[k], i);
  }

  // ----- every step keeps queue and controller in agreement

  lemma StepKeeps(site: Control.Site, x: Server, a: Step)
    requires Good(site, x) && Possible(site, x, a)
    ensures Good(site, Next(site, x, a))
  {
    ControllerKeeps(site, x, a);
    QueueKeeps(site, x, a);
  }

  lemma QueueKeeps(site: Control.Site, x: Server, a: Step)
    requires Good(site, x) && Possible(site, x, a)
    ensures Matched(site, NextQ(site, x, a), NextC(site, x, a).queue)
  {
    match a
    case Create(j) => JobAdded(site, x, j);
    case CreateRefused => QueueIsTrusted(site, x, a);
    case Start(_, _, _, _, _, _) => JobStarted(site, x, a);
    case Refuse(_, _, _, _) => AttemptRefused(site, x, a);
    case Check(_, _) => QuarantineChecked(site, x, a);
    case GiveUp(_) => JobGivenUp(site, x, a);
    case Destroy(_, _) => JobDestroyed(site, x, a);
    case Switch(_, _, _) => QueueIsTrusted(site, x, a);
    case Limit(_) =>
    case Complete(_, _, _, _, _, _) => CompletionKeeps(site, x, a);
    case Join(rec) => MachineAdded(site, x, rec);
    case Requeue(machines, stranded, postpone) => RequeueKeeps(site, x.q, x.c.queue, machines, stranded, postpone);
  }

  lemma AttemptRefused(site: Control.Site, x: Server, a: Step)
    requires Good(site, x) && Possible(site, x, a) && a.Refuse?
    ensures Matched(site, NextQ(site, x, a), NextC(site, x, a).queue)
  {
    AfterAttempt(x.q, a.i, a.s, a.now, a.v, None);
    RefusalKeepsTied(x.q, x.c.queue, a.i, a.s, a.now, a.v);
  }

  lemma QuarantineChecked(site: Control.Site, x: Server, a: Step)
    requires Good(site, x) && Possible(site, x, a) && a.Check?
    ensures Matched(site, NextQ(site, x, a), NextC(site, x, a).queue)
  {
    CheckingKeepsBase(x.q, a.i, a.now);
    CheckKeepsTied(x.q, x.c.queue, a.i, a.now);
  }

  lemma JobGivenUp(site: Control.Site, x: Server, a: Step)
    requires Good(site, x) && Possible(site, x, a) && a.GiveUp?
    ensures Matched(site, NextQ(site, x, a), NextC(site, x, a).queue)
  {
    CancelKeepsBase(x.q, a.k);
    CancelKeepsTied(x.q, x.c.queue, a.k);
  }

  lemma JobDestroyed(site: Control.Site, x: Server, a: Step)
    requires Good(site, x) && Possible(site, x, a) && a.Destroy?
    ensures Matched(site, NextQ(site, x, a), NextC(site, x, a).queue)
  {
    QueueIsTrusted(site, x, a);
    if x.q.all[x.q.jobs[a.k]].id in x.c.live {
      DestroyKeepsTied(site, x, a.k, a.order);
    }
  }

  lemma CheckingKeepsBase(q: Q, i: nat, now: int)
    requires Base(q) && i < |q.machines| == |q.views|
    ensures Base(q.(views := q.views[i := CheckedView(q, i, now)]))
  {
    AllocatorGood(q, i);
    CheckFreeQuiet(q.machines[i].allocator.machine, q.machines[i].allocator.secondsBeforeFree, q.views[i], now);
    QuietKeepsBase(q, i, CheckedView(q, i, now));
  }

  lemma JobAdded(site: Control.Site, x: Server, j: Job)
    requires Good(site, x) && Possible(site, x, Create(j))
    ensures Matched(site, NextQ(site, x, Create(j)), NextC(site, x, Create(j)).queue)
  {
    Control.IdsBelow(site, x.c);
    forall s | s in x.q.jobs && s in x.q.all
      ensures x.q.all[s].id != j.id
    {
      assert Agrees(x.q, s, x.c.queue);
    }
    CreateKeepsBase(x.q, j);
    CreateKeepsTied(x.q, x.c.queue, j);
  }

  lemma JobStarted(site: Control.Site, x: Server, a: Step)
    requires Good(site, x) && Possible(site, x, a) && a.Start?
    ensures Matched(site, NextQ(site, x, a), NextC(site, x, a).queue)
  {
    QueueIsTrusted(site, x, a);
    StartedHolds(x.q, a.i, a.s, a.now, a.v, a.allocation);
    StartKeepsTied(x.q, x.c.queue, a.i, a.s, a.now, a.v, a.allocation);
  }

  lemma MachineAdded(site: Control.Site, x: Server, rec: MachineRec)
    requires Good(site, x) && Possible(site, x, Join(rec))
    ensures Matched(site, NextQ(site, x, Join(rec)), x.c.queue)
  {
    var v := AllocatorModel.Initial(rec.allocator.machine, 1);
    InitialHolds(rec.allocator.machine, 1);
    AddMachineKeepsBase(x.q, rec, v);
    JoinKeepsTied(x.q, x.c.queue, rec, v);
    var q' := NextQ(site, x, Join(rec));
    forall i | 0 <= i < |q'.machines|
      ensures Shown(site, q'.machines[i])
    {
      assert i < |x.q.machines| ==> Shown(site, x.q.machines[i]);
    }
  }

  // ----- whole runs

  ghost predicate Run(site: Control.Site, firstId: int, most: nat, steps: seq<Step>, states: seq<Server>) {
    && Control.SiteOk(site) && Segment(site, steps, states)
    && states[0] == Server(NewQueue(), Control.Initial(firstId, most))
  }

  /** Part of a run: each state follows from the one before. */
  ghost predicate Segment(site: Control.Site, steps: seq<Step>, states: seq<Server>) {
    && |states| == |steps| + 1
    && forall n :: 0 <= n < |steps| ==>
         Possible(site, states[n], steps[n]) && states[n + 1] == Next(site, states[n], steps[n])
  }

  lemma {:induction false} RunKeeps(
    site: Control.Site, firstId: int, most: nat, steps: seq<Step>, states: seq<Server>, n: nat)
    requires Run(site, firstId, most, steps, states) && n < |states|
    ensures Good(site, states[n])
  {
    if n == 0 {
      NewQueueHolds();
      Control.InitialHolds(site, firstId, most);
    } else {
      RunKeeps(site, firstId, most, steps, states, n - 1);
      StepKeeps(site, states[n - 1], steps[n - 1]);
    }
  }

  /**
   * At every point of every run, queue and controller know the same jobs; a job waits for both or for neither, and
   * the boards the controller would switch for it are those the allocator holds for it.
   */
  lemma KnownAlike(
    site: Control.Site, firstId: int, most: nat, steps: seq<Step>, states: seq<Server>, n: nat, id: int, k: nat, i: nat)
    requires Run(site, firstId, most, steps, states) && n < |states|
    ensures var q, c := states[n].q, states[n].c;
            && (id in c.queue <==> HasJob(q, id))
            && (IsJob(q, k, id) ==> id in c.queue && id in c.records && c.queue[id] == c.records[id].grant)
            && (IsJob(q, k, id) ==> (c.queue[id].None? <==> q.all[q.jobs[k]].pending))
            && (IsJob(q, k, id) && i < |q.machines| && RunsOn(q.all[q.jobs[k]], q.machines[i].name) ==>
                  && c.queue[id].Some? && c.queue[id].value.machine == q.machines[i].name
                  && c.queue[id].value.boards == BoardsFor(q, q.jobs[k], i))
  {
    RunKeeps(site, firstId, most, steps, states, n);
    var q, c := states[n].q, states[n].c;
    if IsJob(q, k, id) {
      assert q.jobs[k] in q.jobs;
      assert Agrees(q, q.jobs[k], c.queue);
      assert Control.JobOk(site, c, id);
    }
    if HasJob(q, id) {
      var l :| 0 <= l < |q.jobs| && q.jobs[l] in q.all && q.all[q.jobs[l]].id == id;
      assert Agrees(q, q.jobs[l], c.queue);
    }
  }

  /**
   * Quiescence before reuse, for queue and controller together: in every run, the boards that the queue gives to a
   * job are held by no other job the controller knows, and no command that is queued or being carried out, of
   * whichever job, acts on one of them.
   */
  lemma BoardsComeQuiet(
    site: Control.Site, firstId: int, most: nat, steps: seq<Step>, states: seq<Server>, n: nat, t: nat, other: int)
    requires Run(site, firstId, most, steps, states) && n < |steps| && steps[n].Start?
    ensures var x, a := states[n], steps[n];
            && a.i < |x.q.machines| && a.allocation.boards != {}
            && var name := x.q.machines[a.i].name;
               && (t in x.c.bmp && x.c.bmp[t].machine == name ==>
                     Control.Targets(site, x.c.bmp[t]) !! a.allocation.boards)
               && (other in x.c.queue && x.c.queue[other].Some? && x.c.queue[other].value.machine == name ==>
                     x.c.queue[other].value.boards !! a.allocation.boards)
  {
    var x, a := states[n], steps[n];
    RunKeeps(site, firstId, most, steps, states, n);
    QueueGivesFreeBoards(site, x.q, x.c, a.i, a.s, a.now, a.v, a.allocation);
    if t in x.c.bmp {
      Runs.TargetsAreHeld(site, x.c, t);
    }
  }

  /**
   * Isolation, from the users' requests to the hardware: in every run, a live job that is ready and powered on has every
   * board on, and every link from one of its boards to a board that is not its own is disabled.
   */
  lemma JobsAreIsolated(
    site: Control.Site, firstId: int, most: nat, steps: seq<Step>, states: seq<Server>, n: nat, id: int, k: nat, i: nat, p: Port)
    requires Run(site, firstId, most, steps, states) && n < |states|
    requires var q, c := states[n].q, states[n].c;
             && id in c.live && id in c.records && c.records[id].state == Control.Ready && c.records[id].power == Some(true)
             && IsJob(q, k, id) && i < |q.machines| && RunsOn(q.all[q.jobs[k]], q.machines[i].name)
    requires p.0 in BoardsFor(states[n].q, states[n].q.jobs[k], i)
    ensures var rec, c := states[n].q.machines[i], states[n].c;
            && (rec.name, p.0) in c.lit && c.lit[(rec.name, p.0)]
            && rec.allocator.machine.Positive() && 0 <= p.0.z < 3
            && (FarEnd(rec.allocator.machine, p).0 !in BoardsFor(states[n].q, states[n].q.jobs[k], i) ==>
                  (rec.name, p) in c.wired && !c.wired[(rec.name, p)])
  {
    var q, c := states[n].q, states[n].c;
    RunKeeps(site, firstId, most, steps, states, n);
    Runs.ReadyIsKnown(site, c, id);
    assert q.jobs[k] in q.jobs;
    assert Agrees(q, q.jobs[k], c.queue) && Control.JobOk(site, c, id);
    RunsUnder(q, q.jobs[k], i);
    assert Tenant(q, i, q.jobs[k], q.all[q.jobs[k]].allocationId);
    JobHoldsBoards(q, q.jobs[k], i, p.0);
  }

  /** The boards held for a job are boards of the machine. */
  lemma JobHoldsBoards(q: Q, s: Serial, i: nat, b: Board)
    requires Base(q) && i < |q.machines| && s in q.all && Tenant(q, i, s, q.all[s].allocationId) && b in BoardsFor(q, s, i)
    ensures var m := q.machines[i].allocator.machine; m.Positive() && InMachine(b, m.width, m.height)
  {
    AllocatorGood(q, i);
    OneJobPerAllocation(q, i);
    GrantsInMachine(q.machines[i].allocator.machine, q.views[i], q.views[i].live[q.all[s].allocationId], b);
  }

  /** As long as commands are outstanding, one of them can complete. */
  lemma CommandCanComplete(site: Control.Site, x: Server, success: bool, now: int) returns (a: Step)
    requires Good(site, x) && x.c.bmp != map[]
    ensures a.Complete? && a.success == success && Possible(site, x, a)
  {
    var some :| some in x.c.bmp;
    var t := Runs.SomeCommandCompletes(x.c, some);
    var id := x.c.bmp[t].job;
    assert Control.RequestOk(site, x.c.records, x.c.bmp[t]) && Control.JobOk(site, x.c, id);
    assert t in Control.Outstanding(x.c.bmp, id);
    var order := Runs.InSomeOrder(Control.FramesOf(site, x.c.records[id].grant.value));
    var k := JobOf(x.q, x.c.queue, id);
    var i := AllocationHeld(x.q, k);
    a := Complete(t, success, order, k, i, now);
  }

  // ----- the queue at work

  /** What is a single event for the queue is a step of queue and controller. */
  lemma EventIsStep(site: Control.Site, x: Server, e: Event) returns (a: Step)
    requires Good(site, x) && Happens(x.q, e)
    ensures Possible(site, x, a) && NextQ(site, x, a) == After(x.q, e)
  {
    match e
    case Tried(i, s, now, v, Some(r)) =>
      var g := GrantFor(x.q.machines[i].name, r);
      GrantIsOk(site, x.q, i, s, now, v, r);
      var order := Runs.InSomeOrder(Control.FramesOf(site, g));
      a := Start(i, s, now, v, r, order);
    case Tried(i, s, now, v, None) => a := Refuse(i, s, now, v);
    case GivenUp(k) => a := GiveUp(k);
    case Requeued(queues, stranded) => a := Requeue(WithQueues(x.q.machines, queues), stranded, x.q.postpone);
  }

  /**
   * Whatever the queue does when it is processed or rebuilt, also if that breaks off, is part of a run of queue and
   * controller, at the end of which both are in order and agree.
   */
  lemma {:induction false} QueueAtWork(site: Control.Site, x: Server, events: seq<Event>, q': Q)
    returns (steps: seq<Step>, states: seq<Server>)
    requires Good(site, x) && Leads(x.q, events, q')
    ensures Segment(site, steps, states) && states[0] == x
    ensures states[|steps|].q == q' && Good(site, states[|steps|])
    decreases |events|
  {
    if events == [] {
      steps, states := [], [x];
    } else {
      var a := EventIsStep(site, x, events[0]);
      StepKeeps(site, x, a);
      var y := Next(site, x, a);
      var rest, later := QueueAtWork(site, y, events[1..], q');
      steps, states := [a] + rest, [x] + later;
      SegmentFrom(site, x, a, rest, later);
    }
  }

  lemma SegmentFrom(site: Control.Site, x: Server, a: Step, rest: seq<Step>, later: seq<Server>)
    requires Possible(site, x, a) && Segment(site, rest, later) && later[0] == Next(site, x, a)
    ensures Segment(site, [a] + rest, [x] + later)
  {
    var steps, states := [a] + rest, [x] + later;
    forall n | 0 <= n < |steps|
      ensures Possible(site, states[n], steps[n]) && states[n + 1] == Next(site, states[n], steps[n])
    {
      if n > 0 {
        assert steps[n] == rest[n - 1] && states[n] == later[n - 1] && states[n + 1] == later[n];
      }
    }
  }

  // ----- the return of boards

  /** Every job that the job queue has not refused has been destroyed. */
  predicate Emptied(c: Control.C) {
    forall id :: id in c.live ==> Control.Refused(c, id)
  }

  /**
   * Once all jobs but those refused have been destroyed and all commands have ended, however they ended, no allocation
   * is live on any machine if and only if no job that was forgotten is still known to the queue; so it is if none was
   * forgotten at all. The boards are then free or in quarantine, and EverythingComesBack says what becomes of those.
   */
  lemma AllBoardsComeBack(site: Control.Site, x: Server)
    requires Good(site, x) && Emptied(x.c) && x.c.bmp == map[]
    ensures |x.q.views| == |x.q.machines|
    ensures (forall i :: 0 <= i < |x.q.views| ==> x.q.views[i].live == map[])
       <==> (forall id :: id in x.c.queue ==> id in x.c.retired)
    ensures x.c.retired == x.c.destroyed ==>
              x.q.jobs == [] && forall i :: 0 <= i < |x.q.views| ==> x.q.views[i].live == map[]
  {
    forall id | id in x.c.queue && id in x.c.retired
      ensures false
    {
      Runs.QuietMeansReturned(site, x.c, id);
    }
    Open(x.q);
    if id :| id in x.c.queue {
      SomebodyHolds(site, x, id);
    } else {
      NobodyHolds(x.q, x.c.queue);
    }
  }

  lemma IdIsKnown(q: Q, given: Given, s: Serial)
    requires Tied(q, given) && s in q.jobs && s in q.all
    ensures q.all[s].id in given
  {
    assert Agrees(q, s, given);
  }

  lemma NobodyHolds(q: Q, given: Given)
    requires Base(q) && Tied(q, given) && forall id :: id !in given
    ensures q.jobs == [] && forall i :: 0 <= i < |q.views| ==> q.views[i].live == map[]
  {
    Open(q);
    if q.jobs != [] {
      IdIsKnown(q, given, q.jobs[0]);
    }
    forall i | 0 <= i < |q.views|
      ensures q.views[i].live == map[]
    {
      OneJobPerAllocation(q, i);
      assert forall id :: id !in q.views[i].live;
    }
  }

  lemma SomebodyHolds(site: Control.Site, x: Server, id: int)
    requires Good(site, x) && Emptied(x.c) && id in x.c.queue
    ensures exists i :: 0 <= i < |x.q.views| && x.q.views[i].live != map[]
  {
    var k := JobOf(x.q, x.c.queue, id);
    assert Control.JobOk(site, x.c, id);
    var i := AllocationHeld(x.q, k);
  }
}
