/** The job queue: jobs are offered to every machine that could serve them, and the first to accept keeps them. */
module JobQueueClass {
  import opened Wrappers
  import opened CandidateFilter
  import opened AllocatorModel
  import opened Oracle
  import opened AllocatorClass
  import opened JobQueueModel

  class JobQueue {
    const secondsBeforeFree: int

    var machines: seq<MachineRec>

    // Every job object ever made, and the serials of those still queued or allocated, oldest first.
    var all: map<Serial, Job>
    var jobs: seq<Serial>
    var nextSerial: Serial

    // When positive, queues are not changed.
    var postpone: nat

    // The callbacks made so far, and the jobs that the last rebuilding of the queues left out.
    ghost var log: seq<Callback>
    ghost var stranded: set<Serial>

    // The states of the machines' allocators, and all the objects involved.
    ghost var views: seq<State>
    ghost var Repr: set<object>

    ghost predicate Linked()
      reads this, Repr
      ensures Linked() ==> this in Repr
    {
      match Now()
      case Q(machines, views, _, _, _, _, _, _) =>
        && this in Repr && |views| == |machines|
        && (forall i :: 0 <= i < |machines| ==>
              machines[i].allocator in Repr && machines[i].allocator.Repr <= Repr && this !in machines[i].allocator.Repr)
        && (forall i, j :: 0 <= i < j < |machines| ==> machines[i].allocator.Repr !! machines[j].allocator.Repr)
        && (forall i :: 0 <= i < |machines| ==> HostOk(machines[i].allocator, views[i]))
    }

    static ghost predicate HostOk(a: Allocator, v: State)
      reads a, a.Repr
    {
      a.Shaped() && a.View() == v
    }

    ghost function Now(): Q
      reads this
    {
      Q(machines, views, all, jobs, nextSerial, postpone, log, stranded)
    }

    /**
     * All invariants hold; every job that waits, was created before the bound and is not stranded is in the queues it
     * belongs in.
     */
    ghost predicate Sound(bound: nat)
      reads this, Repr
      ensures Sound(bound) ==> this in Repr
    {
      Linked() && Orderly(Now()) && Tidy(Now(), bound)
    }

    constructor (secondsBeforeFree: int)
      ensures Sound(nextSerial) && fresh(Repr)
      ensures Now() == NewQueue() && this.secondsBeforeFree == secondsBeforeFree
    {
      this.secondsBeforeFree := secondsBeforeFree;
      machines, all, jobs, nextSerial, postpone := [], map[], [], 0, 0;
      log, stranded, views := [], {}, [];
      new;
      Repr := {this};
      NewQueueHolds();
    }

    /** Every object that has joined the representation is new. */
    twostate predicate Grown()
      reads this`Repr
    {
      fresh(Repr - old(Repr))
    }

    /** All is in order but for the ghost record of allocator i. */
    ghost predicate LinkedBut(i: nat)
      reads this, Repr, set k | 0 <= k < |machines| :: machines[k].allocator,
        set k, o | 0 <= k < |machines| && o in machines[k].allocator.Repr :: o
    {
      && this in Repr && |views| == |machines|
      && (forall k :: 0 <= k < |machines| && k != i ==>
            machines[k].allocator in Repr && machines[k].allocator.Repr <= Repr && this !in machines[k].allocator.Repr)
      && (forall k, j :: 0 <= k < j < |machines| ==> machines[k].allocator.Repr !! machines[j].allocator.Repr)
      && (forall k :: 0 <= k < |machines| && k != i ==> HostOk(machines[k].allocator, views[k]))
    }

    ghost method Relink(i: nat)
      requires i < |machines| && LinkedBut(i)
      requires machines[i].allocator.Shaped() && this !in machines[i].allocator.Repr
      modifies this`views, this`Repr
      ensures Linked() && Repr == old(Repr) + machines[i].allocator.Repr
      ensures views == old(views)[i := machines[i].allocator.View()]
    {
      views := views[i := machines[i].allocator.View()];
      Repr := Repr + machines[i].allocator.Repr;
    }

    /** Ask machine i to allocate. */
    method AskAllocator(i: nat, d: Demand, now: int) returns (r: Option<Allocation>)
      requires Linked() && i < |machines| && Inv(machines[i].allocator.machine, views[i])
      requires d.request.Sensible() && !Rejected(d)
      modifies machines[i].allocator.Repr
      ensures LinkedBut(i) && machines[i].allocator.Valid() && this !in machines[i].allocator.Repr
      ensures fresh(machines[i].allocator.Repr - old(machines[i].allocator.Repr))
      ensures Outcome(machines[i].allocator.machine,
                AllocatorModel.CheckFree(machines[i].allocator.machine, machines[i].allocator.secondsBeforeFree, views[i], now),
                d, machines[i].allocator.View(), r)
    {
      var error;
      r, error := machines[i].allocator.Alloc(d, now);
    }

    /** Let machine i try to allocate a job; its state is recorded, and all else is as before. */
    method CallAlloc(i: nat, d: Demand, now: int) returns (r: Option<Allocation>)
      requires Linked() && i < |machines| && Inv(machines[i].allocator.machine, views[i])
      requires d.request.Sensible() && !Rejected(d)
      modifies this`views, this`Repr, machines[i].allocator.Repr
      ensures Linked() && fresh(Repr - old(Repr))
      ensures |views| == |old(views)| && views == old(views)[i := views[i]]
      ensures Outcome(machines[i].allocator.machine,
                AllocatorModel.CheckFree(machines[i].allocator.machine, machines[i].allocator.secondsBeforeFree, old(views)[i], now),
                d, views[i], r)
    {
      r := AskAllocator(i, d, now);
      Relink(i);
    }

    /**
     * Try the job at the head of queue i on machine i. It overtakes none but stranded jobs: no other job that waits
     * for this machine was created before it.
     */
    method TryJob(i: nat, now: int) returns (ok: bool, ghost given: Option<Allocation>)
      requires Linked() && Orderly(Now()) && i < |machines| && machines[i].queue != []
      requires Ready(Now(), i, machines[i].queue[0])
      modifies this, machines[i].allocator.Repr
      ensures Linked() && Grown() && Orderly(Now())
      ensures |views| == |old(views)| && (ok <==> given.Some?)
      ensures i < |views| && Gives(old(Now()), i, old(machines)[i].queue[0], now, views[i], given)
      ensures ok ==> Now() == Start(old(Now()), i, old(machines)[i].queue[0], views[i], given.value)
      ensures !ok ==> Now() == old(Now()).(views := old(views)[i := views[i]]) && Settled(Now(), i)
    {
      var s := machines[i].queue[0];
      ghost var q := Now();
      var allocation := CallAllocator(i, s, now);
      given := allocation;
      if allocation.None? {
        ok := false;
      } else {
        RecordStart(q, i, s, allocation.value);
        ok := true;
      }
    }

    method CallAllocator(i: nat, s: Serial, now: int) returns (r: Option<Allocation>)
      requires Linked() && Orderly(Now()) && i < |machines| && Ready(Now(), i, s)
      modifies this`views, this`Repr, machines[i].allocator.Repr
      ensures Linked() && Grown()
      ensures |views| == |old(views)| && Now() == old(Now()).(views := old(views)[i := views[i]])
      ensures i < |views| && Gives(old(Now()), i, s, now, views[i], r)
      ensures r.Some? ==> Orderly(Start(old(Now()), i, s, views[i], r.value))
      ensures r.None? ==> Orderly(Now())
      ensures r.None? ==> Outcome(machines[i].allocator.machine, views[i], all[s].demand, views[i], None)
    {
      ghost var q := Now();
      AllocatorReady(q, i, s);
      r := CallAlloc(i, all[s].demand, now);
      AfterAttempt(q, i, s, now, views[i], r);
      if r.Some? {
        StartKeepsOrder(q, i, s, views[i], r.value);
      }
      assert Now() == q.(views := q.views[i := views[i]]);
    }

    static lemma AllocatorReady(q: Q, i: nat, s: Serial)
      requires Base(q) && i < |q.machines| && s in q.all && Candidate(q.all[s], q.machines[i])
      ensures i < |q.views| && Inv(q.machines[i].allocator.machine, q.views[i])
      ensures q.all[s].demand.request.Sensible() && !Rejected(q.all[s].demand)
    {
      Open(q);
      assert Sane(Hosts(q.machines)[i], q.views[i]);
      CandidateSensible(q.all[s], q.machines[i]);
    }

    method RecordStart(ghost q: Q, i: nat, s: Serial, allocation: Allocation)
      requires Linked() && i < |machines| && |q.machines| == |machines| && |q.views| == |views| && s in q.all
      requires Now() == q.(views := q.views[i := views[i]])
      requires Orderly(Start(q, i, s, views[i], allocation))
      modifies this`all, this`log
      ensures Linked() && Orderly(Now())
      ensures Now() == Start(q, i, s, views[i], allocation)
    {
      all := all[s := Started(all[s], machines[i].name, allocation)];
      log := log + [OnAllocate(s, HostOf(machines[i]), allocation, stranded)];
      assert Now() == Start(q, i, s, views[i], allocation);
    }

    /** Drop the head of queue i. */
    method PopHead(i: nat, ghost bound: nat)
      requires Linked() && Orderly(Now()) && QueuesOk(Now(), bound) && i < |machines| && machines[i].queue != []
      requires machines[i].queue[0] in all ==> !all[machines[i].queue[0]].pending
      modifies this`machines
      ensures Linked() && Orderly(Now()) && QueuesOk(Now(), bound)
      ensures Now() == old(Now()).(machines := Pop(old(machines), i))
    {
      PopKeeps(Now(), i, bound);
      SetQueue(i, machines[i].queue[1..]);
    }

    method SetQueue(i: nat, queue: seq<Serial>)
      requires Linked() && i < |machines|
      modifies this`machines
      ensures Linked() && machines == old(machines)[i := old(machines)[i].(queue := queue)]
    {
      machines := machines[i := machines[i].(queue := queue)];
    }

    /** Skip the jobs at the head of queue i that no longer wait. */
    method SkipDecided(i: nat, ghost bound: nat)
      requires Linked() && Orderly(Now()) && QueuesOk(Now(), bound) && i < |machines|
      modifies this`machines
      ensures Linked() && Orderly(Now()) && QueuesOk(Now(), bound)
      ensures Skipped(old(Now()), Now(), i)
      ensures machines[i].queue == [] || (machines[i].queue[0] in all && all[machines[i].queue[0]].pending)
    {
      while machines[i].queue != []
        invariant Linked() && Orderly(Now()) && QueuesOk(Now(), bound)
        invariant Skipped(old(Now()), Now(), i)
        decreases |machines[i].queue|
      {
        HeadKnown(Now(), i, bound);
        if all[machines[i].queue[0]].pending {
          break;
        }
        PopHead(i, bound);
      }
    }

    /** One visit to machine i: skip decided jobs, then try the first that waits, once. */
    method ProcessMachine(i: nat, now: int, ghost bound: nat) returns (changed: bool)
      requires Linked() && Orderly(Now()) && QueuesOk(Now(), bound) && i < |machines|
      modifies Repr
      ensures Linked() && Grown() && Orderly(Now()) && QueuesOk(Now(), bound)
      ensures Visited(old(Now()), Now(), i, changed)
    {
      ghost var q := Now();
      SkipDecided(i, bound);
      SkippedProgress(q, Now(), i);
      if machines[i].queue == [] {
        changed := false;
      } else {
        changed := TryHead(q, i, now, bound);
      }
    }

    /** Try the job at the head of queue i, which waits; if it starts, drop it from the queue. */
    method TryHead(ghost q0: Q, i: nat, now: int, ghost bound: nat) returns (changed: bool)
      requires Linked() && Orderly(Now()) && QueuesOk(Now(), bound) && i < |machines| && machines[i].queue != []
      requires machines[i].queue[0] in all && all[machines[i].queue[0]].pending
      requires |q0.machines| == |machines| && |q0.views| == |views| && Skipped(q0, Now(), i)
      modifies Repr
      ensures Linked() && Grown() && Orderly(Now()) && QueuesOk(Now(), bound)
      ensures Visited(q0, Now(), i, changed)
    {
      ghost var q := Now();
      HeadReady(q, i, bound);
      ghost var given;
      changed, given := TryJob(i, now);
      DropIfStarted(i, changed, q, now, given, bound);
      VisitedAfterSkip(q0, q, Now(), i, changed);
    }

    /** After an attempt on the head of queue i: drop the job from the queue if it started. */
    method DropIfStarted(
      i: nat, started: bool, ghost q: Q, ghost now: int, ghost given: Option<Allocation>, ghost bound: nat)
      requires Linked() && Orderly(Now()) && QueuesOk(q, bound)
      requires i < |machines| && |q.machines| == |machines| && |q.views| == |views| && q.machines[i].queue != []
      requires Gives(q, i, q.machines[i].queue[0], now, views[i], given) && (started <==> given.Some?)
      requires started ==> Now() == Start(q, i, q.machines[i].queue[0], views[i], given.value)
      requires !started ==> Now() == q.(views := q.views[i := views[i]]) && Settled(Now(), i)
      modifies this`machines
      ensures Linked() && Orderly(Now()) && QueuesOk(Now(), bound)
      ensures Visited(q, Now(), i, started)
    {
      if started {
        StartKeepsQueues(q, i, q.machines[i].queue[0], views[i], given.value, bound);
        StartVisited(q, i, q.machines[i].queue[0], now, views[i], given.value);
        PopHead(i, bound);
      } else {
        RestVisited(q, i, q.machines[i].queue[0], now, views[i], bound);
      }
    }

    /** One pass over all the machines. */
    method ProcessOnce(now: int, ghost bound: nat) returns (changed: bool)
      requires Linked() && Orderly(Now()) && QueuesOk(Now(), bound)
      modifies Repr
      ensures Linked() && Grown() && Orderly(Now()) && QueuesOk(Now(), bound)
      ensures Passed(old(Now()), Now(), |machines|, changed)
    {
      ghost var q := Now();
      changed := false;
      PassStarts(q);
      var i := 0;
      while i < |machines|
        invariant Linked() && Grown() && Orderly(Now()) && QueuesOk(Now(), bound)
        invariant i <= |machines| && Passed(q, Now(), i, changed)
        decreases |machines| - i
      {
        ghost var q1 := Now();
        var started := ProcessMachine(i, now, bound);
        PassGoesOn(q, q1, Now(), i, changed, started);
        changed := changed || started;
        i := i + 1;
      }
    }

    /**
     * Process the queues until no more jobs can start. Afterwards every queue is empty, or headed by a job that
     * waits and that its machine has just refused.
     */
    method ProcessQueue(now: int, ghost bound: nat)
      requires Sound(bound)
      modifies Repr
      ensures Sound(bound) && Grown()
      ensures Processed(old(Now()), Now())
    {
      ghost var q := Now();
      ProgressReflexive(q);
      if postpone > 0 {
        return;
      }
      var changed := true;
      while changed
        invariant Linked() && Grown() && Orderly(Now()) && QueuesOk(Now(), bound)
        invariant Progress(q, Now()) && (!changed ==> |views| == |machines| && AllSettled(Now(), |machines|))
        decreases |Waiting(all)|, if changed then 1 else 0
      {
        ghost var q1 := Now();
        changed := ProcessOnce(now, bound);
        ProgressTransitive(q, q1, Now());
        WaitingShrinks(q1, Now());
      }
    }

    /** The position of the job with this identifier, or -1. */
    method FindJob(id: int) returns (k: int)
      requires forall s :: s in jobs ==> s in all
      ensures k == -1 || IsJob(Now(), k, id)
      ensures k == -1 <==> !HasJob(Now(), id)
    {
      k := 0;
      while k < |jobs|
        invariant 0 <= k <= |jobs|
        invariant forall l :: 0 <= l < k ==> all[jobs[l]].id != id
      {
        if all[jobs[k]].id == id {
          return;
        }
        k := k + 1;
      }
      k := -1;
    }

    /** Cancel a job that waits, or announce that an allocated one is being destroyed; then process the queues. */
    method DestroyJob(id: int, now: int, ghost bound: nat) returns (ghost k: int)
      requires Sound(bound)
      requires HasJob(Now(), id)
      modifies Repr
      ensures Sound(bound) && Grown()
      ensures IsJob(old(Now()), k, id) && Processed(Destroy(old(Now()), k), Now())
      ensures var s := old(jobs)[k]; old(log) + [if old(all)[s].pending then OnCancel(s) else OnFree(s)] <= log
    {
      ghost var q := Now();
      JobsKnown(q);
      var at := FindJob(id);
      k := at;
      DestroyKeeps(q, at, bound);
      MarkDestroyed(at);
      ProcessQueue(now, bound);
    }

    static lemma JobsKnown(q: Q)
      requires Base(q)
      ensures forall s :: s in q.jobs ==> s in q.all
    {
      Open(q);
    }

    method MarkDestroyed(k: nat)
      requires Linked() && k < |jobs| && jobs[k] in all
      modifies this`all, this`jobs, this`log
      ensures Linked() && Now() == Destroy(old(Now()), k)
    {
      var s := jobs[k];
      if all[s].pending {
        all := all[s := all[s].(pending := false)];
        log := log + [OnCancel(s)];
        jobs := Remove(jobs, k);
      } else {
        log := log + [OnFree(s)];
      }
    }

    /** Ask machine i to free an allocation. */
    method AskFree(i: nat, id: int, now: int)
      requires Linked() && i < |machines| && Inv(machines[i].allocator.machine, views[i]) && id in views[i].live
      modifies machines[i].allocator.Repr
      ensures LinkedBut(i) && machines[i].allocator.Shaped() && this !in machines[i].allocator.Repr
      ensures machines[i].allocator.Repr == old(machines[i].allocator.Repr)
      ensures machines[i].allocator.View() == Release(views[i], id, now)
    {
      var ok := machines[i].allocator.Free(id, now);
    }

    method CallFree(i: nat, id: int, now: int)
      requires Linked() && i < |machines| && Inv(machines[i].allocator.machine, views[i]) && id in views[i].live
      modifies this`views, this`Repr, machines[i].allocator.Repr
      ensures Linked() && Grown()
      ensures views == old(views)[i := Release(old(views)[i], id, now)]
    {
      AskFree(i, id, now);
      Relink(i);
    }

    /** Free the boards of a destroyed job; an unknown identifier is ignored. */
    method Free(id: int, now: int, ghost bound: nat) returns (ghost k: int, ghost i: nat)
      requires Sound(bound)
      requires forall l :: IsJob(Now(), l, id) ==> !all[jobs[l]].pending
      modifies Repr
      ensures Sound(bound) && Grown()
      ensures k == -1 ==> !HasJob(old(Now()), id) && Now() == old(Now())
      ensures k != -1 ==> IsJob(old(Now()), k, id) && Freeable(old(Now()), k, i)
      ensures k != -1 ==> Processed(Freed(old(Now()), k, i, now), Now())
    {
      ghost var q := Now();
      JobsKnown(q);
      var at := FindJob(id);
      k, i := at, 0;
      if at != -1 {
        i := FreeAllocated(at, now, bound);
      }
    }

    method FreeAllocated(k: nat, now: int, ghost bound: nat) returns (ghost i: nat)
      requires Sound(bound)
      requires k < |jobs| && jobs[k] in all && !all[jobs[k]].pending
      modifies Repr
      ensures Sound(bound) && Grown()
      ensures Freeable(old(Now()), k, i) && Processed(Freed(old(Now()), k, i, now), Now())
    {
      i := ReleaseBoards(k, now, bound);
      ProcessQueue(now, bound);
    }

    /** Give the boards of job k back to its machine. */
    method ReleaseBoards(k: nat, now: int, ghost bound: nat) returns (ghost i: nat)
      requires Sound(bound)
      requires k < |jobs| && jobs[k] in all && !all[jobs[k]].pending
      modifies Repr
      ensures Sound(bound) && Grown()
      ensures Freeable(old(Now()), k, i) && Now() == Freed(old(Now()), k, i, now)
    {
      var m := MachineOf(k, now, bound);
      i := m;
      DropJob(k, m, now);
    }

    method MachineOf(k: nat, ghost now: int, ghost bound: nat) returns (m: nat)
      requires Orderly(Now()) && Tidy(Now(), bound)
      requires k < |jobs| && jobs[k] in all && !all[jobs[k]].pending
      ensures Freeable(Now(), k, m)
      ensures Base(Freed(Now(), k, m, now)) && Tidy(Freed(Now(), k, m, now), bound)
    {
      MachineExists(Now(), k);
      m := FindMachine(all[jobs[k]].machine.value);
      FreeReady(Now(), k, m, now, bound);
    }

    method FindMachine(name: string) returns (m: nat)
      requires exists i :: 0 <= i < |machines| && machines[i].name == name
      ensures m < |machines| && machines[m].name == name
    {
      m := 0;
      while machines[m].name != name
        invariant m < |machines|
        invariant exists i :: m <= i < |machines| && machines[i].name == name
        decreases |machines| - m
      {
        m := m + 1;
      }
    }

    method DropJob(k: nat, i: nat, now: int)
      requires Linked() && Freeable(Now(), k, i)
      modifies this`jobs, this`views, this`Repr, machines[i].allocator.Repr
      ensures Linked() && Grown()
      ensures Now() == Freed(old(Now()), k, i, now)
    {
      CallFree(i, all[jobs[k]].allocationId, now);
      ForgetJob(k);
    }

    method ForgetJob(k: nat)
      requires Linked() && k < |jobs|
      modifies this`jobs
      ensures Linked() && jobs == Remove(old(jobs), k)
    {
      jobs := Remove(jobs, k);
    }

    /**
     * Put a job at the end of the queue of every machine it asks for that could ever serve it. The error that a
     * machine raises about the job is passed on, with nothing queued.
     */
    method OfferToAll(s: Serial) returns (found: bool, raised: bool)
      requires Linked() && Orderly(Now()) && s in all
      modifies this`machines
      ensures Linked() && (raised <==> Balks(old(machines), all[s], |old(machines)|))
      ensures raised ==> !found && machines == old(machines)
      ensures !raised ==> OfferedTo(old(machines), machines, all[s], s, |machines|)
      ensures !raised ==> (found <==> HasCandidate(old(machines), all[s], |machines|))
    {
      ghost var q := Now();
      var job := all[s];
      found, raised := false, false;
      OfferedNowhere(machines, job, s);
      var i := 0;
      while i < |machines|
        invariant Linked() && i <= |machines| && |machines| == |q.machines|
        invariant OfferedTo(q.machines, machines, job, s, i) && !Balks(q.machines, job, i)
        invariant found <==> HasCandidate(q.machines, job, i)
      {
        AllocatorPositive(q, i);
        OfferedFurther(q.machines, machines, job, s, i);
        var taken;
        taken, raised := OfferToOne(i, job, s);
        if raised {
          RaisedNothingQueued(q.machines, machines, job, s, i);
          return false, true;
        }
        found := found || taken;
        i := i + 1;
      }
    }

    method OfferToOne(i: nat, job: Job, s: Serial) returns (taken: bool, raised: bool)
      requires Linked() && i < |machines| && machines[i].allocator.machine.Positive()
      modifies this`machines
      ensures Linked()
      ensures raised <==> Matches(job, old(machines)[i]) && Raises(old(machines)[i].allocator.machine, job.demand)
      ensures raised ==> machines == old(machines)
      ensures !raised ==> (taken <==> Candidate(job, old(machines)[i]))
      ensures !raised ==> machines == old(machines)[i := Offer(old(machines)[i], job, s)]
    {
      var rec := machines[i];
      taken, raised := false, false;
      if Matches(job, rec) {
        taken, raised := rec.allocator.AllocPossible(job.demand);
        if !raised && taken {
          SetQueue(i, rec.queue + [s]);
        }
      }
    }

    /**
     * Offer a job that waits, and is later than every job queued, to all machines; cancel it if none could ever
     * serve it; then process the queues. An error that a machine raises about the job is passed on, and the job
     * stays in the dictionary, waiting in no queue.
     */
    method EnqueueJob(ghost q: Q, ghost k: nat, s: Serial, now: int) returns (raised: bool, cancelled: bool)
      requires Sound(s) && Now() == q && k < |q.jobs| && q.jobs[k] == s && s in q.all && q.all[s].pending
      modifies Repr
      ensures Sound(s + 1) && Grown() && Served(q, s, k, Now())
      ensures raised <==> q.postpone == 0 && Balks(q.machines, q.all[s], |q.machines|)
      ensures cancelled <==> q.postpone == 0 && !raised && !HasCandidate(q.machines, q.all[s], |q.machines|)
    {
      raised, cancelled := false, false;
      if postpone == 0 {
        raised, cancelled := EnqueueNow(q, k, s, now);
      }
    }

    method EnqueueNow(ghost q: Q, ghost k: nat, s: Serial, now: int) returns (raised: bool, cancelled: bool)
      requires Sound(s) && Now() == q && k < |q.jobs| && q.jobs[k] == s && s in q.all && q.all[s].pending && postpone == 0
      modifies Repr
      ensures Sound(s + 1) && Grown() && Served(q, s, k, Now())
      ensures raised <==> Balks(q.machines, q.all[s], |q.machines|)
      ensures cancelled <==> !raised && !HasCandidate(q.machines, q.all[s], |q.machines|)
    {
      var found;
      found, raised := QueueEverywhere(s);
      cancelled := !found && !raised;
      if !raised {
        AfterOffer(q, k, s, found, now);
      }
    }

    /** Process the queues after a job has been queued, or cancel it if no machine has taken it. */
    method AfterOffer(ghost q: Q, ghost k: nat, s: Serial, found: bool, now: int)
      requires Sound(s + 1) && q.postpone == 0 && k < |q.jobs| && q.jobs[k] == s && s in q.all && q.all[s].pending
      requires found <==> HasCandidate(q.machines, q.all[s], |q.machines|)
      requires !Balks(q.machines, q.all[s], |q.machines|)
      requires if found then Progress(q, Now()) else Now() == q
      modifies Repr
      ensures Sound(s + 1) && Grown() && Served(q, s, k, Now())
    {
      if found {
        StartQueued(q, k, s, now);
      } else {
        CancelUnserved(k, s, now);
      }
    }

    method StartQueued(ghost q: Q, ghost k: nat, s: Serial, now: int)
      requires Sound(s + 1) && Progress(q, Now()) && q.postpone == 0
      requires k < |q.jobs| && q.jobs[k] == s && s in q.all && HasCandidate(q.machines, q.all[s], |q.machines|)
      requires !Balks(q.machines, q.all[s], |q.machines|)
      modifies Repr
      ensures Sound(s + 1) && Grown()
      ensures Served(q, s, k, Now())
    {
      ghost var q1 := Now();
      ProcessQueue(now, s + 1);
      ServedByOffer(q, s, k, q1, Now());
    }

    method QueueEverywhere(s: Serial) returns (found: bool, raised: bool)
      requires Sound(s) && postpone == 0 && s in all && all[s].pending
      modifies this`machines
      ensures Sound(s + 1) && Progress(old(Now()), Now())
      ensures raised <==> Balks(old(machines), all[s], |old(machines)|)
      ensures found <==> HasCandidate(old(machines), all[s], |old(machines)|)
      ensures !found ==> Now() == old(Now())
    {
      ghost var q := Now();
      found, raised := OfferToAll(s);
      if raised {
        BalksNowhere(q.machines, all[s], |q.machines|);
        NoOfferNeeded(q, s);
      } else {
        OfferedKeeps(q, machines, s);
        if !found {
          OfferedToNone(q.machines, machines, all[s], s, |machines|);
        }
      }
    }

    method CancelUnserved(ghost k: nat, s: Serial, now: int)
      requires Sound(s + 1) && postpone == 0
      requires k < |jobs| && jobs[k] == s && s in all && all[s].pending
      requires !HasCandidate(machines, all[s], |machines|) && !Balks(machines, all[s], |machines|)
      modifies Repr
      ensures Sound(s + 1) && Grown()
      ensures Served(old(Now()), s, k, Now())
    {
      ghost var q := Now();
      HasThisJob(q, k);
      ghost var l := DestroyJob(all[s].id, now, s + 1);
      IdIsUnique(q, k, l);
      ghost var q1 := Now();
      ProcessQueue(now, s + 1);
      ServedByCancel(q, s, k, q1, Now());
    }

    static lemma HasThisJob(q: Q, k: nat)
      requires k < |q.jobs| && q.jobs[k] in q.all
      ensures HasJob(q, q.all[q.jobs[k]].id)
    {
    }

    method ClearQueues()
      requires Linked()
      modifies this`machines
      ensures Linked() && Cleared(old(machines), machines)
    {
      ghost var before := machines;
      var i := 0;
      while i < |machines|
        invariant Linked() && i <= |machines| == |before|
        invariant forall k :: 0 <= k < i ==> machines[k] == before[k].(queue := [])
        invariant forall k :: i <= k < |machines| ==> machines[k] == before[k]
      {
        SetQueue(i, []);
        i := i + 1;
      }
    }

    /**
     * Rebuild all queues: every job that waits is offered again, in order of creation. True stands for the error
     * that breaks the rebuilding off, with only the jobs up to that point queued and the others stranded.
     */
    method RegenerateQueues(now: int) returns (raised: bool)
      requires Linked() && Orderly(Now())
      modifies Repr
      ensures Sound(nextSerial) && Grown() && Evolves(old(Now()), Now())
      ensures raised <==> old(postpone) == 0 && BreaksOff(old(Now()))
      ensures raised ==> exists i :: BrokenOffAt(old(Now()), Now(), i)
      ensures !raised ==> if postpone > 0 then Now() == old(Now()) else AllQueued()
    {
      EvolvesReflexive(Now());
      if postpone > 0 {
        return false;
      }
      raised := ReofferAll(now);
    }

    /** The queues have been rebuilt and processed, and no job has been left out. */
    ghost predicate AllQueued()
      reads this
    {
      stranded == {} && |views| == |machines| && AllSettled(Now(), |machines|)
    }

    method ReofferAll(now: int) returns (raised: bool)
      requires Linked() && Orderly(Now()) && postpone == 0
      modifies Repr
      ensures Sound(nextSerial) && Grown() && Evolves(old(Now()), Now())
      ensures raised <==> BreaksOff(old(Now()))
      ensures !raised ==> AllQueued()
      ensures raised ==> exists i :: BrokenOffAt(old(Now()), Now(), i)
    {
      ghost var q0 := Now();
      var snapshot := jobs;
      StartRebuilding();
      PatienceStarts(q0, Now());
      ghost var at;
      raised, at := ReofferEach(q0, snapshot, now);
      RebuildingEnds(q0, Now(), raised, at);
    }

    /** The loop over the dictionary; it cannot go on once it has changed the dictionary and has more of it to visit. */
    method ReofferEach(ghost q0: Q, snapshot: seq<Serial>, now: int) returns (raised: bool, ghost at: nat)
      requires Linked() && snapshot == q0.jobs && Rebuilding(q0, Now(), 0) && Patient(q0, Now(), 0)
      modifies Repr
      ensures Linked() && Grown()
      ensures if raised then BrokenOffAt(q0, Now(), at)
              else Rebuilding(q0, Now(), |snapshot|) && Patient(q0, Now(), |snapshot|)
    {
      var i := 0;
      at := 0;
      while i < |snapshot|
        invariant Linked() && Grown() && i <= |snapshot| && Rebuilding(q0, Now(), i) && Patient(q0, Now(), i)
      {
        raised := ReofferJob(q0, i, snapshot[i], i + 1 < |snapshot|, now);
        if raised {
          return true, i;
        }
        i := i + 1;
      }
      raised := false;
    }

    static lemma RebuildingEnds(q0: Q, q: Q, raised: bool, at: nat)
      requires if raised then BrokenOffAt(q0, q, at) else Rebuilding(q0, q, |q0.jobs|) && Patient(q0, q, |q0.jobs|)
      ensures Orderly(q) && Tidy(q, q.nextSerial) && Evolves(q0, q) && (raised <==> BreaksOff(q0))
      ensures raised ==> exists i :: BrokenOffAt(q0, q, i)
      ensures !raised ==> q.stranded == {} && |q.views| == |q.machines| && AllSettled(q, |q.machines|)
    {
      if !raised {
        Rebuilt(q0, q);
        NeverBrokenOff(q0, q);
      }
    }

    method StartRebuilding()
      requires Linked() && Orderly(Now()) && postpone == 0
      modifies this`machines, this`stranded
      ensures Linked() && Rebuilding(old(Now()), Now(), 0) && all == old(all)
    {
      ghost var q0 := Now();
      ClearQueues();
      stranded := {};
      ClearedKeeps(q0, machines);
      CloseRebuilding(q0, Now(), 0);
    }

    /** Offer one entry again, if it still waits; more says whether the loop has others to visit. */
    method ReofferJob(ghost q0: Q, ghost i: nat, s: Serial, more: bool, now: int) returns (raised: bool)
      requires Linked() && i < |q0.jobs| && s == q0.jobs[i] && (more <==> i < |q0.jobs| - 1)
      requires Rebuilding(q0, Now(), i) && Patient(q0, Now(), i)
      modifies Repr
      ensures Linked() && Grown() && (raised <==> Interrupts(q0, i))
      ensures if raised then BrokenOffAt(q0, Now(), i) else Rebuilding(q0, Now(), i + 1) && Patient(q0, Now(), i + 1)
    {
      ghost var q := Now();
      RebuildNext(q0, q, i);
      RebuildInterrupts(q0, q, i);
      raised := false;
      if all[s].pending {
        raised := OfferAgain(q0, q, i, s, more, now);
      } else {
        RebuildSkips(q0, q, i);
      }
    }

    method OfferAgain(ghost q0: Q, ghost q: Q, ghost i: nat, s: Serial, more: bool, now: int) returns (raised: bool)
      requires Sound(s) && Now() == q && s in q.jobs && s in q.all && q.all[s].pending && postpone == 0
      requires i < |q0.jobs| && s == q0.jobs[i] && Rebuilding(q0, q, i) && Patient(q0, q, i)
      requires Interrupts(q0, i) <==> Stops(q, s, more)
      modifies Repr
      ensures Linked() && Grown()
      ensures raised <==> Stops(q, s, more)
      ensures if raised then BrokenOffAt(q0, Now(), i) else Rebuilding(q0, Now(), i + 1) && Patient(q0, Now(), i + 1)
    {
      ghost var k;
      raised, k := EnqueueOrBreak(q, s, more, now);
      Proceed(q0, q, i, k, raised);
    }

    /** After an entry has been offered again, the rebuilding goes on, or ends with the jobs behind the entry stranded. */
    ghost method Proceed(q0: Q, q: Q, i: nat, k: nat, raised: bool)
      requires Linked() && Orderly(Now()) && i < |q0.jobs| && Rebuilding(q0, q, i) && Patient(q0, q, i)
      requires Tidy(Now(), q0.jobs[i] + 1) && q0.jobs[i] in q.all && q.all[q0.jobs[i]].pending
      requires Served(q, q0.jobs[i], k, Now()) && (raised <==> Interrupts(q0, i))
      modifies this`stranded
      ensures Linked()
      ensures if raised then BrokenOffAt(q0, Now(), i) else Rebuilding(q0, Now(), i + 1) && Patient(q0, Now(), i + 1)
    {
      RebuildGoesOn(q0, q, i, k, Now());
      if raised {
        LeaveOut(q0, i);
      }
    }

    /** Offer a job of the dictionary; true if that raises an error, or if it is cancelled and the loop has more to visit. */
    method EnqueueOrBreak(ghost q: Q, s: Serial, more: bool, now: int) returns (raised: bool, ghost k: nat)
      requires Sound(s) && Now() == q && s in q.jobs && s in q.all && q.all[s].pending && postpone == 0
      modifies Repr
      ensures Linked() && Grown() && Orderly(Now()) && Tidy(Now(), s + 1) && Served(q, s, k, Now())
      ensures raised <==> Stops(q, s, more)
    {
      k := PositionOf(q, s);
      var error, cancelled := EnqueueSnapshot(q, k, s, now);
      raised := error || (cancelled && more);
    }

    /** The same while the queues are rebuilt, when they are not suspended. */
    method EnqueueSnapshot(ghost q: Q, ghost k: nat, s: Serial, now: int) returns (raised: bool, cancelled: bool)
      requires Sound(s) && Now() == q && k < |q.jobs| && q.jobs[k] == s && s in q.all && q.all[s].pending && postpone == 0
      modifies Repr
      ensures Linked() && Grown() && Orderly(Now()) && Tidy(Now(), s + 1) && Served(q, s, k, Now())
      ensures raised || cancelled <==> Unservable(q, s)
      ensures raised <==> Balks(q.machines, q.all[s], |q.machines|)
    {
      BalksMeansUnservable(q, s);
      raised, cancelled := EnqueueNow(q, k, s, now);
    }

    /** The rebuilding ends at entry i; the jobs behind it are stranded. */
    ghost method LeaveOut(q0: Q, i: nat)
      requires Linked() && i < |q0.jobs| && Rebuilding(q0, Now(), i + 1) && Interrupts(q0, i)
      requires forall k {:trigger Interrupts(q0, k)} :: 0 <= k < i ==> !Interrupts(q0, k)
      modifies this`stranded
      ensures Linked() && BrokenOffAt(q0, Now(), i)
    {
      StrandedKeeps(q0, Now(), i);
      stranded := LeftOut(Now(), q0.jobs[i]);
    }

    /** Suspend queue management. */
    method Enter()
      requires Linked() && Orderly(Now())
      modifies this`postpone
      ensures Sound(nextSerial) && Now() == old(Now()).(postpone := old(postpone) + 1)
    {
      PostponeKeepsBase(Now(), postpone + 1);
      postpone := postpone + 1;
    }

    /** Resume queue management, and rebuild the queues when nobody else has suspended it. */
    method Exit(now: int) returns (raised: bool)
      requires Linked() && Orderly(Now()) && postpone > 0
      modifies Repr
      ensures Sound(nextSerial) && Grown()
      ensures Evolves(old(Now()).(postpone := old(postpone) - 1), Now())
      ensures raised <==> old(postpone) == 1 && BreaksOff(old(Now()))
      ensures !raised && postpone == 0 ==> AllQueued()
    {
      SameInterruptions(Now(), Now().(postpone := postpone - 1));
      LowerPostpone();
      raised := RegenerateQueues(now);
    }

    method LowerPostpone()
      requires Linked() && Orderly(Now()) && postpone > 0
      modifies this`postpone
      ensures Linked() && Orderly(Now()) && Now() == old(Now()).(postpone := old(postpone) - 1)
    {
      PostponeKeepsBase(Now(), postpone - 1);
      postpone := postpone - 1;
    }

    /**
     * Create a job. A job that names a machine may not be given tags, and needs none. A job about which a machine
     * raises an error is created all the same, and stays in the dictionary.
     */
    method CreateJob(id: int, machineName: Option<string>, tags: Option<set<string>>, demand: Demand, now: int)
      returns (r: Creation)
      requires Sound(nextSerial)
      modifies Repr
      ensures Sound(nextSerial) && Grown()
      ensures r == CreationFor(old(Now()), id, machineName, tags, demand)
      ensures r == DuplicateId || r == MachineAndTags ==> Now() == old(Now())
      ensures r == Accepted || r == ValueError ==>
                var q := Create(old(Now()), NewJob(id, machineName, tags, demand));
                Served(q, old(nextSerial), |old(jobs)|, Now()) && (r == ValueError ==> Now() == q)
    {
      JobsKnown(Now());
      var k := FindJob(id);
      if k != -1 {
        return DuplicateId;
      }
      if machineName.Some? && tags.Some? {
        return MachineAndTags;
      }
      var raised := EnterJob(NewJob(id, machineName, tags, demand), now);
      r := if raised then ValueError else Accepted;
    }

    method EnterJob(job: Job, now: int) returns (raised: bool)
      requires Sound(nextSerial) && job.pending && job.machine.None? && !HasJob(Now(), job.id)
      modifies Repr
      ensures Sound(nextSerial) && Grown()
      ensures Served(Create(old(Now()), job), old(nextSerial), |old(jobs)|, Now())
      ensures raised <==> old(postpone) == 0 && Balks(old(machines), job, |old(machines)|)
    {
      var s := nextSerial;
      AddJob(job);
      raised := OfferLast(s, job, now);
    }

    /** Offer the last job of the dictionary to the machines. */
    method OfferLast(s: Serial, ghost job: Job, now: int) returns (raised: bool)
      requires Sound(s) && jobs != [] && jobs[|jobs| - 1] == s && s in all && all[s] == job && job.pending
      modifies Repr
      ensures Sound(s + 1) && Grown() && nextSerial == old(nextSerial)
      ensures Served(old(Now()), s, |old(jobs)| - 1, Now())
      ensures raised <==> old(postpone) == 0 && Balks(old(machines), job, |old(machines)|)
    {
      ghost var q := Now();
      var cancelled;
      raised, cancelled := EnqueueJob(q, |q.jobs| - 1, s, now);
      ServedSerials(q, s, |q.jobs| - 1, Now());
    }

    method AddJob(job: Job)
      requires Sound(nextSerial) && job.pending && job.machine.None? && !HasJob(Now(), job.id)
      modifies this`all, this`jobs, this`nextSerial
      ensures Sound(old(nextSerial)) && Now() == Create(old(Now()), job) && jobs == old(jobs) + [old(nextSerial)]
    {
      CreateKeepsBase(Now(), job);
      CreateKeepsOrder(Now(), job);
      CreateKeepsQueues(Now(), job);
      RecordJob(job);
    }

    method RecordJob(job: Job)
      requires Linked()
      modifies this`all, this`jobs, this`nextSerial
      ensures Linked() && Now() == Create(old(Now()), job)
    {
      all := all[nextSerial := job];
      jobs := jobs + [nextSerial];
      nextSerial := nextSerial + 1;
    }

    /** Let machine i free the boards whose quarantine is over. */
    method AskCheckFree(i: nat, now: int) returns (changed: bool)
      requires Linked() && i < |machines| && Inv(machines[i].allocator.machine, views[i])
      modifies machines[i].allocator.Repr
      ensures LinkedBut(i) && machines[i].allocator.Valid() && this !in machines[i].allocator.Repr
      ensures fresh(machines[i].allocator.Repr - old(machines[i].allocator.Repr))
      ensures machines[i].allocator.View() == CheckedView(old(Now()), i, now)
      ensures changed <==> |machines[i].allocator.View().toFree| < |old(machines[i].allocator.View()).toFree|
    {
      changed := machines[i].allocator.CheckFree(now);
    }

    method CallCheckFree(i: nat, now: int) returns (changed: bool)
      requires Linked() && i < |machines| && Inv(machines[i].allocator.machine, views[i])
      modifies this`views, this`Repr, machines[i].allocator.Repr
      ensures Linked() && Grown()
      ensures views == old(views)[i := CheckedView(old(Now()), i, now)]
      ensures changed <==> |views[i].toFree| < |old(views)[i].toFree|
    {
      changed := AskCheckFree(i, now);
      Relink(i);
    }

    /** Let every machine free the boards whose quarantine is over; changed says whether any did. */
    method CheckAll(now: int) returns (changed: bool)
      requires Linked() && Orderly(Now())
      modifies Repr
      ensures Linked() && Grown() && Orderly(Now())
      ensures Now() == old(Now()).(views := views) && CheckedTo(old(Now()), views, |machines|, now)
      ensures changed <==> views != old(views)
    {
      ghost var q := Now();
      changed := false;
      CheckStarts(q, now);
      var i := 0;
      while i < |machines|
        invariant Linked() && Grown() && Orderly(Now()) && Now() == q.(views := views)
        invariant i <= |machines| && CheckedTo(q, views, i, now) && (changed <==> views != q.views)
      {
        var freed := CheckOne(q, i, now);
        changed := changed || freed;
        i := i + 1;
      }
    }

    method CheckOne(ghost q: Q, i: nat, now: int) returns (changed: bool)
      requires Linked() && Orderly(Now()) && Now() == q.(views := views) && i < |machines|
      requires CheckedTo(q, views, i, now)
      modifies Repr
      ensures Linked() && Grown() && Orderly(Now())
      ensures Now() == q.(views := views) && CheckedTo(q, views, i + 1, now)
      ensures (changed || old(views) != q.views) <==> views != q.views
    {
      CheckGoesOn(q, views, i, now);
      changed := CallCheckFree(i, now);
    }

    /** Return boards whose quarantine is over, and process the queues if there were any. */
    method CheckFree(now: int, ghost bound: nat) returns (ghost checked: seq<State>)
      requires Sound(bound)
      modifies Repr
      ensures Sound(bound) && Grown()
      ensures postpone > 0 ==> Now() == old(Now())
      ensures postpone == 0 ==>
                && CheckedTo(old(Now()), checked, |old(machines)|, now)
                && var q := old(Now()).(views := checked);
                   if checked == old(views) then Now() == q else Processed(q, Now())
    {
      checked := views;
      if postpone > 0 {
        return;
      }
      ghost var q := Now();
      var changed := CheckAll(now);
      checked := views;
      CheckKeepsTidy(q, checked, bound);
      if changed {
        ProcessQueue(now, bound);
      }
    }

    /**
     * Add a machine; the name must be new. A machine without tags gets the default one. The machine stays even if
     * rebuilding the queues breaks off.
     */
    method AddMachine(name: string, machine: Machine, tags: Option<set<string>>, now: int)
      returns (ok: bool, raised: bool, ghost added: Q)
      requires Sound(nextSerial) && machine.Positive()
      modifies Repr
      ensures Sound(nextSerial) && Grown()
      ensures ok <==> forall i :: 0 <= i < |old(machines)| ==> old(machines)[i].name != name
      ensures !ok ==> Now() == old(Now()) && !raised
      ensures ok ==> MachineJoined(old(Now()), added, name, machine, TagsOrDefault(tags), secondsBeforeFree) && Evolves(added, Now())
      ensures ok ==> (raised <==> old(postpone) == 0 && BreaksOff(added))
      ensures ok && !raised && postpone == 0 ==> AllQueued()
    {
      ok := NameIsNew(name);
      raised, added := false, Now();
      if ok {
        InstallMachine(name, machine, TagsOrDefault(tags));
        added := Now();
        raised := RegenerateQueues(now);
      }
    }

    method NameIsNew(name: string) returns (ok: bool)
      ensures ok <==> forall i :: 0 <= i < |machines| ==> machines[i].name != name
    {
      var i := 0;
      while i < |machines|
        invariant i <= |machines| && forall k :: 0 <= k < i ==> machines[k].name != name
      {
        if machines[i].name == name {
          return false;
        }
        i := i + 1;
      }
      ok := true;
    }

    method InstallMachine(name: string, machine: Machine, tags: set<string>)
      requires Linked() && Orderly(Now()) && machine.Positive()
      requires forall i :: 0 <= i < |machines| ==> machines[i].name != name
      modifies this
      ensures Linked() && Grown() && Orderly(Now())
      ensures MachineJoined(old(Now()), Now(), name, machine, tags, secondsBeforeFree)
    {
      ghost var q := Now();
      var a := new Allocator(machine, 1, secondsBeforeFree);
      var rec := MachineRec(name, tags, a, []);
      AddMachineKeepsBase(q, rec, Initial(machine, 1));
      Attach(rec);
    }

    method Attach(rec: MachineRec)
      requires Linked() && rec.allocator.Shaped() && rec.allocator.Repr !! Repr
      modifies this`machines, this`views, this`Repr
      ensures Linked() && Repr == old(Repr) + rec.allocator.Repr
      ensures Now() == JobQueueModel.AddMachine(old(Now()), rec, rec.allocator.View())
    {
      ghost var q := Now();
      machines := machines + [rec];
      views, Repr := views + [rec.allocator.View()], Repr + rec.allocator.Repr;
      assert Now() == JobQueueModel.AddMachine(q, rec, rec.allocator.View());
    }

    /**
     * Remove a machine: every job on it is told that it is freed, and gives up its boards. The machine goes even if
     * rebuilding the queues afterwards breaks off.
     */
    method RemoveMachine(name: string, now: int) returns (raised: bool, i: nat, ghost evicted: Q)
      requires Linked() && Orderly(Now()) && exists k :: 0 <= k < |machines| && machines[k].name == name
      modifies Repr
      ensures Sound(nextSerial) && Grown()
      ensures i < |old(machines)| && old(machines)[i].name == name
      ensures Removed(old(Now()), i, evicted, Now(), raised)
      ensures !raised && postpone == 0 ==> AllQueued()
    {
      i := FindMachine(name);
      raised, evicted := RemoveMachineAt(i, name, now);
    }

    method RemoveMachineAt(i: nat, name: string, now: int) returns (raised: bool, ghost evicted: Q)
      requires Linked() && Orderly(Now()) && i < |machines| && machines[i].name == name
      modifies Repr
      ensures Sound(nextSerial) && Grown()
      ensures Removed(old(Now()), i, evicted, Now(), raised)
      ensures !raised && postpone == 0 ==> AllQueued()
    {
      Enter();
      evicted := TakeOutOfService(i, name, now);
      raised := ExitWithout(name, now);
    }

    /** Free the jobs on machine i and forget the machine. */
    method TakeOutOfService(i: nat, name: string, now: int) returns (ghost evicted: Q)
      requires Sound(nextSerial) && postpone > 0 && i < |machines| && machines[i].name == name
      modifies Repr
      ensures Sound(nextSerial) && Grown()
      ensures Evicted(old(Now()), evicted, name, |old(jobs)|) && i < |evicted.machines|
      ensures Now() == JobQueueModel.RemoveMachine(evicted, i)
      ensures forall k :: 0 <= k < |machines| ==> machines[k].name != name
    {
      ghost var q := Now();
      EvictJobs(name, now);
      evicted := Now();
      EvictionEnds(q, evicted, i);
      NameGone(evicted, i);
      UninstallMachine(i);
    }

    /** Resume queue management after the machine of this name has gone. */
    method ExitWithout(name: string, now: int) returns (raised: bool)
      requires Sound(nextSerial) && postpone > 0 && forall k :: 0 <= k < |machines| ==> machines[k].name != name
      modifies Repr
      ensures Sound(nextSerial) && Grown()
      ensures Evolves(old(Now()).(postpone := old(postpone) - 1), Now())
      ensures Forgotten(Now(), name)
      ensures raised <==> old(postpone) == 1 && BreaksOff(old(Now()))
      ensures !raised && postpone == 0 ==> AllQueued()
    {
      ghost var before := machines;
      raised := Exit(now);
      SameNames(before, machines, name);
      NoGhostMachines(Now(), name);
    }

    /** Free all jobs allocated on a machine, while queue management is suspended. */
    method EvictJobs(name: string, now: int)
      requires Sound(nextSerial) && postpone > 0
      modifies Repr
      ensures Sound(nextSerial) && Grown()
      ensures Evicted(old(Now()), Now(), name, |old(jobs)|)
    {
      ghost var q := Now();
      var snapshot := jobs;
      EvictionStarts(q, name);
      var n := 0;
      while n < |snapshot|
        invariant Sound(nextSerial) && Grown() && n <= |snapshot| && Evicted(q, Now(), name, n)
      {
        EvictJob(q, name, n, snapshot[n], now);
        n := n + 1;
      }
    }

    method EvictJob(ghost q: Q, name: string, ghost n: nat, s: Serial, now: int)
      requires Base(q) && q.postpone > 0 && Sound(nextSerial) && n < |q.jobs| && s == q.jobs[n]
      requires Evicted(q, Now(), name, n)
      modifies Repr
      ensures Sound(nextSerial) && Grown()
      ensures Evicted(q, Now(), name, n + 1)
    {
      ghost var q1 := Now();
      JobsKnown(q);
      if all[s].machine == Some(name) {
        EvictionFinds(q, q1, name, n);
        ghost var k, i := DestroyAndFree(s, now);
        EvictionTakes(q, q1, name, n, k, i, now);
      } else {
        EvictionSkips(q, q1, name, n);
      }
    }

    /** With queue management suspended, announce that an allocated job is freed, and free it. */
    method DestroyAndFree(s: Serial, now: int) returns (ghost k: nat, ghost i: nat)
      requires Sound(nextSerial) && postpone > 0 && s in all && !all[s].pending && HasJob(Now(), all[s].id)
      requires OnlyJob(Now(), s, all[s].id)
      modifies Repr
      ensures Sound(nextSerial) && Grown() && k < |old(jobs)| && old(jobs)[k] == s
      ensures Freeable(AnnounceFree(old(Now()), s), k, i)
      ensures Now() == Freed(AnnounceFree(old(Now()), s), k, i, now)
    {
      StillOnlyJob(Now(), s, all[s].id);
      AnnounceDestruction(s, now);
      k, i := FreeSuspended(s, now);
    }

    method AnnounceDestruction(s: Serial, now: int)
      requires Sound(nextSerial) && postpone > 0 && s in all && !all[s].pending && HasJob(Now(), all[s].id)
      requires OnlyJob(Now(), s, all[s].id)
      modifies Repr
      ensures Sound(nextSerial) && Grown() && Now() == AnnounceFree(old(Now()), s)
    {
      ghost var q := Now();
      ghost var k := DestroyJob(all[s].id, now, nextSerial);
      OnlyJobAt(q, k, s, q.all[s].id);
    }

    method FreeSuspended(s: Serial, now: int) returns (ghost k: nat, ghost i: nat)
      requires Sound(nextSerial) && postpone > 0 && s in all && !all[s].pending && HasJob(Now(), all[s].id)
      requires OnlyJob(Now(), s, all[s].id)
      modifies Repr
      ensures Sound(nextSerial) && Grown() && k < |old(jobs)| && old(jobs)[k] == s
      ensures Freeable(old(Now()), k, i) && Now() == Freed(old(Now()), k, i, now)
    {
      ghost var q := Now();
      ghost var l;
      l, i := Free(all[s].id, now, nextSerial);
      OnlyJobAt(q, l, s, q.all[s].id);
      k := l;
    }

    method UninstallMachine(i: nat)
      requires Linked() && i < |machines|
      modifies this`machines, this`views
      ensures Linked() && Now() == JobQueueModel.RemoveMachine(old(Now()), i)
    {
      ghost var q := Now();
      machines, views := machines[..i] + machines[i + 1..], views[..i] + views[i + 1..];
      assert Now() == JobQueueModel.RemoveMachine(q, i);
    }
  }
}
