/** The controller's job life-cycle as an object; every method is one action of the life-cycle. */
module ControllerClass {
  import opened Wrappers
  import opened Coordinates
  import opened CandidateFilter
  import opened ControllerModel
  import opened ControllerTheorems

  /** The commands collected for one frame. */
  datatype Commands = Commands(boards: set<int>, links: set<(int, Link, bool)>)

  function CommandsFor(layout: Layout, boards: set<Board>, periphery: set<Port>, enable: Option<bool>): map<Frame, Commands>
    requires boards <= layout.Keys && forall p :: p in periphery ==> p.0 in boards
  {
    map f | f in Frames(layout, boards) :: Commands(BoardsIn(layout, boards, f), LinksIn(layout, periphery, enable, f))
  }

  lemma BoardsInGrow(layout: Layout, boards: set<Board>, b: Board, e: Frame)
    requires boards <= layout.Keys && b in layout
    ensures BoardsIn(layout, boards + {b}, e)
         == BoardsIn(layout, boards, e) + if e == layout[b].Rack() then {layout[b].board} else {}
  {
    if e == layout[b].Rack() {
      assert b in boards + {b} && layout[b].board in BoardsIn(layout, boards + {b}, e);
    }
  }

  /** One more board adds one power command to its frame. */
  lemma OneMoreBoard(layout: Layout, boards: set<Board>, b: Board)
    requires boards <= layout.Keys && b in layout
    ensures var all := CommandsFor(layout, boards, {}, None);
            var f := layout[b].Rack();
            var so := if f in all then all[f] else Commands({}, {});
            CommandsFor(layout, boards + {b}, {}, None) == all[f := so.(boards := so.boards + {layout[b].board})]
  {
    var all, more := CommandsFor(layout, boards, {}, None), CommandsFor(layout, boards + {b}, {}, None);
    var f := layout[b].Rack();
    var so := if f in all then all[f] else Commands({}, {});
    var next := all[f := so.(boards := so.boards + {layout[b].board})];
    assert more.Keys == next.Keys;
    forall e | e in more
      ensures more[e] == next[e]
    {
      BoardsInGrow(layout, boards, b, e);
      if e !in all {
        assert BoardsIn(layout, boards, e) == {};
      }
    }
  }

  lemma LinksInGrow(layout: Layout, periphery: set<Port>, enable: bool, p: Port, e: Frame)
    requires p.0 in layout && forall o :: o in periphery ==> o.0 in layout
    ensures LinksIn(layout, periphery + {p}, Some(enable), e)
         == LinksIn(layout, periphery, Some(enable), e)
          + if e == layout[p.0].Rack() then {(layout[p.0].board, p.1, enable)} else {}
  {
    if e == layout[p.0].Rack() {
      assert p in periphery + {p};
      assert (layout[p.0].board, p.1, enable) in LinksIn(layout, periphery + {p}, Some(enable), e);
    }
  }

  /** One more link adds one link command to its frame. */
  lemma OneMoreLink(layout: Layout, boards: set<Board>, periphery: set<Port>, enable: bool, p: Port)
    requires boards <= layout.Keys && p.0 in boards && forall o :: o in periphery ==> o.0 in boards
    ensures var all := CommandsFor(layout, boards, periphery, Some(enable));
            var f := layout[p.0].Rack();
            && f in all
            && CommandsFor(layout, boards, periphery + {p}, Some(enable))
            == all[f := all[f].(links := all[f].links + {(layout[p.0].board, p.1, enable)})]
  {
    var all := CommandsFor(layout, boards, periphery, Some(enable));
    var more := CommandsFor(layout, boards, periphery + {p}, Some(enable));
    var f := layout[p.0].Rack();
    assert f in Frames(layout, boards);
    var next := all[f := all[f].(links := all[f].links + {(layout[p.0].board, p.1, enable)})];
    assert more.Keys == next.Keys;
    forall e | e in more
      ensures more[e] == next[e]
    {
      LinksInGrow(layout, periphery, enable, p, e);
    }
  }

  /** Without link commands, or without links, only power commands remain. */
  lemma NoLinks(layout: Layout, boards: set<Board>, periphery: set<Port>, enable: Option<bool>)
    requires boards <= layout.Keys && (forall p :: p in periphery ==> p.0 in boards) && (enable.None? || periphery == {})
    ensures CommandsFor(layout, boards, periphery, enable) == CommandsFor(layout, boards, {}, None)
  {
    var all, plain := CommandsFor(layout, boards, periphery, enable), CommandsFor(layout, boards, {}, None);
    forall f | f in all
      ensures all[f] == plain[f]
    {
      assert LinksIn(layout, periphery, enable, f) == {};
    }
  }

  /** Sending one more request. */
  lemma {:induction false} SentOneMore(bmp: map<nat, Request>, n: nat, reqs: seq<Request>, r: Request)
    ensures Sent(bmp, n, reqs + [r]) == Sent(bmp, n, reqs)[n + |reqs| := r]
    decreases |reqs|
  {
    if reqs == [] {
      assert Sent(bmp[n := r], n + 1, []) == bmp[n := r];
    } else {
      assert (reqs + [r])[1..] == reqs[1..] + [r];
      SentOneMore(bmp[n := reqs[0]], n + 1, reqs[1..], r);
    }
  }

  /** Sending a batch to one more frame. */
  lemma SendNext(site: Site, bmp: map<nat, Request>, n: nat, id: int, g: Grant, order: seq<Frame>, f: Frame,
      power: bool, enable: Option<bool>)
    requires GrantOk(site, g)
    ensures Sent(bmp, n, Batch(site, id, g, order + [f], power, enable))
         == Sent(bmp, n, Batch(site, id, g, order, power, enable))[n + |order| := RequestFor(site, id, g, f, power, enable)]
  {
    var reqs, r := Batch(site, id, g, order, power, enable), RequestFor(site, id, g, f, power, enable);
    assert Batch(site, id, g, order + [f], power, enable) == reqs + [r];
    SentOneMore(bmp, n, reqs, r);
  }

  lemma OrderingGrows(order: seq<Frame>, all: set<Frame>, todo: set<Frame>, f: Frame)
    requires todo <= all && Ordering(order, all - todo) && f in todo
    ensures Ordering(order + [f], all - (todo - {f}))
  {
    assert forall e :: e in order + [f] <==> e in order || e == f;
  }

  class Controller {
    const site: Site

    var nextId: int

    // Every job object ever made; the identifiers of the jobs not destroyed; and of those remembered as destroyed.
    var records: map<int, JobRecord>
    var live: set<int>
    var retired: seq<int>
    var maxRetired: nat

    // The jobs the job queue knows, and what it has given them.
    var queue: map<int, Option<Grant>>

    // The commands sent and not completed.
    var bmp: map<nat, Request>
    var nextTicket: nat

    // History and hardware: the jobs destroyed, the last commands completed, and the boards' power where known.
    ghost var destroyed: seq<int>
    ghost var done: Reports
    ghost var lit: Lights
    ghost var wired: Wires

    ghost function Now(): C
      reads this
    {
      C(nextId, records, live, retired, maxRetired, queue, bmp, nextTicket, destroyed, done, lit, wired)
    }

    ghost predicate Valid()
      reads this
    {
      Inv(site, Now())
    }

    constructor (site: Site, nextId: int, maxRetired: nat)
      requires SiteOk(site)
      ensures Valid() && this.site == site && Now() == Initial(nextId, maxRetired)
    {
      this.site, this.nextId, this.maxRetired := site, nextId, maxRetired;
      records, live, retired, queue := map[], {}, [], map[];
      bmp, nextTicket := map[], 0;
      destroyed, done, lit, wired := [], map[], map[], map[];
      new;
      InitialHolds(site, nextId, maxRetired);
    }

    // ----- commands

    /** Collect the power commands of a job, grouped by frame. */
    method PowerCommands(layout: Layout, boards: set<Board>) returns (commands: map<Frame, Commands>)
      requires boards <= layout.Keys
      ensures commands == CommandsFor(layout, boards, {}, None)
    {
      commands := map[];
      ghost var seen: set<Board> := {};
      var todo := boards;
      while todo != {}
        invariant todo <= boards && seen == boards - todo
        invariant commands == CommandsFor(layout, seen, {}, None)
        decreases todo
      {
        var b :| b in todo;
        OneMoreBoard(layout, seen, b);
        var f := layout[b].Rack();
        var so := if f in commands then commands[f] else Commands({}, {});
        commands := commands[f := so.(boards := so.boards + {layout[b].board})];
        todo := todo - {b};
        seen := seen + {b};
      }
      assert seen == boards;
    }

    /** Collect all commands of a job, grouped by frame. */
    method GroupByFrame(layout: Layout, boards: set<Board>, periphery: set<Port>, enable: Option<bool>)
      returns (commands: map<Frame, Commands>)
      requires boards <= layout.Keys && forall p :: p in periphery ==> p.0 in boards
      ensures commands == CommandsFor(layout, boards, periphery, enable)
    {
      commands := PowerCommands(layout, boards);
      if enable.Some? {
        ghost var seen: set<Port> := {};
        NoLinks(layout, boards, seen, enable);
        var todo := periphery;
        while todo != {}
          invariant todo <= periphery && seen == periphery - todo
          invariant commands == CommandsFor(layout, boards, seen, enable)
          decreases todo
        {
          var p :| p in todo;
          OneMoreLink(layout, boards, seen, enable.value, p);
          var f := layout[p.0].Rack();
          commands := commands[f := commands[f].(links := commands[f].links + {(layout[p.0].board, p.1, enable.value)})];
          todo := todo - {p};
          seen := seen + {p};
        }
        assert seen == periphery;
      } else {
        NoLinks(layout, boards, periphery, enable);
      }
    }

    /** Hand every frame's commands to its worker. */
    method SendAll(id: int, g: Grant, power: bool, enable: Option<bool>, commands: map<Frame, Commands>)
      returns (ghost order: seq<Frame>)
      requires GrantOk(site, g) && commands == CommandsFor(site[g.machine], g.boards, g.periphery, enable)
      modifies this`bmp, this`nextTicket
      ensures Ordering(order, FramesOf(site, g)) && |order| == |commands|
      ensures bmp == Sent(old(bmp), old(nextTicket), Batch(site, id, g, order, power, enable))
      ensures nextTicket == old(nextTicket) + |order|
    {
      order := [];
      var todo := commands.Keys;
      while todo != {}
        invariant todo <= commands.Keys && Ordering(order, commands.Keys - todo)
        invariant |order| + |todo| == |commands|
        invariant bmp == Sent(old(bmp), old(nextTicket), Batch(site, id, g, order, power, enable))
        invariant nextTicket == old(nextTicket) + |order|
        decreases todo
      {
        var f :| f in todo;
        SendNext(site, old(bmp), old(nextTicket), id, g, order, f, power, enable);
        OrderingGrows(order, commands.Keys, todo, f);
        bmp := bmp[nextTicket := Request(id, g.machine, f, power, commands[f].boards, commands[f].links)];
        nextTicket := nextTicket + 1;
        order := order + [f];
        todo := todo - {f};
      }
      assert commands.Keys == FramesOf(site, g);
      assert commands.Keys - todo == commands.Keys;
    }

    /** Switch the boards of a job on or off, and the links around them if asked. */
    method SetJobPowerAndLinks(id: int, power: bool, enable: Option<bool>) returns (ghost order: seq<Frame>)
      requires InvBut(site, Now(), id) && Powerable(site, Now(), id, power) && enable == LinksWith(power)
      modifies this`bmp, this`nextTicket, this`records
      ensures Valid() && Ordering(order, FramesOf(site, old(records)[id].grant.value))
      ensures Now() == SetPower(site, old(Now()), id, power, enable, order)
    {
      ghost var c := Now();
      order := SendCommands(id, power, enable);
      SetPowerKeeps(site, c, id, power, enable, order);
    }

    method SendCommands(id: int, power: bool, enable: Option<bool>) returns (ghost order: seq<Frame>)
      requires id in records && records[id].grant.Some? && GrantOk(site, records[id].grant.value)
      modifies this`bmp, this`nextTicket, this`records
      ensures Ordering(order, FramesOf(site, old(records)[id].grant.value))
      ensures Now() == SetPower(site, old(Now()), id, power, enable, order)
    {
      var job := records[id];
      var g := job.grant.value;
      var n;
      n, order := SendToFrames(id, g, power, enable);
      records := records[id := job.(state := Power, power := Some(power), requestsUntilReady := job.requestsUntilReady + n)];
    }

    method SendToFrames(id: int, g: Grant, power: bool, enable: Option<bool>) returns (n: nat, ghost order: seq<Frame>)
      requires GrantOk(site, g)
      modifies this`bmp, this`nextTicket
      ensures Ordering(order, FramesOf(site, g)) && n == |order|
      ensures bmp == Sent(old(bmp), old(nextTicket), Batch(site, id, g, order, power, enable))
      ensures nextTicket == old(nextTicket) + n
    {
      var commands := GroupByFrame(site[g.machine], g.boards, g.periphery, enable);
      order := SendAll(id, g, power, enable, commands);
      n := |commands|;
    }

    // ----- what users do

    /** Record a job and ask the job queue to enter it; entered says whether that came about. */
    method CreateJob(entered: bool) returns (id: int)
      requires Valid()
      modifies this
      ensures Valid() && id == old(nextId) && id !in old(records)
      ensures Now() == if entered then Create(old(Now())) else CreateRefused(old(Now()))
      ensures !entered ==> Refused(Now(), id)
    {
      IdsBelow(site, Now());
      CreateKeeps(site, Now());
      CreateRefusedKeeps(site, Now());
      id := RecordJob(entered);
    }

    method RecordJob(entered: bool) returns (id: int)
      modifies this
      ensures id == old(nextId) && Now() == if entered then Create(old(Now())) else CreateRefused(old(Now()))
    {
      id := nextId;
      nextId := nextId + 1;
      records := records[id := JobRecord(Queued, None, None, 0)];
      live := live + {id};
      if entered {
        queue := queue[id := None];
      }
    }

    /** Power a job's boards on, with the links around them disabled, or off. */
    method PowerJobBoards(id: int, on: bool) returns (ghost order: seq<Frame>)
      requires Valid()
      modifies this
      ensures Valid() && OrderFor(site, old(Now()), id, order) && Switchable(site, old(Now()), id)
      ensures Now() == SwitchJob(site, old(Now()), id, on, order)
    {
      if id in live {
        assert JobOk(site, Now(), id);
      }
      order := SomeOrder(id);
      if id in live && records[id].grant.Some? {
        assert JobOk(site, Now(), id);
        order := SetJobPowerAndLinks(id, on, if on then Some(false) else None);
      }
    }

    ghost method SomeOrder(id: int) returns (order: seq<Frame>)
      ensures OrderFor(site, Now(), id, order)
    {
      order := [];
      if id in records && records[id].grant.Some? && GrantOk(site, records[id].grant.value) {
        order := InSomeOrder(FramesOf(site, records[id].grant.value));
      }
    }

    /**
     * Destroy a job; unknown and destroyed jobs are ignored. For a job that the job queue has refused, the queue raises
     * an error.
     */
    method DestroyJob(id: int) returns (raised: bool, ghost order: seq<Frame>)
      requires Valid()
      modifies this
      ensures Valid() && OrderFor(site, old(Now()), id, order) && Destroyable(site, old(Now()), id)
      ensures Now() == Destroy(site, old(Now()), id, order)
      ensures raised <==> Refused(old(Now()), id)
    {
      CanBeDestroyed(site, Now(), id);
      order := SomeOrder(id);
      raised := id in live && id !in queue;
      if id in live && !raised {
        if queue[id].None? {
          OnCancel(id);
        } else {
          order := OnFree(id);
        }
      }
    }

    /** Limit how many destroyed jobs are remembered, forgetting the oldest first. */
    method SetMaxRetiredJobs(most: nat)
      requires Valid()
      modifies this`maxRetired, this`retired
      ensures Valid() && Now() == SetMaxRetired(old(Now()), most)
    {
      SetMaxRetiredKeeps(site, Now(), most);
      ForgetBeyond(most);
    }

    method ForgetBeyond(most: nat)
      modifies this`maxRetired, this`retired
      ensures Now() == SetMaxRetired(old(Now()), most)
    {
      maxRetired := most;
      ghost var k := 0;
      while |retired| > maxRetired
        invariant maxRetired == most && 0 <= k <= |old(retired)| && retired == old(retired)[k..]
        invariant k > 0 ==> |retired| >= most
      {
        retired := retired[1..];
        k := k + 1;
      }
    }

    // ----- what the job queue does

    /** A job has been given boards: they are recorded and powered on. */
    method OnAllocate(id: int, g: Grant) returns (ghost order: seq<Frame>)
      requires Valid() && Grantable(site, Now(), id, g)
      modifies this
      ensures Valid() && id in old(records) && Ordering(order, FramesOf(site, g))
      ensures Now() == Allocate(site, old(Now()), id, g, order)
    {
      RecordGrant(id, g);
      order := SetJobPowerAndLinks(id, true, Some(false));
    }

    method RecordGrant(id: int, g: Grant)
      requires Valid() && Grantable(site, Now(), id, g)
      modifies this`queue, this`records
      ensures id in old(records) && InvBut(site, Now(), id) && Powerable(site, Now(), id, true)
      ensures Now() == old(Now()).(queue := old(queue)[id := Some(g)], records := old(records)[id := old(records)[id].(grant := Some(g))])
    {
      GrantRecorded(site, Now(), id, g);
      queue := queue[id := Some(g)];
      records := records[id := records[id].(grant := Some(g))];
    }

    /** A job's boards are withdrawn: they are powered off. */
    method OnFree(id: int) returns (ghost order: seq<Frame>)
      requires Valid() && id in live && id in queue && queue[id].Some? && Destroyable(site, Now(), id)
      modifies this
      ensures Valid() && Ordering(order, FramesOf(site, old(records)[id].grant.value))
      ensures Now() == Withdraw(site, old(Now()), id, order)
    {
      assert JobOk(site, Now(), id);
      RetireKeeps(site, Now(), id);
      RetireJob(id);
      order := SetJobPowerAndLinks(id, false, None);
    }

    /** A job that waits is cancelled. */
    method OnCancel(id: int)
      requires Valid() && id in live && id in queue && queue[id].None?
      modifies this
      ensures Valid() && Now() == Cancel(old(Now()), id)
    {
      CancelKeeps(site, Now(), id);
      queue := queue - {id};
      RetireJob(id);
    }

    method RetireJob(id: int)
      modifies this`live, this`retired, this`destroyed
      ensures Now() == Retire(old(Now()), id)
    {
      live := live - {id};
      destroyed := destroyed + [id];
      retired := retired + [id];
      if |retired| > maxRetired {
        retired := retired[1..];
      }
    }

    // ----- what the hardware does

    /** A command has been completed. */
    method OnRequestComplete(t: nat, success: bool) returns (ghost order: seq<Frame>)
      requires Valid() && FirstInLine(Now(), t)
      modifies this
      ensures Valid() && Completable(site, old(Now()), t) && OrderFor(site, old(Now()), old(bmp)[t].job, order)
      ensures Now() == Complete(site, old(Now()), t, success, order)
    {
      ghost var c := Now();
      assert RequestOk(site, records, bmp[t]);
      CanBeDestroyed(site, c, bmp[t].job);
      DestroyKeepsLine(site, c, t, []);
      order := SomeOrder(bmp[t].job);
      if !success {
        var raised;
        raised, order := DestroyJob(bmp[t].job);
        DestroyKeepsLine(site, c, t, order);
      }
      CountOneDown(t, success);
    }

    method CountOneDown(t: nat, ghost success: bool)
      requires Valid() && FirstInLine(Now(), t) && bmp[t].job in records && (success || bmp[t].job !in live)
      modifies this
      ensures Valid() && Now() == CountDown(site, old(Now()), t, success)
    {
      CountDownKeeps(site, Now(), t, success);
      assert records[bmp[t].job].requestsUntilReady - 1 >= 0;
      LowerCounter(t, success);
    }

    method LowerCounter(t: nat, ghost success: bool)
      requires t in bmp && bmp[t].job in records
      modifies this
      ensures Now() == CountDown(site, old(Now()), t, success)
    {
      var r := bmp[t];
      bmp := bmp - {t};
      done := done[(r.job, r.frame) := Report(r.power, success)];
      lit := Switched(lit, r.machine, Targets(site, r), Report(r.power, success));
      wired := Rewired(site, wired, r, success);
      var job := records[r.job];
      var n := job.requestsUntilReady - 1;
      records := records[r.job := job.(requestsUntilReady := n, state := if n == 0 then Ready else job.state)];
      if n == 0 && r.job in retired {
        queue := queue - {r.job};
      }
    }
  }
}
