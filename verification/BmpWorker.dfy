/**
 * The worker that sends one frame's requests: other threads add requests and ask it to stop, it serves one
 * request at a time and retries those that fail. Every step is one that happens under the worker's lock, or
 * that only the worker's thread can see.
 */
module BmpWorkerModel {
  import opened Coordinates

  const TRIES := 2

  /** Where the worker's thread is: at the wait, past it, in the retry loop, or at the check that ends a turn. */
  datatype Place<R> =
    | Waiting
    | Awake
    | Serving(request: R, failures: nat)
    | Settling
    | Stopped

  /** A call of a request's on_done, with the outcomes of the attempts that led to it. */
  datatype Completion<R> = Completion(request: R, attempts: seq<bool>, success: bool)

  /** added and done are the history: the requests accepted so far, and the completions, each oldest first. */
  datatype Worker<R> = Worker(
    requests: seq<R>,
    pending: bool,
    stop: bool,
    at: Place<R>,
    added: seq<R>,
    done: seq<Completion<R>>)

  function Started<R>(): Worker<R> {
    Worker([], false, false, Waiting, [], [])
  }

  datatype Event<R> =
    | Add(request: R)
    | Stop
    | Turn(success: bool)

  /** A request may be added until the worker has been told to stop. */
  function AddRequest<R>(w: Worker<R>, r: R): Worker<R> {
    w.(requests := w.requests + [r], pending := true, added := w.added + [r])
  }

  function AskStop<R>(w: Worker<R>): Worker<R> {
    w.(stop := true, pending := true)
  }

  /** The thread can move unless it waits for the flag, or has ended. */
  predicate CanMove<R>(w: Worker<R>) {
    !w.at.Stopped? && (w.at.Waiting? ==> w.pending)
  }

  /** The outcomes of the attempts at a request, the last of which is given. */
  function Attempts(failures: nat, success: bool): seq<bool> {
    seq(failures, _ => false) + [success]
  }

  /** One move of the thread; in the retry loop, the attempt succeeds or not. */
  function Move<R>(w: Worker<R>, success: bool): Worker<R>
    requires CanMove(w)
  {
    match w.at
    case Waiting => w.(at := Awake)
    case Awake =>
      if w.requests != [] then w.(requests := w.requests[1..], at := Serving(w.requests[0], 0))
      else w.(at := Settling)
    case Serving(r, failures) =>
      if success || failures + 1 >= TRIES then
        w.(at := Settling, done := w.done + [Completion(r, Attempts(failures, success), success)])
      else w.(at := Serving(r, failures + 1))
    case Settling =>
      if w.requests != [] then w.(at := Waiting)
      else w.(pending := false, at := if w.stop then Stopped else Waiting)
  }

  predicate Enabled<R>(w: Worker<R>, e: Event<R>) {
    match e
    case Add(_) => !w.stop
    case Stop => true
    case Turn(_) => CanMove(w)
  }

  function After<R>(w: Worker<R>, e: Event<R>): Worker<R>
    requires Enabled(w, e)
  {
    match e
    case Add(r) => AddRequest(w, r)
    case Stop => AskStop(w)
    case Turn(success) => Move(w, success)
  }

  // ----- invariant

  function Current<R>(w: Worker<R>): seq<R> {
    if w.at.Serving? then [w.at.request] else []
  }

  function Finished<R>(done: seq<Completion<R>>): seq<R> {
    seq(|done|, k requires 0 <= k < |done| => done[k].request)
  }

  /** An attempt is repeated only after a failure, a success ends it at once, and only the last failure is reported. */
  predicate Honest<R>(c: Completion<R>) {
    && 1 <= |c.attempts| <= TRIES
    && (forall k :: 0 <= k < |c.attempts| - 1 ==> !c.attempts[k])
    && c.success == c.attempts[|c.attempts| - 1]
    && (!c.success ==> |c.attempts| == TRIES)
  }

  /**
   * Nothing is lost, doubled or reordered; work or a wish to stop is never forgotten: unless the thread is about
   * to look, the flag is set; and a stopped worker has done everything.
   */
  ghost predicate Good<R>(w: Worker<R>) {
    && Finished(w.done) + Current(w) + w.requests == w.added
    && (forall k :: 0 <= k < |w.done| ==> Honest(w.done[k]))
    && (w.requests != [] || (w.stop && !w.at.Stopped?) ==> w.pending)
    && (w.at.Stopped? ==> w.stop && w.requests == [])
    && (w.at.Serving? ==> w.at.failures < TRIES)
  }

  lemma GoodAfter<R>(w: Worker<R>, e: Event<R>)
    requires Good(w) && Enabled(w, e)
    ensures Good(After(w, e))
  {
    var w' := After(w, e);
    match e
    case Add(r) =>
      assert w'.added == Finished(w.done) + Current(w) + (w.requests + [r]);
    case Stop =>
    case Turn(success) =>
      if w.at.Serving? {
        ServingMove(w, success);
      } else if w.at.Awake? {
        AwakeMove(w, success);
      }
  }

  lemma AwakeMove<R>(w: Worker<R>, success: bool)
    requires Good(w) && w.at.Awake?
    ensures Good(Move(w, success))
  {
    if w.requests != [] {
      assert w.requests == [w.requests[0]] + w.requests[1..];
      assert w.added == Finished(w.done) + ([w.requests[0]] + w.requests[1..]);
    }
  }

  lemma ServingMove<R>(w: Worker<R>, success: bool)
    requires Good(w) && w.at.Serving?
    ensures Good(Move(w, success))
  {
    var w' := Move(w, success);
    if w'.at.Settling? {
      assert Finished(w'.done) == Finished(w.done) + [w.at.request];
      forall k | 0 <= k < |w'.done|
        ensures Honest(w'.done[k])
      {
      }
    }
  }

  // ----- runs

  /** A run of the worker: any interleaving of adders, requests to stop, and the thread. */
  ghost predicate Run<R>(events: seq<Event<R>>, states: seq<Worker<R>>) {
    && |states| == |events| + 1 && states[0] == Started()
    && forall i :: 0 <= i < |events| ==> Enabled(states[i], events[i]) && states[i + 1] == After(states[i], events[i])
  }

  lemma {:induction false} RunGood<R>(events: seq<Event<R>>, states: seq<Worker<R>>, i: nat)
    requires Run(events, states) && i < |states|
    ensures Good(states[i])
  {
    if i > 0 {
      RunGood(events, states, i - 1);
      GoodAfter(states[i - 1], events[i - 1]);
    }
  }

  /** No lost wake-up: when the thread is at the wait and there is work, or a wish to stop, the flag is set. */
  lemma NoLostWakeUp<R>(events: seq<Event<R>>, states: seq<Worker<R>>, i: nat)
    requires Run(events, states) && i < |states|
    requires states[i].at.Waiting? && (states[i].requests != [] || states[i].stop)
    ensures CanMove(states[i])
  {
    RunGood(events, states, i);
  }

  /**
   * First in, first out, exactly once: the k-th completion is that of the k-th request added, and completions
   * never outnumber requests. A success is reported after the first attempt that succeeds, of at most two, and a failure
   * after two that fail.
   */
  lemma FifoOnce<R>(events: seq<Event<R>>, states: seq<Worker<R>>, i: nat, k: nat)
    requires Run(events, states) && i < |states| && k < |states[i].done|
    ensures k < |states[i].added| && states[i].done[k].request == states[i].added[k]
    ensures var c := states[i].done[k];
            if c.success then c.attempts == [true] || c.attempts == [false, true] else c.attempts == [false, false]
  {
    RunGood(events, states, i);
    var w := states[i];
    assert Honest(w.done[k]);
    assert (Finished(w.done) + Current(w) + w.requests)[k] == Finished(w.done)[k];
  }

  /** The worker ends only with everything served, and after that nothing can be added. */
  lemma StopsEmpty<R>(events: seq<Event<R>>, states: seq<Worker<R>>, i: nat)
    requires Run(events, states) && i < |states| && states[i].at.Stopped?
    ensures states[i].requests == [] && |states[i].done| == |states[i].added|
    ensures forall r :: !Enabled(states[i], Add(r))
  {
    RunGood(events, states, i);
    assert |states[i].added| == |Finished(states[i].done)|;
  }

  // ----- delivery

  /** How many moves of the thread, at most, are left before it has nothing to do. */
  ghost function Effort<R>(w: Worker<R>): nat
    requires Good(w)
  {
    6 * |w.requests| +
    match w.at
    case Waiting => if !w.pending then 0 else if w.requests == [] then 5 else 2
    case Awake => if w.requests == [] then 4 else 1
    case Serving(_, failures) => 5 - failures
    case Settling => 3
    case Stopped => 0
  }

  lemma MoveTires<R>(w: Worker<R>, success: bool)
    requires Good(w) && CanMove(w)
    ensures Good(Move(w, success)) && Effort(Move(w, success)) < Effort(w)
  {
    GoodAfter(w, Turn(success));
  }

  /** The state after the thread alone has moved, whatever became of its attempts, until it cannot move. */
  ghost function Drained<R>(w: Worker<R>, luck: nat -> bool): Worker<R>
    requires Good(w)
    decreases Effort(w)
  {
    if !CanMove(w) then w
    else
      MoveTires(w, luck(Effort(w)));
      Drained(Move(w, luck(Effort(w))), luck)
  }

  /**
   * Delivery: left alone, the thread comes to rest after finitely many moves with every request completed; it has
   * then ended if and only if it was told to stop.
   */
  lemma {:induction false} Delivers<R>(w: Worker<R>, luck: nat -> bool)
    requires Good(w)
    ensures var w' := Drained(w, luck);
            && Good(w') && w'.requests == [] && Finished(w'.done) == w.added
            && (w'.at.Stopped? <==> w.stop) && (w'.at.Waiting? <==> !w.stop)
            && w.done <= w'.done
    decreases Effort(w)
  {
    if CanMove(w) {
      MoveTires(w, luck(Effort(w)));
      Delivers(Move(w, luck(Effort(w))), luck);
    } else {
      assert Finished(w.done) + Current(w) + w.requests == Finished(w.done);
    }
  }

  // ----- what a retried request does to the hardware

  /** What a command sets: the power of a board, or the state of one of its links. */
  datatype Subject = PowerOf(board: int) | LinkOf(board: int, link: Link)

  datatype Command = Command(subject: Subject, value: bool)

  /** A list of requests sent together: power on first, then links, and power off last. */
  datatype AtomicRequests = AtomicRequests(powerOn: seq<int>, links: seq<LinkRequest>, powerOff: seq<int>)

  datatype LinkRequest = LinkRequest(board: int, link: Link, enable: bool)

  function PowerAll(boards: seq<int>, on: bool): seq<Command> {
    seq(|boards|, k requires 0 <= k < |boards| => Command(PowerOf(boards[k]), on))
  }

  function LinkAll(links: seq<LinkRequest>): seq<Command> {
    seq(|links|, k requires 0 <= k < |links| => Command(LinkOf(links[k].board, links[k].link), links[k].enable))
  }

  function CommandsOf(r: AtomicRequests): seq<Command> {
    PowerAll(r.powerOn, true) + LinkAll(r.links) + PowerAll(r.powerOff, false)
  }

  type Hardware = map<Subject, bool>

  function Apply(commands: seq<Command>, hw: Hardware): Hardware {
    if commands == [] then hw
    else Apply(commands[1..], hw[commands[0].subject := commands[0].value])
  }

  predicate Sets(commands: seq<Command>, subject: Subject) {
    exists k :: 0 <= k < |commands| && commands[k].subject == subject
  }

  /** What a command list leaves in a place that it sets does not depend on what was there. */
  lemma {:induction false} ApplyOverwrites(commands: seq<Command>, hw: Hardware, other: Hardware, subject: Subject)
    ensures Sets(commands, subject) ==>
              && subject in Apply(commands, hw) && subject in Apply(commands, other)
              && Apply(commands, hw)[subject] == Apply(commands, other)[subject]
    ensures !Sets(commands, subject) ==>
              && (subject in Apply(commands, hw) <==> subject in hw)
              && (subject in hw ==> Apply(commands, hw)[subject] == hw[subject])
  {
    if commands != [] {
      var c, rest := commands[0], commands[1..];
      var hw1, other1 := hw[c.subject := c.value], other[c.subject := c.value];
      ApplyOverwrites(rest, hw1, other1, subject);
      ApplyOverwrites(rest, other1, hw1, subject);
      if Sets(rest, subject) {
        var k :| 0 <= k < |rest| && rest[k].subject == subject;
        assert commands[k + 1].subject == subject;
      }
      if Sets(commands, subject) && c.subject != subject {
        var k :| 0 <= k < |commands| && commands[k].subject == subject;
        assert rest[k - 1].subject == subject;
      }
    }
  }

  // ----- powering on, and checking

  const FPGA_TRIES := 3

  /** The boards that fail the check. */
  function Failing(boards: seq<int>, bad: set<int>): (failing: seq<int>)
    ensures forall b :: b in failing <==> b in boards && b in bad
  {
    if boards == [] then []
    else if boards[0] in bad then [boards[0]] + Failing(boards[1..], bad)
    else Failing(boards[1..], bad)
  }

  /**
   * Power on the boards, check them, and try again with those that fail, which are bad[k] in round k. Sent are the
   * commands given; ok says whether in the end no board failed.
   */
  function PowerOn(boards: seq<int>, bad: seq<set<int>>): (r: (seq<Command>, bool))
    decreases |bad|
  {
    if bad == [] then ([], false)
    else
      var again := Failing(boards, bad[0]);
      var rest := if again == [] then ([], true) else PowerOn(again, bad[1..]);
      (PowerAll(boards, true) + rest.0, rest.1)
  }

  predicate PassesOnce(b: int, bad: seq<set<int>>) {
    exists k :: 0 <= k < |bad| && b !in bad[k]
  }

  /** Boards are tried again only while they fail: all are fine in the end if and only if each passes some check. */
  lemma {:induction false} PowerOnSucceeds(boards: seq<int>, bad: seq<set<int>>)
    requires bad != []
    ensures PowerOn(boards, bad).1 <==> forall b :: b in boards ==> PassesOnce(b, bad)
    decreases |bad|
  {
    var again, rest := Failing(boards, bad[0]), bad[1..];
    forall b | b in boards
      ensures PassesOnce(b, bad) <==> b !in again || PassesOnce(b, rest)
    {
      if PassesOnce(b, bad) && b in again {
        var k :| 0 <= k < |bad| && b !in bad[k];
        assert rest[k - 1] == bad[k];
      }
      if PassesOnce(b, rest) {
        var k :| 0 <= k < |rest| && b !in rest[k];
        assert bad[k + 1] == rest[k];
      }
    }
    if again == [] {
      assert forall b :: b in boards ==> PassesOnce(b, bad);
    } else if rest == [] {
      assert again[0] in again && again[0] in boards;
      assert !PassesOnce(again[0], bad);
    } else {
      PowerOnSucceeds(again, rest);
      assert forall b :: b in boards ==> (PassesOnce(b, bad) <==> b !in again || PassesOnce(b, rest));
    }
  }

  /** However often boards are powered on again, the commands only switch on boards that are to be on. */
  lemma {:induction false} PowerOnOnly(boards: seq<int>, bad: seq<set<int>>, k: nat)
    requires k < |PowerOn(boards, bad).0|
    ensures PowerOn(boards, bad).0[k].value && PowerOn(boards, bad).0[k].subject.PowerOf?
    ensures PowerOn(boards, bad).0[k].subject.board in boards
    decreases |bad|
  {
    var again := Failing(boards, bad[0]);
    if k >= |boards| {
      PowerOnOnly(again, bad[1..], k - |boards|);
    }
  }

  /** The commands of an attempt, which breaks off when boards keep failing. */
  function Attempt(r: AtomicRequests, bad: seq<set<int>>): seq<Command> {
    var on := PowerOn(r.powerOn, bad);
    if on.1 then on.0 + LinkAll(r.links) + PowerAll(r.powerOff, false) else on.0
  }

  /** Commands that set only what is set again afterwards leave no trace. */
  lemma Absorbed(first: seq<Command>, commands: seq<Command>, hw: Hardware)
    requires forall k :: 0 <= k < |first| ==> Sets(commands, first[k].subject)
    ensures Apply(commands, Apply(first, hw)) == Apply(commands, hw)
  {
    var half := Apply(first, hw);
    forall subject
      ensures subject in Apply(commands, half) <==> subject in Apply(commands, hw)
      ensures subject in Apply(commands, hw) ==> Apply(commands, half)[subject] == Apply(commands, hw)[subject]
    {
      ApplyOverwrites(commands, half, hw, subject);
      ApplyOverwrites(commands, hw, half, subject);
      ApplyOverwrites(first, hw, half, subject);
    }
  }

  lemma AttemptSets(r: AtomicRequests, bad: seq<set<int>>, k: nat)
    requires k < |Attempt(r, bad)|
    ensures Sets(CommandsOf(r), Attempt(r, bad)[k].subject)
  {
    var on, all := PowerOn(r.powerOn, bad).0, CommandsOf(r);
    if k < |on| {
      PowerOnOnly(r.powerOn, bad, k);
      var l :| 0 <= l < |r.powerOn| && r.powerOn[l] == on[k].subject.board;
      assert all[l].subject == on[k].subject;
    } else {
      assert all[k - |on| + |r.powerOn|] == Attempt(r, bad)[k];
    }
  }

  /** Powering on again changes nothing: what counts is that all are on. */
  lemma RoundsCollapse(boards: seq<int>, bad: seq<set<int>>, hw: Hardware)
    requires bad != []
    ensures Apply(PowerOn(boards, bad).0, hw) == Apply(PowerAll(boards, true), hw)
  {
    var all, once := PowerOn(boards, bad).0, PowerAll(boards, true);
    assert all[..|once|] == once;
    forall subject
      ensures subject in Apply(all, hw) <==> subject in Apply(once, hw)
      ensures subject in Apply(once, hw) ==> Apply(all, hw)[subject] == Apply(once, hw)[subject]
    {
      forall k | 0 <= k < |all|
        ensures all[k].value && Sets(once, all[k].subject)
      {
        PowerOnOnly(boards, bad, k);
        var l :| 0 <= l < |boards| && boards[l] == all[k].subject.board;
        assert once[l].subject == all[k].subject;
      }
      if Sets(once, subject) {
        var l :| 0 <= l < |once| && once[l].subject == subject;
        assert all[l].subject == subject;
        ApplyAgrees(once, hw, subject, true);
        ApplyAgrees(all, hw, subject, true);
      } else {
        ApplyOverwrites(once, hw, hw, subject);
        ApplyOverwrites(all, hw, hw, subject);
      }
    }
  }

  lemma AttemptDoesAll(r: AtomicRequests, bad: seq<set<int>>, hw: Hardware)
    requires PowerOn(r.powerOn, bad).1
    ensures Apply(Attempt(r, bad), hw) == Apply(CommandsOf(r), hw)
  {
    var on, rest := PowerOn(r.powerOn, bad).0, LinkAll(r.links) + PowerAll(r.powerOff, false);
    assert Attempt(r, bad) == on + rest && CommandsOf(r) == PowerAll(r.powerOn, true) + rest;
    ApplyConcat(on, rest, hw);
    ApplyConcat(PowerAll(r.powerOn, true), rest, hw);
    RoundsCollapse(r.powerOn, bad, hw);
  }

  /**
   * Retrying is harmless: an attempt that broke off anywhere, then one that succeeds, whichever boards had to be
   * powered on again in either, leave what sending every command once leaves.
   */
  lemma RetryIsHarmless(r: AtomicRequests, bad: seq<set<int>>, broken: nat, again: seq<set<int>>, hw: Hardware)
    requires broken <= |Attempt(r, bad)| && PowerOn(r.powerOn, again).1
    ensures Apply(Attempt(r, again), Apply(Attempt(r, bad)[..broken], hw)) == Apply(CommandsOf(r), hw)
  {
    var first := Attempt(r, bad)[..broken];
    forall k | 0 <= k < |first|
      ensures Sets(CommandsOf(r), first[k].subject)
    {
      AttemptSets(r, bad, k);
    }
    Absorbed(first, CommandsOf(r), hw);
    AttemptDoesAll(r, again, Apply(first, hw));
  }

  /** If all commands for a subject agree, and there is one, that is the outcome. */
  lemma {:induction false} ApplyAgrees(commands: seq<Command>, hw: Hardware, subject: Subject, value: bool)
    requires Sets(commands, subject) || (subject in hw && hw[subject] == value)
    requires forall k :: 0 <= k < |commands| && commands[k].subject == subject ==> commands[k].value == value
    ensures subject in Apply(commands, hw) && Apply(commands, hw)[subject] == value
  {
    if commands != [] {
      var c, rest := commands[0], commands[1..];
      if Sets(commands, subject) && c.subject != subject {
        var k :| 0 <= k < |commands| && commands[k].subject == subject;
        assert rest[k - 1].subject == subject;
      }
      ApplyAgrees(rest, hw[c.subject := c.value], subject, value);
    }
  }

  lemma {:induction false} ApplyConcat(a: seq<Command>, b: seq<Command>, hw: Hardware)
    ensures Apply(a + b, hw) == Apply(b, Apply(a, hw))
  {
    if a == [] {
      assert a + b == b;
    } else {
      assert (a + b)[1..] == a[1..] + b;
      ApplyConcat(a[1..], b, hw[a[0].subject := a[0].value]);
    }
  }

  /** The last of the requests for a link decides: after an attempt that succeeds the link is as it says. */
  lemma LinkTakesEffect(r: AtomicRequests, bad: seq<set<int>>, hw: Hardware, k: nat)
    requires PowerOn(r.powerOn, bad).1 && k < |r.links|
    requires forall l :: k < l < |r.links| && r.links[l].board == r.links[k].board && r.links[l].link == r.links[k].link ==>
               r.links[l].enable == r.links[k].enable
    ensures var subject := LinkOf(r.links[k].board, r.links[k].link);
            subject in Apply(Attempt(r, bad), hw) && Apply(Attempt(r, bad), hw)[subject] == r.links[k].enable
  {
    AttemptDoesAll(r, bad, hw);
    var all, subject := CommandsOf(r), LinkOf(r.links[k].board, r.links[k].link);
    var n := |r.powerOn| + k;
    assert all[n..][0].subject == subject && all[..n] + all[n..] == all;
    ApplyConcat(all[..n], all[n..], hw);
    assert Sets(all[n..], subject);
    ApplyAgrees(all[n..], Apply(all[..n], hw), subject, r.links[k].enable);
  }

  /** In an attempt boards are powered on first, then links are switched, and boards are powered off last. */
  lemma AttemptInOrder(r: AtomicRequests, bad: seq<set<int>>, k: nat, l: nat)
    requires k < l < |Attempt(r, bad)|
    ensures var a, b := Attempt(r, bad)[k], Attempt(r, bad)[l];
            && (b.subject.PowerOf? && b.value ==> a.subject.PowerOf? && a.value)
            && (a.subject.PowerOf? && !a.value ==> b.subject.PowerOf? && !b.value)
  {
    var on := PowerOn(r.powerOn, bad).0;
    if k < |on| {
      PowerOnOnly(r.powerOn, bad, k);
    }
    if l < |on| {
      PowerOnOnly(r.powerOn, bad, l);
    }
  }

  /** An attempt that succeeds leaves the boards to be powered off off, and those only to be powered on on. */
  lemma PowerTakesEffect(r: AtomicRequests, bad: seq<set<int>>, hw: Hardware, b: int)
    requires PowerOn(r.powerOn, bad).1 && (b in r.powerOn || b in r.powerOff)
    ensures PowerOf(b) in Apply(Attempt(r, bad), hw)
    ensures Apply(Attempt(r, bad), hw)[PowerOf(b)] <==> b !in r.powerOff
  {
    AttemptDoesAll(r, bad, hw);
    var on, links, off := PowerAll(r.powerOn, true), LinkAll(r.links), PowerAll(r.powerOff, false);
    ApplyConcat(on + links, off, hw);
    if b in r.powerOff {
      var k :| 0 <= k < |r.powerOff| && r.powerOff[k] == b;
      assert off[k].subject == PowerOf(b);
      ApplyAgrees(off, Apply(on + links, hw), PowerOf(b), false);
    } else {
      var k :| 0 <= k < |r.powerOn| && r.powerOn[k] == b;
      assert (on + links)[k].subject == PowerOf(b);
      ApplyAgrees(on + links, hw, PowerOf(b), true);
      ApplyAgrees(off, Apply(on + links, hw), PowerOf(b), true);
    }
  }
}

/** The worker as an object shared by the threads that use it. */
module BmpWorkerClass {
  import opened Wrappers
  import opened BmpWorkerModel

  class BmpWorker<R> {
    var requests: seq<R>
    var requestsPending: bool
    var stop: bool
    var at: Place<R>

    ghost var added: seq<R>
    ghost var done: seq<Completion<R>>

    ghost function Now(): Worker<R>
      reads this
    {
      Worker(requests, requestsPending, stop, at, added, done)
    }

    constructor ()
      ensures Good(Now()) && Now() == Started()
    {
      requests, requestsPending, stop, at, added, done := [], false, false, Waiting, [], [];
    }

    /** Add a request. False stands for the failed assertion after the worker has been told to stop. */
    method AddRequests(r: R) returns (ok: bool)
      requires Good(Now())
      modifies this
      ensures Good(Now()) && (ok <==> Enabled(old(Now()), Event.Add(r)))
      ensures Now() == if ok then After(old(Now()), Event.Add(r)) else old(Now())
    {
      if stop {
        return false;
      }
      GoodAfter(Now(), Event.Add(r));
      requests := requests + [r];
      requestsPending := true;
      added := added + [r];
      ok := true;
    }

    method AskToStop()
      requires Good(Now())
      modifies this
      ensures Good(Now()) && Now() == After(old(Now()), Event.Stop)
    {
      GoodAfter(Now(), Event<R>.Stop);
      stop := true;
      requestsPending := true;
    }

    /** The wait is over: the flag is set. */
    method Wake()
      requires Good(Now()) && at.Waiting? && requestsPending
      modifies this`at
      ensures Good(Now()) && Now() == Move(old(Now()), true)
    {
      GoodAfter(Now(), Turn(true));
      at := Awake;
    }

    /** Past the wait: take the next request, if there is one. */
    method Take() returns (r: Option<R>)
      requires Good(Now()) && at.Awake?
      modifies this
      ensures Good(Now()) && Now() == Move(old(Now()), true)
      ensures r == if old(requests) == [] then None else Some(old(requests)[0])
    {
      GoodAfter(Now(), Turn(true));
      if requests == [] {
        at := Settling;
        r := None;
      } else {
        r := Some(requests[0]);
        at := Serving(requests[0], 0);
        requests := requests[1..];
      }
    }

    /**
     * The retry loop: attempt the request until an attempt succeeds or the tries are used up, and then report,
     * once. The outcomes of the attempts are decided elsewhere.
     */
    method Serve(outcomes: seq<bool>) returns (ghost attempts: seq<bool>, success: bool)
      requires Good(Now()) && at.Serving? && at.failures == 0 && |outcomes| == TRIES
      modifies this
      ensures Good(Now()) && requests == old(requests) && added == old(added)
      ensures requestsPending == old(requestsPending) && stop == old(stop)
      ensures attempts <= outcomes && (success <==> true in outcomes)
      ensures at.Settling? && done == old(done) + [Completion(old(at).request, attempts, success)]
    {
      var tries := 0;
      attempts, success := [], false;
      while !success && tries < TRIES
        invariant Good(Now()) && requests == old(requests) && added == old(added)
        invariant requestsPending == old(requestsPending) && stop == old(stop)
        invariant tries <= TRIES && attempts == outcomes[..tries] && (success <==> true in attempts)
        invariant if success || tries == TRIES
                  then at.Settling? && done == old(done) + [Completion(old(at).request, attempts, success)]
                  else at == Serving(old(at).request, tries) && done == old(done)
      {
        GoodAfter(Now(), Turn(outcomes[tries]));
        assert forall k :: 0 <= k < tries ==> outcomes[k] == attempts[k] && attempts[k] in attempts;
        success := outcomes[tries];
        attempts := Attempts(tries, success);
        tries := tries + 1;
        assert attempts == outcomes[..tries];
        if success || tries == TRIES {
          done := done + [Completion(at.request, attempts, success)];
          at := Settling;
        } else {
          at := Serving(at.request, tries);
        }
      }
    }

    /**
     * Power on and check, again and again for the boards that fail, until none does or the tries are used up;
     * bad[k] are the boards that fail in round k. All is well if and only if every board passes some check.
     */
    method PowerOnAndCheck(boards: seq<int>, bad: seq<set<int>>) returns (sent: seq<Command>, ok: bool)
      requires |bad| == 3
      ensures (sent, ok) == PowerOn(boards, bad)
      ensures ok <==> forall b :: b in boards ==> PassesOnce(b, bad)
      ensures forall hw :: Apply(sent, hw) == Apply(PowerAll(boards, true), hw)
    {
      PowerOnSucceeds(boards, bad);
      forall hw: Hardware
        ensures Apply(PowerOn(boards, bad).0, hw) == Apply(PowerAll(boards, true), hw)
      {
        RoundsCollapse(boards, bad, hw);
      }
      var toPower := boards;
      assert bad[0..] == bad;
      sent, ok := [], false;
      var tries := 0;
      while !ok && tries < FPGA_TRIES
        invariant tries <= FPGA_TRIES
        invariant ok ==> PowerOn(boards, bad).0 == sent && PowerOn(boards, bad).1
        invariant !ok ==> PowerOn(boards, bad).0 == sent + PowerOn(toPower, bad[tries..]).0
        invariant !ok ==> PowerOn(boards, bad).1 == PowerOn(toPower, bad[tries..]).1
      {
        ghost var left := bad[tries..];
        assert left[0] == bad[tries] && left[1..] == bad[tries + 1..];
        ghost var later := if Failing(toPower, bad[tries]) == [] then [] else PowerOn(Failing(toPower, bad[tries]), left[1..]).0;
        assert sent + (PowerAll(toPower, true) + later) == sent + PowerAll(toPower, true) + later;
        sent := sent + PowerAll(toPower, true);
        toPower := Failing(toPower, bad[tries]);
        ok := toPower == [];
        tries := tries + 1;
      }
      assert bad[FPGA_TRIES..] == [] && sent + [] == sent;
    }

    /** End of a turn: with nothing left to do clear the flag, and end if told to stop. */
    method Settle()
      requires Good(Now()) && at.Settling?
      modifies this
      ensures Good(Now()) && Now() == Move(old(Now()), true)
    {
      GoodAfter(Now(), Turn(true));
      if requests == [] {
        requestsPending := false;
        at := if stop then Stopped else Waiting;
      } else {
        at := Waiting;
      }
    }
  }
}
