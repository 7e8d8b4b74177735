/** Bounded HTTP calls: a caller that waits until its deadline, the worker thread that sends for it, and
the permits that worker threads hold until they are really gone.

Every lock-protected method is one step; callers, workers and the daemon's shutdown interleave freely.
`sent`, `taken` and `returned` record history. */
module BoundedHttp {
  import opened Options

  // ----- The two objects that threads share

  datatype Attempt = Attempt(deadline: int, dispatched: bool, abandoned: bool)

  /** A request may go out only before the deadline and before its caller gave up. */
  function BeginDispatch(a: Attempt, now: int): (Attempt, bool) {
    if a.abandoned || now >= a.deadline then (a, false) else (a.(dispatched := true), true)
  }

  function Abandon(a: Attempt): (Attempt, bool) {
    (a.(abandoned := true), a.dispatched)
  }

  datatype Gate = Gate(capacity: nat, pending: nat, accepting: bool)

  function Acquire(g: Gate): (Gate, bool) {
    if !g.accepting || g.pending >= g.capacity then (g, false) else (g.(pending := g.pending + 1), true)
  }

  /** There is no gate after one permit too many was returned: that is an error. */
  function Release(g: Gate): Option<Gate> {
    if g.pending == 0 then None else Some(g.(pending := g.pending - 1))
  }

  class CrmHttpAttempt {
    const deadline: int
    var dispatched: bool
    var abandoned: bool

    function Value(): Attempt
      reads this
    {
      Attempt(deadline, dispatched, abandoned)
    }

    constructor (deadline: int)
      ensures Value() == Attempt(deadline, false, false)
    {
      this.deadline, dispatched, abandoned := deadline, false, false;
    }

    method Dispatch(now: int) returns (allowed: bool)
      modifies this
      ensures (Value(), allowed) == BeginDispatch(old(Value()), now)
    {
      if abandoned || now >= deadline { return false; }
      dispatched := true;
      return true;
    }

    method GiveUp() returns (wasDispatched: bool)
      modifies this
      ensures (Value(), wasDispatched) == Abandon(old(Value()))
    {
      abandoned := true;
      return dispatched;
    }
  }

  class TrackedTransportAdmission {
    const capacity: nat
    var pending: nat
    var accepting: bool

    function Value(): Gate
      reads this
    {
      Gate(capacity, pending, accepting)
    }

    constructor (capacity: nat)
      requires capacity >= 1
      ensures Value() == Gate(capacity, 0, true)
    {
      this.capacity, pending, accepting := capacity, 0, true;
    }

    method TryAcquire() returns (acquired: bool)
      modifies this
      ensures (Value(), acquired) == Acquire(old(Value()))
    {
      if !accepting || pending >= capacity { return false; }
      pending := pending + 1;
      return true;
    }

    method GiveBack() returns (accepted: bool)
      modifies this
      ensures accepted <==> Release(old(Value())).Some?
      ensures Value() == if accepted then Release(old(Value())).value else old(Value())
    {
      if pending == 0 { return false; }
      pending := pending - 1;
      return true;
    }

    method BeginDrain()
      modifies this
      ensures Value() == old(Value()).(accepting := false)
    {
      accepting := false;
    }
  }

  // ----- Calls

  datatype Caller =
    | Asking
    | Refused
    | Building
    | Waiting
    | Failed(uncertain: bool)
    | Answered
    | Rejected                    // a response came that could not be used; the failure is not called uncertain

  datatype Thread = NotStarted | Connecting | Dispatching | InFlight | Closing | Gone

  datatype Call = Call(
    mutating: bool,             // registering and acknowledging change the feed
    caller: Caller,
    thread: Thread,
    attempt: Attempt,
    sent: bool,
    taken: nat,
    returned: nat)

  datatype World = World(gate: Gate, calls: seq<Call>, stopped: bool)

  datatype Move =
    | Posts(mutating: bool, deadline: int)
    | Acquires(call: nat)
    | CannotStart(call: nat)          // the thread cannot be made or started
    | Starts(call: nat)
    | Breaks(call: nat)               // the worker fails before it dispatches
    | Dispatches(call: nat, now: int)
    | Sends(call: nat)
    | Finishes(call: nat)             // an answer or an error, and the stream is closed
    | Ends(call: nat)                 // the worker returns its permit and is gone
    | Answers(call: nat, usable: bool)
    | GivesUp(call: nat)              // the deadline passed, or the worker reported an error
    | Drains
    | Stops                           // the daemon saw no pending transport and reports that it stopped

  function With(w: World, i: nat, c: Call): World
    requires i < |w.calls|
  {
    w.(calls := w.calls[i := c])
  }

  /** The permit goes back; were there none to give back, nothing would change. */
  function Returning(w: World, i: nat, c: Call): World
    requires i < |w.calls|
  {
    match Release(w.gate)
    case None => w
    case Some(gate) => With(w.(gate := gate), i, c.(returned := c.returned + 1))
  }

  function Acts(w: World, m: Move, i: nat): World
    requires i < |w.calls|
  {
    var c := w.calls[i];
    match m
    case Acquires(_) =>
      if c.caller != Asking then w
      else
        var (gate, acquired) := Acquire(w.gate);
        With(w.(gate := gate), i, if acquired then c.(caller := Building, taken := c.taken + 1) else c.(caller := Refused))
    case CannotStart(_) => if c.caller != Building then w else Returning(w, i, c.(caller := Failed(false)))
    case Starts(_) => if c.caller != Building then w else With(w, i, c.(caller := Waiting, thread := Connecting))
    case Breaks(_) => if c.thread != Connecting then w else With(w, i, c.(thread := Closing))
    case Dispatches(_, now) =>
      if c.thread != Connecting then w
      else
        var (attempt, allowed) := BeginDispatch(c.attempt, now);
        With(w, i, c.(attempt := attempt, thread := if allowed then Dispatching else Closing))
    case Sends(_) => if c.thread != Dispatching then w else With(w, i, c.(thread := InFlight, sent := true))
    case Finishes(_) => if c.thread !in {Dispatching, InFlight} then w else With(w, i, c.(thread := Closing))
    case Ends(_) => if c.thread != Closing then w else Returning(w, i, c.(thread := Gone))
    case Answers(_, usable) =>
      if c.caller != Waiting || c.thread != Gone || !c.sent then w
      else With(w, i, c.(caller := if usable then Answered else Rejected))
    case GivesUp(_) =>
      if c.caller != Waiting then w
      else
        var (attempt, wasDispatched) := Abandon(c.attempt);
        With(w, i, c.(attempt := attempt, caller := Failed(wasDispatched && c.mutating)))
    case _ => w
  }

  function Do(w: World, m: Move): World {
    match m
    case Posts(mutating, deadline) =>
      w.(calls := w.calls + [Call(mutating, Asking, NotStarted, Attempt(deadline, false, false), false, 0, 0)])
    case Drains => w.(gate := w.gate.(accepting := false))
    case Stops => if !w.gate.accepting && w.gate.pending == 0 then w.(stopped := true) else w
    case _ => if m.call < |w.calls| then Acts(w, m, m.call) else w
  }

  // ----- The invariant

  predicate Holding(c: Call) {
    c.caller == Building || c.thread in {Connecting, Dispatching, InFlight, Closing}
  }

  function Holders(calls: seq<Call>): nat {
    if calls == [] then 0 else Holders(calls[..|calls| - 1]) + if Holding(calls[|calls| - 1]) then 1 else 0
  }

  predicate CallSound(c: Call) {
    && (c.sent || c.thread in {Dispatching, InFlight} ==> c.attempt.dispatched)
    && (c.caller in {Asking, Refused, Building} ==> c.thread == NotStarted)
    && (c.thread == NotStarted ==> !c.attempt.dispatched)
    && (c.thread == Connecting ==> !c.attempt.dispatched)
    && (c.attempt.abandoned <==> c.caller.Failed? && c.thread != NotStarted)
    && (c.caller in {Waiting, Answered, Rejected} ==> c.thread != NotStarted)
    && (c.caller.Failed? ==> (c.caller.uncertain ==> c.attempt.dispatched && c.mutating))
    && (c.caller.Failed? && !c.caller.uncertain && c.mutating ==> !c.attempt.dispatched)
    && (c.caller in {Answered, Rejected} ==> c.sent && c.thread == Gone)
    && c.taken == (if c.caller in {Asking, Refused} then 0 else 1)
    && c.returned == (if c.taken == 1 && !Holding(c) then 1 else 0)
  }

  ghost predicate Valid(w: World) {
    && w.gate.pending == Holders(w.calls) <= w.gate.capacity
    && (forall c | c in w.calls :: CallSound(c))
    && (w.stopped ==> !w.gate.accepting && w.gate.pending == 0)
  }

  lemma {:induction false} HoldersUpdate(calls: seq<Call>, i: nat, c: Call)
    requires i < |calls|
    ensures Holders(calls[i := c]) == Holders(calls) - (if Holding(calls[i]) then 1 else 0) + (if Holding(c) then 1 else 0)
    decreases |calls|
  {
    var n := |calls| - 1;
    if i == n {
      assert calls[i := c][..n] == calls[..n];
    } else {
      assert calls[i := c][..n] == calls[..n][i := c];
      HoldersUpdate(calls[..n], i, c);
    }
  }

  lemma {:induction false} HolderCounts(calls: seq<Call>, i: nat)
    requires i < |calls| && Holding(calls[i])
    ensures Holders(calls) >= 1
    decreases |calls|
  {
    if i < |calls| - 1 { HolderCounts(calls[..|calls| - 1], i); }
  }

  lemma ActsKeeps(w: World, m: Move, i: nat)
    requires Valid(w) && i < |w.calls| && !m.Posts? && !m.Drains? && !m.Stops?
    ensures Valid(Acts(w, m, i))
  {
    hide Holders, CallSound, Acts, Holding;
    if Holding(w.calls[i]) { HolderCounts(w.calls, i); }
    ActsSound(w, m, i);
    var w' := Acts(w, m, i);
    HoldersUpdate(w.calls, i, w'.calls[i]);
  }

  lemma DoKeeps(w: World, m: Move)
    requires Valid(w)
    ensures Valid(Do(w, m))
  {
    hide Holders, Acts;
    match m {
      case Posts(mutating, deadline) =>
        var calls := Do(w, m).calls;
        HoldersAppend(w.calls, calls[|w.calls|]);
      case Drains =>
      case Stops =>
      case _ => if m.call < |w.calls| { ActsKeeps(w, m, m.call); }
    }
  }

  lemma HoldersAppend(calls: seq<Call>, c: Call)
    ensures Holders(calls + [c]) == Holders(calls) + if Holding(c) then 1 else 0
  {
    assert (calls + [c])[..|calls|] == calls;
  }

  /** One call moves soundly, and returns a permit only while it holds one. */
  lemma ActsSound(w: World, m: Move, i: nat)
    requires Valid(w) && i < |w.calls| && !m.Posts? && !m.Drains? && !m.Stops?
    requires Holding(w.calls[i]) ==> w.gate.pending >= 1
    ensures var w' := Acts(w, m, i);
            && CallSound(w'.calls[i]) && w'.calls == w.calls[i := w'.calls[i]] && w'.stopped == w.stopped
            && w'.gate == w.gate.(pending := w'.gate.pending)
            && w'.gate.pending == w.gate.pending - (if Holding(w.calls[i]) then 1 else 0) + (if Holding(w'.calls[i]) then 1 else 0)
            && (w'.gate.pending > w.gate.pending ==> w.gate.accepting && w'.gate.pending <= w.gate.capacity)
  {
    hide Holders;
    assert CallSound(w.calls[i]);
  }

  // ----- Histories

  function Genesis(capacity: nat): World {
    World(Gate(capacity, 0, true), [], false)
  }

  function Story(w: World, moves: seq<Move>): World
    decreases |moves|
  {
    if moves == [] then w else Story(Do(w, moves[0]), moves[1..])
  }

  lemma {:induction false} StoryValid(w: World, moves: seq<Move>)
    requires Valid(w)
    ensures Valid(Story(w, moves))
    decreases |moves|
  {
    hide Valid, Do;
    if moves != [] {
      DoKeeps(w, moves[0]);
      StoryValid(Do(w, moves[0]), moves[1..]);
    }
  }

  function Told(capacity: nat, moves: seq<Move>): World {
    Story(Genesis(capacity), moves)
  }

  lemma ToldValid(capacity: nat, moves: seq<Move>)
    ensures Valid(Told(capacity, moves))
  {
    StoryValid(Genesis(capacity), moves);
  }

  /** What no move undoes. */
  predicate CallLasts(c: Call, d: Call) {
    && (c.caller.Failed? || c.caller == Rejected ==> d.caller == c.caller && d.mutating == c.mutating)
    && (c.attempt.abandoned ==> d.attempt == c.attempt)
    && (c.sent ==> d.sent)
    && (!Holding(c) && c.caller != Asking ==> d.sent == c.sent && !Holding(d) && d.caller != Asking)
  }

  ghost predicate Lasts(w: World, u: World) {
    && |w.calls| <= |u.calls|
    && (forall i | 0 <= i < |w.calls| :: CallLasts(w.calls[i], u.calls[i]))
    && (!w.gate.accepting ==> !u.gate.accepting && u.gate.pending <= w.gate.pending)
    && (w.stopped ==> u.stopped)
  }

  /** A call keeps what is settled about it. */
  lemma ActsLasts(w: World, m: Move, i: nat)
    requires Valid(w) && i < |w.calls| && !m.Posts? && !m.Drains? && !m.Stops?
    ensures i < |Acts(w, m, i).calls| && CallLasts(w.calls[i], Acts(w, m, i).calls[i])
  {
    hide Holders;
    assert CallSound(w.calls[i]);
  }

  lemma OthersLast(w: World, u: World, i: nat)
    requires i < |w.calls| && |u.calls| == |w.calls| && u.calls == w.calls[i := u.calls[i]] && CallLasts(w.calls[i], u.calls[i])
    ensures forall k | 0 <= k < |w.calls| :: CallLasts(w.calls[k], u.calls[k])
  {
  }

  lemma DoLasts(w: World, m: Move)
    requires Valid(w)
    ensures Lasts(w, Do(w, m))
  {
    hide Holders, Acts, CallSound, CallLasts, Holding;
    AllLasts(w);
    if m.Posts? {
      PostsLast(w, Do(w, m));
    } else if !m.Drains? && !m.Stops? && m.call < |w.calls| {
      var i := m.call;
      if Holding(w.calls[i]) { HolderCounts(w.calls, i); }
      ActsSound(w, m, i);
      ActsLasts(w, m, i);
      OthersLast(w, Acts(w, m, i), i);
    }
  }

  lemma PostsLast(w: World, u: World)
    requires u == w.(calls := u.calls) && w.calls <= u.calls
    ensures Lasts(w, u)
  {
  }

  lemma {:induction false} StoryLasts(w: World, moves: seq<Move>)
    requires Valid(w)
    ensures Lasts(w, Story(w, moves))
    decreases |moves|
  {
    hide Valid, Do, CallSound;
    if moves == [] {
      AllLasts(w);
    } else {
      DoKeeps(w, moves[0]);
      DoLasts(w, moves[0]);
      StoryLasts(Do(w, moves[0]), moves[1..]);
    }
  }

  lemma AllLasts(w: World)
    ensures Lasts(w, w)
  {
  }

  // ----- What this means

  /** If giving up found the request not dispatched, it never is.  So a change of the feed whose caller
      gave up was not sent and never will be, unless the failure is called uncertain. */
  lemma CertainMeansNeverSent(capacity: nat, moves: seq<Move>, more: seq<Move>, i: nat)
    requires i < |Told(capacity, moves).calls| && Told(capacity, moves).calls[i].caller.Failed?
    ensures i < |Story(Told(capacity, moves), more).calls|
    ensures var c, d := Told(capacity, moves).calls[i], Story(Told(capacity, moves), more).calls[i];
            && d.caller == c.caller
            && (c.attempt.abandoned && !c.attempt.dispatched ==> !d.sent && !d.attempt.dispatched)
            && (c.mutating ==> (!c.caller.uncertain ==> !d.sent) && (d.sent ==> d.caller.uncertain))
            && (c.caller.uncertain ==> d.attempt.dispatched)
  {
    hide Story;
    ToldValid(capacity, moves);
    var w := Told(capacity, moves);
    StoryValid(w, more);
    StoryLasts(w, more);
    var u := Story(w, more);
    assert CallSound(w.calls[i]) && CallLasts(w.calls[i], u.calls[i]);
    assert u.calls[i] in u.calls;
  }

  /** The caller reports a failure without calling it uncertain: it could not start or gave up before the
      dispatch, or it rejected a response. */
  predicate ReportedCertain(c: Call) {
    c.caller == Failed(false) || c.caller == Rejected
  }

  /** A change of the feed reported as a certain failure was sent, now or ever, exactly when the failure
      is a rejected response. */
  lemma CertainFailureSent(capacity: nat, moves: seq<Move>, more: seq<Move>, i: nat)
    requires i < |Told(capacity, moves).calls|
    requires Told(capacity, moves).calls[i].mutating && ReportedCertain(Told(capacity, moves).calls[i])
    ensures i < |Story(Told(capacity, moves), more).calls|
    ensures var c, d := Told(capacity, moves).calls[i], Story(Told(capacity, moves), more).calls[i];
            && d.caller == c.caller
            && (d.sent <==> c.caller == Rejected)
  {
    hide Story;
    ToldValid(capacity, moves);
    var w := Told(capacity, moves);
    StoryLasts(w, more);
    if w.calls[i].caller.Failed? {
      CertainMeansNeverSent(capacity, moves, more, i);
    } else {
      var u := Story(w, more);
      assert CallSound(w.calls[i]) && CallLasts(w.calls[i], u.calls[i]);
    }
  }

  /** A world with one permit and one call that changes the feed. */
  function OneCall(caller: Caller, thread: Thread, dispatched: bool, sent: bool, taken: nat, returned: nat): World
    requires returned <= taken
  {
    World(Gate(1, taken - returned, true),
          [Call(true, caller, thread, Attempt(10, dispatched, false), sent, taken, returned)], false)
  }

  lemma OnlyCall(c: Call, d: Call)
    ensures [c][0] == c && [c][0 := d] == [d]
  {
  }

  lemma StartSteps()
    ensures Do(Genesis(1), Posts(true, 10)) == OneCall(Asking, NotStarted, false, false, 0, 0)
    ensures Do(OneCall(Asking, NotStarted, false, false, 0, 0), Acquires(0)) == OneCall(Building, NotStarted, false, false, 1, 0)
    ensures Do(OneCall(Building, NotStarted, false, false, 1, 0), Starts(0)) == OneCall(Waiting, Connecting, false, false, 1, 0)
  {
  }

  lemma SendSteps()
    ensures Do(OneCall(Waiting, Connecting, false, false, 1, 0), Dispatches(0, 0)) == OneCall(Waiting, Dispatching, true, false, 1, 0)
    ensures Do(OneCall(Waiting, Dispatching, true, false, 1, 0), Sends(0)) == OneCall(Waiting, InFlight, true, true, 1, 0)
  {
  }

  lemma CloseSteps()
    ensures Do(OneCall(Waiting, InFlight, true, true, 1, 0), Finishes(0)) == OneCall(Waiting, Closing, true, true, 1, 0)
    ensures Do(OneCall(Waiting, Closing, true, true, 1, 0), Ends(0)) == OneCall(Waiting, Gone, true, true, 1, 1)
  {
    var w := OneCall(Waiting, InFlight, true, true, 1, 0);
    OnlyCall(w.calls[0], w.calls[0].(thread := Closing));
    var v := OneCall(Waiting, Closing, true, true, 1, 0);
    OnlyCall(v.calls[0], v.calls[0].(thread := Gone, returned := 1));
  }

  lemma RejectStep()
    ensures Do(OneCall(Waiting, Gone, true, true, 1, 1), Answers(0, false)) == OneCall(Rejected, Gone, true, true, 1, 1)
  {
    var w := OneCall(Waiting, Gone, true, true, 1, 1);
    OnlyCall(w.calls[0], w.calls[0].(caller := Rejected));
  }

  /** So a certain failure does not mean that nothing was sent: here a change goes out, its response is
      rejected, and the caller hears of a failure that is not called uncertain. */
  lemma RejectedButSent() returns (moves: seq<Move>)
    ensures |Told(1, moves).calls| == 1
    ensures var c := Told(1, moves).calls[0]; c.mutating && ReportedCertain(c) && c.sent
  {
    hide Story, Do;
    StartSteps();
    SendSteps();
    CloseSteps();
    RejectStep();
    var v := OneCall(Rejected, Gone, true, true, 1, 1);
    moves := LeadsTo(OneCall(Waiting, Gone, true, true, 1, 1), Answers(0, false), v, [], v);
    moves := LeadsTo(OneCall(Waiting, Closing, true, true, 1, 0), Ends(0), OneCall(Waiting, Gone, true, true, 1, 1), moves, v);
    moves := LeadsTo(OneCall(Waiting, InFlight, true, true, 1, 0), Finishes(0), OneCall(Waiting, Closing, true, true, 1, 0), moves, v);
    moves := LeadsTo(OneCall(Waiting, Dispatching, true, false, 1, 0), Sends(0), OneCall(Waiting, InFlight, true, true, 1, 0), moves, v);
    moves := LeadsTo(OneCall(Waiting, Connecting, false, false, 1, 0), Dispatches(0, 0), OneCall(Waiting, Dispatching, true, false, 1, 0), moves, v);
    moves := LeadsTo(OneCall(Building, NotStarted, false, false, 1, 0), Starts(0), OneCall(Waiting, Connecting, false, false, 1, 0), moves, v);
    moves := LeadsTo(OneCall(Asking, NotStarted, false, false, 0, 0), Acquires(0), OneCall(Building, NotStarted, false, false, 1, 0), moves, v);
    moves := LeadsTo(Genesis(1), Posts(true, 10), OneCall(Asking, NotStarted, false, false, 0, 0), moves, v);
  }

  lemma LeadsTo(w: World, m: Move, u: World, rest: seq<Move>, v: World) returns (moves: seq<Move>)
    requires Do(w, m) == u && (rest == [] ==> v == u) && (rest != [] ==> Story(u, rest) == v)
    ensures moves != [] && Story(w, moves) == v
  {
    moves := [m] + rest;
    assert moves[1..] == rest;
  }

  /** Every permit taken is returned once, at the end of its call; there are never more out than the
      capacity. */
  lemma PermitsConserved(capacity: nat, moves: seq<Move>)
    ensures var w := Told(capacity, moves);
            && w.gate.pending == Holders(w.calls)
            && w.gate.pending <= capacity
            && forall c | c in w.calls :: c.taken <= 1 && c.returned <= c.taken && (c.taken == c.returned <==> !Holding(c))
  {
    ToldValid(capacity, moves);
    CapacityStays(Genesis(capacity), moves);
  }

  lemma {:induction false} CapacityStays(w: World, moves: seq<Move>)
    requires Valid(w)
    ensures Story(w, moves).gate.capacity == w.gate.capacity
    decreases |moves|
  {
    hide Valid, CallSound;
    if moves != [] {
      DoKeeps(w, moves[0]);
      CapacityStays(Do(w, moves[0]), moves[1..]);
    }
  }

  /** After the drain began, the number of pending transports never rises. */
  lemma DrainOnlyFalls(capacity: nat, moves: seq<Move>, more: seq<Move>)
    requires !Told(capacity, moves).gate.accepting
    ensures Story(Told(capacity, moves), more).gate.pending <= Told(capacity, moves).gate.pending
  {
    hide Story;
    ToldValid(capacity, moves);
    StoryLasts(Told(capacity, moves), more);
  }

  lemma StoppedStep(w: World, m: Move)
    requires Valid(w) && w.stopped
    ensures var u := Do(w, m);
            && u.stopped && |w.calls| <= |u.calls|
            && (forall i | 0 <= i < |w.calls| :: u.calls[i].sent == w.calls[i].sent)
            && (forall i | |w.calls| <= i < |u.calls| :: !u.calls[i].sent)
  {
    hide Holders;
    if !m.Posts? && !m.Drains? && !m.Stops? && m.call < |w.calls| {
      if Holding(w.calls[m.call]) { HolderCounts(w.calls, m.call); }
    }
  }

  lemma {:induction false} StoppedStays(w: World, moves: seq<Move>)
    requires Valid(w) && w.stopped
    ensures var u := Story(w, moves);
            && |w.calls| <= |u.calls|
            && (forall i | 0 <= i < |w.calls| :: u.calls[i].sent == w.calls[i].sent)
            && (forall i | |w.calls| <= i < |u.calls| :: !u.calls[i].sent)
            && (forall c | c in u.calls :: !Holding(c))
    decreases |moves|
  {
    hide Do, CallSound, Holders, Holding;
    if moves == [] {
      forall c | c in w.calls ensures !Holding(c) {
        var i :| 0 <= i < |w.calls| && w.calls[i] == c;
        if Holding(c) { HolderCounts(w.calls, i); }
      }
    } else {
      DoKeeps(w, moves[0]);
      StoppedStep(w, moves[0]);
      StoppedStays(Do(w, moves[0]), moves[1..]);
    }
  }

  /** Once the daemon reports that it stopped, no request goes out any more and no permit is out. */
  lemma StoppedIsQuiet(capacity: nat, moves: seq<Move>, more: seq<Move>)
    requires Told(capacity, moves).stopped
    ensures var w, u := Told(capacity, moves), Story(Told(capacity, moves), more);
            && |w.calls| <= |u.calls|
            && (forall i | 0 <= i < |w.calls| :: u.calls[i].sent == w.calls[i].sent)
            && (forall i | |w.calls| <= i < |u.calls| :: !u.calls[i].sent)
            && (forall c | c in u.calls :: !Holding(c))
  {
    hide Story, Holding;
    ToldValid(capacity, moves);
    StoppedStays(Told(capacity, moves), more);
  }

  // ----- What each answer means for a call

  /** A permit is refused exactly when the gate is closed or full. */
  lemma RefusedExactly(w: World, i: nat)
    requires i < |w.calls| && w.calls[i].caller == Asking
    ensures var c := Do(w, Acquires(i)).calls[i];
            if w.gate.accepting && w.gate.pending < w.gate.capacity then c.caller == Building else c.caller == Refused
  {
  }

  /** A request is let out exactly before its deadline and before its caller gave up; otherwise its thread
      closes, and never sends. */
  lemma DispatchedExactly(w: World, i: nat, now: int, more: seq<Move>)
    requires Valid(w) && i < |w.calls| && w.calls[i].thread == Connecting
    ensures var c := Do(w, Dispatches(i, now)).calls[i];
            (c.attempt.dispatched <==> now < c.attempt.deadline && !w.calls[i].attempt.abandoned)
    ensures var u := Story(Do(w, Dispatches(i, now)), more);
            i < |u.calls| && (now >= w.calls[i].attempt.deadline || w.calls[i].attempt.abandoned ==> !u.calls[i].sent)
  {
    hide Story, Holders;
    assert CallSound(w.calls[i]);
    var v := Do(w, Dispatches(i, now));
    DoKeeps(w, Dispatches(i, now));
    assert CallSound(v.calls[i]);
    NeverDispatched(v, more, i);
  }

  lemma NeverOpens(w: World, m: Move, i: nat)
    requires Valid(w) && i < |w.calls| && w.calls[i].thread in {Closing, Gone} && !w.calls[i].sent
    ensures var u := Do(w, m); i < |u.calls| && u.calls[i].thread in {Closing, Gone} && !u.calls[i].sent
  {
    hide Holders;
    assert CallSound(w.calls[i]);
  }

  lemma {:induction false} NeverDispatched(w: World, moves: seq<Move>, i: nat)
    requires Valid(w) && i < |w.calls| && !w.calls[i].sent
    ensures var u := Story(w, moves); i < |u.calls| && (w.calls[i].thread in {Closing, Gone} ==> !u.calls[i].sent)
    decreases |moves|
  {
    hide Valid, Do, CallSound;
    if moves != [] {
      DoKeeps(w, moves[0]);
      if w.calls[i].thread in {Closing, Gone} {
        NeverOpens(w, moves[0], i);
        NeverDispatched(Do(w, moves[0]), moves[1..], i);
      } else {
        StoryLasts(w, moves);
      }
    }
  }

  /** The caller that gives up hears of an uncertain outcome exactly when its change may have gone out. */
  lemma GivingUpReports(w: World, i: nat)
    requires i < |w.calls| && w.calls[i].caller == Waiting
    ensures var c := Do(w, GivesUp(i)).calls[i];
            c.attempt.abandoned && c.caller.Failed? && (c.caller.uncertain <==> w.calls[i].mutating && w.calls[i].attempt.dispatched)
  {
  }

  /** The daemon reports that it stopped only with the gate closed and nothing pending, and can then. */
  lemma StopsExactly(w: World)
    ensures Do(w, Stops).stopped <==> w.stopped || (!w.gate.accepting && w.gate.pending == 0)
    ensures Do(w, Drains) == w.(gate := Gate(w.gate.capacity, w.gate.pending, false))
  {
  }

  /** Returning a permit takes one from those that are out; with none out it is an error. */
  lemma ReleasedExactly(g: Gate)
    ensures Release(g).None? <==> g.pending == 0
    ensures Release(g).Some? ==> Release(g).value == Gate(g.capacity, g.pending - 1, g.accepting)
  {
  }

  /** However far a worker has come, it can still end, and returns its permit then. */
  lemma WorkerCanEnd(w: World, i: nat) returns (moves: seq<Move>)
    requires Valid(w) && i < |w.calls| && w.calls[i].thread in {Connecting, Dispatching, InFlight, Closing}
    ensures var u := Story(w, moves);
            && |u.calls| == |w.calls| && u.calls[i].thread == Gone && u.calls[i].returned == 1
            && u.gate == w.gate.(pending := u.gate.pending) && u.gate.pending + 1 == w.gate.pending
  {
    hide Holders;
    HolderCounts(w.calls, i);
    assert CallSound(w.calls[i]);
    if w.calls[i].thread == Closing {
      moves := [Ends(i)];
      assert Story(Do(w, Ends(i)), []) == Do(w, Ends(i));
    } else {
      var m := if w.calls[i].thread == Connecting then Breaks(i) else Finishes(i);
      var v := Do(w, m);
      moves := [m, Ends(i)];
      assert moves[1..] == [Ends(i)];
      assert Story(v, [Ends(i)]) == Story(Do(v, Ends(i)), []);
      assert Story(Do(v, Ends(i)), []) == Do(v, Ends(i));
    }
  }

  /** The world with one call more, and so many permits more in use. */
  function Calling(w: World, c: Call, permits: nat): World {
    w.(gate := w.gate.(pending := w.gate.pending + permits), calls := w.calls + [c])
  }

  /** A call that gets its permit and is dispatched in time is answered, and leaves the gate as it found
      it. */
  lemma CallAnswered(w: World, mutating: bool, deadline: int, now: int) returns (moves: seq<Move>)
    requires w.gate.accepting && w.gate.pending < w.gate.capacity && now < deadline
    ensures var u := Story(w, moves);
            && u == w.(calls := u.calls) && |u.calls| == |w.calls| + 1 && u.calls[..|w.calls|] == w.calls
            && var c := u.calls[|w.calls|];
               c.caller == Answered && c.sent && c.mutating == mutating && c.taken == c.returned == 1
  {
    hide Story, Do;
    var n := |w.calls|;
    var quiet := Attempt(deadline, false, false);
    var dispatched := Attempt(deadline, true, false);
    var c0 := Call(mutating, Asking, NotStarted, quiet, false, 0, 0);
    var c1 := Call(mutating, Building, NotStarted, quiet, false, 1, 0);
    var c2 := Call(mutating, Waiting, Connecting, quiet, false, 1, 0);
    var c3 := Call(mutating, Waiting, Dispatching, dispatched, false, 1, 0);
    var c4 := Call(mutating, Waiting, InFlight, dispatched, true, 1, 0);
    var c5 := Call(mutating, Waiting, Closing, dispatched, true, 1, 0);
    var c6 := Call(mutating, Waiting, Gone, dispatched, true, 1, 1);
    var c7 := Call(mutating, Answered, Gone, dispatched, true, 1, 1);
    EarlyMoves(w, c0, c1, c2, c3, now);
    LateMoves(w, c3, c4, c5, c6, c7);
    var v := Calling(w, c7, 0);
    moves := LeadsTo(Calling(w, c6, 0), Answers(n, true), v, [], v);
    moves := LeadsTo(Calling(w, c5, 1), Ends(n), Calling(w, c6, 0), moves, v);
    moves := LeadsTo(Calling(w, c4, 1), Finishes(n), Calling(w, c5, 1), moves, v);
    moves := LeadsTo(Calling(w, c3, 1), Sends(n), Calling(w, c4, 1), moves, v);
    moves := LeadsTo(Calling(w, c2, 1), Dispatches(n, now), Calling(w, c3, 1), moves, v);
    moves := LeadsTo(Calling(w, c1, 1), Starts(n), Calling(w, c2, 1), moves, v);
    moves := LeadsTo(Calling(w, c0, 0), Acquires(n), Calling(w, c1, 1), moves, v);
    moves := LeadsTo(w, Posts(mutating, deadline), Calling(w, c0, 0), moves, v);
  }

  lemma EarlyMoves(w: World, c0: Call, c1: Call, c2: Call, c3: Call, now: int)
    requires w.gate.accepting && w.gate.pending < w.gate.capacity && now < c0.attempt.deadline
    requires c0 == Call(c0.mutating, Asking, NotStarted, Attempt(c0.attempt.deadline, false, false), false, 0, 0)
    requires c1 == c0.(caller := Building, taken := 1)
    requires c2 == c1.(caller := Waiting, thread := Connecting)
    requires c3 == c2.(thread := Dispatching, attempt := c2.attempt.(dispatched := true))
    ensures Do(w, Posts(c0.mutating, c0.attempt.deadline)) == Calling(w, c0, 0)
    ensures var n := |w.calls|;
            && Do(Calling(w, c0, 0), Acquires(n)) == Calling(w, c1, 1)
            && Do(Calling(w, c1, 1), Starts(n)) == Calling(w, c2, 1)
            && Do(Calling(w, c2, 1), Dispatches(n, now)) == Calling(w, c3, 1)
  {
    var n := |w.calls|;
    assert forall c: Call, d: Call :: (w.calls + [c])[n] == c && (w.calls + [c])[n := d] == w.calls + [d];
  }

  lemma LateMoves(w: World, c3: Call, c4: Call, c5: Call, c6: Call, c7: Call)
    requires c3.caller == Waiting && c3.thread == Dispatching && !c3.sent && c3.taken == 1 && c3.returned == 0
    requires c4 == c3.(thread := InFlight, sent := true) && c5 == c4.(thread := Closing)
    requires c6 == c5.(thread := Gone, returned := 1) && c7 == c6.(caller := Answered)
    ensures var n := |w.calls|;
            && Do(Calling(w, c3, 1), Sends(n)) == Calling(w, c4, 1)
            && Do(Calling(w, c4, 1), Finishes(n)) == Calling(w, c5, 1)
            && Do(Calling(w, c5, 1), Ends(n)) == Calling(w, c6, 0)
            && Do(Calling(w, c6, 0), Answers(n, true)) == Calling(w, c7, 0)
  {
    var n := |w.calls|;
    assert forall c: Call, d: Call :: (w.calls + [c])[n] == c && (w.calls + [c])[n := d] == w.calls + [d];
  }
}
