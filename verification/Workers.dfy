/** The background worker: queue, cancellation, approvals and shutdown (raychat/workers.py). */
module Workers {
  import opened Effects

  // ---------------------------------------------------------------- the state and its atomic steps

  datatype Command = Job(id: int) | Reset | Reconfigure | Stop

  datatype Ending = Completes | Errors | Cancels

  /** The kind a callback names when it emits an event of its job; the worker uses some of them itself. */
  datatype Kind = Ends(ending: Ending) | Stops | Other(name: string)

  /** A forwarded event looks to its reader like the worker's own event of the same kind. */
  datatype Event =
    | Idle
    | Started(id: int)
    | Forwarded(id: int, kind: Kind)
    | Terminal(id: int, ending: Ending)
    | ApprovalRequired(id: int, approval: int)
    | ResetDone
    | Notice
    | Stopped

  /** Where the worker thread is; `dead` says that an exception is on its way out of the loop. */
  datatype Phase =
    | Waiting
    | Fetched(c: Command)
    | Entered(c: Command)
    | Chosen(id: int)
    | Running(id: int)
    | Asking(id: int, approval: int)
    | Decided(id: int, ending: Ending)
    | Published(id: int, started: bool)
    | Observing(id: int, started: bool)
    | Leaving(c: Command)
    | Closing
    | Ended

  datatype Answer = Answer(approval: int, approved: bool)

  /** `transit` holds answers between the lock and the queue; `taken` and `granted` are ledgers. */
  datatype Approvals = Approvals(
    next: int,
    pending: Option<int>,
    answered: bool,
    transit: seq<Answer>,
    answers: seq<Answer>,
    taken: seq<Answer>,
    granted: seq<Answer>)

  datatype Worker = Worker(
    pc: Phase,
    dead: bool,
    queue: seq<Command>,
    events: seq<Event>,
    accepted: set<int>,
    cancelled: set<int>,
    active: Option<int>,
    stop: bool,
    processing: bool,
    controls: int,
    nextJob: int,
    approvals: Approvals,
    // ledgers
    lost: seq<int>,
    doomed: set<int>,
    asked: nat,
    returned: nat)

  datatype Action =
    // client threads
    | Submit
    | Cancel(target: Option<int>)
    | Respond(approval: int, approved: bool)
    | Deliver(i: nat)
    | RequestStop
    | RequestReset
    | RequestReconfigure
    // the worker thread
    | Fetch
    | Enter
    | RunControl(raises: bool, notices: bool)
    | Choose
    | Launch
    | Report(kind: Kind)
    | Ask
    | Poll
    | GiveUp
    | Finish(ending: Ending)
    | Publish(resolved: bool)
    | Clean
    | Observe(raises: bool, notices: bool)
    | Leave
    | Close

  function Init(): Worker {
    Worker(Waiting, false, [], [Idle], {}, {}, None, false, false, 0, 1,
           Approvals(1, None, false, [], [], [], []), [], {}, 0, 0)
  }

  /** The job whose outcome is still open. */
  function Undecided(pc: Phase): seq<int> {
    match pc
    case Fetched(Job(id)) => [id]
    case Entered(Job(id)) => [id]
    case Chosen(id) => [id]
    case Running(id) => [id]
    case Asking(id, _) => [id]
    case _ => []
  }

  /** The job without a terminal event. */
  function InFlight(pc: Phase): seq<int> {
    if pc.Decided? then [pc.id] else Undecided(pc)
  }

  /** The job the worker has not yet cleaned up. */
  function Holding(pc: Phase): seq<int> {
    if pc.Published? then [pc.id] else InFlight(pc)
  }

  function Queued(queue: seq<Command>): seq<int> {
    if queue == [] then []
    else (if queue[0].Job? then [queue[0].id] else []) + Queued(queue[1..])
  }

  predicate IsControl(c: Command) {
    c.Reset? || c.Reconfigure?
  }

  /** A stop or a cancellation that the next check will find. */
  predicate Halted(s: Worker, id: int) {
    s.stop || id in s.cancelled || id !in s.accepted
  }

  function Cleared(a: Approvals, approval: int): Approvals {
    if a.pending == Some(approval) then a.(pending := None, answered := false) else a
  }

  predicate Enabled(s: Worker, a: Action) {
    match a
    case Deliver(i) => i < |s.approvals.transit|
    case Fetch => s.pc.Waiting? && s.queue != []
    case Enter => s.pc.Fetched?
    case RunControl(_, _) => s.pc.Entered? && IsControl(s.pc.c)
    case Choose => s.pc.Entered? && s.pc.c.Job?
    case Launch => s.pc.Chosen?
    case Report(_) => s.pc.Running?
    case Ask => s.pc.Running?
    case Poll => s.pc.Asking? && s.approvals.answers != []
    case GiveUp => s.pc.Asking? && Halted(s, s.pc.id)
    case Finish(ending) => s.pc.Running? && (ending.Completes? ==> !Halted(s, s.pc.id))
    case Publish(_) => s.pc.Decided?
    case Clean => s.pc.Published?
    case Observe(_, _) => s.pc.Observing?
    case Leave => s.pc.Leaving?
    case Close => s.pc.Closing?
    case _ => true
  }

  function Submitted(s: Worker): Worker {
    if s.stop then s
    else s.(nextJob := s.nextJob + 1, accepted := s.accepted + {s.nextJob}, queue := s.queue + [Job(s.nextJob)])
  }

  function Target(s: Worker, target: Option<int>): Option<int> {
    if target.Some? then target else s.active
  }

  function Cancelled(s: Worker, target: Option<int>): Worker {
    match Target(s, target)
    case None => s
    case Some(id) =>
      if id !in s.accepted then s
      else s.(cancelled := s.cancelled + {id},
              approvals := if s.active == Some(id) then s.approvals.(pending := None, answered := false) else s.approvals,
              doomed := if id in Undecided(s.pc) + Queued(s.queue) then s.doomed + {id} else s.doomed)
  }

  predicate Answerable(a: Approvals, approval: int) {
    a.pending == Some(approval) && !a.answered
  }

  function Responded(s: Worker, approval: int, approved: bool): Worker {
    var a := s.approvals;
    if !Answerable(a, approval) then s
    else
      var answer := Answer(approval, approved);
      s.(approvals := a.(answered := true, transit := a.transit + [answer], taken := a.taken + [answer]))
  }

  function Delivered(s: Worker, i: nat): Worker
    requires i < |s.approvals.transit|
  {
    var a := s.approvals;
    s.(approvals := a.(answers := a.answers + [a.transit[i]], transit := a.transit[..i] + a.transit[i + 1..]))
  }

  function StopRequested(s: Worker): Worker {
    if s.stop then s
    else s.(stop := true, queue := s.queue + [Stop],
            doomed := s.doomed + set id | id in Undecided(s.pc) + Queued(s.queue))
  }

  function ControlRequested(s: Worker, c: Command): Worker {
    if s.stop then s else s.(controls := s.controls + 1, queue := s.queue + [c], asked := s.asked + 1)
  }

  function Fetching(s: Worker): Worker
    requires s.queue != []
  {
    s.(queue := s.queue[1..], pc := if s.queue[0].Stop? then Closing else Fetched(s.queue[0]))
  }

  /** A failing reset, or an interruption of a callback, ends the loop. */
  function ControlRan(s: Worker, raises: bool, notices: bool): Worker
    requires s.pc.Entered?
  {
    var reply := if raises then [] else if s.pc.c.Reset? then (if s.stop then [] else [ResetDone])
                 else if notices then [Notice] else [];
    s.(pc := Leaving(s.pc.c), dead := raises, returned := s.returned + 1, events := s.events + reply)
  }

  function Launched(s: Worker): Worker
    requires s.pc.Chosen?
  {
    if s.stop then s.(pc := Published(s.pc.id, false), events := s.events + [Terminal(s.pc.id, Cancels)])
    else s.(pc := Running(s.pc.id), events := s.events + [Started(s.pc.id)])
  }

  function Asked(s: Worker): Worker
    requires s.pc.Running?
  {
    var a := s.approvals;
    s.(pc := Asking(s.pc.id, a.next), approvals := a.(next := a.next + 1, pending := Some(a.next), answered := false),
       events := s.events + [ApprovalRequired(s.pc.id, a.next)])
  }

  /** Answers to older approvals are dropped; the right one counts only if nothing has halted the job. */
  function Polled(s: Worker): Worker
    requires s.pc.Asking? && s.approvals.answers != []
  {
    var a, answer := s.approvals.(answers := s.approvals.answers[1..]), s.approvals.answers[0];
    if answer.approval != s.pc.approval then s.(approvals := a)
    else s.(pc := Running(s.pc.id),
            approvals := Cleared(if Halted(s, s.pc.id) then a else a.(granted := a.granted + [answer]), s.pc.approval))
  }

  /** The completion is resolved before the event is published; if that raises, the event never comes. */
  function PublishedJob(s: Worker, resolved: bool): Worker
    requires s.pc.Decided?
  {
    if resolved then s.(pc := Published(s.pc.id, true), events := s.events + [Terminal(s.pc.id, s.pc.ending)])
    else s.(pc := Published(s.pc.id, true), dead := true, lost := s.lost + [s.pc.id])
  }

  function Cleaned(s: Worker): Worker
    requires s.pc.Published?
  {
    s.(pc := Observing(s.pc.id, s.pc.started), accepted := s.accepted - {s.pc.id},
       cancelled := s.cancelled - {s.pc.id}, active := None)
  }

  function Observed(s: Worker, raises: bool, notices: bool): Worker
    requires s.pc.Observing?
  {
    var died := s.dead || (s.pc.started && raises);
    var notice := if s.pc.started && !raises && notices then [Notice] else [];
    var idle := if s.pc.started && !died && !s.stop then [Idle] else [];
    s.(pc := Leaving(Job(s.pc.id)), dead := died, events := s.events + (notice + idle))
  }

  function Left(s: Worker): Worker
    requires s.pc.Leaving?
  {
    s.(processing := false, controls := if IsControl(s.pc.c) then s.controls - 1 else s.controls,
       pc := if s.dead then Closing else Waiting)
  }

  function Step(s: Worker, a: Action): Worker
    requires Enabled(s, a)
  {
    match a
    case Submit => Submitted(s)
    case Cancel(target) => Cancelled(s, target)
    case Respond(approval, approved) => Responded(s, approval, approved)
    case Deliver(i) => Delivered(s, i)
    case RequestStop => StopRequested(s)
    case RequestReset => ControlRequested(s, Reset)
    case RequestReconfigure => ControlRequested(s, Reconfigure)
    case Fetch => Fetching(s)
    case Enter => s.(processing := true, pc := Entered(s.pc.c))
    case RunControl(raises, notices) => ControlRan(s, raises, notices)
    case Choose => s.(active := Some(s.pc.c.id), pc := Chosen(s.pc.c.id))
    case Launch => Launched(s)
    case Report(kind) => s.(events := s.events + [Forwarded(s.pc.id, kind)])
    case Ask => Asked(s)
    case Poll => Polled(s)
    case GiveUp => s.(pc := Running(s.pc.id), approvals := Cleared(s.approvals, s.pc.approval))
    case Finish(ending) => s.(pc := Decided(s.pc.id, ending))
    case Publish(resolved) => PublishedJob(s, resolved)
    case Clean => Cleaned(s)
    case Observe(raises, notices) => Observed(s, raises, notices)
    case Leave => Left(s)
    case Close => s.(pc := Ended, events := s.events + [Stopped])
  }

  // ---------------------------------------------------------------- every job, once and in order

  function TerminalIds(events: seq<Event>): seq<int> {
    if events == [] then []
    else
      var last := events[|events| - 1];
      TerminalIds(events[..|events| - 1]) + (if last.Terminal? then [last.id] else [])
  }

  function Upto(n: int): seq<int> {
    if n <= 1 then [] else Upto(n - 1) + [n - 1]
  }

  function Account(s: Worker): seq<int> {
    TerminalIds(s.events) + s.lost + InFlight(s.pc) + Queued(s.queue)
  }

  /** Finished, lost, running and waiting jobs are all the jobs, in the order of submission. */
  predicate InOrder(s: Worker) {
    s.nextJob >= 1 && Account(s) == Upto(s.nextJob)
  }

  lemma TerminalsJoin(events: seq<Event>, e: Event)
    ensures TerminalIds(events + [e]) == TerminalIds(events) + (if e.Terminal? then [e.id] else [])
  {
    assert (events + [e])[..|events|] == events;
  }

  lemma {:induction false} QueuedJoin(queue: seq<Command>, c: Command)
    ensures Queued(queue + [c]) == Queued(queue) + (if c.Job? then [c.id] else [])
  {
    var longer := queue + [c];
    if queue == [] {
      assert longer == [c] && [c][1..] == [];
    } else {
      QueuedJoin(queue[1..], c);
      assert longer[0] == queue[0] && longer[1..] == queue[1..] + [c];
    }
  }

  /** The worker has left its loop, or is about to. */
  predicate Gone(pc: Phase) {
    pc.Published? || pc.Observing? || pc.Leaving? || pc.Closing? || pc.Ended?
  }

  ghost predicate DeadIsGone(s: Worker) {
    && (s.dead ==> Gone(s.pc))
    && (s.lost != [] ==> s.dead)
  }

  lemma {:induction false} TalkAddsNothing(events: seq<Event>, talk: seq<Event>)
    requires forall i | 0 <= i < |talk| :: !talk[i].Terminal?
    ensures TerminalIds(events + talk) == TerminalIds(events)
  {
    if talk == [] {
      assert events + talk == events;
    } else {
      var rest, last := talk[..|talk| - 1], talk[|talk| - 1];
      TalkAddsNothing(events, rest);
      assert events + talk == (events + rest) + [last];
      TerminalsJoin(events + rest, last);
    }
  }

  /** The steps that touch neither the queue nor the fate of a job. */
  lemma SameAccount(s: Worker, t: Worker)
    requires s.events <= t.events && forall i | |s.events| <= i < |t.events| :: !t.events[i].Terminal?
    requires t.lost == s.lost && InFlight(t.pc) == InFlight(s.pc) && Queued(t.queue) == Queued(s.queue)
    ensures Account(t) == Account(s)
  {
    assert t.events == s.events + t.events[|s.events|..];
    TalkAddsNothing(s.events, t.events[|s.events|..]);
  }

  lemma SubmitAccount(s: Worker)
    ensures Account(Submitted(s)) == Account(s) + if s.stop then [] else [s.nextJob]
  {
    QueuedJoin(s.queue, Job(s.nextJob));
  }

  lemma FetchAccount(s: Worker)
    requires Enabled(s, Fetch)
    ensures Account(Fetching(s)) == Account(s)
  {
    assert InFlight(s.pc) == [];
    assert Queued(s.queue) == InFlight(Fetching(s).pc) + Queued(s.queue[1..]);
  }

  lemma FinalAccount(s: Worker, t: Worker, e: Event)
    requires e.Terminal? && s.lost == [] && InFlight(s.pc) == [e.id] && InFlight(t.pc) == []
    requires t.events == s.events + [e] && t.lost == s.lost && t.queue == s.queue
    ensures Account(t) == Account(s)
  {
    TerminalsJoin(s.events, e);
  }

  lemma LostAccount(s: Worker)
    requires Enabled(s, Publish(false))
    ensures Account(PublishedJob(s, false)) == Account(s)
  {
    var id := s.pc.id;
    assert TerminalIds(s.events) + (s.lost + [id]) + [] == TerminalIds(s.events) + s.lost + [id];
  }

  /** A step on a client thread. */
  predicate OfClient(a: Action) {
    a.Submit? || a.Cancel? || a.Respond? || a.Deliver? || a.RequestStop? || a.RequestReset? || a.RequestReconfigure?
  }

  lemma ClientStep(s: Worker, a: Action)
    requires Enabled(s, a) && OfClient(a) && !a.Submit?
    ensures var t := Step(s, a);
      && t.events == s.events && t.lost == s.lost && t.pc == s.pc && t.nextJob == s.nextJob
      && Queued(t.queue) == Queued(s.queue)
  {
    if a.RequestStop? { QueuedJoin(s.queue, Stop); }
    if a.RequestReset? { QueuedJoin(s.queue, Reset); }
    if a.RequestReconfigure? { QueuedJoin(s.queue, Reconfigure); }
  }

  /** What a step of the worker says, apart from the fate of a job. */
  function Talk(s: Worker, a: Action): seq<Event>
    requires Enabled(s, a)
  {
    match a
    case RunControl(raises, notices) =>
      if raises then [] else if s.pc.c.Reset? then (if s.stop then [] else [ResetDone]) else if notices then [Notice] else []
    case Launch => if s.stop then [] else [Started(s.pc.id)]
    case Report(kind) => [Forwarded(s.pc.id, kind)]
    case Ask => [ApprovalRequired(s.pc.id, s.approvals.next)]
    case Observe(raises, notices) =>
      if !s.pc.started then []
      else (if !raises && notices then [Notice] else []) + (if !(s.dead || raises || s.stop) then [Idle] else [])
    case Close => [Stopped]
    case _ => []
  }

  lemma QuietStep(s: Worker, a: Action)
    requires Enabled(s, a) && !OfClient(a) && !a.Fetch? && !a.Publish? && !(a.Launch? && s.stop)
    ensures var t := Step(s, a);
      && t.events == s.events + Talk(s, a)
      && t.lost == s.lost && InFlight(t.pc) == InFlight(s.pc) && t.queue == s.queue && t.nextJob == s.nextJob
  {
  }

  lemma QuietAccount(s: Worker, a: Action)
    requires Enabled(s, a) && !OfClient(a) && !a.Fetch? && !a.Publish? && !(a.Launch? && s.stop)
    ensures Account(Step(s, a)) == Account(s)
  {
    QuietStep(s, a);
    SameAccount(s, Step(s, a));
  }

  lemma StepAccount(s: Worker, a: Action)
    requires DeadIsGone(s) && Enabled(s, a)
    ensures Account(Step(s, a)) == Account(s) + if a.Submit? && !s.stop then [s.nextJob] else []
  {
    if a.Submit? {
      SubmitAccount(s);
    } else if OfClient(a) {
      ClientStep(s, a);
    } else if a.Fetch? {
      FetchAccount(s);
    } else if a.Launch? && s.stop {
      FinalAccount(s, Launched(s), Terminal(s.pc.id, Cancels));
    } else if a == Publish(true) {
      FinalAccount(s, PublishedJob(s, true), Terminal(s.pc.id, s.pc.ending));
    } else if a.Publish? {
      LostAccount(s);
    } else {
      QuietAccount(s, a);
    }
  }

  lemma StepDead(s: Worker, a: Action)
    requires DeadIsGone(s) && Enabled(s, a)
    ensures DeadIsGone(Step(s, a))
  {
  }

  lemma StepNext(s: Worker, a: Action)
    requires Enabled(s, a)
    ensures Step(s, a).nextJob == s.nextJob + if a.Submit? && !s.stop then 1 else 0
  {
    if OfClient(a) {
      if !a.Submit? { ClientStep(s, a); }
    } else if !a.Fetch? && !a.Publish? && !(a.Launch? && s.stop) {
      QuietStep(s, a);
    }
  }

  lemma StepOrder(s: Worker, a: Action)
    requires InOrder(s) && DeadIsGone(s) && Enabled(s, a)
    ensures InOrder(Step(s, a))
  {
    var account, next := Account(Step(s, a)), Step(s, a).nextJob;
    StepAccount(s, a);
    StepNext(s, a);
    assert Upto(s.nextJob + 1) == Upto(s.nextJob) + [s.nextJob];
    assert account == Upto(next);
  }

  function Finished(s: Worker): seq<int> {
    TerminalIds(s.events) + s.lost
  }

  lemma {:induction false} UptoAt(n: int)
    requires n >= 1
    ensures |Upto(n)| == n - 1 && forall i | 0 <= i < n - 1 :: Upto(n)[i] == i + 1
  {
    if n > 1 { UptoAt(n - 1); }
  }

  /** Jobs are numbered by submission: the one in flight follows those that are done, the queue comes after. */
  lemma Numbered(s: Worker)
    requires InOrder(s)
    ensures forall i | 0 <= i < |Finished(s)| :: Finished(s)[i] == i + 1
    ensures InFlight(s.pc) != [] ==> InFlight(s.pc)[0] == |Finished(s)| + 1
    ensures forall x | x in Queued(s.queue) :: |Finished(s)| + |InFlight(s.pc)| < x < s.nextJob
  {
    UptoAt(s.nextJob);
    var all, flight, queued := Account(s), InFlight(s.pc), Queued(s.queue);
    assert all == Finished(s) + flight + queued;
    forall i | 0 <= i < |Finished(s)| ensures Finished(s)[i] == i + 1 { assert all[i] == Finished(s)[i]; }
    if flight != [] { assert all[|Finished(s)|] == flight[0]; }
    forall x | x in queued
      ensures |Finished(s)| + |flight| < x < s.nextJob
    {
      var k :| 0 <= k < |queued| && queued[k] == x;
      assert all[|Finished(s)| + |flight| + k] == x;
    }
  }

  /** A terminal event belongs to a job that is done. */
  lemma {:induction false} TerminalIsDone(events: seq<Event>, i: nat)
    requires i < |events| && events[i].Terminal?
    ensures events[i].id in TerminalIds(events)
  {
    if i < |events| - 1 { TerminalIsDone(events[..|events| - 1], i); }
  }

  // ---------------------------------------------------------------- what the worker accepts, and quiescence

  function ActiveOf(pc: Phase): Option<int> {
    if pc.Chosen? || pc.Running? || pc.Asking? || pc.Decided? || pc.Published? then Some(pc.id) else None
  }

  ghost predicate AcceptedIsOpen(s: Worker) {
    && (forall x :: x in s.accepted <==> x in Holding(s.pc) + Queued(s.queue))
    && (s.pc.Published? ==> Finished(s) != [] && Finished(s)[|Finished(s)| - 1] == s.pc.id)
    && s.active == ActiveOf(s.pc)
  }

  /** The remaining steps of the worker thread. */
  predicate Inner(s: Worker, a: Action) {
    !OfClient(a) && !a.Fetch? && !a.Publish? && !a.Clean? && !(a.Launch? && s.stop)
  }

  lemma InnerStep(s: Worker, a: Action)
    requires Enabled(s, a) && Inner(s, a)
    ensures var t := Step(s, a);
      && t.accepted == s.accepted && t.cancelled == s.cancelled && t.queue == s.queue && t.stop == s.stop
      && t.doomed == s.doomed && t.nextJob == s.nextJob
      && Holding(t.pc) == Holding(s.pc) && (a.Finish? || Undecided(t.pc) == Undecided(s.pc))
      && !t.pc.Published? && ActiveOf(t.pc) == (if a.Choose? then t.active else ActiveOf(s.pc))
      && (a.Choose? || t.active == s.active)
  {
    InnerShared(s, a);
  }

  lemma InnerShared(s: Worker, a: Action)
    requires Enabled(s, a) && Inner(s, a)
    ensures var t := Step(s, a);
      && t.accepted == s.accepted && t.cancelled == s.cancelled && t.queue == s.queue && t.stop == s.stop
      && t.doomed == s.doomed && t.nextJob == s.nextJob
  {
  }

  lemma CleanAccepted(s: Worker)
    requires InOrder(s) && AcceptedIsOpen(s) && s.pc.Published?
    ensures AcceptedIsOpen(Cleaned(s))
  {
    Numbered(s);
    assert Finished(s)[|Finished(s)| - 1] == |Finished(s)|;
  }

  lemma PublishAccepted(s: Worker, resolved: bool)
    requires DeadIsGone(s) && AcceptedIsOpen(s) && s.pc.Decided?
    ensures AcceptedIsOpen(PublishedJob(s, resolved))
  {
    if resolved {
      TerminalsJoin(s.events, Terminal(s.pc.id, s.pc.ending));
      assert Finished(PublishedJob(s, true)) == TerminalIds(s.events) + [s.pc.id];
    }
  }

  lemma RefusedAccepted(s: Worker)
    requires DeadIsGone(s) && AcceptedIsOpen(s) && s.pc.Chosen? && s.stop
    ensures AcceptedIsOpen(Launched(s))
  {
    TerminalsJoin(s.events, Terminal(s.pc.id, Cancels));
    assert Finished(Launched(s)) == TerminalIds(s.events) + [s.pc.id];
  }

  lemma ClientAccepted(s: Worker, a: Action)
    requires AcceptedIsOpen(s) && Enabled(s, a) && OfClient(a)
    ensures AcceptedIsOpen(Step(s, a))
  {
    if a.Submit? { QueuedJoin(s.queue, Job(s.nextJob)); } else { ClientStep(s, a); }
  }

  lemma StepAccepted(s: Worker, a: Action)
    requires InOrder(s) && DeadIsGone(s) && AcceptedIsOpen(s) && Enabled(s, a)
    ensures AcceptedIsOpen(Step(s, a))
  {
    if OfClient(a) {
      ClientAccepted(s, a);
    } else if a.Clean? {
      CleanAccepted(s);
    } else if a.Publish? {
      PublishAccepted(s, a.resolved);
    } else if a.Launch? && s.stop {
      RefusedAccepted(s);
    } else if a.Fetch? {
      FetchAccount(s);
    } else {
      InnerStep(s, a);
    }
  }

  function Controls(queue: seq<Command>): nat {
    if queue == [] then 0
    else (if IsControl(queue[0]) then 1 else 0) + Controls(queue[1..])
  }

  lemma {:induction false} ControlsJoin(queue: seq<Command>, c: Command)
    ensures Controls(queue + [c]) == Controls(queue) + (if IsControl(c) then 1 else 0)
  {
    if queue == [] {
      assert [c][1..] == [];
    } else {
      assert (queue + [c])[1..] == queue[1..] + [c];
      ControlsJoin(queue[1..], c);
    }
  }

  /** A control callback that has been taken off the queue and has not returned. */
  predicate Controlling(pc: Phase) {
    (pc.Fetched? || pc.Entered?) && IsControl(pc.c)
  }

  predicate ControlsCounted(s: Worker) {
    && s.controls == Controls(s.queue) + (if Controlling(s.pc) || (s.pc.Leaving? && IsControl(s.pc.c)) then 1 else 0)
    && s.asked == s.returned + Controls(s.queue) + (if Controlling(s.pc) then 1 else 0)
    && s.processing == !(s.pc.Waiting? || s.pc.Fetched? || s.pc.Closing? || s.pc.Ended?)
  }

  lemma StepControls(s: Worker, a: Action)
    requires ControlsCounted(s) && Enabled(s, a)
    ensures ControlsCounted(Step(s, a))
  {
    if OfClient(a) {
      ClientControls(s, a);
    } else if a.Fetch? {
      FetchControls(s);
    } else if a.RunControl? {
      assert ControlsCounted(ControlRan(s, a.raises, a.notices));
    } else if a.Leave? {
      assert ControlsCounted(Left(s));
    } else {
      JobControls(s, a);
    }
  }

  /** While a job runs, no control does. */
  lemma JobControls(s: Worker, a: Action)
    requires ControlsCounted(s) && Enabled(s, a) && !OfClient(a) && !a.Fetch? && !a.RunControl? && !a.Leave?
    ensures ControlsCounted(Step(s, a))
  {
    var t := Step(s, a);
    assert t.queue == s.queue && t.controls == s.controls && t.asked == s.asked && t.returned == s.returned;
  }

  lemma FetchControls(s: Worker)
    requires ControlsCounted(s) && Enabled(s, Fetch)
    ensures ControlsCounted(Fetching(s))
  {
    assert Controls(s.queue) == (if IsControl(s.queue[0]) then 1 else 0) + Controls(s.queue[1..]);
  }

  lemma ClientControls(s: Worker, a: Action)
    requires ControlsCounted(s) && Enabled(s, a) && OfClient(a)
    ensures ControlsCounted(Step(s, a))
  {
    if a.Submit? { ControlsJoin(s.queue, Job(s.nextJob)); }
    if a.RequestStop? { ControlsJoin(s.queue, Stop); }
    if a.RequestReset? { ControlsJoin(s.queue, Reset); }
    if a.RequestReconfigure? { ControlsJoin(s.queue, Reconfigure); }
  }

  predicate NoStop(queue: seq<Command>) {
    forall i | 0 <= i < |queue| :: !queue[i].Stop?
  }

  /** The one stop command ends the queue; without it only a crash ends the loop. */
  predicate StopIsLast(s: Worker) {
    && (!s.stop ==> NoStop(s.queue))
    && (s.stop ==>
          || (s.queue != [] && s.queue[|s.queue| - 1].Stop? && NoStop(s.queue[..|s.queue| - 1]))
          || (s.queue == [] && (s.pc.Closing? || s.pc.Ended?)))
    && (s.pc.Closing? || s.pc.Ended? ==> s.dead || (s.stop && s.queue == []))
    && (s.pc.Fetched? || s.pc.Entered? ==> !s.pc.c.Stop?)
  }

  lemma StepStop(s: Worker, a: Action)
    requires StopIsLast(s) && Enabled(s, a)
    ensures StopIsLast(Step(s, a))
  {
    if Inner(s, a) {
      InnerStep(s, a);
    } else if a.Fetch? {
      FetchStop(s);
    } else if OfClient(a) {
      ClientStop(s, a);
    }
  }

  lemma ClientStop(s: Worker, a: Action)
    requires StopIsLast(s) && Enabled(s, a) && OfClient(a)
    ensures StopIsLast(Step(s, a))
  {
    if a.RequestStop? && !s.stop { assert (s.queue + [Stop])[..|s.queue|] == s.queue; }
  }

  lemma FetchStop(s: Worker)
    requires StopIsLast(s) && Enabled(s, Fetch)
    ensures StopIsLast(Fetching(s))
  {
    if s.stop && |s.queue| > 1 {
      assert s.queue[1..][..|s.queue| - 2] == s.queue[..|s.queue| - 1][1..];
    }
  }

  predicate NoStopped(events: seq<Event>) {
    forall i | 0 <= i < |events| :: !events[i].Stopped?
  }

  /** `stopped` is the last word, and it is said once. */
  predicate StoppedEnds(s: Worker) {
    if s.pc.Ended? then
      s.events != [] && s.events[|s.events| - 1].Stopped? && NoStopped(s.events[..|s.events| - 1])
    else NoStopped(s.events)
  }

  lemma StepStopped(s: Worker, a: Action)
    requires StoppedEnds(s) && Enabled(s, a)
    ensures StoppedEnds(Step(s, a))
  {
    if Inner(s, a) {
      QuietStep(s, a);
      SaysNext(s, a, Step(s, a), Talk(s, a));
    }
  }

  lemma SaysNext(s: Worker, a: Action, t: Worker, talk: seq<Event>)
    requires Enabled(s, a) && Inner(s, a) && t == Step(s, a) && talk == Talk(s, a) && t.events == s.events + talk
    requires NoStopped(s.events)
    ensures StoppedEnds(t)
  {
    if a.Close? {
      assert t.events[..|s.events|] == s.events;
    } else {
      assert NoStopped(talk);
    }
  }

  /** What `quiescent` reports. */
  predicate Quiescent(s: Worker) {
    s.accepted == {} && !s.processing && s.controls == 0 && s.queue == []
  }

  // ---------------------------------------------------------------- cancelled jobs do not complete

  /** A job that was cancelled or stopped before its outcome was decided. */
  ghost predicate DoomedFail(s: Worker) {
    && (forall x | x in s.doomed && x in Undecided(s.pc) + Queued(s.queue) :: x in s.cancelled || s.stop)
    && (s.stop ==> forall x | x in Undecided(s.pc) + Queued(s.queue) :: x in s.doomed)
    && (forall x | x in s.doomed :: x < s.nextJob)
    && (s.pc.Decided? && s.pc.ending.Completes? ==> s.pc.id !in s.doomed)
    && (forall i | 0 <= i < |s.events| && s.events[i].Terminal? && s.events[i].ending.Completes? :: s.events[i].id !in s.doomed)
  }

  lemma UndecidedIsNew(s: Worker, x: int)
    requires InOrder(s) && x in Undecided(s.pc) + Queued(s.queue)
    ensures forall i | 0 <= i < |s.events| && s.events[i].Terminal? :: s.events[i].id != x
    ensures s.pc.Decided? ==> s.pc.id != x
    ensures x < s.nextJob
  {
    Numbered(s);
    UptoAt(s.nextJob);
    assert |Account(s)| == s.nextJob - 1;
    forall i | 0 <= i < |s.events| && s.events[i].Terminal?
      ensures s.events[i].id != x
    {
      TerminalIsDone(s.events, i);
      var k :| 0 <= k < |TerminalIds(s.events)| && TerminalIds(s.events)[k] == s.events[i].id;
      assert Finished(s)[k] == s.events[i].id;
    }
  }

  lemma CancelDooms(s: Worker, target: Option<int>)
    requires InOrder(s) && DoomedFail(s)
    ensures DoomedFail(Cancelled(s, target))
  {
    var id := Target(s, target);
    if id.Some? && id.value in Undecided(s.pc) + Queued(s.queue) { UndecidedIsNew(s, id.value); }
  }

  lemma StopDooms(s: Worker)
    requires InOrder(s) && DoomedFail(s)
    ensures DoomedFail(StopRequested(s))
  {
    QueuedJoin(s.queue, Stop);
    forall x | x in Undecided(s.pc) + Queued(s.queue) { UndecidedIsNew(s, x); }
  }

  lemma ClientDooms(s: Worker, a: Action)
    requires InOrder(s) && DoomedFail(s) && Enabled(s, a) && OfClient(a)
    ensures DoomedFail(Step(s, a))
  {
    if a.Cancel? {
      CancelDooms(s, a.target);
    } else if a.RequestStop? {
      StopDooms(s);
    } else if a.Submit? {
      QueuedJoin(s.queue, Job(s.nextJob));
    } else {
      ClientStep(s, a);
    }
  }

  lemma CleanDooms(s: Worker)
    requires InOrder(s) && AcceptedIsOpen(s) && DoomedFail(s) && s.pc.Published?
    ensures DoomedFail(Cleaned(s))
  {
    Numbered(s);
    assert Finished(s)[|Finished(s)| - 1] == |Finished(s)|;
  }

  lemma SpeakDooms(s: Worker, a: Action)
    requires DoomedFail(s) && Enabled(s, a) && (a.Publish? || (a.Launch? && s.stop))
    ensures DoomedFail(Step(s, a))
  {
    var t := Step(s, a);
    assert Undecided(t.pc) == [] && t.doomed == s.doomed;
    forall i | 0 <= i < |t.events| && t.events[i].Terminal? && t.events[i].ending.Completes?
      ensures t.events[i].id !in t.doomed
    {
      if i < |s.events| { assert t.events[i] == s.events[i]; }
    }
  }

  lemma InnerDooms(s: Worker, a: Action)
    requires AcceptedIsOpen(s) && DoomedFail(s) && Enabled(s, a) && Inner(s, a)
    ensures DoomedFail(Step(s, a))
  {
    InnerStep(s, a);
    QuietStep(s, a);
    if a.Finish? { assert s.pc.id in Undecided(s.pc) + Queued(s.queue); }
  }

  lemma StepDoomed(s: Worker, a: Action)
    requires InOrder(s) && AcceptedIsOpen(s) && DoomedFail(s) && Enabled(s, a)
    ensures DoomedFail(Step(s, a))
  {
    if OfClient(a) {
      ClientDooms(s, a);
    } else if a.Clean? {
      CleanDooms(s);
    } else if a.Fetch? {
      FetchAccount(s);
    } else if Inner(s, a) {
      InnerDooms(s, a);
    } else {
      SpeakDooms(s, a);
    }
  }

  // ---------------------------------------------------------------- approvals are answered once

  predicate Mentions(answers: seq<Answer>, approval: int) {
    exists i | 0 <= i < |answers| :: answers[i].approval == approval
  }

  predicate Distinct(answers: seq<Answer>) {
    forall i, j | 0 <= i < j < |answers| :: answers[i].approval != answers[j].approval
  }

  predicate From(answers: seq<Answer>, taken: seq<Answer>) {
    forall i | 0 <= i < |answers| :: answers[i] in taken
  }

  predicate Below(answers: seq<Answer>, next: int) {
    forall i | 0 <= i < |answers| :: answers[i].approval < next
  }

  /** Only the newest approval can be open, and only its job can be asking for it. */
  ghost predicate ApprovalsOnce(pc: Phase, a: Approvals) {
    && (a.pending.Some? ==> pc.Asking? && pc.approval == a.pending.value)
    && (pc.Asking? ==> pc.approval == a.next - 1)
    && (Answerable(a, a.next - 1) ==> !Mentions(a.taken, a.next - 1))
    && Distinct(a.taken) && Distinct(a.granted)
    && From(a.transit, a.taken) && From(a.answers, a.taken) && From(a.granted, a.taken)
    && Below(a.taken, a.next)
    && Below(a.granted, if pc.Asking? then a.next - 1 else a.next)
  }

  lemma RespondOnce(s: Worker, approval: int, approved: bool)
    requires ApprovalsOnce(s.pc, s.approvals)
    ensures ApprovalsOnce(s.pc, Responded(s, approval, approved).approvals)
  {
    var a, b := s.approvals, Responded(s, approval, approved).approvals;
    if Answerable(a, approval) {
      var answer := Answer(approval, approved);
      assert b.taken == a.taken + [answer] && b.taken[|a.taken|] == answer;
      forall x | x in a.taken ensures x in b.taken {}
    }
  }

  lemma PollOnce(s: Worker)
    requires ApprovalsOnce(s.pc, s.approvals) && Enabled(s, Poll)
    ensures ApprovalsOnce(Polled(s).pc, Polled(s).approvals)
  {
    var a := s.approvals;
    var rest, answer := a.answers[1..], a.answers[0];
    assert From(rest, a.taken) by {
      assert forall i | 0 <= i < |rest| :: rest[i] == a.answers[i + 1];
    }
    if answer.approval == s.pc.approval { GrantOnce(a, answer); }
  }

  /** The answer to the newest approval joins the decisions. */
  lemma GrantOnce(a: Approvals, answer: Answer)
    requires Distinct(a.granted) && From(a.granted, a.taken) && Below(a.granted, a.next - 1)
    requires answer in a.taken && answer.approval == a.next - 1
    ensures Distinct(a.granted + [answer]) && From(a.granted + [answer], a.taken) && Below(a.granted + [answer], a.next)
  {
  }

  lemma AskOnce(s: Worker)
    requires ApprovalsOnce(s.pc, s.approvals) && s.pc.Running?
    ensures ApprovalsOnce(Asked(s).pc, Asked(s).approvals)
  {
  }

  lemma DeliverOnce(s: Worker, i: nat)
    requires ApprovalsOnce(s.pc, s.approvals) && i < |s.approvals.transit|
    ensures ApprovalsOnce(s.pc, Delivered(s, i).approvals)
  {
  }

  lemma OthersAskNothing(s: Worker, a: Action)
    requires Enabled(s, a) && ApprovalsOnce(s.pc, s.approvals)
    requires !(a.Respond? || a.Deliver? || a.Poll? || a.Ask? || a.Cancel? || a.GiveUp?)
    ensures Step(s, a).approvals == s.approvals && !s.pc.Asking? == !Step(s, a).pc.Asking?
    ensures s.pc.Asking? ==> Step(s, a).pc == s.pc
  {
  }

  lemma StepApprovals(s: Worker, a: Action)
    requires ApprovalsOnce(s.pc, s.approvals) && Enabled(s, a)
    ensures ApprovalsOnce(Step(s, a).pc, Step(s, a).approvals)
  {
    match a
    case Respond(approval, approved) => RespondOnce(s, approval, approved);
    case Deliver(i) => DeliverOnce(s, i);
    case Poll => PollOnce(s);
    case Ask => AskOnce(s);
    case Cancel(_) =>
    case GiveUp =>
    case _ => OthersAskNothing(s, a);
  }

  /** A decision reaches the session only as somebody's accepted answer, and never after the job was halted. */
  lemma GrantsAreAnswers(s: Worker, a: Action)
    requires ApprovalsOnce(s.pc, s.approvals) && Enabled(s, a) && Step(s, a).approvals.granted != s.approvals.granted
    ensures a.Poll? && s.pc.Asking? && !Halted(s, s.pc.id)
    ensures var answer := s.approvals.answers[0];
      && Step(s, a).approvals.granted == s.approvals.granted + [answer]
      && answer.approval == s.pc.approval && answer in s.approvals.taken && !Mentions(s.approvals.granted, answer.approval)
  {
    if !(a.Respond? || a.Deliver? || a.Poll? || a.Ask? || a.Cancel? || a.GiveUp?) {
      OthersAskNothing(s, a);
    } else if a.Poll? {
      assert s.approvals.answers[0] in s.approvals.taken;
    }
  }

  // ---------------------------------------------------------------- whole runs

  ghost predicate Inv(s: Worker) {
    && InOrder(s) && DeadIsGone(s) && AcceptedIsOpen(s) && ControlsCounted(s)
    && StopIsLast(s) && StoppedEnds(s) && DoomedFail(s) && ApprovalsOnce(s.pc, s.approvals)
  }

  lemma InitInv()
    ensures Inv(Init())
  {
    assert TerminalIds([Idle]) == TerminalIds([Idle][..0]);
  }

  lemma StepInv(s: Worker, a: Action)
    requires Inv(s) && Enabled(s, a)
    ensures Inv(Step(s, a))
  {
    StepOrder(s, a);
    StepDead(s, a);
    StepAccepted(s, a);
    StepControls(s, a);
    StepStop(s, a);
    StepStopped(s, a);
    StepDoomed(s, a);
    StepApprovals(s, a);
  }

  predicate EnabledRun(s: Worker, run: seq<Action>)
    decreases |run|, 0
  {
    run == [] || (EnabledRun(s, run[..|run| - 1]) && Enabled(Run(s, run[..|run| - 1]), run[|run| - 1]))
  }

  function Run(s: Worker, run: seq<Action>): Worker
    requires EnabledRun(s, run)
    decreases |run|, 1
  {
    if run == [] then s else Step(Run(s, run[..|run| - 1]), run[|run| - 1])
  }

  lemma {:induction false} RunInv(run: seq<Action>)
    requires EnabledRun(Init(), run)
    ensures Inv(Run(Init(), run))
    decreases |run|
  {
    if run == [] {
      InitInv();
    } else {
      RunInv(run[..|run| - 1]);
      StepInv(Run(Init(), run[..|run| - 1]), run[|run| - 1]);
    }
  }

  /** A control that raises, a completion that cannot be resolved, or an interrupted observer. */
  predicate Fatal(s: Worker, a: Action) {
    && Enabled(s, a)
    && ((a.RunControl? && a.raises) || (a.Publish? && !a.resolved) || (a.Observe? && a.raises && s.pc.started))
  }

  ghost predicate FatalAt(run: seq<Action>, i: nat)
    requires i < |run|
  {
    EnabledRun(Init(), run[..i]) && Fatal(Run(Init(), run[..i]), run[i])
  }

  ghost predicate FatalRun(run: seq<Action>) {
    exists i | 0 <= i < |run| :: FatalAt(run, i)
  }

  /** Only the last step of a run can add to what was fatal before. */
  lemma FatalMore(run: seq<Action>)
    requires run != []
    ensures FatalRun(run) <==> FatalRun(run[..|run| - 1]) || FatalAt(run, |run| - 1)
  {
    var before := run[..|run| - 1];
    forall i: nat | i < |before| ensures FatalAt(run, i) <==> FatalAt(before, i) { assert before[..i] == run[..i]; }
    if i :| 0 <= i < |before| && FatalAt(before, i) { assert FatalAt(run, i); }
    if i :| 0 <= i < |run| && FatalAt(run, i) { assert i < |before| ==> FatalAt(before, i); }
  }

  /** The loop dies exactly when one of these happens. */
  lemma {:induction false} DiesExactly(run: seq<Action>)
    requires EnabledRun(Init(), run)
    ensures Run(Init(), run).dead <==> FatalRun(run)
    decreases |run|
  {
    if run != [] {
      var before, last := run[..|run| - 1], run[|run| - 1];
      DiesExactly(before);
      RunInv(before);
      DeadStep(Run(Init(), before), last);
      FatalMore(run);
    }
  }

  lemma DeadStep(s: Worker, a: Action)
    requires DeadIsGone(s) && Enabled(s, a)
    ensures Step(s, a).dead <==> s.dead || Fatal(s, a)
  {
  }

  // ---------------------------------------------------------------- which runs end every job

  /** The step neither loses a job nor leaves one behind in the queue of a dead loop. */
  predicate KeepsJobs(s: Worker, a: Action) {
    && a != Publish(false)
    && (Fatal(s, a) ==> Queued(s.queue) == [])
    && (a.Submit? && s.dead ==> s.stop)
  }

  ghost predicate KeptAt(run: seq<Action>, i: nat)
    requires i < |run|
  {
    EnabledRun(Init(), run[..i]) && KeepsJobs(Run(Init(), run[..i]), run[i])
  }

  /** Every outcome is resolved, nothing waits behind a fatal step, and nothing is accepted after one. */
  ghost predicate KeepsAll(run: seq<Action>) {
    forall i | 0 <= i < |run| :: KeptAt(run, i)
  }

  /** Every accepted job is finished, under way or in the queue of a live loop. */
  predicate NothingLost(s: Worker) {
    s.lost == [] && (s.dead ==> Queued(s.queue) == [])
  }

  lemma LossStep(s: Worker, a: Action)
    requires DeadIsGone(s) && Enabled(s, a)
    ensures NothingLost(Step(s, a)) <==> NothingLost(s) && KeepsJobs(s, a)
  {
    if OfClient(a) {
      ClientLoss(s, a);
    } else if a.Publish? || a.Leave? {
      EndingLoss(s, a);
    }
  }

  lemma ClientLoss(s: Worker, a: Action)
    requires DeadIsGone(s) && Enabled(s, a) && OfClient(a)
    ensures NothingLost(Step(s, a)) <==> NothingLost(s) && KeepsJobs(s, a)
  {
    if a.Submit? {
      QueuedJoin(s.queue, Job(s.nextJob));
    } else {
      ClientStep(s, a);
    }
  }

  lemma EndingLoss(s: Worker, a: Action)
    requires DeadIsGone(s) && Enabled(s, a) && (a.Publish? || a.Leave?)
    ensures NothingLost(Step(s, a)) <==> NothingLost(s) && KeepsJobs(s, a)
  {
  }

  lemma KeepsMore(run: seq<Action>)
    requires run != []
    ensures KeepsAll(run) <==> KeepsAll(run[..|run| - 1]) && KeptAt(run, |run| - 1)
  {
    var before := run[..|run| - 1];
    forall i: nat | i < |before| ensures KeptAt(run, i) <==> KeptAt(before, i) { assert before[..i] == run[..i]; }
    if KeepsAll(run) {
      forall i | 0 <= i < |before| ensures KeptAt(before, i) { assert KeptAt(run, i); }
    }
    if KeepsAll(before) && KeptAt(run, |run| - 1) {
      forall i | 0 <= i < |run| ensures KeptAt(run, i) { if i < |before| { assert KeptAt(before, i); } }
    }
  }

  lemma {:induction false} LosesExactly(run: seq<Action>)
    requires EnabledRun(Init(), run)
    ensures NothingLost(Run(Init(), run)) <==> KeepsAll(run)
    decreases |run|
  {
    if run != [] {
      var before, last := run[..|run| - 1], run[|run| - 1];
      LosesExactly(before);
      RunInv(before);
      LossStep(Run(Init(), before), last);
      KeepsMore(run);
    }
  }

  /** The worker's own terminal events come at most once per job, in the order of submission, whatever the interleaving. */
  lemma TerminalsInOrder(run: seq<Action>)
    requires EnabledRun(Init(), run)
    ensures var s := Run(Init(), run);
      && |TerminalIds(s.events)| < s.nextJob
      && forall i | 0 <= i < |TerminalIds(s.events)| :: TerminalIds(s.events)[i] == i + 1
  {
    RunInv(run);
    var s := Run(Init(), run);
    Numbered(s);
    UptoAt(s.nextJob);
    assert |Account(s)| == s.nextJob - 1;
    assert forall i | 0 <= i < |TerminalIds(s.events)| :: TerminalIds(s.events)[i] == Finished(s)[i];
  }

  /** The worker ends every accepted job itself exactly when no step of the run gives one up. */
  lemma WorkerEndsJobs(run: seq<Action>)
    requires EnabledRun(Init(), run) && Run(Init(), run).pc.Ended?
    ensures var s := Run(Init(), run);
      && (TerminalIds(s.events) == Upto(s.nextJob) <==> KeepsAll(run))
      && (!s.dead ==> s.stop && KeepsAll(run) && s.returned == s.asked)
  {
    RunInv(run);
    LosesExactly(run);
    var s := Run(Init(), run);
    assert |Account(s)| == |TerminalIds(s.events)| + |s.lost| + |Queued(s.queue)|;
  }

  // ---------------------------------------------------------------- decisions and outcomes over whole runs

  /** A step of the run takes this answer: it is the decision of the client, and the approval was open. */
  ghost predicate Gives(run: seq<Action>, i: nat, answer: Answer)
    requires i < |run|
  {
    && run[i] == Respond(answer.approval, answer.approved)
    && EnabledRun(Init(), run[..i])
    && var a := Run(Init(), run[..i]).approvals;
       a.pending == Some(answer.approval) && !a.answered
  }

  ghost predicate Given(run: seq<Action>, answer: Answer) {
    exists i | 0 <= i < |run| :: Gives(run, i, answer)
  }

  lemma StepTakes(s: Worker, a: Action)
    requires Enabled(s, a)
    ensures Step(s, a).approvals.taken == s.approvals.taken +
            if a.Respond? && s.approvals.pending == Some(a.approval) && !s.approvals.answered
            then [Answer(a.approval, a.approved)] else []
  {
  }

  lemma GivenMore(run: seq<Action>, answer: Answer)
    requires run != [] && Given(run[..|run| - 1], answer)
    ensures Given(run, answer)
  {
    var before := run[..|run| - 1];
    var i :| 0 <= i < |before| && Gives(before, i, answer);
    assert before[..i] == run[..i];
    assert Gives(run, i, answer);
  }

  lemma {:induction false} TakenWereGiven(run: seq<Action>, answer: Answer)
    requires EnabledRun(Init(), run) && answer in Run(Init(), run).approvals.taken
    ensures Given(run, answer)
    decreases |run|
  {
    if run != [] {
      var before, last := run[..|run| - 1], run[|run| - 1];
      StepTakes(Run(Init(), before), last);
      if answer in Run(Init(), before).approvals.taken {
        TakenWereGiven(before, answer);
        GivenMore(run, answer);
      } else {
        assert Gives(run, |run| - 1, answer);
      }
    }
  }

  /** Over every interleaving each decision that the session gets is the one that a client gave while that approval was open. */
  lemma GrantsWereGiven(run: seq<Action>, answer: Answer)
    requires EnabledRun(Init(), run) && answer in Run(Init(), run).approvals.granted
    ensures Given(run, answer)
  {
    RunInv(run);
    var a := Run(Init(), run).approvals;
    var i :| 0 <= i < |a.granted| && a.granted[i] == answer;
    TakenWereGiven(run, answer);
  }

  /** A step of the run decides the outcome of the job: the job ends that way, a completion only if nothing halts it; or the
    * worker stops before the job is started. */
  ghost predicate Decides(run: seq<Action>, i: nat, id: int, ending: Ending)
    requires i < |run|
  {
    && EnabledRun(Init(), run[..i])
    && var s := Run(Init(), run[..i]);
       || (&& run[i] == Finish(ending) && s.pc == Running(id)
           && (ending.Completes? ==> !s.stop && id !in s.cancelled && id in s.accepted))
       || (run[i] == Launch && s.pc == Chosen(id) && s.stop && ending == Cancels)
  }

  ghost predicate DecidedIn(run: seq<Action>, id: int, ending: Ending) {
    exists i | 0 <= i < |run| :: Decides(run, i, id, ending)
  }

  lemma DecidedMore(run: seq<Action>, id: int, ending: Ending)
    requires run != [] && DecidedIn(run[..|run| - 1], id, ending)
    ensures DecidedIn(run, id, ending)
  {
    var before := run[..|run| - 1];
    var i :| 0 <= i < |before| && Decides(before, i, id, ending);
    assert before[..i] == run[..i];
    assert Decides(run, i, id, ending);
  }

  /** Where an outcome that is published, or is about to be, comes from. */
  lemma StepOutcome(s: Worker, a: Action, id: int, ending: Ending)
    requires Enabled(s, a)
    requires Step(s, a).pc == Decided(id, ending) || Terminal(id, ending) in Step(s, a).events
    ensures || s.pc == Decided(id, ending) || Terminal(id, ending) in s.events
            || (&& a == Finish(ending) && s.pc == Running(id)
                && (ending.Completes? ==> !s.stop && id !in s.cancelled && id in s.accepted))
            || (a == Launch && s.pc == Chosen(id) && s.stop && ending == Cancels)
  {
    if OfClient(a) {
      if !a.Submit? { ClientStep(s, a); }
    } else if !a.Fetch? && !a.Publish? && !(a.Launch? && s.stop) {
      QuietStep(s, a);
    }
  }

  /** Over every interleaving each job ends as it was decided. */
  lemma {:induction false} EndsAsDecided(run: seq<Action>, id: int, ending: Ending)
    requires EnabledRun(Init(), run)
    requires Run(Init(), run).pc == Decided(id, ending) || Terminal(id, ending) in Run(Init(), run).events
    ensures DecidedIn(run, id, ending)
    decreases |run|
  {
    if run != [] {
      var before, last := run[..|run| - 1], run[|run| - 1];
      var s := Run(Init(), before);
      StepOutcome(s, last, id, ending);
      if s.pc == Decided(id, ending) || Terminal(id, ending) in s.events {
        EndsAsDecided(before, id, ending);
        DecidedMore(run, id, ending);
      } else {
        assert Decides(run, |run| - 1, id, ending);
      }
    }
  }

  // ---------------------------------------------------------------- what a reader of the events sees

  /** An event of a terminal kind that names the job, whoever emitted it. */
  predicate Terminates(e: Event, id: int) {
    (e.Terminal? && e.id == id) || (e.Forwarded? && e.kind.Ends? && e.id == id)
  }

  predicate Completing(e: Event, id: int) {
    Terminates(e, id) && (if e.Terminal? then e.ending.Completes? else e.kind.ending.Completes?)
  }

  predicate SaysStopped(e: Event) {
    e.Stopped? || (e.Forwarded? && e.kind.Stops?)
  }

  function Seen(events: seq<Event>, id: int): nat {
    if events == [] then 0
    else Seen(events[..|events| - 1], id) + (if Terminates(events[|events| - 1], id) then 1 else 0)
  }

  /** How often callbacks have reported the end of the job. */
  function Emitted(events: seq<Event>, id: int): nat {
    if events == [] then 0
    else
      var last := events[|events| - 1];
      Emitted(events[..|events| - 1], id) + (if last.Forwarded? && Terminates(last, id) then 1 else 0)
  }

  function Count(ids: seq<int>, id: int): nat {
    multiset(ids)[id]
  }

  /** A reader sees the worker's own events and what callbacks emitted under the same kinds. */
  lemma {:induction false} SeenSplits(events: seq<Event>, id: int)
    ensures Seen(events, id) == Count(TerminalIds(events), id) + Emitted(events, id)
  {
    if events != [] {
      var before, last := events[..|events| - 1], events[|events| - 1];
      SeenSplits(before, id);
      assert TerminalIds(events) == TerminalIds(before) + (if last.Terminal? then [last.id] else []);
    }
  }

  /** A kind that the worker uses to report the end of a job or its own. */
  predicate Reserved(kind: Kind) {
    !kind.Other?
  }

  predicate Honest(run: seq<Action>) {
    forall i | 0 <= i < |run| :: run[i].Report? ==> !Reserved(run[i].kind)
  }

  /** Nothing a callback emitted can be taken for the worker's own word. */
  predicate Unforged(events: seq<Event>) {
    forall i | 0 <= i < |events| :: events[i].Forwarded? ==> !Reserved(events[i].kind)
  }

  lemma StepEvents(s: Worker, a: Action)
    requires Enabled(s, a)
    ensures s.events <= Step(s, a).events
    ensures Unforged(Step(s, a).events) <==> Unforged(s.events) && !(a.Report? && Reserved(a.kind))
  {
    var t := Step(s, a);
    if OfClient(a) {
      if !a.Submit? { ClientStep(s, a); }
    } else if Inner(s, a) {
      QuietStep(s, a);
      if a.Report? { assert t.events[|s.events|] == Forwarded(s.pc.id, a.kind); }
    }
    assert s.events <= t.events;
    assert Unforged(t.events) ==> Unforged(s.events) by {
      if Unforged(t.events) {
        forall i | 0 <= i < |s.events| ensures s.events[i].Forwarded? ==> !Reserved(s.events[i].kind) {
          assert t.events[i] == s.events[i];
        }
      }
    }
  }

  lemma {:induction false} HonestExactly(run: seq<Action>)
    requires EnabledRun(Init(), run)
    ensures Honest(run) <==> Unforged(Run(Init(), run).events)
    decreases |run|
  {
    if run != [] {
      var before, last := run[..|run| - 1], run[|run| - 1];
      HonestExactly(before);
      StepEvents(Run(Init(), before), last);
      assert run == before + [last];
    }
  }

  /** Jobs are numbered from one. */
  function Accepted(nextJob: int, id: int): nat {
    if 1 <= id < nextJob then 1 else 0
  }

  ghost predicate OnceEach(ids: seq<int>, n: int) {
    forall id :: Count(ids, id) == Accepted(n, id)
  }

  lemma {:induction false} UptoCounts(n: int, id: int)
    ensures Count(Upto(n), id) == Accepted(n, id)
  {
    if n > 1 { UptoCounts(n - 1, id); }
  }

  lemma {:induction false} IsUpto(ids: seq<int>)
    requires forall i | 0 <= i < |ids| :: ids[i] == i + 1
    ensures ids == Upto(|ids| + 1)
  {
    UptoAt(|ids| + 1);
  }

  lemma {:induction false} NothingEmitted(events: seq<Event>, id: int)
    requires Unforged(events)
    ensures Emitted(events, id) == 0
  {
    if events != [] { NothingEmitted(events[..|events| - 1], id); }
  }

  lemma {:induction false} SomethingEmitted(events: seq<Event>, i: nat)
    requires i < |events| && events[i].Forwarded? && events[i].kind.Ends?
    ensures Emitted(events, events[i].id) > 0
  {
    if i < |events| - 1 { SomethingEmitted(events[..|events| - 1], i); }
  }

  /** Every accepted job is reported to have ended once, and nothing else is. */
  ghost predicate EachOnce(s: Worker) {
    forall id :: Seen(s.events, id) == Accepted(s.nextJob, id)
  }

  /** Nothing but the last event of an ended worker says that it has stopped. */
  predicate StoppedLast(s: Worker) {
    forall i | 0 <= i < |s.events| && SaysStopped(s.events[i]) :: s.pc.Ended? && i == |s.events| - 1
  }

  lemma HonestSeen(s: Worker)
    requires Unforged(s.events)
    ensures forall id :: Seen(s.events, id) == Count(TerminalIds(s.events), id)
  {
    forall id ensures Seen(s.events, id) == Count(TerminalIds(s.events), id) {
      SeenSplits(s.events, id);
      NothingEmitted(s.events, id);
    }
  }

  lemma UptoIsOnce(k: int, n: int)
    requires 1 <= k <= n
    ensures OnceEach(Upto(k), n) <==> k == n
  {
    forall id ensures Count(Upto(k), id) == Accepted(k, id) { UptoCounts(k, id); }
    assert k < n ==> Count(Upto(k), k) != Accepted(n, k);
  }

  lemma OnceIsAll(s: Worker)
    requires Unforged(s.events)
    requires forall i | 0 <= i < |TerminalIds(s.events)| :: TerminalIds(s.events)[i] == i + 1
    requires |TerminalIds(s.events)| < s.nextJob
    ensures EachOnce(s) <==> TerminalIds(s.events) == Upto(s.nextJob)
  {
    var ids := TerminalIds(s.events);
    HonestSeen(s);
    IsUpto(ids);
    UptoIsOnce(|ids| + 1, s.nextJob);
    SameOnce(s);
    UptoAt(s.nextJob);
  }

  lemma SameOnce(s: Worker)
    requires forall id :: Seen(s.events, id) == Count(TerminalIds(s.events), id)
    ensures EachOnce(s) <==> OnceEach(TerminalIds(s.events), s.nextJob)
  {
    if EachOnce(s) {
      forall id ensures Count(TerminalIds(s.events), id) == Accepted(s.nextJob, id) {
        assert Seen(s.events, id) == Accepted(s.nextJob, id);
      }
    }
    if OnceEach(TerminalIds(s.events), s.nextJob) {
      forall id ensures Seen(s.events, id) == Accepted(s.nextJob, id) {
        assert Count(TerminalIds(s.events), id) == Accepted(s.nextJob, id);
      }
    }
  }

  lemma ForgedTwice(s: Worker)
    requires !Unforged(s.events) && TerminalIds(s.events) == Upto(s.nextJob) && s.pc.Ended?
    requires s.events != [] && s.events[|s.events| - 1].Stopped?
    ensures !(EachOnce(s) && StoppedLast(s))
  {
    var i :| 0 <= i < |s.events| && s.events[i].Forwarded? && Reserved(s.events[i].kind);
    if s.events[i].kind.Ends? {
      var id := s.events[i].id;
      SomethingEmitted(s.events, i);
      SeenSplits(s.events, id);
      UptoCounts(s.nextJob, id);
      assert Seen(s.events, id) != Accepted(s.nextJob, id);
    } else {
      assert SaysStopped(s.events[i]);
    }
  }

  /** When the worker has ended, every accepted job was reported to have ended once and before `stopped`, which came once
    * and last, exactly if callbacks emitted no reserved kind and no step gave a job up; a live loop gives none up. */
  lemma EveryJobEnds(run: seq<Action>)
    requires EnabledRun(Init(), run) && Run(Init(), run).pc.Ended?
    ensures var s := Run(Init(), run);
      && (!s.dead ==> (EachOnce(s) && StoppedLast(s) <==> Honest(run)))
      && (KeepsAll(run) ==> (EachOnce(s) && StoppedLast(s) <==> Honest(run)))
      && (Honest(run) ==> StoppedLast(s) && (EachOnce(s) <==> KeepsAll(run)))
  {
    RunInv(run);
    WorkerEndsJobs(run);
    TerminalsInOrder(run);
    HonestExactly(run);
    var s := Run(Init(), run);
    if Unforged(s.events) {
      OnceIsAll(s);
      UnforgedStops(s);
    } else if KeepsAll(run) {
      ForgedTwice(s);
    }
  }

  lemma UnforgedStops(s: Worker)
    requires StoppedEnds(s) && Unforged(s.events)
    ensures StoppedLast(s)
  {
  }

  /** What a reader may rely on at any moment: one end per job, no completion of a doomed one, `stopped` last. */
  ghost predicate Reliable(s: Worker) {
    && (forall id :: Seen(s.events, id) <= 1)
    && (forall i, id | 0 <= i < |s.events| && id in s.doomed :: !Completing(s.events[i], id))
    && StoppedLast(s)
  }

  /** Only what a callback emitted can report a doomed job complete. */
  lemma DoomedNeverComplete(run: seq<Action>, i: nat, id: int)
    requires EnabledRun(Init(), run) && i < |Run(Init(), run).events| && id in Run(Init(), run).doomed
    ensures var e := Run(Init(), run).events[i]; Completing(e, id) ==> e.Forwarded? && Reserved(e.kind)
  {
    RunInv(run);
  }

  lemma SeenOnce(s: Worker)
    requires Unforged(s.events)
    requires forall i | 0 <= i < |TerminalIds(s.events)| :: TerminalIds(s.events)[i] == i + 1
    ensures forall id :: Seen(s.events, id) <= 1
  {
    HonestSeen(s);
    IsUpto(TerminalIds(s.events));
    forall id ensures Seen(s.events, id) <= 1 { UptoCounts(|TerminalIds(s.events)| + 1, id); }
  }

  lemma HonestIsReliable(run: seq<Action>)
    requires EnabledRun(Init(), run) && Honest(run)
    ensures Reliable(Run(Init(), run))
  {
    RunInv(run);
    TerminalsInOrder(run);
    HonestExactly(run);
    var s := Run(Init(), run);
    SeenOnce(s);
    forall i, id | 0 <= i < |s.events| && id in s.doomed
      ensures !Completing(s.events[i], id)
    {
      DoomedNeverComplete(run, i, id);
    }
    UnforgedStops(s);
  }

  predicate Within(run: seq<Action>, kinds: iset<Kind>) {
    forall i | 0 <= i < |run| :: run[i].Report? ==> run[i].kind in kinds
  }

  /** Whatever callbacks emit of these kinds, and however the threads interleave. */
  ghost predicate AlwaysReliable(kinds: iset<Kind>) {
    forall run | EnabledRun(Init(), run) && Within(run, kinds) :: Reliable(Run(Init(), run))
  }

  /** The run is possible, and leads to `s`. */
  ghost predicate Leads(run: seq<Action>, s: Worker) {
    EnabledRun(Init(), run) && Run(Init(), run) == s
  }

  lemma LeadsOn(run: seq<Action>, s: Worker, a: Action)
    requires Leads(run, s) && Enabled(s, a)
    ensures Leads(run + [a], Step(s, a))
  {
    assert (run + [a])[..|run|] == run;
  }

  /** A first job has been taken off the queue. */
  const TAKEN: Worker := Init().(
    pc := Entered(Job(1)), accepted := {1}, nextJob := 2, processing := true)

  const FIRST_JOB: seq<Action> := [Submit] + [Fetch] + [Enter] + [Choose] + [Launch]

  /** And runs. */
  const FIRST_RUNNING: Worker := TAKEN.(pc := Running(1), active := Some(1), events := [Idle, Started(1)])

  lemma FirstJobTaken()
    ensures Leads([Submit] + [Fetch] + [Enter], TAKEN)
  {
    var s1 := Init().(accepted := {1}, nextJob := 2, queue := [Job(1)]);
    LeadsOn([], Init(), Submit);
    assert [] + [Submit] == [Submit] && Submitted(Init()) == s1;
    LeadsOn([Submit], s1, Fetch);
    assert s1.queue[1..] == [];
    LeadsOn([Submit] + [Fetch], Fetching(s1), Enter);
  }

  lemma FirstJobRuns()
    ensures Leads(FIRST_JOB, FIRST_RUNNING) && |FIRST_JOB| == 5 && forall i | 0 <= i < 5 :: !FIRST_JOB[i].Report?
  {
    FirstJobTaken();
    LeadsOn([Submit] + [Fetch] + [Enter], TAKEN, Choose);
    LeadsOn([Submit] + [Fetch] + [Enter] + [Choose], TAKEN.(active := Some(1), pc := Chosen(1)), Launch);
    assert [Idle] + [Started(1)] == [Idle, Started(1)];
  }

  function Emitting(kind: Kind): seq<Action> {
    FIRST_JOB + [Report(kind)]
  }

  /** A callback reports the end of its job, and then the worker does. */
  function TwiceEnded(ending: Ending): seq<Action> {
    Emitting(Ends(ending)) + [Finish(Errors)] + [Publish(true)]
  }

  lemma EmittedEndsTwice(ending: Ending)
    ensures EnabledRun(Init(), TwiceEnded(ending)) && Within(TwiceEnded(ending), iset{Ends(ending)})
    ensures Seen(Run(Init(), TwiceEnded(ending)).events, 1) == 2
  {
    FirstJobRuns();
    var run, s1 := Emitting(Ends(ending)), FIRST_RUNNING.(events := [Idle, Started(1)] + [Forwarded(1, Ends(ending))]);
    LeadsOn(FIRST_JOB, FIRST_RUNNING, Report(Ends(ending)));
    var s2 := s1.(pc := Decided(1, Errors));
    LeadsOn(run, s1, Finish(Errors));
    LeadsOn(run + [Finish(Errors)], s2, Publish(true));
    SeenTwice(ending);
  }

  lemma SeenTwice(ending: Ending)
    ensures Seen([Idle, Started(1)] + [Forwarded(1, Ends(ending))] + [Terminal(1, Errors)], 1) == 2
  {
    var one: seq<Event> := [Idle, Started(1)];
    var two := one + [Forwarded(1, Ends(ending))];
    var all := two + [Terminal(1, Errors)];
    assert all[..3] == two && two[..2] == one && one[..1] == [Idle] && [Idle][..0] == [];
    assert Seen([Idle], 1) == 0;
    assert Seen(one, 1) == 0;
    assert Seen(two, 1) == 1;
  }

  /** A job that a callback reported complete is then cancelled. */
  lemma EmittedCompletesDoomed()
    ensures var run := Emitting(Ends(Completes)) + [Cancel(Some(1))];
      && EnabledRun(Init(), run)
      && 1 in Run(Init(), run).doomed && |Run(Init(), run).events| == 3 && Completing(Run(Init(), run).events[2], 1)
  {
    FirstJobRuns();
    LeadsOn(FIRST_JOB, FIRST_RUNNING, Report(Ends(Completes)));
    LeadsOn(Emitting(Ends(Completes)), Step(FIRST_RUNNING, Report(Ends(Completes))), Cancel(Some(1)));
  }

  lemma EmittedStops()
    ensures EnabledRun(Init(), Emitting(Stops)) && Within(Emitting(Stops), iset{Stops})
    ensures !StoppedLast(Run(Init(), Emitting(Stops)))
  {
    FirstJobRuns();
    LeadsOn(FIRST_JOB, FIRST_RUNNING, Report(Stops));
    assert SaysStopped(Run(Init(), Emitting(Stops)).events[2]);
  }

  /** Over all runs a reader may rely on the events exactly if callbacks never emit a reserved kind. */
  lemma ReliableExactly(kinds: iset<Kind>)
    ensures AlwaysReliable(kinds) <==> forall kind | kind in kinds :: !Reserved(kind)
  {
    if kind :| kind in kinds && Reserved(kind) {
      if kind.Stops? {
        EmittedStops();
        assert Within(Emitting(Stops), kinds);
        assert !Reliable(Run(Init(), Emitting(Stops)));
      } else {
        EmittedEndsTwice(kind.ending);
        assert Within(TwiceEnded(kind.ending), kinds);
        assert !Reliable(Run(Init(), TwiceEnded(kind.ending)));
      }
    } else {
      forall run | EnabledRun(Init(), run) && Within(run, kinds)
        ensures Reliable(Run(Init(), run))
      {
        assert Honest(run);
        HonestIsReliable(run);
      }
    }
  }

  lemma HasFirst(ids: seq<int>)
    ensures ids == [] || ids[0] in ids
  {
  }

  /** A quiescent worker has published every outcome and returned from every callback. */
  lemma QuiescentMeansDone(run: seq<Action>)
    requires EnabledRun(Init(), run) && Quiescent(Run(Init(), run))
    ensures var s := Run(Init(), run);
      && TerminalIds(s.events) + s.lost == Upto(s.nextJob) && s.returned == s.asked
      && (!s.dead ==> TerminalIds(s.events) == Upto(s.nextJob))
      && (s.pc.Waiting? || s.pc.Closing? || s.pc.Ended?)
  {
    RunInv(run);
    var s := Run(Init(), run);
    HasFirst(Holding(s.pc));
    assert forall x | x in Holding(s.pc) :: x in s.accepted;
  }

  const RESET_THEN_JOB: seq<Action> := [RequestReset] + [Submit] + [Fetch] + [Enter]
  const FAILING_RESET: seq<Action> := RESET_THEN_JOB + [RunControl(true, false)] + [Leave] + [Close]

  /** The reset is about to run, and a job waits behind it. */
  const RESETTING: Worker := Init().(
    pc := Entered(Reset), accepted := {1}, nextJob := 2, queue := [Job(1)], processing := true, controls := 1, asked := 1)

  lemma ResetBeforeJob()
    ensures Leads(RESET_THEN_JOB, RESETTING)
  {
    var s1 := Init().(controls := 1, asked := 1, queue := [Reset]);
    LeadsOn([], Init(), RequestReset);
    assert [] + [RequestReset] == [RequestReset] && ControlRequested(Init(), Reset) == s1;
    LeadsOn([RequestReset], s1, Submit);
    var s2 := s1.(accepted := {1}, nextJob := 2, queue := [Reset] + [Job(1)]);
    assert Submitted(s1) == s2;
    LeadsOn([RequestReset] + [Submit], s2, Fetch);
    assert s2.queue[1..] == [Job(1)];
    LeadsOn([RequestReset] + [Submit] + [Fetch], Fetching(s2), Enter);
  }

  /** A reset that raises leaves the jobs behind it without an outcome. */
  lemma FailedResetDropsJobs()
    ensures EnabledRun(Init(), FAILING_RESET)
    ensures var s := Run(Init(), FAILING_RESET);
      s.pc.Ended? && s.accepted == {1} && TerminalIds(s.events) == []
  {
    ResetBeforeJob();
    var run, s1 := RESET_THEN_JOB, ControlRan(RESETTING, true, false);
    LeadsOn(run, RESETTING, RunControl(true, false));
    LeadsOn(run + [RunControl(true, false)], s1, Leave);
    LeadsOn(run + [RunControl(true, false)] + [Leave], Left(s1), Close);
    assert [Idle] + [] == [Idle];
    TerminalsJoin([Idle], Stopped);
    TerminalsJoin([], Idle);
    assert [] + [Idle] == [Idle];
  }

  predicate Blocked(s: Worker) {
    || s.pc.Ended?
    || (s.pc.Waiting? && s.queue == [])
    || (s.pc.Asking? && s.approvals.answers == [] && !Halted(s, s.pc.id))
  }

  /** The worker stands still exactly at the end, without commands, or for an answer. */
  lemma StandsStill(s: Worker)
    requires StopIsLast(s)
    ensures Blocked(s) <==> forall a | Enabled(s, a) :: OfClient(a)
  {
    if !Blocked(s) {
      var a :=
        match s.pc
        case Waiting => Fetch
        case Fetched(_) => Enter
        case Entered(c) => if c.Job? then Choose else RunControl(false, false)
        case Chosen(_) => Launch
        case Running(_) => Finish(Errors)
        case Asking(_, _) => if Halted(s, s.pc.id) then GiveUp else Poll
        case Decided(_, _) => Publish(true)
        case Published(_, _) => Clean
        case Observing(_, _) => Observe(false, false)
        case Leaving(_) => Leave
        case Closing => Close;
      assert Enabled(s, a) && !OfClient(a);
    }
  }

  // ---------------------------------------------------------------- the worker as an object

  datatype Part = Order | Death | Acceptance | Counting | Stopping | Speaking | Dooming | Approving

  ghost predicate Holds(s: Worker, part: Part) {
    match part
    case Order => InOrder(s)
    case Death => DeadIsGone(s)
    case Acceptance => AcceptedIsOpen(s)
    case Counting => ControlsCounted(s)
    case Stopping => StopIsLast(s)
    case Speaking => StoppedEnds(s)
    case Dooming => DoomedFail(s)
    case Approving => ApprovalsOnce(s.pc, s.approvals)
  }

  /** The invariant, part by part. */
  ghost predicate Sound(s: Worker) {
    forall part: Part :: Holds(s, part)
  }

  lemma SoundIsInv(s: Worker)
    ensures Sound(s) <==> Inv(s)
  {
    if Sound(s) {
      assert Holds(s, Order) && Holds(s, Death) && Holds(s, Acceptance) && Holds(s, Counting);
      assert Holds(s, Stopping) && Holds(s, Speaking) && Holds(s, Dooming) && Holds(s, Approving);
    }
  }

  lemma StepSound(s: Worker, a: Action)
    requires Sound(s) && Enabled(s, a)
    ensures Sound(Step(s, a))
  {
    SoundIsInv(s);
    StepInv(s, a);
    SoundIsInv(Step(s, a));
  }

  lemma NumbersAreNew(s: Worker)
    requires Sound(s)
    ensures s.nextJob !in s.accepted && s.nextJob !in s.doomed
  {
    assert Holds(s, Order) && Holds(s, Acceptance) && Holds(s, Dooming);
    Numbered(s);
    UptoAt(s.nextJob);
    assert |Account(s)| == s.nextJob - 1;
    HasFirst(InFlight(s.pc));
  }

  /** The job is doomed if its outcome was open, and its approval is closed. */
  predicate ClosesJob(s: Worker, t: Worker, id: int) {
    && (id in Undecided(s.pc) + Queued(s.queue) ==> id in t.doomed)
    && (s.active == Some(id) ==> t.approvals.pending == None)
  }

  lemma CancelCloses(s: Worker, target: Option<int>)
    requires Sound(s)
    ensures Sound(Cancelled(s, target))
    ensures Target(s, target).Some? && Target(s, target).value in s.accepted ==>
              ClosesJob(s, Cancelled(s, target), Target(s, target).value)
  {
    StepSound(s, Cancel(target));
  }

  lemma FirstAnswer(s: Worker, approval: int)
    requires Sound(s) && Answerable(s.approvals, approval)
    ensures !Mentions(s.approvals.taken, approval)
  {
    assert Holds(s, Approving);
  }

  /** The answers that were taken and have not been polled. */
  function InTransit(s: Worker): multiset<Answer> {
    multiset(s.approvals.answers) + multiset(s.approvals.transit)
  }

  lemma TransitKept(s: Worker, i: nat)
    requires i < |s.approvals.transit|
    ensures InTransit(Delivered(s, i)) == InTransit(s)
  {
    var transit := s.approvals.transit;
    assert transit == transit[..i] + [transit[i]] + transit[i + 1..];
  }

  /** After a stop no open outcome can be a completion, and nothing follows the stop command. */
  predicate StopDoomsAll(t: Worker) {
    && t.stop
    && (forall id | id in Undecided(t.pc) + Queued(t.queue) :: id in t.doomed)
    && (t.queue != [] ==> t.queue[|t.queue| - 1].Stop? && NoStop(t.queue[..|t.queue| - 1]))
  }

  lemma StopsAll(s: Worker)
    requires Sound(s)
    ensures Sound(StopRequested(s)) && StopDoomsAll(StopRequested(s))
  {
    StepSound(s, RequestStop);
    assert Holds(StopRequested(s), Stopping) && Holds(StopRequested(s), Dooming);
  }

  lemma ControlCounts(s: Worker)
    requires Sound(s)
    ensures s.controls >= 0
  {
    assert Holds(s, Counting);
  }

  lemma QuietIsDone(s: Worker)
    requires Sound(s) && Quiescent(s)
    ensures TerminalIds(s.events) + s.lost == Upto(s.nextJob) && s.returned == s.asked
  {
    assert Holds(s, Order) && Holds(s, Acceptance) && Holds(s, Counting);
    HasFirst(Holding(s.pc));
    assert forall x | x in Holding(s.pc) :: x in s.accepted;
  }

  /** No job is begun, ended, lost or dropped, and nobody can take the worker for quiescent yet. */
  predicate LeavesJobs(s: Worker, t: Worker) {
    Account(t) == Account(s) && !Quiescent(t)
  }

  lemma ControlLeavesJobs(s: Worker, raises: bool, notices: bool)
    requires Inv(s) && Enabled(s, RunControl(raises, notices))
    ensures var t := ControlRan(s, raises, notices); Inv(t) && LeavesJobs(s, t)
  {
    StepInv(s, RunControl(raises, notices));
    StepAccount(s, RunControl(raises, notices));
  }

  lemma ObserverLeavesJobs(s: Worker, raises: bool, notices: bool)
    requires Inv(s) && Enabled(s, Observe(raises, notices))
    ensures var t := Observed(s, raises, notices); Inv(t) && LeavesJobs(s, t)
  {
    StepInv(s, Observe(raises, notices));
    StepAccount(s, Observe(raises, notices));
  }

  /** The job is either started or ended, and no other job is. */
  predicate StartsUnlessStopped(s: Worker, t: Worker)
    requires s.pc.Chosen?
  {
    if s.stop then t.events == s.events + [Terminal(s.pc.id, Cancels)] && TerminalIds(t.events) == TerminalIds(s.events) + [s.pc.id]
    else TerminalIds(t.events) == TerminalIds(s.events) && t.pc == Running(s.pc.id)
  }

  lemma StartsOrEnds(s: Worker)
    requires Sound(s) && s.pc.Chosen?
    ensures Sound(Launched(s)) && StartsUnlessStopped(s, Launched(s))
  {
    StepSound(s, Launch);
    TerminalsJoin(s.events, Terminal(s.pc.id, Cancels));
    TerminalsJoin(s.events, Started(s.pc.id));
  }

  /** Commands come off the queue in order, and the stop comes last. */
  lemma TakenInOrder(s: Worker)
    requires Sound(s)
    ensures s.pc.Closing? && !s.dead ==> s.queue == [] && TerminalIds(s.events) == Upto(s.nextJob)
    ensures s.pc.Fetched? && s.pc.c.Job? ==> s.pc.c.id == |TerminalIds(s.events)| + 1
  {
    assert Holds(s, Order) && Holds(s, Death) && Holds(s, Stopping);
    Numbered(s);
  }

  /** A live loop takes the next command. */
  lemma FetchTakes(s: Worker)
    requires Sound(s) && Enabled(s, Fetch)
    ensures Sound(Fetching(s)) && !Fetching(s).dead
  {
    StepSound(s, Fetch);
    assert Holds(s, Death);
  }

  /** The job under way is the first that is not finished, and it is accepted. */
  lemma ChosenIsNext(s: Worker)
    requires Sound(s) && s.pc.Entered? && s.pc.c.Job?
    ensures s.pc.c.id == |Finished(s)| + 1 && s.pc.c.id in s.accepted
  {
    assert Holds(s, Order) && Holds(s, Acceptance);
    Numbered(s);
    assert s.pc.c.id in Holding(s.pc) + Queued(s.queue);
  }

  lemma AskedIsNew(s: Worker)
    requires Sound(s) && s.pc.Running?
    ensures !Mentions(s.approvals.taken, s.approvals.next)
  {
    assert Holds(s, Approving);
  }

  lemma AnswersWereTaken(s: Worker)
    requires Sound(s) && Enabled(s, Poll)
    ensures s.approvals.answers[0] in s.approvals.taken
  {
    assert Holds(s, Approving);
  }

  lemma OneApproval(s: Worker)
    requires Sound(s) && s.pc.Asking?
    ensures s.approvals.pending.Some? ==> s.approvals.pending == Some(s.pc.approval)
  {
    assert Holds(s, Approving);
  }

  lemma DecidedIsHonest(s: Worker, ending: Ending)
    requires Sound(s) && Enabled(s, Finish(ending)) && ending.Completes?
    ensures s.pc.id !in s.doomed
  {
    StepSound(s, Finish(ending));
    assert Holds(Step(s, Finish(ending)), Dooming);
  }

  /** Everything up to this job is finished now, and the job was ended unless its completion was not resolved. */
  predicate EndsNext(id: int, resolved: bool, t: Worker) {
    && Finished(t) == Upto(id + 1)
    && (if resolved then TerminalIds(t.events) == Upto(id + 1) else t.dead && id !in TerminalIds(t.events))
  }

  lemma NextUpto(ids: seq<int>, id: int)
    requires (forall i | 0 <= i < |ids| :: ids[i] == i + 1) && id == |ids| + 1
    ensures ids + [id] == Upto(id + 1) && id !in ids
  {
    IsUpto(ids + [id]);
  }

  lemma DecidedIsNext(s: Worker)
    requires InOrder(s) && DeadIsGone(s) && s.pc.Decided?
    ensures s.lost == [] && TerminalIds(s.events) + [s.pc.id] == Upto(s.pc.id + 1) && s.pc.id !in TerminalIds(s.events)
  {
    Numbered(s);
    assert Finished(s) == TerminalIds(s.events);
    assert InFlight(s.pc)[0] == s.pc.id;
    NextUpto(TerminalIds(s.events), s.pc.id);
  }

  lemma PublishedNext(s: Worker, resolved: bool)
    requires InOrder(s) && DeadIsGone(s) && s.pc.Decided?
    ensures EndsNext(s.pc.id, resolved, PublishedJob(s, resolved))
  {
    DecidedIsNext(s);
    if resolved {
      TerminalsJoin(s.events, Terminal(s.pc.id, s.pc.ending));
      assert Upto(s.pc.id + 1) + [] == Upto(s.pc.id + 1);
    } else {
      assert [] + [s.pc.id] == [s.pc.id];
    }
  }

  lemma OutcomeInOrder(s: Worker, resolved: bool)
    requires Sound(s) && s.pc.Decided?
    ensures var t := PublishedJob(s, resolved); Sound(t) && EndsNext(s.pc.id, resolved, t)
  {
    StepSound(s, Publish(resolved));
    assert Holds(s, Order) && Holds(s, Death);
    PublishedNext(s, resolved);
  }

  /** The job is finished and neither accepted nor queued any more. */
  predicate CleansJob(s: Worker, t: Worker, id: int) {
    id in Finished(t) && t.accepted == s.accepted - {id} && id !in Queued(t.queue)
  }

  lemma CleanAfterOutcome(s: Worker)
    requires Sound(s) && s.pc.Published?
    ensures Sound(Cleaned(s)) && CleansJob(s, Cleaned(s), s.pc.id)
  {
    StepSound(s, Clean);
    assert Holds(s, Order) && Holds(s, Acceptance);
    Numbered(s);
    assert Finished(s)[|Finished(s)| - 1] == s.pc.id;
  }

  lemma LeavingIsBusy(s: Worker)
    requires Sound(s) && s.pc.Leaving?
    ensures !Quiescent(s)
    ensures Quiescent(Left(s)) <==> Left(s).accepted == {} && Left(s).queue == []
  {
    assert Holds(s, Counting);
    if s.queue == [] { assert Controls(s.queue) == 0; }
  }

  /** `stopped` is new, and a loop that did not die has ended every job. */
  lemma ClosesLast(s: Worker)
    requires Sound(s) && s.pc.Closing?
    ensures NoStopped(s.events) && (!s.dead ==> TerminalIds(s.events + [Stopped]) == Upto(s.nextJob))
  {
    assert Holds(s, Speaking);
    TakenInOrder(s);
    TerminalsJoin(s.events, Stopped);
  }

  /** Every method is one step between two releases of the state lock, or one operation on a queue. */
  class AgentWorker {
    var pc: Phase
    var dead: bool
    var jobs: seq<Command>
    var events: seq<Event>
    var accepted: set<int>
    var cancelled: set<int>
    var active: Option<int>
    var stop: bool
    var processing: bool
    var controls: int
    var nextJob: int
    var approvals: Approvals
    ghost var lost: seq<int>
    ghost var doomed: set<int>
    ghost var asked: nat
    ghost var returned: nat

    ghost function View(): Worker
      reads this
    {
      Worker(pc, dead, jobs, events, accepted, cancelled, active, stop, processing, controls, nextJob, approvals,
             lost, doomed, asked, returned)
    }

    constructor ()
      ensures View() == Init() && Sound(View())
    {
      pc, dead, jobs, events, accepted, cancelled, active := Waiting, false, [], [Idle], {}, {}, None;
      stop, processing, controls, nextJob := false, false, 0, 1;
      approvals := Approvals(1, None, false, [], [], [], []);
      lost, doomed, asked, returned := [], {}, 0, 0;
      new;
      InitInv();
      SoundIsInv(Init());
    }

    method SubmitJob() returns (id: Option<int>)
      requires Sound(View())
      modifies this
      ensures View() == Step(old(View()), Submit) && Sound(View())
      ensures id == if old(stop) then None else Some(old(nextJob))
      ensures id.Some? ==> id.value in accepted && id.value !in old(accepted) && id.value !in doomed
      ensures jobs == old(jobs) + (if old(stop) then [] else [Job(old(nextJob))]) && events == old(events)
    {
      NumbersAreNew(View());
      StepSound(View(), Submit);
      if stop { return None; }
      id := Some(nextJob);
      accepted := accepted + {nextJob};
      jobs := jobs + [Job(nextJob)];
      nextJob := nextJob + 1;
    }

    /** A job whose outcome is open will not be reported complete after this. */
    method CancelCurrent(target: Option<int>) returns (found: bool)
      requires Sound(View())
      modifies this
      ensures View() == Cancelled(old(View()), target) && Sound(View())
      ensures found <==> Target(old(View()), target).Some? && Target(old(View()), target).value in old(accepted)
      ensures found ==> ClosesJob(old(View()), View(), Target(old(View()), target).value)
      ensures found <==> if target.Some? then target.value in old(accepted)
                         else old(active).Some? && old(active).value in old(accepted)
      ensures cancelled == old(cancelled) + if !found then {} else {if target.Some? then target.value else old(active).value}
      ensures jobs == old(jobs) && events == old(events) && accepted == old(accepted) && stop == old(stop)
    {
      CancelCloses(View(), target);
      ghost var after := Cancelled(View(), target);
      var id := if target.Some? then target else active;
      if id == None || id.value !in accepted { return false; }
      if id.value in Undecided(pc) + Queued(jobs) { doomed := doomed + {id.value}; }
      cancelled := cancelled + {id.value};
      if id == active { approvals := approvals.(pending := None, answered := false); }
      found := true;
      assert View() == after;
    }

    /** The first answer to the open approval wins; every other one is refused. */
    method RespondApproval(approval: int, approved: bool) returns (taken: bool)
      requires Sound(View())
      modifies this
      ensures View() == Step(old(View()), Respond(approval, approved)) && Sound(View())
      ensures taken <==> Answerable(old(approvals), approval)
      ensures taken ==> !Mentions(old(approvals.taken), approval)
      ensures taken <==> old(approvals.pending == Some(approval) && !approvals.answered)
      ensures taken ==> InTransit(View()) == old(InTransit(View())) + multiset{Answer(approval, approved)}
      ensures taken ==> approvals.transit == old(approvals.transit) + [Answer(approval, approved)]
      ensures !taken ==> approvals == old(approvals)
    {
      StepSound(View(), Respond(approval, approved));
      if Answerable(approvals, approval) { FirstAnswer(View(), approval); }
      if approvals.pending != Some(approval) || approvals.answered { return false; }
      var answer := Answer(approval, approved);
      approvals := approvals.(answered := true, transit := approvals.transit + [answer], taken := approvals.taken + [answer]);
      taken := true;
    }

    /** The answer reaches the queue after the lock was released, in any order; none is lost and none is invented. */
    method DeliverAnswer(i: nat)
      requires Sound(View()) && Enabled(View(), Deliver(i))
      modifies `approvals
      ensures View() == Delivered(old(View()), i) && Sound(View())
      ensures InTransit(View()) == old(InTransit(View()))
      ensures approvals.answers == old(approvals.answers) + [old(approvals.transit)[i]]
    {
      StepSound(View(), Deliver(i));
      TransitKept(View(), i);
      approvals := approvals.(answers := approvals.answers + [approvals.transit[i]],
                              transit := approvals.transit[..i] + approvals.transit[i + 1..]);
    }

    /** No job whose outcome is open will complete, and no command can follow the one that ends the loop. */
    method StopWorker()
      requires Sound(View())
      modifies this
      ensures View() == StopRequested(old(View())) && Sound(View()) && StopDoomsAll(View())
      ensures stop && jobs == old(jobs) + (if old(stop) then [] else [Stop]) && events == old(events) && accepted == old(accepted)
    {
      StopsAll(View());
      if !stop {
        doomed := doomed + set id | id in Undecided(pc) + Queued(jobs);
        stop := true;
        jobs := jobs + [Stop];
      }
    }

    /** A reset or a handoff between jobs. */
    method QueueControl(c: Command) returns (queued: bool)
      requires Sound(View()) && IsControl(c)
      modifies this
      ensures View() == Step(old(View()), if c.Reset? then RequestReset else RequestReconfigure) && Sound(View())
      ensures queued <==> !old(stop)
      ensures queued ==> !Quiescent(View())
      ensures jobs == (if queued then old(jobs) + [c] else old(jobs)) && controls == old(controls) + if queued then 1 else 0
    {
      StepSound(View(), if c.Reset? then RequestReset else RequestReconfigure);
      ControlCounts(View());
      if stop { return false; }
      controls := controls + 1;
      jobs := jobs + [c];
      asked := asked + 1;
      queued := true;
    }

    method IsQuiescent() returns (quiet: bool)
      requires Sound(View())
      ensures quiet <==> Quiescent(View())
      ensures quiet <==> accepted == {} && !processing && controls == 0 && jobs == []
      ensures quiet ==> TerminalIds(events) + lost == Upto(nextJob) && returned == asked
    {
      quiet := !(accepted != {} || processing || controls != 0 || jobs != []);
      if quiet { QuietIsDone(View()); }
    }

    /** Commands are taken in the order they were queued; the loop is left only when nothing is behind the stop. */
    method GetCommand()
      requires Sound(View()) && Enabled(View(), Fetch)
      modifies this
      ensures View() == Step(old(View()), Fetch) && Sound(View())
      ensures pc.Closing? ==> jobs == [] && TerminalIds(events) == Upto(nextJob)
      ensures pc.Fetched? && pc.c.Job? ==> pc.c.id == |TerminalIds(events)| + 1
      ensures old(jobs) == [if pc.Closing? then Stop else pc.c] + jobs && (pc.Closing? || pc.Fetched?)
    {
      FetchTakes(View());
      TakenInOrder(Fetching(View()));
      var command := jobs[0];
      jobs := jobs[1..];
      pc := if command.Stop? then Closing else Fetched(command);
    }

    /** From here until the command is left, nobody can take the worker for quiescent. */
    method EnterCommand()
      requires Sound(View()) && Enabled(View(), Enter)
      modifies this
      ensures View() == Step(old(View()), Enter) && Sound(View()) && !Quiescent(View())
      ensures pc == Entered(old(pc.c))
    {
      StepSound(View(), Enter);
      processing := true;
      pc := Entered(pc.c);
    }

    /** A reset that worked is announced unless the worker stops; a handoff reports its failure. */
    method AnswerControl(raises: bool, notices: bool)
      requires Enabled(View(), RunControl(raises, notices))
      modifies `events
      ensures events == old(events) + Talk(old(View()), RunControl(raises, notices))
    {
      if raises { return; }
      if pc.c.Reset? {
        if !stop { events := events + [ResetDone]; }
      } else if notices {
        events := events + [Notice];
      }
    }

    /** A reset that fails, or an interruption, leaves the loop; `ControlLeavesJobs` says what else holds. */
    method RunControlCommand(raises: bool, notices: bool)
      requires Enabled(View(), RunControl(raises, notices))
      modifies this
      ensures View() == ControlRan(old(View()), raises, notices)
      ensures dead == raises && pc == Leaving(old(pc.c))
      ensures events == old(events) + if raises then [] else if old(pc.c).Reset? then (if old(stop) then [] else [ResetDone])
                                      else if notices then [Notice] else []
    {
      AnswerControl(raises, notices);
      dead, returned, pc := raises, returned + 1, Leaving(pc.c);
    }

    /** The chosen job is the first without a terminal event. */
    method ChooseJob()
      requires Sound(View()) && Enabled(View(), Choose)
      modifies this
      ensures View() == Step(old(View()), Choose) && Sound(View())
      ensures active == Some(|Finished(View())| + 1) && active.value in accepted
      ensures active == Some(old(pc.c.id)) && pc == Chosen(old(pc.c.id))
    {
      StepSound(View(), Choose);
      ChosenIsNext(View());
      active := Some(pc.c.id);
      pc := Chosen(pc.c.id);
    }

    /** A stopped worker ends the job without starting it. */
    method LaunchJob()
      requires Sound(View()) && Enabled(View(), Launch)
      modifies this
      ensures View() == Launched(old(View())) && Sound(View()) && StartsUnlessStopped(old(View()), View())
      ensures events == old(events) + [if old(stop) then Terminal(old(pc.id), Cancels) else Started(old(pc.id))]
      ensures pc == if old(stop) then Published(old(pc.id), false) else Running(old(pc.id))
    {
      StartsOrEnds(View());
      if stop {
        events, pc := events + [Terminal(pc.id, Cancels)], Published(pc.id, false);
      } else {
        events, pc := events + [Started(pc.id)], Running(pc.id);
      }
    }

    /** Forwards an event under the kind the callback names; the account of the jobs does not notice. */
    method ReportProgress(kind: Kind)
      requires Sound(View()) && Enabled(View(), Report(kind))
      modifies `events
      ensures View() == Step(old(View()), Report(kind)) && Sound(View())
      ensures TerminalIds(events) == old(TerminalIds(events))
      ensures Seen(events, pc.id) == old(Seen(events, pc.id)) + if kind.Ends? then 1 else 0
      ensures events == old(events) + [Forwarded(old(pc.id), kind)]
    {
      StepSound(View(), Report(kind));
      TerminalsJoin(events, Forwarded(pc.id, kind));
      assert (events + [Forwarded(pc.id, kind)])[..|events|] == events;
      events := events + [Forwarded(pc.id, kind)];
    }

    method AskApproval() returns (approval: int)
      requires Sound(View()) && Enabled(View(), Ask)
      modifies this
      ensures View() == Step(old(View()), Ask) && Sound(View())
      ensures approvals.pending == Some(approval) && !Mentions(approvals.taken, approval)
      ensures !approvals.answered && pc == Asking(old(pc.id), approval)
      ensures events == old(events) + [ApprovalRequired(old(pc.id), approval)]
    {
      StepSound(View(), Ask);
      AskedIsNew(View());
      approval := approvals.next;
      approvals := approvals.(next := approval + 1, pending := Some(approval), answered := false);
      events := events + [ApprovalRequired(pc.id, approval)];
      pc := Asking(pc.id, approval);
    }

    /** Takes one answer off the queue; a decision is returned only for the open approval of an unhalted job. */
    method PollAnswer() returns (decision: Option<bool>)
      requires Sound(View()) && Enabled(View(), Poll)
      modifies this
      ensures View() == Step(old(View()), Poll) && Sound(View())
      ensures decision.Some? ==>
                !Halted(old(View()), old(pc.id)) && Answer(old(pc.approval), decision.value) in approvals.taken
      ensures var answer, mine := old(approvals.answers[0]), old(approvals.answers[0].approval == pc.approval);
        && decision == (if mine && !old(stop || pc.id in cancelled || pc.id !in accepted) then Some(answer.approved) else None)
        && approvals.granted == old(approvals.granted) + (if decision.Some? then [answer] else [])
        && approvals.answers == old(approvals.answers)[1..] && pc == (if mine then Running(old(pc.id)) else old(pc))
    {
      StepSound(View(), Poll);
      AnswersWereTaken(View());
      var id, approval, answer := pc.id, pc.approval, approvals.answers[0];
      decision := None;
      approvals := approvals.(answers := approvals.answers[1..]);
      if answer.approval == approval {
        if !(stop || id in cancelled || id !in accepted) {
          decision := Some(answer.approved);
          approvals := approvals.(granted := approvals.granted + [answer]);
        }
        if approvals.pending == Some(approval) { approvals := approvals.(pending := None, answered := false); }
        pc := Running(id);
      }
    }

    /** After this no answer is taken until the next approval is asked for. */
    method GiveUpApproval()
      requires Sound(View()) && Enabled(View(), GiveUp)
      modifies this
      ensures View() == Step(old(View()), GiveUp) && Sound(View())
      ensures forall approval :: !Answerable(approvals, approval)
      ensures approvals.pending == None && approvals.granted == old(approvals.granted) && pc == Running(old(pc.id))
    {
      StepSound(View(), GiveUp);
      OneApproval(View());
      if approvals.pending == Some(pc.approval) { approvals := approvals.(pending := None, answered := false); }
      pc := Running(pc.id);
    }

    /** The last check turns the completion of a halted job into a cancellation. */
    method DecideOutcome(wanted: Ending) returns (ending: Ending)
      requires Sound(View()) && pc.Running?
      modifies `pc
      ensures Enabled(old(View()), Finish(ending)) && View() == Step(old(View()), Finish(ending)) && Sound(View())
      ensures ending == if wanted.Completes? && old(Halted(View(), pc.id)) then Cancels else wanted
      ensures ending.Completes? ==> pc.id !in doomed
      ensures pc == Decided(old(pc.id), ending)
      ensures ending == if wanted.Completes? && old(stop || pc.id in cancelled || pc.id !in accepted) then Cancels else wanted
    {
      var halted := stop || pc.id in cancelled || pc.id !in accepted;
      ending := if wanted.Completes? && halted then Cancels else wanted;
      StepSound(View(), Finish(ending));
      if ending.Completes? { DecidedIsHonest(View(), ending); }
      pc := Decided(pc.id, ending);
    }

    /** The outcome of the next job in order is published, or lost with the loop when its completion cannot be resolved. */
    method PublishOutcome(resolved: bool)
      requires Sound(View()) && Enabled(View(), Publish(resolved))
      modifies this
      ensures View() == PublishedJob(old(View()), resolved) && Sound(View())
      ensures EndsNext(old(pc.id), resolved, View())
      ensures events == old(events) + if resolved then [Terminal(old(pc.id), old(pc.ending))] else []
      ensures dead == (old(dead) || !resolved)
    {
      OutcomeInOrder(View(), resolved);
      if resolved {
        events, pc := events + [Terminal(pc.id, pc.ending)], Published(pc.id, true);
      } else {
        dead, lost, pc := true, lost + [pc.id], Published(pc.id, true);
      }
    }

    /** The job leaves the accepted ones only after its outcome. */
    method CleanJob()
      requires Sound(View()) && Enabled(View(), Clean)
      modifies this
      ensures View() == Step(old(View()), Clean) && Sound(View())
      ensures CleansJob(old(View()), View(), old(pc.id))
      ensures accepted == old(accepted) - {old(pc.id)} && cancelled == old(cancelled) - {old(pc.id)} && active == None
    {
      CleanAfterOutcome(View());
      accepted, cancelled, active := accepted - {pc.id}, cancelled - {pc.id}, None;
      pc := Observing(pc.id, pc.started);
    }

    /** A failing observer is reported; the worker then says that it is idle, unless it is about to end. */
    method FinishActivity(raises: bool, notices: bool)
      requires Enabled(View(), Observe(raises, notices))
      modifies `events
      ensures events == old(events) + Talk(old(View()), Observe(raises, notices))
    {
      if !pc.started || raises { return; }
      if notices { events := events + [Notice]; }
      if !dead && !stop { events := events + [Idle]; }
    }

    /** An interrupted observer ends the loop; `ObserverLeavesJobs` says what else holds. */
    method ObserveActivity(raises: bool, notices: bool)
      requires Enabled(View(), Observe(raises, notices))
      modifies this
      ensures View() == Observed(old(View()), raises, notices)
      ensures dead <==> old(dead) || (old(pc.started) && raises)
      ensures events == old(events) + (if old(pc.started) && !raises && notices then [Notice] else [])
                      + (if old(pc.started) && !raises && !old(dead || stop) then [Idle] else [])
    {
      FinishActivity(raises, notices);
      dead, pc := dead || (pc.started && raises), Leaving(Job(pc.id));
    }

    /** Only now can the worker be quiescent again. */
    method LeaveCommand()
      requires Sound(View()) && Enabled(View(), Leave)
      modifies this
      ensures View() == Step(old(View()), Leave) && Sound(View())
      ensures old(!Quiescent(View())) && (Quiescent(View()) <==> accepted == {} && jobs == [])
      ensures !processing && pc == (if old(dead) then Closing else Waiting)
      ensures controls == old(controls) - if old(pc.c.Reset? || pc.c.Reconfigure?) then 1 else 0
    {
      StepSound(View(), Leave);
      LeavingIsBusy(View());
      processing := false;
      if pc.c.Reset? || pc.c.Reconfigure? { controls := controls - 1; }
      pc := if dead then Closing else Waiting;
    }

    /** `stopped` is the last word; unless the loop died, every accepted job was ended before it. */
    method CloseConversation()
      requires Sound(View()) && Enabled(View(), Close)
      modifies this
      ensures View() == Step(old(View()), Close) && Sound(View())
      ensures events == old(events) + [Stopped] && NoStopped(old(events))
      ensures !dead ==> TerminalIds(events) == Upto(nextJob)
    {
      StepSound(View(), Close);
      ClosesLast(View());
      events := events + [Stopped];
      pc := Ended;
    }
  }
}
