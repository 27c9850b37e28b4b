/** Operations, reload requests and generations of the plugin runtime (raychat/plugins.py). */
module Generations {
  import opened Effects
  import opened Sequences

  type Req = nat

  // ---------------------------------------------------------------- the state and its steps

  /** The registry a thread has pinned, by its generation, and the requests of its open frames, outermost first. */
  datatype Thread = Thread(stage: Option<nat>, frames: seq<seq<Req>>)

  /** The ledgers record which hook was called; a `stranded` request got neither. */
  datatype Runtime = Runtime(
    threads: seq<Thread>,
    busy: int,
    pending: seq<Req>,
    closing: bool,
    closed: bool,
    generation: nat,
    committed: seq<Req>,
    rolledBack: seq<Req>,
    stranded: seq<Req>)

  /** How the activation of one request goes. */
  datatype Verdict =
    | Activates(committing: Option<Failure>)      // a new generation; the commit hook may raise
    | Refuses(failure: Failure)                   // the old generation stays
    | Breaks(failure: Failure)                    // raises after the generation has advanced

  /** Ordinary exceptions are reported; an interruption unwinds everything. */
  datatype Failure = Ordinary | Interruption

  /** A verdict, and whether the callback that reports a failure returns. */
  datatype Attempt = Attempt(verdict: Verdict, heard: bool)

  datatype Refresh = Kept | Advanced | Interrupted(advanced: bool)

  datatype Event =
    | Begin(t: nat, refresh: Refresh)
    | Request(t: nat, r: Req, verdict: Verdict)
    | Pop(t: nat, ok: bool)
    | Release(t: nat, attempts: seq<Attempt>)
    | Close
    | Reload(advanced: bool)

  function FailureOf(v: Verdict): Option<Failure> {
    match v
    case Activates(committing) => committing
    case Refuses(failure) => Some(failure)
    case Breaks(failure) => Some(failure)
  }

  /** The exception leaves the loop over the pending requests. */
  predicate Escapes(a: Attempt) {
    FailureOf(a.verdict) == Some(Interruption) || (FailureOf(a.verdict) == Some(Ordinary) && !a.heard)
  }

  /** A closed runtime refuses every replacement. */
  function Applied(s: Runtime, r: Req, v: Verdict): Runtime {
    if s.closed || v.Refuses? then s.(rolledBack := s.rolledBack + [r])
    else if v.Activates? then s.(generation := s.generation + 1, committed := s.committed + [r])
    else s.(generation := s.generation + 1, stranded := s.stranded + [r])
  }

  function AppliedAll(s: Runtime, rs: seq<Req>, attempts: seq<Attempt>): Runtime
    requires |attempts| == |rs|
    decreases |rs|
  {
    if rs == [] then s
    else
      var t := Applied(s, rs[0], attempts[0].verdict);
      if Escapes(attempts[0]) then t.(stranded := t.stranded + rs[1..]) else AppliedAll(t, rs[1..], attempts[1..])
  }

  function RolledBack(s: Runtime, rs: seq<Req>): Runtime {
    s.(rolledBack := s.rolledBack + Reversed(rs))
  }

  function ClosedNow(s: Runtime): Runtime {
    RolledBack(s.(closed := true, pending := []), s.pending)
  }

  /** Sources are refreshed only between operations. */
  function Refreshed(s: Runtime, refresh: Refresh): Runtime {
    if s.busy == 0 && !s.closed && (refresh.Advanced? || (refresh.Interrupted? && refresh.advanced))
    then s.(generation := s.generation + 1) else s
  }

  function Began(s: Runtime, t: nat, refresh: Refresh): Runtime
    requires t < |s.threads|
  {
    var thread := s.threads[t];
    if thread.frames != [] then s.(threads := s.threads[t := thread.(frames := thread.frames + [[]])])
    else
      var u := Refreshed(s, refresh);
      if u.closed || u.closing || (refresh.Interrupted? && s.busy == 0) then u
      else u.(busy := u.busy + 1, threads := u.threads[t := Thread(Some(u.generation), [[]])])
  }

  function Requested(s: Runtime, t: nat, r: Req, verdict: Verdict): Runtime
    requires t < |s.threads|
  {
    var thread := s.threads[t];
    if thread.frames != [] then
      var last := |thread.frames| - 1;
      s.(threads := s.threads[t := thread.(frames := thread.frames[last := thread.frames[last] + [r]])])
    else if s.busy != 0 then s.(pending := s.pending + [r])
    else Applied(s, r, verdict)
  }

  /** A frame that succeeded hands its requests on; one that failed rolls them back. */
  function Popped(s: Runtime, t: nat, ok: bool): Runtime
    requires t < |s.threads| && s.threads[t].frames != []
  {
    var thread := s.threads[t];
    var rest, top := thread.frames[..|thread.frames| - 1], thread.frames[|thread.frames| - 1];
    if !ok then RolledBack(s.(threads := s.threads[t := thread.(frames := rest)]), top)
    else if rest != [] then
      s.(threads := s.threads[t := thread.(frames := rest[|rest| - 1 := rest[|rest| - 1] + top])])
    else s.(threads := s.threads[t := thread.(frames := [])], pending := s.pending + top)
  }

  /** The last operation to leave closes the runtime or activates what is pending. */
  function Released(s: Runtime, t: nat, attempts: seq<Attempt>): Runtime
    requires t < |s.threads| && |attempts| == |s.pending|
  {
    var u := s.(threads := s.threads[t := Thread(None, [])], busy := s.busy - 1);
    if u.busy != 0 then u
    else if u.closing then (if u.closed then u else ClosedNow(u))
    else AppliedAll(u.(pending := []), u.pending, attempts)
  }

  function ClosedWhenIdle(s: Runtime): Runtime {
    if s.closed then s
    else if s.busy != 0 then s.(closing := true)
    else ClosedNow(s)
  }

  predicate Enabled(s: Runtime, e: Event) {
    match e
    case Begin(t, _) => t < |s.threads| && (s.threads[t].stage == None || s.threads[t].frames != [])
    case Request(t, _, _) => t < |s.threads|
    case Pop(t, _) => t < |s.threads| && s.threads[t].frames != []
    case Release(t, attempts) =>
      t < |s.threads| && s.threads[t].stage.Some? && s.threads[t].frames == [] && |attempts| == |s.pending|
    case Close => true
    case Reload(_) => true
  }

  function Step(s: Runtime, e: Event): Runtime
    requires Enabled(s, e)
  {
    match e
    case Begin(t, refresh) => Began(s, t, refresh)
    case Request(t, r, verdict) => Requested(s, t, r, verdict)
    case Pop(t, ok) => Popped(s, t, ok)
    case Release(t, attempts) => Released(s, t, attempts)
    case Close => ClosedWhenIdle(s)
    case Reload(advanced) =>
      if s.closed || s.busy != 0 || !advanced then s else s.(generation := s.generation + 1)
  }

  // ---------------------------------------------------------------- the invariant

  function Open(threads: seq<Thread>): nat {
    if threads == [] then 0
    else Open(threads[..|threads| - 1]) + (if threads[|threads| - 1].stage.Some? then 1 else 0)
  }

  lemma {:induction false} OpenUpdate(threads: seq<Thread>, t: nat, thread: Thread)
    requires t < |threads|
    ensures Open(threads[t := thread]) ==
            Open(threads) - (if threads[t].stage.Some? then 1 else 0) + (if thread.stage.Some? then 1 else 0)
  {
    var last := |threads| - 1;
    if t == last {
      assert threads[t := thread][..last] == threads[..last];
    } else {
      assert threads[t := thread][..last] == threads[..last][t := thread];
      OpenUpdate(threads[..last], t, thread);
    }
  }

  /** A thread with a pinned registry is counted. */
  lemma {:induction false} OpenCounts(threads: seq<Thread>, t: nat)
    requires t < |threads| && threads[t].stage.Some?
    ensures Open(threads) > 0
  {
    if t < |threads| - 1 { OpenCounts(threads[..|threads| - 1], t); }
  }

  ghost predicate Pinned(s: Runtime, thread: Thread) {
    && (thread.frames != [] ==> thread.stage.Some?)
    && (thread.stage.Some? ==> thread.stage.value == s.generation)
  }

  /** `busy` counts the open operations, and they all see the active generation. */
  ghost predicate Inv(s: Runtime) {
    && s.busy == Open(s.threads)
    && (forall t | 0 <= t < |s.threads| :: Pinned(s, s.threads[t]))
    && (s.pending != [] ==> s.busy > 0)
    && (s.closing ==> s.closed || s.busy > 0)
    && (s.closed ==> s.busy == 0)
  }

  /** Applying requests touches only the ledgers and the generation. */
  lemma {:induction false} AppliedAllFrame(s: Runtime, rs: seq<Req>, attempts: seq<Attempt>)
    requires |attempts| == |rs|
    ensures var u := AppliedAll(s, rs, attempts);
      && u == s.(generation := u.generation, committed := u.committed, rolledBack := u.rolledBack, stranded := u.stranded)
      && u.generation >= s.generation
    decreases |rs|
  {
    if rs != [] && !Escapes(attempts[0]) {
      AppliedAllFrame(Applied(s, rs[0], attempts[0].verdict), rs[1..], attempts[1..]);
    }
  }

  lemma NobodyOpen(s: Runtime)
    requires Inv(s) && s.busy == 0
    ensures forall t | 0 <= t < |s.threads| :: s.threads[t] == Thread(None, [])
  {
    forall t | 0 <= t < |s.threads|
      ensures s.threads[t] == Thread(None, [])
    {
      if s.threads[t].stage.Some? { OpenCounts(s.threads, t); }
      assert Pinned(s, s.threads[t]);
    }
  }

  lemma BeginKeeps(s: Runtime, t: nat, refresh: Refresh)
    requires Inv(s) && Enabled(s, Begin(t, refresh))
    ensures Inv(Began(s, t, refresh))
  {
    var u := Began(s, t, refresh);
    assert Pinned(s, s.threads[t]);
    if s.busy == 0 { NobodyOpen(s); }
    OpenUpdate(s.threads, t, u.threads[t]);
  }

  lemma RequestKeeps(s: Runtime, t: nat, r: Req, verdict: Verdict)
    requires Inv(s) && t < |s.threads|
    ensures Inv(Requested(s, t, r, verdict))
  {
    var u := Requested(s, t, r, verdict);
    assert Pinned(s, s.threads[t]);
    if s.busy == 0 { NobodyOpen(s); }
    OpenUpdate(s.threads, t, u.threads[t]);
  }

  lemma PopKeeps(s: Runtime, t: nat, ok: bool)
    requires Inv(s) && Enabled(s, Pop(t, ok))
    ensures Inv(Popped(s, t, ok))
  {
    var u := Popped(s, t, ok);
    assert Pinned(s, s.threads[t]);
    OpenCounts(s.threads, t);
    OpenUpdate(s.threads, t, u.threads[t]);
  }

  lemma ReleaseKeeps(s: Runtime, t: nat, attempts: seq<Attempt>)
    requires Inv(s) && Enabled(s, Release(t, attempts))
    ensures Inv(Released(s, t, attempts))
  {
    OpenCounts(s.threads, t);
    OpenUpdate(s.threads, t, Thread(None, []));
    var u := s.(threads := s.threads[t := Thread(None, [])], busy := s.busy - 1);
    if u.busy == 0 {
      assert Inv(u.(pending := [], closing := false));
      NobodyOpen(u.(pending := [], closing := false));
      AppliedAllFrame(u.(pending := []), u.pending, attempts);
    }
  }

  /** Every step keeps the count of open operations and the generation they see. */
  lemma StepKeeps(s: Runtime, e: Event)
    requires Inv(s) && Enabled(s, e)
    ensures Inv(Step(s, e))
  {
    match e
    case Begin(t, refresh) => BeginKeeps(s, t, refresh);
    case Request(t, r, verdict) => RequestKeeps(s, t, r, verdict);
    case Pop(t, ok) => PopKeeps(s, t, ok);
    case Release(t, attempts) => ReleaseKeeps(s, t, attempts);
    case Close =>
    case Reload(advanced) => if s.busy == 0 { NobodyOpen(s); }
  }

  // ---------------------------------------------------------------- conservation

  function Count(rs: seq<Req>, r: Req): nat {
    multiset(rs)[r]
  }

  function InFrames(frames: seq<seq<Req>>, r: Req): nat {
    if frames == [] then 0 else InFrames(frames[..|frames| - 1], r) + Count(frames[|frames| - 1], r)
  }

  function Held(threads: seq<Thread>, r: Req): nat {
    if threads == [] then 0 else Held(threads[..|threads| - 1], r) + InFrames(threads[|threads| - 1].frames, r)
  }

  function Resolved(s: Runtime, r: Req): nat {
    Count(s.committed, r) + Count(s.rolledBack, r) + Count(s.stranded, r)
  }

  /** In how many places a request is: an open frame, the pending list or a ledger. */
  function Places(s: Runtime, r: Req): nat {
    Held(s.threads, r) + Count(s.pending, r) + Resolved(s, r)
  }

  function Issued(e: Event, r: Req): nat {
    if e.Request? && e.r == r then 1 else 0
  }

  lemma {:induction false} HeldUpdate(threads: seq<Thread>, t: nat, thread: Thread, r: Req)
    requires t < |threads|
    ensures Held(threads[t := thread], r) == Held(threads, r) - InFrames(threads[t].frames, r) + InFrames(thread.frames, r)
  {
    var last := |threads| - 1;
    if t == last {
      assert threads[t := thread][..last] == threads[..last];
    } else {
      assert threads[t := thread][..last] == threads[..last][t := thread];
      HeldUpdate(threads[..last], t, thread, r);
    }
  }

  lemma CountJoin(a: seq<Req>, b: seq<Req>, r: Req)
    ensures Count(a + b, r) == Count(a, r) + Count(b, r)
  {
  }

  lemma FramesPush(frames: seq<seq<Req>>, frame: seq<Req>, r: Req)
    ensures InFrames(frames + [frame], r) == InFrames(frames, r) + Count(frame, r)
  {
    assert (frames + [frame])[..|frames|] == frames;
  }

  lemma FramesTop(frames: seq<seq<Req>>, more: seq<Req>, r: Req)
    requires frames != []
    ensures var last := |frames| - 1;
      InFrames(frames[last := frames[last] + more], r) == InFrames(frames, r) + Count(more, r)
  {
    var last := |frames| - 1;
    assert frames[last := frames[last] + more][..last] == frames[..last];
    CountJoin(frames[last], more, r);
  }

  lemma RollsBack(s: Runtime, rs: seq<Req>, r: Req)
    ensures Resolved(RolledBack(s, rs), r) == Resolved(s, r) + Count(rs, r)
  {
    ReversedKeeps(rs);
    CountJoin(s.rolledBack, Reversed(rs), r);
  }

  lemma AppliedConserves(s: Runtime, x: Req, v: Verdict, r: Req)
    ensures Resolved(Applied(s, x, v), r) == Resolved(s, r) + Count([x], r)
  {
    CountJoin(s.rolledBack, [x], r);
    CountJoin(s.committed, [x], r);
    CountJoin(s.stranded, [x], r);
  }

  lemma {:induction false} AppliedAllConserves(s: Runtime, rs: seq<Req>, attempts: seq<Attempt>, r: Req)
    requires |attempts| == |rs|
    ensures Resolved(AppliedAll(s, rs, attempts), r) == Resolved(s, r) + Count(rs, r)
    decreases |rs|
  {
    if rs != [] {
      var t := Applied(s, rs[0], attempts[0].verdict);
      AppliedConserves(s, rs[0], attempts[0].verdict, r);
      assert rs == [rs[0]] + rs[1..];
      CountJoin([rs[0]], rs[1..], r);
      if Escapes(attempts[0]) {
        CountJoin(t.stranded, rs[1..], r);
      } else {
        AppliedAllConserves(t, rs[1..], attempts[1..], r);
      }
    }
  }

  lemma PopConserves(s: Runtime, t: nat, ok: bool, r: Req)
    requires Enabled(s, Pop(t, ok))
    ensures Places(Popped(s, t, ok), r) == Places(s, r)
  {
    var u, frames := Popped(s, t, ok), s.threads[t].frames;
    var rest, top := frames[..|frames| - 1], frames[|frames| - 1];
    HeldUpdate(s.threads, t, u.threads[t], r);
    if !ok {
      RollsBack(s.(threads := u.threads), top, r);
    } else if rest != [] {
      FramesTop(rest, top, r);
    } else {
      CountJoin(s.pending, top, r);
    }
  }

  /** Taking the pending list away and resolving every request on it. */
  lemma ResolvesPending(s: Runtime, u: Runtime, r: Req)
    requires u.threads == s.threads && u.pending == []
    requires Resolved(u, r) == Resolved(s, r) + Count(s.pending, r)
    ensures Places(u, r) == Places(s, r)
  {
  }

  lemma LeaveConserves(s: Runtime, t: nat, r: Req)
    requires t < |s.threads| && s.threads[t].frames == []
    ensures Places(s.(threads := s.threads[t := Thread(None, [])], busy := s.busy - 1), r) == Places(s, r)
  {
    HeldUpdate(s.threads, t, Thread(None, []), r);
  }

  lemma ReleaseConserves(s: Runtime, t: nat, attempts: seq<Attempt>, r: Req)
    requires Enabled(s, Release(t, attempts))
    ensures Places(Released(s, t, attempts), r) == Places(s, r)
  {
    var u := s.(threads := s.threads[t := Thread(None, [])], busy := s.busy - 1);
    LeaveConserves(s, t, r);
    if u.busy == 0 && u.closing && !u.closed {
      RollsBack(u.(closed := true, pending := []), u.pending, r);
      ResolvesPending(u, ClosedNow(u), r);
    } else if u.busy == 0 && !u.closing {
      AppliedAllConserves(u.(pending := []), u.pending, attempts, r);
      AppliedAllFrame(u.(pending := []), u.pending, attempts);
      ResolvesPending(u, AppliedAll(u.(pending := []), u.pending, attempts), r);
    }
  }

  lemma EmptyFrames(frames: seq<seq<Req>>, r: Req)
    ensures InFrames(frames + [[]], r) == InFrames(frames, r)
    ensures InFrames([[]], r) == InFrames([], r) == 0
  {
    FramesPush(frames, [], r);
    var one: seq<seq<Req>> := [[]];
    assert one[..0] == [];
  }

  lemma BeginConserves(s: Runtime, t: nat, refresh: Refresh, r: Req)
    requires t < |s.threads|
    ensures Places(Began(s, t, refresh), r) == Places(s, r)
  {
    var u := Began(s, t, refresh);
    EmptyFrames(s.threads[t].frames, r);
    assert u.threads == s.threads[t := u.threads[t]];
    SameContents(s, u, t, r);
  }

  lemma SameContents(s: Runtime, u: Runtime, t: nat, r: Req)
    requires t < |s.threads| == |u.threads| && u.threads == s.threads[t := u.threads[t]]
    requires InFrames(u.threads[t].frames, r) == InFrames(s.threads[t].frames, r)
    requires u.pending == s.pending
    requires u.committed == s.committed && u.rolledBack == s.rolledBack && u.stranded == s.stranded
    ensures Places(u, r) == Places(s, r)
  {
    HeldUpdate(s.threads, t, u.threads[t], r);
  }

  lemma AskConserves(s: Runtime, t: nat, x: Req, verdict: Verdict, r: Req)
    requires t < |s.threads| && s.threads[t].frames != []
    ensures Places(Requested(s, t, x, verdict), r) == Places(s, r) + Count([x], r)
  {
    HeldUpdate(s.threads, t, Requested(s, t, x, verdict).threads[t], r);
    FramesTop(s.threads[t].frames, [x], r);
  }

  lemma RequestConserves(s: Runtime, t: nat, x: Req, verdict: Verdict, r: Req)
    requires t < |s.threads|
    ensures Places(Requested(s, t, x, verdict), r) == Places(s, r) + Count([x], r)
  {
    if s.threads[t].frames != [] {
      AskConserves(s, t, x, verdict, r);
    } else if s.busy != 0 {
      CountJoin(s.pending, [x], r);
    } else {
      AppliedConserves(s, x, verdict, r);
    }
  }

  /** A step moves requests from place to place; only a new request adds one. */
  lemma StepConserves(s: Runtime, e: Event, r: Req)
    requires Enabled(s, e)
    ensures Places(Step(s, e), r) == Places(s, r) + Issued(e, r)
  {
    match e
    case Begin(t, refresh) => BeginConserves(s, t, refresh, r);
    case Request(t, x, verdict) => RequestConserves(s, t, x, verdict, r);
    case Pop(t, ok) => PopConserves(s, t, ok, r);
    case Release(t, attempts) => ReleaseConserves(s, t, attempts, r);
    case Close => RollsBack(s.(closed := true, pending := []), s.pending, r);
    case Reload(_) =>
  }

  // ---------------------------------------------------------------- whole runs

  predicate EnabledRun(s: Runtime, es: seq<Event>)
    decreases |es|, 0
  {
    es == [] || (EnabledRun(s, es[..|es| - 1]) && Enabled(Run(s, es[..|es| - 1]), es[|es| - 1]))
  }

  function Run(s: Runtime, es: seq<Event>): Runtime
    requires EnabledRun(s, es)
    decreases |es|, 1
  {
    if es == [] then s else Step(Run(s, es[..|es| - 1]), es[|es| - 1])
  }

  function IssuedIn(es: seq<Event>, r: Req): nat {
    if es == [] then 0 else IssuedIn(es[..|es| - 1], r) + Issued(es[|es| - 1], r)
  }

  function Start(threads: nat): Runtime {
    Runtime(seq(threads, i => Thread(None, [])), 0, [], false, false, 0, [], [], [])
  }

  lemma {:induction false} NothingHeld(threads: seq<Thread>, r: Req)
    requires forall t | 0 <= t < |threads| :: threads[t] == Thread(None, [])
    ensures Held(threads, r) == 0 && Open(threads) == 0
  {
    if threads != [] { NothingHeld(threads[..|threads| - 1], r); }
  }

  lemma {:induction false} RunKeeps(s: Runtime, es: seq<Event>, r: Req)
    requires Inv(s) && EnabledRun(s, es)
    ensures Inv(Run(s, es)) && Places(Run(s, es), r) == Places(s, r) + IssuedIn(es, r)
    decreases |es|
  {
    if es != [] {
      RunKeeps(s, es[..|es| - 1], r);
      StepKeeps(Run(s, es[..|es| - 1]), es[|es| - 1]);
      StepConserves(Run(s, es[..|es| - 1]), es[|es| - 1], r);
    }
  }

  /** Over every interleaving a request is in exactly one place, and in a ledger once no operation is open. */
  lemma EachRequestOnce(threads: nat, es: seq<Event>, r: Req)
    requires EnabledRun(Start(threads), es) && IssuedIn(es, r) == 1
    ensures var u := Run(Start(threads), es);
      && Inv(u) && Places(u, r) == 1
      && !(r in u.committed && r in u.rolledBack)
      && (u.busy == 0 ==> Resolved(u, r) == 1)
  {
    var s := Start(threads);
    NothingHeld(s.threads, r);
    RunKeeps(s, es, r);
    var u := Run(s, es);
    if u.busy == 0 {
      NobodyOpen(u);
      NothingHeld(u.threads, r);
    }
  }

  lemma {:induction false} AppliedAllGrows(s: Runtime, rs: seq<Req>, attempts: seq<Attempt>)
    requires |attempts| == |rs|
    ensures var u := AppliedAll(s, rs, attempts);
      s.committed <= u.committed && s.rolledBack <= u.rolledBack && s.stranded <= u.stranded
    decreases |rs|
  {
    if rs != [] && !Escapes(attempts[0]) {
      AppliedAllGrows(Applied(s, rs[0], attempts[0].verdict), rs[1..], attempts[1..]);
    }
  }

  /** No step takes back a hook that was called. */
  lemma LedgersGrow(s: Runtime, e: Event)
    requires Enabled(s, e)
    ensures var u := Step(s, e);
      s.committed <= u.committed && s.rolledBack <= u.rolledBack && s.stranded <= u.stranded
  {
    if e.Release? {
      var u := s.(threads := s.threads[e.t := Thread(None, [])], busy := s.busy - 1);
      AppliedAllGrows(u.(pending := []), u.pending, e.attempts);
    }
  }

  // ---------------------------------------------------------------- which hook a request gets

  datatype Hook = CommitHook | RollbackHook | NoHook

  /** A request is committed when a generation with it is active, and rolled back when the old one stays. */
  function HookOf(v: Verdict): Hook {
    match v case Activates(_) => CommitHook case Refuses(_) => RollbackHook case Breaks(_) => NoHook
  }

  /** An interruption, or a failure that cannot be reported. */
  predicate CutsShort(a: Attempt) {
    || a.verdict in {Activates(Some(Interruption)), Refuses(Interruption), Breaks(Interruption)}
    || (!a.heard && a.verdict in {Activates(Some(Ordinary)), Refuses(Ordinary), Breaks(Ordinary)})
  }

  /** How many requests the loop gets to. */
  function Reached(attempts: seq<Attempt>): (k: nat)
    ensures k <= |attempts|
  {
    if attempts == [] then 0 else if CutsShort(attempts[0]) then 1 else 1 + Reached(attempts[1..])
  }

  /** Those of the requests that get this hook, in order. */
  function Getting(hook: Hook, rs: seq<Req>, attempts: seq<Attempt>): seq<Req>
    requires |rs| <= |attempts|
  {
    if rs == [] then []
    else Gets(hook, rs[0], attempts[0].verdict) + Getting(hook, rs[1..], attempts[1..])
  }

  function Gets(hook: Hook, r: Req, v: Verdict): seq<Req> {
    if HookOf(v) == hook then [r] else []
  }

  lemma AppliedCalls(s: Runtime, r: Req, v: Verdict)
    requires !s.closed
    ensures var u := Applied(s, r, v);
      && u.committed == s.committed + Gets(CommitHook, r, v) && u.rolledBack == s.rolledBack + Gets(RollbackHook, r, v)
      && u.stranded == s.stranded + Gets(NoHook, r, v) && !u.closed
      && u.generation + |Gets(RollbackHook, r, v)| == s.generation + 1
  {
  }

  /** The first request, and those that the loop gets to behind it. */
  lemma ReachedMore(hook: Hook, rs: seq<Req>, attempts: seq<Attempt>)
    requires |attempts| == |rs| > 0 && !CutsShort(attempts[0])
    ensures Getting(hook, rs[..Reached(attempts)], attempts) ==
            Gets(hook, rs[0], attempts[0].verdict) + Getting(hook, rs[1..][..Reached(attempts[1..])], attempts[1..])
    ensures rs[1..][Reached(attempts[1..])..] == rs[Reached(attempts)..]
  {
    var done := rs[..Reached(attempts)];
    assert done[0] == rs[0] && done[1..] == rs[1..][..Reached(attempts[1..])];
  }

  /** The generation advances for every request that the loop gets to and that is not refused. */
  lemma {:induction false} LoopAdvances(s: Runtime, rs: seq<Req>, attempts: seq<Attempt>)
    requires |attempts| == |rs| && !s.closed
    ensures AppliedAll(s, rs, attempts).generation + |Getting(RollbackHook, rs[..Reached(attempts)], attempts)| ==
            s.generation + Reached(attempts)
    decreases |rs|
  {
    if rs != [] {
      AppliedCalls(s, rs[0], attempts[0].verdict);
      if CutsShort(attempts[0]) {
        CutHere(rs, attempts);
      } else {
        LoopAdvances(Applied(s, rs[0], attempts[0].verdict), rs[1..], attempts[1..]);
        LoopJoins([], RollbackHook, rs, attempts);
      }
    }
  }

  /** Each request that the loop gets to has its hook called according to its own activation, in order. */
  lemma {:induction false} LoopCalls(s: Runtime, rs: seq<Req>, attempts: seq<Attempt>)
    requires |attempts| == |rs| && !s.closed
    ensures var u, done := AppliedAll(s, rs, attempts), rs[..Reached(attempts)];
      && u.committed == s.committed + Getting(CommitHook, done, attempts)
      && u.rolledBack == s.rolledBack + Getting(RollbackHook, done, attempts)
      && u.stranded == s.stranded + Getting(NoHook, done, attempts) + rs[Reached(attempts)..]
    decreases |rs|
  {
    if rs != [] {
      AppliedCalls(s, rs[0], attempts[0].verdict);
      if CutsShort(attempts[0]) {
        CutHere(rs, attempts);
      } else {
        LoopCalls(Applied(s, rs[0], attempts[0].verdict), rs[1..], attempts[1..]);
        LoopJoins(s.committed, CommitHook, rs, attempts);
        LoopJoins(s.rolledBack, RollbackHook, rs, attempts);
        LoopJoins(s.stranded, NoHook, rs, attempts);
      }
    }
  }

  lemma CutHere(rs: seq<Req>, attempts: seq<Attempt>)
    requires |attempts| == |rs| > 0 && CutsShort(attempts[0])
    ensures forall hook :: Getting(hook, rs[..Reached(attempts)], attempts) == Gets(hook, rs[0], attempts[0].verdict)
  {
    assert rs[..1][1..] == [] && rs[..1][0] == rs[0];
  }

  lemma LoopJoins(ledger: seq<Req>, hook: Hook, rs: seq<Req>, attempts: seq<Attempt>)
    requires |attempts| == |rs| > 0 && !CutsShort(attempts[0])
    ensures var one := Gets(hook, rs[0], attempts[0].verdict);
      var rest := Getting(hook, rs[1..][..Reached(attempts[1..])], attempts[1..]);
      && ledger + one + rest == ledger + Getting(hook, rs[..Reached(attempts)], attempts)
      && |Getting(hook, rs[..Reached(attempts)], attempts)| == |one| + |rest|
    ensures rs[1..][Reached(attempts[1..])..] == rs[Reached(attempts)..]
  {
    ReachedMore(hook, rs, attempts);
    Regroup(ledger, Gets(hook, rs[0], attempts[0].verdict), Getting(hook, rs[1..][..Reached(attempts[1..])], attempts[1..]));
  }

  /** The requests whose hook a step calls: an activation, a frame that failed, or a runtime that closes. */
  function Called(s: Runtime, e: Event, hook: Hook): seq<Req>
    requires Enabled(s, e)
  {
    match e
    case Request(t, r, v) =>
      if s.threads[t].frames == [] && s.busy == 0 && hook == (if s.closed then RollbackHook else HookOf(v)) then [r] else []
    case Pop(t, ok) =>
      if !ok && hook == RollbackHook then Reversed(s.threads[t].frames[|s.threads[t].frames| - 1]) else []
    case Release(t, attempts) =>
      if s.busy != 1 || s.closed then []
      else if s.closing then (if hook == RollbackHook then Reversed(s.pending) else [])
      else Getting(hook, s.pending[..Reached(attempts)], attempts)
    case Close => if s.busy == 0 && !s.closed && hook == RollbackHook then Reversed(s.pending) else []
    case _ => []
  }

  /** What is pending after a step, in the order in which it was handed on. */
  function PendingAfter(s: Runtime, e: Event): seq<Req>
    requires Enabled(s, e)
  {
    match e
    case Request(t, r, _) => if s.threads[t].frames == [] && s.busy != 0 then s.pending + [r] else s.pending
    case Pop(t, ok) => if ok && |s.threads[t].frames| == 1 then s.pending + s.threads[t].frames[0] else s.pending
    case Release(_, _) => if s.busy == 1 then [] else s.pending
    case Close => if s.busy == 0 && !s.closed then [] else s.pending
    case _ => s.pending
  }

  /** By how much the generation advances. */
  function Advances(s: Runtime, e: Event): nat
    requires Enabled(s, e)
  {
    match e
    case Begin(t, refresh) =>
      if s.threads[t].frames == [] && s.busy == 0 && !s.closed && refresh in {Advanced, Interrupted(true)} then 1 else 0
    case Request(t, _, v) => if s.threads[t].frames == [] && s.busy == 0 && !s.closed && !v.Refuses? then 1 else 0
    case Release(_, attempts) =>
      if s.busy != 1 || s.closing || s.closed then 0
      else
        var done := s.pending[..Reached(attempts)];
        |Getting(CommitHook, done, attempts)| + |Getting(NoHook, done, attempts)|
    case Reload(advanced) => if s.busy == 0 && !s.closed && advanced then 1 else 0
    case _ => 0
  }

  lemma {:induction false} GettingAll(rs: seq<Req>, attempts: seq<Attempt>)
    requires |rs| <= |attempts|
    ensures |Getting(CommitHook, rs, attempts)| + |Getting(RollbackHook, rs, attempts)| + |Getting(NoHook, rs, attempts)| == |rs|
  {
    if rs != [] { GettingAll(rs[1..], attempts[1..]); }
  }

  lemma ReleaseCalls(s: Runtime, t: nat, attempts: seq<Attempt>)
    requires Inv(s) && Enabled(s, Release(t, attempts)) && s.busy == 1 && !s.closing
    ensures var u, e := Released(s, t, attempts), Release(t, attempts);
      && u.committed == s.committed + Called(s, e, CommitHook)
      && u.rolledBack == s.rolledBack + Called(s, e, RollbackHook)
      && u.pending == [] && u.generation == s.generation + Advances(s, e)
  {
    OpenCounts(s.threads, t);
    var u := s.(threads := s.threads[t := Thread(None, [])], busy := 0);
    LoopCalls(u.(pending := []), u.pending, attempts);
    LoopAdvances(u.(pending := []), u.pending, attempts);
    GettingAll(s.pending[..Reached(attempts)], attempts);
    AppliedAllFrame(u.(pending := []), u.pending, attempts);
  }

  lemma RequestCalls(s: Runtime, t: nat, r: Req, v: Verdict)
    requires Enabled(s, Request(t, r, v))
    ensures var u, e := Step(s, Request(t, r, v)), Request(t, r, v);
      && u.committed == s.committed + Called(s, e, CommitHook)
      && u.rolledBack == s.rolledBack + Called(s, e, RollbackHook)
      && u.pending == PendingAfter(s, e) && u.generation == s.generation + Advances(s, e)
  {
  }

  /** A step calls the commit hooks of the requests that it activates, and the rollback hooks of those that it refuses, drops
    * with their frame, or finds pending as it closes; nothing else is called, and nothing else advances the generation. */
  lemma StepCalls(s: Runtime, e: Event)
    requires Inv(s) && Enabled(s, e)
    ensures var u := Step(s, e);
      && u.committed == s.committed + Called(s, e, CommitHook)
      && u.rolledBack == s.rolledBack + Called(s, e, RollbackHook)
      && u.pending == PendingAfter(s, e) && u.generation == s.generation + Advances(s, e)
  {
    if e.Release? {
      OpenCounts(s.threads, e.t);
      if s.busy == 1 && !s.closing { ReleaseCalls(s, e.t, e.attempts); }
    } else if e.Request? {
      RequestCalls(s, e.t, e.r, e.verdict);
    }
  }

  function CalledIn(s: Runtime, es: seq<Event>, hook: Hook): seq<Req>
    requires EnabledRun(s, es)
  {
    if es == [] then [] else CalledIn(s, es[..|es| - 1], hook) + Called(Run(s, es[..|es| - 1]), es[|es| - 1], hook)
  }

  function AdvancesIn(s: Runtime, es: seq<Event>): nat
    requires EnabledRun(s, es)
  {
    if es == [] then 0 else AdvancesIn(s, es[..|es| - 1]) + Advances(Run(s, es[..|es| - 1]), es[|es| - 1])
  }

  /** Over every interleaving exactly these hooks are called, in this order. */
  lemma {:induction false} RunCalls(threads: nat, es: seq<Event>)
    requires EnabledRun(Start(threads), es)
    ensures var u := Run(Start(threads), es);
      && u.committed == CalledIn(Start(threads), es, CommitHook)
      && u.rolledBack == CalledIn(Start(threads), es, RollbackHook)
      && u.generation == AdvancesIn(Start(threads), es)
    decreases |es|
  {
    if es != [] {
      var before := es[..|es| - 1];
      RunCalls(threads, before);
      NothingHeld(Start(threads).threads, 0);
      RunKeeps(Start(threads), before, 0);
      StepCalls(Run(Start(threads), before), es[|es| - 1]);
    }
  }

  // ---------------------------------------------------------------- when a request gets no hook

  /** No activation raises after the switch, and no exception but the last leaves the loop. */
  predicate Orderly(attempts: seq<Attempt>) {
    forall i | 0 <= i < |attempts| :: !attempts[i].verdict.Breaks? && (i + 1 < |attempts| ==> !Escapes(attempts[i]))
  }

  /** The step activates something. */
  predicate Activating(s: Runtime, e: Event)
    requires Enabled(s, e)
  {
    match e
    case Request(t, _, _) => s.threads[t].frames == [] && s.busy == 0 && !s.closed
    case Release(_, _) => s.busy == 1 && !s.closing && !s.closed
    case _ => false
  }

  predicate Attends(s: Runtime, e: Event)
    requires Enabled(s, e)
  {
    Activating(s, e) ==> Orderly(if e.Request? then [Attempt(e.verdict, true)] else e.attempts)
  }

  lemma {:induction false} AppliedAllStrands(s: Runtime, rs: seq<Req>, attempts: seq<Attempt>)
    requires |attempts| == |rs| && !s.closed
    ensures AppliedAll(s, rs, attempts).stranded == s.stranded <==> Orderly(attempts)
    decreases |rs|
  {
    if rs != [] {
      var t, rest := Applied(s, rs[0], attempts[0].verdict), attempts[1..];
      assert forall i | 0 <= i < |rest| :: rest[i] == attempts[i + 1];
      assert Orderly(attempts) <==> !attempts[0].verdict.Breaks? && (|rest| > 0 ==> !Escapes(attempts[0])) && Orderly(rest) by {
        if Orderly(rest) && !attempts[0].verdict.Breaks? && (|rest| > 0 ==> !Escapes(attempts[0])) {
          forall i | 0 <= i < |attempts|
            ensures !attempts[i].verdict.Breaks? && (i + 1 < |attempts| ==> !Escapes(attempts[i]))
          {
            if i > 0 { assert attempts[i] == rest[i - 1]; }
          }
        }
      }
      if !Escapes(attempts[0]) {
        AppliedAllStrands(t, rs[1..], rest);
        AppliedAllGrows(t, rs[1..], rest);
      }
    }
  }

  /** A step leaves a request without commit and rollback exactly when an activation breaks or an exception cuts the loop short. */
  lemma StrandsUnlessOrderly(s: Runtime, e: Event)
    requires Inv(s) && Enabled(s, e)
    ensures Step(s, e).stranded == s.stranded <==> Attends(s, e)
  {
    if e.Request? {
      assert [Attempt(e.verdict, true)][0].verdict == e.verdict;
    }
    if e.Release? {
      OpenCounts(s.threads, e.t);
      var u := s.(threads := s.threads[e.t := Thread(None, [])], busy := s.busy - 1);
      AppliedAllStrands(u.(pending := []), u.pending, e.attempts);
    }
  }

  lemma RunMore(s: Runtime, es: seq<Event>, e: Event)
    requires EnabledRun(s, es) && Enabled(Run(s, es), e)
    ensures EnabledRun(s, es + [e]) && Run(s, es + [e]) == Step(Run(s, es), e)
  {
    assert (es + [e])[..|es|] == es;
  }

  /** An operation queues two requests and ends; an interruption out of the commit hook of the first strands the second. */
  lemma InterruptionStrands(a: Req, b: Req, verdict: Verdict)
    ensures var interrupted := Attempt(Activates(Some(Interruption)), true);
      var queued := [Begin(0, Kept), Request(0, a, verdict), Request(0, b, verdict), Pop(0, true)];
      var events := queued + [Release(0, [interrupted, Attempt(Activates(None), true)])];
      && EnabledRun(Start(1), events)
      && Run(Start(1), events).committed == [a] && Run(Start(1), events).stranded == [b]
      && Run(Start(1), events).rolledBack == []
  {
    var s, queued := Start(1), [Begin(0, Kept), Request(0, a, verdict), Request(0, b, verdict), Pop(0, true)];
    QueuesTwo(a, b, verdict);
    var u := Run(s, queued);
    var attempts := [Attempt(Activates(Some(Interruption)), true), Attempt(Activates(None), true)];
    assert u.pending[1..] == [b] && Escapes(attempts[0]);
    RunMore(s, queued, Release(0, attempts));
  }

  /** One thread whose operation has these requests in its frame. */
  function Collecting(frame: seq<Req>): Runtime {
    Start(1).(busy := 1, threads := [Thread(Some(0), [frame])])
  }

  lemma Collects(frame: seq<Req>, r: Req, verdict: Verdict)
    ensures Step(Collecting(frame), Request(0, r, verdict)) == Collecting(frame + [r])
  {
    assert [frame][0 := frame + [r]] == [frame + [r]];
  }

  lemma QueuesTwo(a: Req, b: Req, verdict: Verdict)
    ensures var events := [Begin(0, Kept), Request(0, a, verdict), Request(0, b, verdict), Pop(0, true)];
      && EnabledRun(Start(1), events)
      && Run(Start(1), events) == Start(1).(busy := 1, threads := [Thread(Some(0), [])], pending := [a, b])
  {
    var s, one := Start(1), [Begin(0, Kept)];
    var two, three := one + [Request(0, a, verdict)], one + [Request(0, a, verdict)] + [Request(0, b, verdict)];
    assert one == [] + one;
    RunMore(s, [], Begin(0, Kept));
    assert Run(s, one) == Collecting([]);
    RunMore(s, one, Request(0, a, verdict));
    Collects([], a, verdict);
    assert [] + [a] == [a];
    RunMore(s, two, Request(0, b, verdict));
    Collects([a], b, verdict);
    assert [a] + [b] == [a, b];
    RunMore(s, three, Pop(0, true));
    assert three + [Pop(0, true)] == [Begin(0, Kept), Request(0, a, verdict), Request(0, b, verdict), Pop(0, true)];
  }

  // ---------------------------------------------------------------- pinned generations, deferred close

  /** Whatever other threads do, an open operation keeps its registry, and that stays the active one. */
  lemma PinnedStep(s: Runtime, e: Event, t: nat)
    requires Inv(s) && Enabled(s, e) && t < |s.threads| && s.threads[t].stage.Some? && !(e.Release? && e.t == t)
    ensures var u := Step(s, e);
      |u.threads| == |s.threads| && u.threads[t].stage == s.threads[t].stage && u.generation == s.generation
  {
    OpenCounts(s.threads, t);
    assert Pinned(s, s.threads[t]);
    if e.Release? {
      OpenUpdate(s.threads, e.t, Thread(None, []));
      OpenCounts(s.threads[e.t := Thread(None, [])], t);
    }
  }

  lemma {:induction false} PinnedRun(s: Runtime, es: seq<Event>, t: nat)
    requires Inv(s) && EnabledRun(s, es) && t < |s.threads| && s.threads[t].stage.Some?
    requires forall i | 0 <= i < |es| :: !(es[i].Release? && es[i].t == t)
    ensures var u := Run(s, es);
      && Inv(u) && |u.threads| == |s.threads|
      && u.threads[t].stage == s.threads[t].stage == Some(u.generation) && u.generation == s.generation
    decreases |es|
  {
    assert Pinned(s, s.threads[t]);
    if es != [] {
      PinnedRun(s, es[..|es| - 1], t);
      StepKeeps(Run(s, es[..|es| - 1]), es[|es| - 1]);
      PinnedStep(Run(s, es[..|es| - 1]), es[|es| - 1], t);
    }
  }

  /** Once closing, nobody starts an operation; the last to leave closes and rolls back what is pending. */
  lemma ClosingStep(s: Runtime, e: Event)
    requires Inv(s) && Enabled(s, e) && s.closing && !s.closed
    ensures var u := Step(s, e);
      && u.closing && u.generation == s.generation && u.committed == s.committed && |u.threads| == |s.threads|
      && (forall t | 0 <= t < |s.threads| && s.threads[t].stage == None :: u.threads[t].stage == None)
      && (u.closed <==> u.busy == 0)
      && (u.closed ==> u.pending == [] && u.rolledBack == s.rolledBack + Reversed(s.pending))
  {
    StepKeeps(s, e);
    assert s.busy > 0;
  }

  /** A closed runtime stays closed, starts nothing and changes nothing. */
  lemma ClosedStep(s: Runtime, e: Event)
    requires Inv(s) && Enabled(s, e) && s.closed
    ensures var u := Step(s, e);
      u == if e.Request? then s.(rolledBack := s.rolledBack + [e.r]) else s
  {
    NobodyOpen(s);
  }

  // ---------------------------------------------------------------- nested operations

  /** What a thread does within an operation. */
  datatype Act = Ask(r: Req) | Nested(body: seq<Act>, ok: bool)

  /** The requests that outlive the operation, in order. */
  function Survivors(body: seq<Act>): seq<Req>
    decreases body, 0
  {
    if body == [] then [] else Survivors(body[..|body| - 1]) + SurvivorsOf(body[|body| - 1])
  }

  function SurvivorsOf(act: Act): seq<Req>
    decreases act, 1
  {
    match act
    case Ask(r) => [r]
    case Nested(inner, ok) => if ok then Survivors(inner) else []
  }

  /** The requests rolled back on the way, in the order of their hooks. */
  function Undone(body: seq<Act>): seq<Req>
    decreases body, 0
  {
    if body == [] then [] else Undone(body[..|body| - 1]) + UndoneOf(body[|body| - 1])
  }

  function UndoneOf(act: Act): seq<Req>
    decreases act, 1
  {
    match act
    case Ask(_) => []
    case Nested(inner, ok) => Undone(inner) + if ok then [] else Reversed(Survivors(inner))
  }

  /** The steps of the thread. */
  function Events(t: nat, body: seq<Act>): seq<Event>
    decreases body, 0
  {
    if body == [] then [] else Events(t, body[..|body| - 1]) + EventsOf(t, body[|body| - 1])
  }

  function EventsOf(t: nat, act: Act): seq<Event>
    decreases act, 1
  {
    match act
    case Ask(r) => [Request(t, r, Activates(None))]
    case Nested(inner, ok) => [Begin(t, Kept)] + Events(t, inner) + [Pop(t, ok)]
  }

  /** What one thread has to itself: its frames, and what it has rolled back and handed to the pending list. */
  datatype Local = Local(frames: seq<seq<Req>>, undone: seq<Req>, pended: seq<Req>)

  predicate OfThread(e: Event, t: nat) {
    !e.Close? && !e.Reload? && e.t == t
  }

  /** A step within an operation. */
  function LocalStep(l: Local, e: Event): Local
    requires l.frames != []
  {
    var last := |l.frames| - 1;
    var rest, top := l.frames[..last], l.frames[last];
    match e
    case Begin(_, _) => l.(frames := l.frames + [[]])
    case Request(_, r, _) => l.(frames := l.frames[last := top + [r]])
    case Pop(_, ok) =>
      if !ok then l.(frames := rest, undone := l.undone + Reversed(top))
      else if rest != [] then l.(frames := rest[last - 1 := rest[last - 1] + top])
      else l.(frames := [], pended := l.pended + top)
    case _ => l
  }

  /** The steps happen within an operation, and lead to `m`. */
  ghost predicate Within(l: Local, own: seq<Event>, m: Local)
    decreases |own|
  {
    if own == [] then m == l
    else exists k: Local ::
      Within(l, own[..|own| - 1], k) && k.frames != [] && !own[|own| - 1].Release? && m == LocalStep(k, own[|own| - 1])
  }

  lemma WithinMore(l: Local, own: seq<Event>, m: Local, e: Event)
    requires Within(l, own, m) && m.frames != [] && !e.Release?
    ensures Within(l, own + [e], LocalStep(m, e))
  {
    assert (own + [e])[..|own|] == own;
  }

  lemma {:induction false} WithinJoin(l: Local, a: seq<Event>, m: Local, b: seq<Event>, n: Local)
    requires Within(l, a, m) && Within(m, b, n)
    ensures Within(l, a + b, n)
    decreases |b|
  {
    if b == [] {
      assert a + b == a;
    } else {
      var front, last := b[..|b| - 1], b[|b| - 1];
      var k: Local :| Within(m, front, k) && k.frames != [] && !last.Release? && n == LocalStep(k, last);
      WithinJoin(l, a, m, front, k);
      WithinMore(l, a + front, k, last);
      assert a + b == (a + front) + [last];
    }
  }

  /** The top frame gains requests, others are rolled back. */
  function Grown(l: Local, more: seq<Req>, undone: seq<Req>): Local
    requires l.frames != []
  {
    var last := |l.frames| - 1;
    l.(frames := l.frames[last := l.frames[last] + more], undone := l.undone + undone)
  }

  lemma GrownByNothing(l: Local)
    requires l.frames != []
    ensures Grown(l, [], []) == l
  {
    var last := |l.frames| - 1;
    assert l.frames[last] + [] == l.frames[last] && l.frames[last := l.frames[last]] == l.frames;
    assert l.undone + [] == l.undone;
  }

  lemma GrownOn(l: Local, a: seq<Req>, b: seq<Req>, c: seq<Req>, d: seq<Req>)
    requires l.frames != []
    ensures Grown(Grown(l, a, b), c, d) == Grown(l, a + c, b + d)
  {
    var last := |l.frames| - 1;
    Regroup(l.frames[last], a, c);
    Regroup(l.undone, b, d);
    assert l.frames[last := l.frames[last] + a][last := l.frames[last] + a + c] == l.frames[last := l.frames[last] + a + c];
  }

  /** A body adds its survivors to the open frame and rolls back the rest, innermost first and each frame in reverse. */
  lemma {:induction false} BodyGrows(l: Local, t: nat, body: seq<Act>)
    requires l.frames != []
    ensures Within(l, Events(t, body), Grown(l, Survivors(body), Undone(body)))
    decreases body, 0
  {
    if body == [] {
      GrownByNothing(l);
    } else {
      var before, last := body[..|body| - 1], body[|body| - 1];
      BodyGrows(l, t, before);
      var m := Grown(l, Survivors(before), Undone(before));
      match last {
        case Ask(r) => AskGrows(m, t, r);
        case Nested(inner, ok) => NestedGrows(m, t, inner, ok);
      }
      WithinJoin(l, Events(t, before), m, EventsOf(t, last), Grown(m, SurvivorsOf(last), UndoneOf(last)));
      GrownOn(l, Survivors(before), Undone(before), SurvivorsOf(last), UndoneOf(last));
    }
  }

  lemma AskGrows(l: Local, t: nat, r: Req)
    requires l.frames != []
    ensures Within(l, [Request(t, r, Activates(None))], Grown(l, [r], []))
  {
    WithinMore(l, [], l, Request(t, r, Activates(None)));
    assert [] + [Request(t, r, Activates(None))] == [Request(t, r, Activates(None))];
    assert l.undone + [] == l.undone;
  }

  lemma {:induction false} NestedGrows(l: Local, t: nat, inner: seq<Act>, ok: bool)
    requires l.frames != []
    ensures Within(l, [Begin(t, Kept)] + Events(t, inner) + [Pop(t, ok)],
                   Grown(l, if ok then Survivors(inner) else [],
                         Undone(inner) + if ok then [] else Reversed(Survivors(inner))))
    decreases inner, 1
  {
    var begin := Begin(t, Kept);
    WithinMore(l, [], l, begin);
    assert [] + [begin] == [begin];
    var open := LocalStep(l, begin);
    BodyGrows(open, t, inner);
    var full := Grown(open, Survivors(inner), Undone(inner));
    WithinJoin(l, [begin], open, Events(t, inner), full);
    WithinMore(l, [begin] + Events(t, inner), full, Pop(t, ok));
    PopGrows(l, Survivors(inner), Undone(inner), t, ok);
  }

  lemma PopGrows(l: Local, survivors: seq<Req>, undone: seq<Req>, t: nat, ok: bool)
    requires l.frames != []
    ensures LocalStep(Grown(l.(frames := l.frames + [[]]), survivors, undone), Pop(t, ok)) ==
            Grown(l, if ok then survivors else [], undone + if ok then [] else Reversed(survivors))
  {
    var frames := l.frames;
    var last := |frames| - 1;
    assert [] + survivors == survivors;
    assert (frames + [[]])[|frames| := survivors] == frames + [survivors] && (frames + [survivors])[..|frames|] == frames;
    if ok {
      assert undone + [] == undone;
    } else {
      Regroup(l.undone, undone, Reversed(survivors));
      assert frames[last] + [] == frames[last] && frames[last := frames[last]] == frames;
    }
  }

  // ---------------------------------------------------------------- one thread among others

  /** What other threads do leaves a thread's frames alone. */
  lemma OthersKeep(s: Runtime, e: Event, t: nat)
    requires Enabled(s, e) && t < |s.threads| && !OfThread(e, t)
    ensures |Step(s, e).threads| == |s.threads| && Step(s, e).threads[t] == s.threads[t]
  {
    if e.Release? {
      var u := s.(threads := s.threads[e.t := Thread(None, [])], busy := s.busy - 1);
      AppliedAllFrame(u.(pending := []), u.pending, e.attempts);
    }
  }

  /** The steps of one thread in a run. */
  function Own(es: seq<Event>, t: nat): seq<Event> {
    if es == [] then []
    else Own(es[..|es| - 1], t) + (if OfThread(es[|es| - 1], t) then [es[|es| - 1]] else [])
  }

  function Gained(before: seq<Req>, after: seq<Req>): seq<Req> {
    if before <= after then after[|before|..] else []
  }

  /** The rollback hooks that the steps of one thread have called. */
  function RolledBy(s: Runtime, es: seq<Event>, t: nat): seq<Req>
    requires EnabledRun(s, es)
  {
    if es == [] then []
    else
      var u, e := Run(s, es[..|es| - 1]), es[|es| - 1];
      RolledBy(s, es[..|es| - 1], t) + (if OfThread(e, t) then Gained(u.rolledBack, Step(u, e).rolledBack) else [])
  }

  /** The requests that they have added to the pending list. */
  function PendedBy(s: Runtime, es: seq<Event>, t: nat): seq<Req>
    requires EnabledRun(s, es)
  {
    if es == [] then []
    else
      var u, e := Run(s, es[..|es| - 1]), es[|es| - 1];
      PendedBy(s, es[..|es| - 1], t) + (if OfThread(e, t) then Gained(u.pending, Step(u, e).pending) else [])
  }

  /** In an operation the thread can always go on, and its step depends on its own frames only. */
  lemma OwnStep(s: Runtime, e: Event, t: nat, undone: seq<Req>, pended: seq<Req>)
    requires t < |s.threads| && OfThread(e, t) && !e.Release? && s.threads[t].frames != []
    ensures Enabled(s, e)
    ensures var u, m := Step(s, e), LocalStep(Local(s.threads[t].frames, undone, pended), e);
      && |u.threads| == |s.threads| && u.threads[t] == s.threads[t].(frames := m.frames)
      && m.undone == undone + Gained(s.rolledBack, u.rolledBack) && m.pended == pended + Gained(s.pending, u.pending)
  {
    var frames := s.threads[t].frames;
    var top := frames[|frames| - 1];
    assert s.rolledBack[|s.rolledBack|..] == [] && s.pending[|s.pending|..] == [];
    assert undone + [] == undone && pended + [] == pended;
    assert (s.rolledBack + Reversed(top))[|s.rolledBack|..] == Reversed(top);
    assert (s.pending + top)[|s.pending|..] == top;
  }

  /** Whatever the others do meanwhile, a thread does in a run what it does by itself. */
  lemma {:induction false} Projects(s: Runtime, es: seq<Event>, t: nat, m: Local)
    requires EnabledRun(s, es) && t < |s.threads| && Within(Local(s.threads[t].frames, [], []), Own(es, t), m)
    ensures var u := Run(s, es);
      && |u.threads| == |s.threads| && u.threads[t] == s.threads[t].(frames := m.frames)
      && RolledBy(s, es, t) == m.undone && PendedBy(s, es, t) == m.pended
    decreases |es|
  {
    if es != [] {
      var before, e := es[..|es| - 1], es[|es| - 1];
      var u, l := Run(s, before), Local(s.threads[t].frames, [], []);
      if OfThread(e, t) {
        assert Own(es, t)[..|Own(es, t)| - 1] == Own(before, t);
        var k: Local :| Within(l, Own(before, t), k) && k.frames != [] && !e.Release? && m == LocalStep(k, e);
        Projects(s, before, t, k);
        OwnStep(u, e, t, k.undone, k.pended);
      } else {
        assert Own(es, t) == Own(before, t);
        Projects(s, before, t, m);
        OthersKeep(u, e, t);
        assert RolledBy(s, before, t) + [] == RolledBy(s, before, t) && PendedBy(s, before, t) + [] == PendedBy(s, before, t);
      }
    }
  }

  /** In every run in which the thread does the steps of the body, its open frame gains the survivors, and its steps roll
    * back the rest, innermost first and each frame in reverse. */
  lemma BodyMerges(s: Runtime, es: seq<Event>, t: nat, body: seq<Act>)
    requires EnabledRun(s, es) && t < |s.threads| && s.threads[t].frames != [] && Own(es, t) == Events(t, body)
    ensures var u, frames := Run(s, es), s.threads[t].frames;
      && |u.threads| == |s.threads|
      && u.threads[t] == s.threads[t].(frames := frames[|frames| - 1 := frames[|frames| - 1] + Survivors(body)])
      && RolledBy(s, es, t) == Undone(body) && PendedBy(s, es, t) == []
  {
    var l := Local(s.threads[t].frames, [], []);
    BodyGrows(l, t, body);
    Projects(s, es, t, Grown(l, Survivors(body), Undone(body)));
    assert [] + Undone(body) == Undone(body);
  }

  /** An operation that has begun, in every run in which the thread does the steps of the body and leaves: its survivors go to
    * the pending list if it succeeds, and are rolled back in reverse if it fails. */
  lemma OperationMerges(s: Runtime, es: seq<Event>, t: nat, body: seq<Act>, ok: bool)
    requires EnabledRun(s, es) && t < |s.threads| && s.threads[t].frames == [[]]
    requires Own(es, t) == Events(t, body) + [Pop(t, ok)]
    ensures var u := Run(s, es);
      && |u.threads| == |s.threads| && u.threads[t] == s.threads[t].(frames := [])
      && PendedBy(s, es, t) == (if ok then Survivors(body) else [])
      && RolledBy(s, es, t) == Undone(body) + if ok then [] else Reversed(Survivors(body))
  {
    var l := Local([[]], [], []);
    BodyGrows(l, t, body);
    var full := Grown(l, Survivors(body), Undone(body));
    WithinMore(l, Events(t, body), full, Pop(t, ok));
    assert [] + Survivors(body) == Survivors(body) && [] + Undone(body) == Undone(body) && Undone(body) + [] == Undone(body);
    assert full.frames == [Survivors(body)] && full.frames[..0] == [];
    Projects(s, es, t, LocalStep(full, Pop(t, ok)));
  }

  lemma {:induction false} RunsOn(s: Runtime, a: seq<Event>, b: seq<Event>, t: nat)
    requires EnabledRun(s, a + b)
    ensures EnabledRun(s, a) && EnabledRun(Run(s, a), b) && Run(s, a + b) == Run(Run(s, a), b)
    ensures RolledBy(s, a + b, t) == RolledBy(s, a, t) + RolledBy(Run(s, a), b, t)
    ensures PendedBy(s, a + b, t) == PendedBy(s, a, t) + PendedBy(Run(s, a), b, t)
    decreases |b|
  {
    if b == [] {
      assert a + b == a;
      assert RolledBy(s, a, t) + [] == RolledBy(s, a, t) && PendedBy(s, a, t) + [] == PendedBy(s, a, t);
    } else {
      var front, last := b[..|b| - 1], b[|b| - 1];
      assert (a + b)[..|a + b| - 1] == a + front;
      RunsOn(s, a, front, t);
      var u := Run(Run(s, a), front);
      if OfThread(last, t) {
        Regroup(RolledBy(s, a, t), RolledBy(Run(s, a), front, t), Gained(u.rolledBack, Step(u, last).rolledBack));
        Regroup(PendedBy(s, a, t), PendedBy(Run(s, a), front, t), Gained(u.pending, Step(u, last).pending));
      } else {
        Regroup(RolledBy(s, a, t), RolledBy(Run(s, a), front, t), []);
        Regroup(PendedBy(s, a, t), PendedBy(Run(s, a), front, t), []);
      }
    }
  }

  /** A thread outside any operation, while only others act. */
  lemma {:induction false} OthersRun(s: Runtime, es: seq<Event>, t: nat)
    requires EnabledRun(s, es) && t < |s.threads| && Own(es, t) == []
    ensures |Run(s, es).threads| == |s.threads| && Run(s, es).threads[t] == s.threads[t]
    ensures RolledBy(s, es, t) == [] && PendedBy(s, es, t) == []
    decreases |es|
  {
    if es != [] {
      OthersRun(s, es[..|es| - 1], t);
      OthersKeep(Run(s, es[..|es| - 1]), es[|es| - 1], t);
    }
  }

  /** A whole operation among any steps of the others, before and after it begins: if it was admitted, the thread is left with
    * its pinned registry and no frame, and its steps hand on the survivors or roll everything back. */
  lemma WholeOperation(s: Runtime, before: seq<Event>, refresh: Refresh, es: seq<Event>, t: nat, body: seq<Act>, ok: bool)
    requires t < |s.threads| && s.threads[t] == Thread(None, []) && Own(before, t) == []
    requires EnabledRun(s, before + [Begin(t, refresh)] + es) && Own(es, t) == Events(t, body) + [Pop(t, ok)]
    requires EnabledRun(s, before) && t < |Run(s, before).threads|
    requires Began(Run(s, before), t, refresh).threads[t].frames != []
    ensures var whole := before + [Begin(t, refresh)] + es;
      && |Run(s, whole).threads| == |s.threads|
      && Run(s, whole).threads[t].stage.Some? && Run(s, whole).threads[t].frames == []
      && PendedBy(s, whole, t) == (if ok then Survivors(body) else [])
      && RolledBy(s, whole, t) == Undone(body) + if ok then [] else Reversed(Survivors(body))
  {
    var begun := before + [Begin(t, refresh)];
    RunsOn(s, begun, es, t);
    RunsOn(s, before, [Begin(t, refresh)], t);
    OthersRun(s, before, t);
    var u := Run(s, before);
    assert [Begin(t, refresh)][..0] == [];
    assert begun[..|before|] == before;
    var v := Run(s, begun);
    assert v == Began(u, t, refresh) && v.threads[t].frames == [[]];
    assert RolledBy(s, begun, t) == [] && PendedBy(s, begun, t) == [] by {
      assert v.rolledBack == u.rolledBack && v.pending == u.pending;
    }
    OperationMerges(v, es, t, body, ok);
    assert [] + RolledBy(v, es, t) == RolledBy(v, es, t) && [] + PendedBy(v, es, t) == PendedBy(v, es, t);
  }

  // ---------------------------------------------------------------- the runtime as an object

  class OperationRuntime {
    var threads: seq<Thread>
    var busy: int
    var pending: seq<Req>
    var closing: bool
    var closed: bool
    var generation: nat
    var committed: seq<Req>
    var rolledBack: seq<Req>
    ghost var stranded: seq<Req>

    ghost function View(): Runtime
      reads this
    {
      Runtime(threads, busy, pending, closing, closed, generation, committed, rolledBack, stranded)
    }

    constructor (count: nat)
      ensures View() == Start(count)
    {
      threads := seq(count, i => Thread(None, []));
      busy, pending, closing, closed, generation := 0, [], false, false, 0;
      committed, rolledBack, stranded := [], [], [];
    }

    /** Calls the rollback hooks from the last request to the first; none can stop the others. */
    method CallRollbacks(requests: seq<Req>)
      modifies `rolledBack
      ensures View() == RolledBack(old(View()), requests)
    {
      var i := |requests|;
      assert requests[i..] == [];
      while i > 0
        invariant i <= |requests| && rolledBack == old(rolledBack) + Reversed(requests[i..])
        invariant View() == old(View()).(rolledBack := rolledBack)
      {
        i := i - 1;
        assert requests[i..] == [requests[i]] + requests[i + 1..];
        rolledBack := rolledBack + [requests[i]];
      }
      assert requests[0..] == requests;
    }

    /** Activates one request under the lock. */
    method ApplyRequest(r: Req, verdict: Verdict) returns (failure: Option<Failure>)
      modifies this
      ensures View() == Applied(old(View()), r, verdict)
      ensures failure == if old(closed) then Some(Ordinary) else FailureOf(verdict)
      ensures committed == old(committed) + if !old(closed) && verdict.Activates? then [r] else []
      ensures rolledBack == old(rolledBack) + if old(closed) || verdict.Refuses? then [r] else []
      ensures generation == old(generation) + if !old(closed) && !verdict.Refuses? then 1 else 0
      ensures pending == old(pending) && threads == old(threads)
    {
      assert Reversed([r]) == Reversed([r][1..]) + [r] == [r];
      if closed {
        CallRollbacks([r]);
        return Some(Ordinary);
      }
      match verdict
      case Refuses(reason) =>
        CallRollbacks([r]);
        failure := Some(reason);
      case Activates(committing) =>
        generation := generation + 1;
        committed := committed + [r];
        failure := committing;
      case Breaks(reason) =>
        generation := generation + 1;
        stranded := stranded + [r];
        failure := Some(reason);
    }

    /** Pins the active generation for an outer operation, or opens a nested frame. */
    method BeginOperation(t: nat, refresh: Refresh) returns (ok: bool)
      requires t < |threads|
      modifies this
      ensures View() == Began(old(View()), t, refresh)
      ensures ok <==> threads[t].frames == old(threads[t].frames) + [[]]
      ensures !ok ==> threads == old(threads) && busy == old(busy)
      ensures ok && old(threads[t].frames) == [] ==>
                threads[t] == Thread(Some(generation), [[]]) && busy == old(busy) + 1 && !closed && !closing
    {
      var thread := threads[t];
      if thread.frames != [] {
        threads := threads[t := thread.(frames := thread.frames + [[]])];
        return true;
      }
      if busy == 0 && !closed {
        if refresh.Advanced? || (refresh.Interrupted? && refresh.advanced) { generation := generation + 1; }
      }
      if (refresh.Interrupted? && busy == 0) || closed || closing { return false; }
      busy := busy + 1;
      threads := threads[t := Thread(Some(generation), [[]])];
      ok := true;
    }

    /** Queues within the open frame or until the running operations end, else activates at once. */
    method RequestReload(t: nat, r: Req, verdict: Verdict) returns (now: bool)
      requires t < |threads|
      modifies this
      ensures View() == Requested(old(View()), t, r, verdict)
      ensures now <==> old(threads[t].frames == [] && busy == 0)
      ensures !now ==> committed == old(committed) && rolledBack == old(rolledBack) && generation == old(generation)
      ensures now ==> threads == old(threads) && pending == old(pending)
      ensures now ==> committed == old(committed) + if !old(closed) && verdict.Activates? then [r] else []
      ensures now ==> rolledBack == old(rolledBack) + if old(closed) || verdict.Refuses? then [r] else []
    {
      var frames := threads[t].frames;
      if frames != [] {
        threads := threads[t := threads[t].(frames := frames[|frames| - 1 := frames[|frames| - 1] + [r]])];
        return false;
      }
      if busy != 0 {
        pending := pending + [r];
        return false;
      }
      var _ := ApplyRequest(r, verdict);
      now := true;
    }

    method PopFrame(t: nat, ok: bool)
      requires t < |threads| && threads[t].frames != []
      modifies this
      ensures View() == Popped(old(View()), t, ok)
    {
      var thread := threads[t];
      var rest, top := thread.frames[..|thread.frames| - 1], thread.frames[|thread.frames| - 1];
      threads := threads[t := thread.(frames := rest)];
      if !ok {
        CallRollbacks(top);
      } else if rest != [] {
        threads := threads[t := thread.(frames := rest[|rest| - 1 := rest[|rest| - 1] + top])];
      } else {
        pending := pending + top;
      }
    }

    method CloseRuntime()
      modifies this
      ensures View() == ClosedWhenIdle(old(View()))
      ensures if old(closed || busy == 0) then closed && busy == old(busy) else closing && closed == old(closed)
    {
      if closed { return; }
      if busy != 0 { closing := true; return; }
      closed := true;
      var left := pending;
      pending := [];
      CallRollbacks(left);
    }

    /** The last operation to leave closes the runtime or works through the pending requests. */
    method ReleaseOperation(t: nat, attempts: seq<Attempt>) returns (escaped: bool)
      requires t < |threads| && |attempts| == |pending|
      modifies this
      ensures View() == Released(old(View()), t, attempts)
    {
      threads := threads[t := Thread(None, [])];
      busy := busy - 1;
      if busy != 0 { return false; }
      if closing {
        CloseRuntime();
        return false;
      }
      var left := pending;
      pending := [];
      escaped := ActivatePending(left, attempts);
    }

    /** One request after the other; whatever leaves the loop leaves the rest behind. */
    method ActivatePending(requests: seq<Req>, attempts: seq<Attempt>) returns (escaped: bool)
      requires |attempts| == |requests|
      modifies this
      ensures View() == AppliedAll(old(View()), requests, attempts)
      ensures !old(closed) ==>
                && committed == old(committed) + Getting(CommitHook, requests[..Reached(attempts)], attempts)
                && rolledBack == old(rolledBack) + Getting(RollbackHook, requests[..Reached(attempts)], attempts)
    {
      if !closed { LoopCalls(View(), requests, attempts); }
      var i := 0;
      assert requests[0..] == requests && attempts[0..] == attempts;
      while i < |requests|
        invariant i <= |requests|
        invariant AppliedAll(View(), requests[i..], attempts[i..]) == AppliedAll(old(View()), requests, attempts)
      {
        assert requests[i..][0] == requests[i] && requests[i..][1..] == requests[i + 1..];
        assert attempts[i..][0] == attempts[i] && attempts[i..][1..] == attempts[i + 1..];
        var _ := ApplyRequest(requests[i], attempts[i].verdict);
        i := i + 1;
        if Escapes(attempts[i - 1]) {
          stranded := stranded + requests[i..];
          return true;
        }
      }
      escaped := false;
    }
  }
}
