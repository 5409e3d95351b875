/** Auto-reset and manual-reset events: sequential histories, any interleaving of callers, and the class itself. */
module Events {

  // ----- sequential histories -----

  /** What callers did to an event, in the order in which it took effect. */
  datatype Entry = DidSet | DidReset | Took(who: nat) | GaveUp(who: nat)

  /** Whether an event is signaled after e, given whether it was before. */
  function After(manual: bool, was: bool, e: Entry): bool {
    match e
    case DidSet => true
    case DidReset => false
    case Took(_) => manual && was
    case GaveUp(_) => was
  }

  /** Whether the event is signaled after a history. */
  function Signaled(manual: bool, initially: bool, log: seq<Entry>): bool
    decreases |log|
  {
    if log == [] then initially
    else After(manual, Signaled(manual, initially, log[..|log| - 1]), log[|log| - 1])
  }

  /** Every wait that succeeded found the event signaled. */
  ghost predicate Legal(manual: bool, initially: bool, log: seq<Entry>) {
    forall i :: 0 <= i < |log| && log[i].Took? ==> Signaled(manual, initially, log[..i])
  }

  function CountSets(log: seq<Entry>): nat {
    if log == [] then 0 else CountSets(log[..|log| - 1]) + if log[|log| - 1].DidSet? then 1 else 0
  }

  function CountTakes(log: seq<Entry>): nat {
    if log == [] then 0 else CountTakes(log[..|log| - 1]) + if log[|log| - 1].Took? then 1 else 0
  }

  lemma LegalPrefix(manual: bool, initially: bool, log: seq<Entry>, n: nat)
    requires Legal(manual, initially, log) && n <= |log|
    ensures Legal(manual, initially, log[..n])
  {
    forall i | 0 <= i < n && log[..n][i].Took?
      ensures Signaled(manual, initially, log[..n][..i])
    {
      assert log[..n][..i] == log[..i];
    }
  }

  lemma LegalOneMore(manual: bool, initially: bool, log: seq<Entry>, e: Entry)
    requires Legal(manual, initially, log) && (e.Took? ==> Signaled(manual, initially, log))
    ensures Legal(manual, initially, log + [e])
    ensures Signaled(manual, initially, log + [e]) == After(manual, Signaled(manual, initially, log), e)
  {
    assert (log + [e])[..|log|] == log;
    forall i | 0 <= i < |log + [e]| && (log + [e])[i].Took?
      ensures Signaled(manual, initially, (log + [e])[..i])
    {
      assert (log + [e])[..i] == log[..i];
      assert log[..|log|] == log;
    }
  }

  /** An auto-reset event hands out no more successes than it got signals, and keeps the one left over. */
  lemma {:induction false} SignalsAreConserved(initially: bool, log: seq<Entry>)
    requires Legal(false, initially, log)
    ensures CountTakes(log) + (if Signaled(false, initially, log) then 1 else 0) <=
            CountSets(log) + (if initially then 1 else 0)
    decreases |log|
  {
    if log != [] {
      LegalPrefix(false, initially, log, |log| - 1);
      SignalsAreConserved(initially, log[..|log| - 1]);
    }
  }

  /** What is not signaled after i and signaled before j was set in between. */
  lemma {:induction false} SignaledAgain(manual: bool, initially: bool, log: seq<Entry>, i: nat, j: nat)
    requires i <= j <= |log| && !Signaled(manual, initially, log[..i]) && Signaled(manual, initially, log[..j])
    ensures exists k :: i <= k < j && log[k] == DidSet
    decreases j
  {
    assert i < j;
    assert log[..j][..j - 1] == log[..j - 1];
    if log[j - 1] != DidSet {
      SignaledAgain(manual, initially, log, i, j - 1);
    }
  }

  /** Between two successful waits on an auto-reset event there is a Set. */
  lemma SetBetweenSuccesses(initially: bool, log: seq<Entry>, i: nat, j: nat)
    requires Legal(false, initially, log) && i < j < |log| && log[i].Took? && log[j].Took?
    ensures exists k :: i < k < j && log[k] == DidSet
  {
    assert !Signaled(false, initially, log[..i + 1]);
    SignaledAgain(false, initially, log, i + 1, j);
  }

  /** Once set, a manual-reset event stays signaled, whoever waits, until a Reset. */
  lemma {:induction false} ManualStaysSignaled(initially: bool, log: seq<Entry>, i: nat, j: nat)
    requires i < j <= |log| && log[i] == DidSet
    requires forall k :: i < k < j ==> log[k] != DidReset
    ensures Signaled(true, initially, log[..j])
    decreases j
  {
    if i + 1 < j {
      ManualStaysSignaled(initially, log, i, j - 1);
      assert log[..j][..j - 1] == log[..j - 1];
    }
  }

  /** A wait that gave up consumed and lost nothing: without it the history ends in the same state. */
  lemma {:induction false} GivingUpChangesNothing(manual: bool, initially: bool,
                                                  before: seq<Entry>, who: nat, later: seq<Entry>)
    ensures Signaled(manual, initially, before + [GaveUp(who)] + later) == Signaled(manual, initially, before + later)
    decreases |later|
  {
    var l, r := before + [GaveUp(who)] + later, before + later;
    if later == [] {
      assert l[..|l| - 1] == before && r == before;
    } else {
      GivingUpChangesNothing(manual, initially, before, who, later[..|later| - 1]);
      assert l[..|l| - 1] == before + [GaveUp(who)] + later[..|later| - 1];
      assert r[..|r| - 1] == before + later[..|later| - 1];
    }
  }

  // ----- any number of callers -----

  datatype Call = SetCall | ResetCall | WaitCall(timed: bool)

  /** Where a thread stands. */
  datatype Pc =
    | Outside
    | Wants(call: Call)      // waits for the mutex
    | Owns(call: Call)       // holds it; a waiter is at its loop condition
    | Stored                 // Set: the status is true, the broadcast is still to come
    | Sleeping(timed: bool)  // inside pthread_cond_wait or pthread_cond_timedwait
    | Woken(timed: bool)     // woken there, waits for the mutex
    | TimingOut              // pthread_cond_timedwait failed, waits for the mutex
    | Leaving                // about to release the mutex

  datatype Owner = Free | By(t: nat)

  datatype State = State(
    manual: bool,
    initially: bool,
    status: bool,
    mutex: Owner,
    threads: map<nat, Pc>,
    log: seq<Entry>)

  function PcOf(s: State, t: nat): Pc {
    if t in s.threads then s.threads[t] else Outside
  }

  function At(s: State, t: nat, pc: Pc): State {
    s.(threads := s.threads[t := pc])
  }

  predicate InSection(pc: Pc) {
    pc.Owns? || pc.Stored? || pc.Leaving?
  }

  /** One step of one thread. WakeUp is spurious; only Set's broadcast wakes everybody. */
  datatype Step =
    | Begin(t: nat, call: Call)
    | Lock(t: nat)
    | Run(t: nat)
    | WakeUp(t: nat)
    | GiveUp(t: nat)
    | Unlock(t: nat)

  predicate Enabled(s: State, step: Step) {
    var pc := PcOf(s, step.t);
    match step
    case Begin(_, _) => pc.Outside?
    case Lock(_) => s.mutex.Free? && (pc.Wants? || pc.Woken? || pc.TimingOut?)
    case Run(_) => pc.Owns? || pc.Stored?
    case WakeUp(_) => pc.Sleeping?
    case GiveUp(_) => (pc.Sleeping? || pc.Woken?) && pc.timed
    case Unlock(_) => pc.Leaving?
  }

  /** pthread_cond_broadcast. */
  function Awake(threads: map<nat, Pc>): map<nat, Pc> {
    map t | t in threads :: if threads[t].Sleeping? then Woken(threads[t].timed) else threads[t]
  }

  function RunStep(s: State, t: nat): State {
    match PcOf(s, t)
    case Stored => At(s.(threads := Awake(s.threads)), t, Leaving)
    case Owns(SetCall) => At(s.(status := true, log := s.log + [DidSet]), t, Stored)
    case Owns(ResetCall) => At(s.(status := false, log := s.log + [DidReset]), t, Leaving)
    case Owns(WaitCall(timed)) =>
      if s.status then At(s.(status := s.manual, log := s.log + [Took(t)]), t, Leaving)
      else At(s.(mutex := Free), t, Sleeping(timed))
    case _ => s
  }

  function Apply(s: State, step: Step): State {
    match step
    case Begin(t, call) => At(s, t, Wants(call))
    case Lock(t) =>
      (match PcOf(s, t)
       case Wants(call) => At(s.(mutex := By(t)), t, Owns(call))
       case Woken(timed) => At(s.(mutex := By(t)), t, Owns(WaitCall(timed)))
       case TimingOut => At(s.(mutex := By(t), log := s.log + [GaveUp(t)]), t, Leaving)
       case _ => s)
    case Run(t) => RunStep(s, t)
    case WakeUp(t) => At(s, t, if PcOf(s, t).Sleeping? then Woken(PcOf(s, t).timed) else PcOf(s, t))
    case GiveUp(t) => At(s, t, TimingOut)
    case Unlock(t) => At(s.(mutex := Free), t, Outside)
  }

  predicate Init(s: State) {
    s.status == s.initially && s.mutex == Free && s.threads == map[] && s.log == []
  }

  /** One more state than steps; consecutive states are related by the step between them. */
  ghost predicate IsRun(states: seq<State>, steps: seq<Step>) {
    && |states| == |steps| + 1 && Init(states[0])
    && forall i {:trigger steps[i]} :: 0 <= i < |steps| ==>
         Enabled(states[i], steps[i]) && states[i + 1] == Apply(states[i], steps[i])
  }

  // ----- invariants -----

  ghost predicate MutexOk(s: State) {
    && (forall t :: t in s.threads && InSection(s.threads[t]) ==> s.mutex == By(t))
    && (s.mutex.By? ==> InSection(PcOf(s, s.mutex.t)))
  }

  /** The order in which callers held the mutex is a sequential history that explains every result. */
  ghost predicate HistoryOk(s: State) {
    s.status == Signaled(s.manual, s.initially, s.log) && Legal(s.manual, s.initially, s.log)
  }

  /** Nobody sleeps on a signaled event, but for the moment between Set's store and its broadcast. */
  ghost predicate SleepersOk(s: State) {
    s.status && !(s.mutex.By? && PcOf(s, s.mutex.t).Stored?) ==>
      forall t :: t in s.threads ==> !s.threads[t].Sleeping?
  }

  ghost predicate Ok(s: State) {
    MutexOk(s) && HistoryOk(s) && SleepersOk(s)
  }

  /** A step that changes the status or yields a result logs one entry that explains it; no other step does. */
  lemma StepLogs(s: State, step: Step) returns (e: Entry)
    requires Enabled(s, step)
    ensures var s' := Apply(s, step);
            && s'.manual == s.manual && s'.initially == s.initially
            && (|| (s'.log == s.log && s'.status == s.status)
                || (s'.log == s.log + [e] && s'.status == After(s.manual, s.status, e) && (e.Took? ==> s.status)))
  {
    match PcOf(s, step.t)
    case Owns(SetCall) => e := DidSet;
    case Owns(ResetCall) => e := DidReset;
    case Owns(WaitCall(_)) => e := Took(step.t);
    case _ => e := GaveUp(step.t);
  }

  lemma HistoryKept(s: State, step: Step)
    requires HistoryOk(s) && Enabled(s, step)
    ensures HistoryOk(Apply(s, step))
  {
    var e := StepLogs(s, step);
    if e.Took? ==> s.status {
      LegalOneMore(s.manual, s.initially, s.log, e);
    }
  }

  lemma SectionKept(s: State, step: Step)
    requires MutexOk(s) && SleepersOk(s) && Enabled(s, step)
    ensures MutexOk(Apply(s, step)) && SleepersOk(Apply(s, step))
  {
  }

  lemma {:induction false} RunIsOk(states: seq<State>, steps: seq<Step>, n: nat)
    requires IsRun(states, steps) && n < |states|
    ensures Ok(states[n])
    ensures states[n].manual == states[0].manual && states[n].initially == states[0].initially
    decreases n
  {
    if n > 0 {
      RunIsOk(states, steps, n - 1);
      HistoryKept(states[n - 1], steps[n - 1]);
      SectionKept(states[n - 1], steps[n - 1]);
    }
  }

  // ----- results -----

  /**
   At every moment of every run of an auto-reset event, with any number of waiters: successes never exceed the
   signals, there is a Set between any two of them, and a signal that nobody took is still there.
   */
  lemma AutoResetConserves(states: seq<State>, steps: seq<Step>, n: nat)
    requires IsRun(states, steps) && n < |states| && !states[0].manual
    ensures var s := states[n];
            && CountTakes(s.log) + (if s.status then 1 else 0) <= CountSets(s.log) + (if s.initially then 1 else 0)
            && forall i, j :: 0 <= i < j < |s.log| && s.log[i].Took? && s.log[j].Took? ==>
                 exists k :: i < k < j && s.log[k] == DidSet
  {
    RunIsOk(states, steps, n);
    var s := states[n];
    SignalsAreConserved(s.initially, s.log);
    forall i, j | 0 <= i < j < |s.log| && s.log[i].Took? && s.log[j].Took?
      ensures exists k :: i < k < j && s.log[k] == DidSet
    {
      SetBetweenSuccesses(s.initially, s.log, i, j);
    }
  }

  /** At every moment of every run of a manual-reset event: after a Set, the status stays true until a Reset. */
  lemma ManualResetPersists(states: seq<State>, steps: seq<Step>, n: nat, i: nat)
    requires IsRun(states, steps) && n < |states| && states[0].manual
    requires i < |states[n].log| && states[n].log[i] == DidSet
    requires forall k :: i < k < |states[n].log| ==> states[n].log[k] != DidReset
    ensures states[n].status
  {
    RunIsOk(states, steps, n);
    var s := states[n];
    ManualStaysSignaled(s.initially, s.log, i, |s.log|);
    assert s.log[..|s.log|] == s.log;
  }

  /** A step that makes a wait give up leaves the status as it is, and so does the waiter until it is out. */
  lemma GivingUpKeepsStatus(s: State, t: nat)
    requires Enabled(s, Lock(t)) && PcOf(s, t) == TimingOut
    ensures var s1 := Apply(s, Lock(t));
            && s1.status == s.status && s1.log == s.log + [GaveUp(t)]
            && Enabled(s1, Unlock(t)) && !Enabled(s1, Run(t)) && Apply(s1, Unlock(t)).status == s.status
  {
  }

  /** At every moment of every run: when the mutex is free and the event signaled, no waiter sleeps. */
  lemma NoSleeperMissesSet(states: seq<State>, steps: seq<Step>, n: nat, t: nat)
    requires IsRun(states, steps) && n < |states| && states[n].mutex.Free? && states[n].status
    ensures !PcOf(states[n], t).Sleeping?
  {
    RunIsOk(states, steps, n);
  }

  // ----- calls and their entries -----

  /** What a call of thread t may leave in the history. */
  predicate Answers(call: Call, t: nat, e: Entry) {
    match call
    case SetCall => e == DidSet
    case ResetCall => e == DidReset
    case WaitCall(timed) => e == Took(t) || (timed && e == GaveUp(t))
  }

  /** What the steps of thread t from the b-th on, up to the n-th, left in the history. */
  function OwnEntries(states: seq<State>, steps: seq<Step>, t: nat, b: nat, n: nat): seq<Entry>
    requires b <= n <= |steps| < |states|
    decreases n
  {
    if n == b then []
    else OwnEntries(states, steps, t, b, n - 1) + if steps[n - 1].t == t then Added(states[n - 1], states[n]) else []
  }

  function Added(s: State, s': State): seq<Entry> {
    if |s.log| <= |s'.log| then s'.log[|s.log|..] else []
  }

  /** Where a thread stands in a call tells which entry the call has left. */
  predicate CallStands(pc: Pc, call: Call, t: nat, own: seq<Entry>) {
    match pc
    case Wants(c) => c == call && own == []
    case Owns(c) => c == call && own == []
    case Sleeping(timed) => call == WaitCall(timed) && own == []
    case Woken(timed) => call == WaitCall(timed) && own == []
    case TimingOut => call == WaitCall(true) && own == []
    case Stored => call == SetCall && own == [DidSet]
    case Leaving => |own| == 1 && Answers(call, t, own[0])
    case Outside => |own| == 1 && Answers(call, t, own[0])
  }

  lemma CallKept(s: State, step: Step, t: nat, call: Call, own: seq<Entry>)
    requires Enabled(s, step) && CallStands(PcOf(s, t), call, t, own) && !(step.Begin? && step.t == t)
    ensures CallStands(PcOf(Apply(s, step), t), call, t, own + if step.t == t then Added(s, Apply(s, step)) else [])
  {
    if step.t == t {
      StepOfCaller(s, step, call, own);
    } else {
      assert own + [] == own;
    }
  }

  lemma StepOfCaller(s: State, step: Step, call: Call, own: seq<Entry>)
    requires Enabled(s, step) && CallStands(PcOf(s, step.t), call, step.t, own) && !step.Begin?
    ensures CallStands(PcOf(Apply(s, step), step.t), call, step.t, own + Added(s, Apply(s, step)))
  {
    var e := StepLogs(s, step);
    var added := Added(s, Apply(s, step));
    assert added == [] || added == [e];
    assert own + [] == own && [] + added == added;
  }

  /**
   Over every run, whatever the others do: a call leaves exactly one entry, the one it should, by the time it returns.
   Set leaves DidSet, Reset leaves DidReset, Wait its caller's Took or, if it has a limit, GaveUp.
   */
  lemma {:induction false} EveryCallIsAnswered(states: seq<State>, steps: seq<Step>, b: nat, n: nat)
    requires IsRun(states, steps) && b < n <= |steps| && steps[b].Begin?
    requires forall k :: b < k < n ==> !(steps[k].Begin? && steps[k].t == steps[b].t)
    ensures CallStands(PcOf(states[n], steps[b].t), steps[b].call, steps[b].t,
                       OwnEntries(states, steps, steps[b].t, b, n))
    decreases n
  {
    var t := steps[b].t;
    if n == b + 1 {
      assert OwnEntries(states, steps, t, b, b) == [];
      assert Enabled(states[b], steps[b]) && states[b + 1] == Apply(states[b], steps[b]);
    } else {
      EveryCallIsAnswered(states, steps, b, n - 1);
      CallKept(states[n - 1], steps[n - 1], t, steps[b].call, OwnEntries(states, steps, t, b, n - 1));
    }
  }

  /** A thread inside a call that does not sleep is never stuck: it, or who holds the mutex, can take a step. */
  lemma SomebodyGoesOn(states: seq<State>, steps: seq<Step>, n: nat, t: nat)
    requires IsRun(states, steps) && n < |states|
    requires var pc := PcOf(states[n], t); !pc.Outside? && !pc.Sleeping?
    ensures var s := states[n];
            var u := if s.mutex.By? then s.mutex.t else t;
            Enabled(s, Lock(u)) || Enabled(s, Run(u)) || Enabled(s, Unlock(u))
  {
    RunIsOk(states, steps, n);
  }

  // ----- the class -----

  /** What other threads do while a waiter sleeps; a take is somebody else's successful wait. */
  datatype Act = DoSet | DoReset | DoTake(who: nat)

  /** One return from the condition variable: what happened meanwhile, and whether it failed. */
  datatype Sleep = Sleep(acts: seq<Act>, failed: bool)

  datatype WaitResult = Succeeded | TimedOut | StillAsleep

  /** The history after others' acts; a wait of theirs that finds the event unsignaled leaves nothing. */
  function WithActs(manual: bool, initially: bool, log: seq<Entry>, acts: seq<Act>): seq<Entry>
    decreases |acts|
  {
    if acts == [] then log
    else
      var before := WithActs(manual, initially, log, acts[..|acts| - 1]);
      match acts[|acts| - 1]
      case DoSet => before + [DidSet]
      case DoReset => before + [DidReset]
      case DoTake(who) => if Signaled(manual, initially, before) then before + [Took(who)] else before
  }

  /** The history after the first k sleeps. */
  function AfterSleeps(manual: bool, initially: bool, log: seq<Entry>, sleeps: seq<Sleep>, k: nat): seq<Entry>
    requires k <= |sleeps|
  {
    if k == 0 then log
    else WithActs(manual, initially, AfterSleeps(manual, initially, log, sleeps, k - 1), sleeps[k - 1].acts)
  }

  predicate SignaledAfter(manual: bool, initially: bool, log: seq<Entry>, sleeps: seq<Sleep>, k: nat)
    requires k <= |sleeps|
  {
    Signaled(manual, initially, AfterSleeps(manual, initially, log, sleeps, k))
  }

  /**
   The wait slept `used` times. It was not signaled before any of the sleeps, and none but the last failed; the result
   says whether the last did, and whether the event is signaled then.
   */
  ghost predicate WaitEnds(manual: bool, initially: bool, log: seq<Entry>, sleeps: seq<Sleep>,
                           used: nat, r: WaitResult) {
    && used <= |sleeps|
    && (forall k :: 0 <= k < used ==> !SignaledAfter(manual, initially, log, sleeps, k))
    && (forall k :: 0 <= k < used && sleeps[k].failed ==> k == used - 1 && r.TimedOut?)
    && match r
       case TimedOut => 0 < used && sleeps[used - 1].failed
       case Succeeded => SignaledAfter(manual, initially, log, sleeps, used)
       case StillAsleep => used == |sleeps| && !SignaledAfter(manual, initially, log, sleeps, used)
  }

  /** It is determined: how often a wait sleeps, and what it returns. */
  lemma WaitEndsInOneWay(manual: bool, initially: bool, log: seq<Entry>, sleeps: seq<Sleep>,
                         used: nat, r: WaitResult, used': nat, r': WaitResult)
    requires WaitEnds(manual, initially, log, sleeps, used, r) && WaitEnds(manual, initially, log, sleeps, used', r')
    ensures used == used' && r == r'
  {
    EndsNoLater(manual, initially, log, sleeps, used, r, used', r');
    EndsNoLater(manual, initially, log, sleeps, used', r', used, r);
  }

  lemma EndsNoLater(manual: bool, initially: bool, log: seq<Entry>, sleeps: seq<Sleep>,
                    used: nat, r: WaitResult, used': nat, r': WaitResult)
    requires WaitEnds(manual, initially, log, sleeps, used, r) && WaitEnds(manual, initially, log, sleeps, used', r')
    ensures used' <= used
  {
    assert r.TimedOut? ==> sleeps[used - 1].failed;
    assert r.Succeeded? ==> SignaledAfter(manual, initially, log, sleeps, used);
  }

  /** The first n sleeps did not end the wait, but for the last if the event is signaled after it. */
  ghost predicate SleptOn(manual: bool, initially: bool, log: seq<Entry>, sleeps: seq<Sleep>, n: nat) {
    n <= |sleeps| && forall k :: 0 <= k < n ==>
      !sleeps[k].failed && !SignaledAfter(manual, initially, log, sleeps, k)
  }

  lemma SignaledEnds(manual: bool, initially: bool, log: seq<Entry>, sleeps: seq<Sleep>, n: nat)
    requires SleptOn(manual, initially, log, sleeps, n) && SignaledAfter(manual, initially, log, sleeps, n)
    ensures WaitEnds(manual, initially, log, sleeps, n, Succeeded)
  {
  }

  lemma SleepMore(manual: bool, initially: bool, log: seq<Entry>, sleeps: seq<Sleep>, n: nat)
    requires SleptOn(manual, initially, log, sleeps, n) && !SignaledAfter(manual, initially, log, sleeps, n)
    ensures n == |sleeps| ==> WaitEnds(manual, initially, log, sleeps, n, StillAsleep)
    ensures n < |sleeps| ==>
              if sleeps[n].failed then WaitEnds(manual, initially, log, sleeps, n + 1, TimedOut)
              else SleptOn(manual, initially, log, sleeps, n + 1)
  {
  }

  /** A Set that nobody undoes before the sleeper looks ends the wait at the latest there, unless that sleep fails. */
  lemma SetEndsTheWait(manual: bool, initially: bool, log: seq<Entry>, sleeps: seq<Sleep>,
                       used: nat, r: WaitResult, k: nat)
    requires WaitEnds(manual, initially, log, sleeps, used, r) && k < |sleeps|
    requires var acts := sleeps[k].acts; acts != [] && acts[|acts| - 1] == DoSet
    ensures used <= k + 1 && !r.StillAsleep?
    ensures used == k + 1 ==> r == if sleeps[k].failed then TimedOut else Succeeded
  {
    assert SignaledAfter(manual, initially, log, sleeps, k + 1);
  }

  class Event {
    const manualReset: bool
    ghost const initially: bool
    var status: bool
    ghost var log: seq<Entry>

    constructor (manualReset: bool, initiallySignaled: bool)
      ensures Valid() && this.manualReset == manualReset && initially == initiallySignaled && log == []
    {
      this.manualReset, initially, status, log := manualReset, initiallySignaled, initiallySignaled, [];
    }

    ghost predicate Valid()
      reads this
    {
      status == Signaled(manualReset, initially, log) && Legal(manualReset, initially, log)
    }

    ghost method Record(e: Entry)
      requires Legal(manualReset, initially, log) && (e.Took? ==> Signaled(manualReset, initially, log))
      modifies this`log
      ensures log == old(log) + [e] && Legal(manualReset, initially, log)
      ensures Signaled(manualReset, initially, log) == After(manualReset, old(Signaled(manualReset, initially, log)), e)
      ensures log[..|log| - 1] == old(log)
    {
      LegalOneMore(manualReset, initially, log, e);
      log := log + [e];
    }

    method Set()
      requires Valid()
      modifies this
      ensures Valid() && status && log == old(log) + [DidSet]
    {
      Record(DidSet);
      status := true;
    }

    method Reset()
      requires Valid()
      modifies this
      ensures Valid() && !status && log == old(log) + [DidReset]
    {
      Record(DidReset);
      status := false;
    }

    /** What follows the loop of Wait. */
    method Take(who: nat)
      requires Valid() && status
      modifies this
      ensures Valid() && status == manualReset && log == old(log) + [Took(who)]
    {
      Record(Took(who));
      if !manualReset {
        status := false;
      }
    }

    method Others(acts: seq<Act>)
      requires Valid()
      modifies this
      ensures Valid() && log == WithActs(manualReset, initially, old(log), acts)
    {
      for n := 0 to |acts|
        invariant Valid() && log == WithActs(manualReset, initially, old(log), acts[..n])
      {
        assert acts[..n + 1][..n] == acts[..n];
        match acts[n]
        case DoSet => Set();
        case DoReset => Reset();
        case DoTake(who) => if status { Take(who); }
      }
      assert acts[..|acts|] == acts;
    }

    /** The history is what the first k sleeps made of the one before. */
    ghost predicate Slept(before: seq<Entry>, sleeps: seq<Sleep>, k: nat)
      reads this
    {
      k <= |sleeps| && log == AfterSleeps(manualReset, initially, before, sleeps, k)
    }

    /** One return from the condition variable. */
    method SleepOnce(ghost before: seq<Entry>, sleeps: seq<Sleep>, n: nat)
      requires Valid() && Slept(before, sleeps, n) && n < |sleeps|
      modifies this
      ensures Valid() && Slept(before, sleeps, n + 1)
    {
      Others(sleeps[n].acts);
    }

    lemma StatusTells(before: seq<Entry>, sleeps: seq<Sleep>, n: nat)
      requires Valid() && Slept(before, sleeps, n)
      ensures status == SignaledAfter(manualReset, initially, before, sleeps, n)
    {
    }

    /** The loop of Wait: it sleeps until the event is signaled or a sleep fails. */
    method SleepUntil(sleeps: seq<Sleep>) returns (r: WaitResult, ghost used: nat)
      requires Valid()
      modifies this
      ensures Valid() && WaitEnds(manualReset, initially, old(log), sleeps, used, r) && Slept(old(log), sleeps, used)
    {
      ghost var before := log;
      r, used := Succeeded, 0;
      var n := 0;
      while !status
        invariant Valid() && r == Succeeded && used == n
        invariant Slept(before, sleeps, n) && SleptOn(manualReset, initially, before, sleeps, n)
        decreases |sleeps| - n
      {
        StatusTells(before, sleeps, n);
        SleepMore(manualReset, initially, before, sleeps, n);
        if n == |sleeps| {
          r := StillAsleep;
          break;
        }
        SleepOnce(before, sleeps, n);
        used := n + 1;
        if sleeps[n].failed {
          r := TimedOut;
          break;
        }
        n := n + 1;
      }
      if r == Succeeded {
        StatusTells(before, sleeps, n);
        SignaledEnds(manualReset, initially, before, sleeps, n);
      }
    }

    /** Wait(give_up_after); without failures among the sleeps it is Wait(). The caller's own entry comes last. */
    method Wait(who: nat, sleeps: seq<Sleep>) returns (r: WaitResult, ghost used: nat)
      requires Valid()
      modifies this
      ensures Valid() && WaitEnds(manualReset, initially, old(log), sleeps, used, r)
      ensures var slept := AfterSleeps(manualReset, initially, old(log), sleeps, used);
              match r
              case Succeeded => log == slept + [Took(who)] && status == manualReset
              case TimedOut => log == slept + [GaveUp(who)] && status == Signaled(manualReset, initially, slept)
              case StillAsleep => log == slept && !status
      ensures old(status) ==> used == 0 && r.Succeeded?
    {
      r, used := SleepUntil(sleeps);
      StatusTells(old(log), sleeps, used);
      match r {
        case Succeeded => Take(who);
        case TimedOut => Record(GaveUp(who));
        case StillAsleep =>
      }
      assert old(status) ==> SignaledAfter(manualReset, initially, old(log), sleeps, 0);
    }
  }
}
