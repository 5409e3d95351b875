/** What a wait does with what the kernel reports, round by round: which rounds it consumes, and which one ends it. */
module ReactorWaits {
  import opened ReactorModel
  import opened ReactorRegistry
  import opened ReactorEvents
  import opened ReactorSelect
  import TaskQueues

  /** Why a wait returned: only Failed means false. When the rounds run out it is StillWaiting. */
  datatype WaitEnd = Woken | TimedOut | Failed | StillWaiting

  // ----- the wake-up -----

  /** The report makes ProcessEvents call OnEvent of the Signaler. */
  predicate Tells(r: Report) {
    r.readable || r.writable || IsFailed(r)
  }

  lemma SignalerHears(w: World, r: Report)
    requires SignalerRegistered(w)
    ensures EventFlags(w, 0, r) != 0 <==> Tells(r)
  {
    assert DE_READ & DE_ACCEPT == 0 && DE_READ & DE_CONNECT == 0;
  }

  /** An event of the wake-up descriptor. */
  predicate IsWakeUp(e: Event) {
    e.key == 0 && Tells(e.report)
  }

  /** Only the wake-up lowers flag_wait_, and nothing that slots do raises it. */
  lemma EventLowersFlagIff(w: World, e: Event)
    requires Consistent(w) && Calm(w)
    ensures DeliverEvent(w, e).flagWait == (w.flagWait && !IsWakeUp(e))
  {
    if e.key in w.byKey {
      var i := w.byKey[e.key];
      assert i in w.keyOf && (i == 0 <==> e.key == 0);
      SignalerHears(w, e.report);
      OthersKeepFlag(w, e.key, i, e.report, e.handlers);
    } else {
      assert e.key != 0;
    }
  }

  lemma OthersKeepFlag(w: World, key: nat, i: nat, r: Report, h: Handlers)
    requires Consistent(w) && Calm(w) && i in w.keyOf && i < |w.socks|
    ensures i != 0 ==> ProcessEvents(w, key, i, r, h).flagWait == w.flagWait
    ensures i == 0 ==> ProcessEvents(w, key, i, r, h).flagWait == (w.flagWait && EventFlags(w, i, r) == 0)
  {
    var ff := EventFlags(w, i, r);
    if ff != 0 && i != 0 {
      var logged := w.(hist := w.hist.(delivered := w.hist.delivered + [(key, i, ff)]));
      LoggedServes(w, logged);
      OnEventKeeps(logged, i, ff, h);
    }
  }

  /** After a pass the flag is down exactly if it was before, or the pass had the wake-up in it, wherever. */
  lemma {:induction false} PassLowersFlagIff(w: World, events: seq<Event>)
    requires Consistent(w) && Calm(w)
    ensures ProcessBatch(w, events).flagWait <==> w.flagWait && forall e :: e in events ==> !IsWakeUp(e)
    decreases |events|
  {
    if events != [] {
      var before, last := events[..|events| - 1], events[|events| - 1];
      PassLowersFlagIff(w, before);
      BatchServes(w, before);
      EventLowersFlagIff(ProcessBatch(w, before), last);
      assert forall e :: e in events <==> e in before || e == last;
    }
  }

  // ----- WaitEpoll -----

  /** What one call of epoll_wait yields, and the clock in microseconds after it. */
  datatype EpollRound = PollFailed | Interrupted(nowUs: int) | NoneReported | Reported(events: seq<Event>, nowUs: int)

  /** The milliseconds at which to stop, compared with a clock in microseconds. */
  predicate RunOut(r: EpollRound, cmsWait: int, startMs: int) {
    cmsWait != -1 && ReadsClock(r) && startMs + cmsWait - r.nowUs <= 0
  }

  /** The passes over what the rounds report, in order. */
  function PassesOf(rounds: seq<EpollRound>): seq<Move>
    decreases |rounds|
  {
    if rounds == [] then []
    else
      PassesOf(rounds[..|rounds| - 1]) + PassOf(rounds[|rounds| - 1])
  }

  function PassOf(r: EpollRound): seq<Move> {
    if r.Reported? then [Pass(r.events)] else []
  }

  lemma OneRoundMore(rounds: seq<EpollRound>, n: nat)
    requires n < |rounds|
    ensures PassesOf(rounds[..n + 1]) == PassesOf(rounds[..n]) + PassOf(rounds[n])
  {
    assert rounds[..n + 1][..n] == rounds[..n];
  }

  /** flag_wait_ after n rounds. */
  predicate FlagAfter(w: World, rounds: seq<EpollRound>, n: nat)
    requires n <= |rounds|
  {
    RunMoves(w, PassesOf(rounds[..n])).flagWait
  }

  /** The end that round k brings; StillWaiting if it brings none. w is the world when the wait starts. */
  function EndOfRound(w: World, cmsWait: int, startMs: int, rounds: seq<EpollRound>, k: nat): WaitEnd
    requires k < |rounds|
  {
    if rounds[k].PollFailed? then Failed
    else if rounds[k].NoneReported? || RunOut(rounds[k], cmsWait, startMs) then TimedOut
    else if FlagAfter(w, rounds, k + 1) then StillWaiting
    else Woken
  }

  /** The wait consumed the first `used` rounds, and the last of them, and none before, brought its end. */
  ghost predicate EpollEnds(w: World, cmsWait: int, startMs: int, rounds: seq<EpollRound>, used: nat, end: WaitEnd) {
    && used <= |rounds|
    && (forall k :: 0 <= k < used - (if end.StillWaiting? then 0 else 1) ==>
          EndOfRound(w, cmsWait, startMs, rounds, k).StillWaiting?)
    && (if end.StillWaiting? then used == |rounds|
        else used > 0 && EndOfRound(w, cmsWait, startMs, rounds, used - 1) == end)
  }

  predicate ReadsClock(r: EpollRound) {
    r.Interrupted? || r.Reported?
  }

  /** What is left of the wait after k rounds, in milliseconds minus microseconds. */
  function MsLeft(cmsWait: int, startMs: int, rounds: seq<EpollRound>, k: nat): int
    requires k <= |rounds|
  {
    if k == 0 || cmsWait == -1 || !ReadsClock(rounds[k - 1]) then cmsWait
    else startMs + cmsWait - rounds[k - 1].nowUs
  }

  /** Each call of epoll_wait gets as its timeout what is left, as an int; but for the first, that is positive. */
  predicate Sleeps(cmsWait: int, startMs: int, rounds: seq<EpollRound>, timeouts: seq<int>) {
    |timeouts| <= |rounds| && forall k :: 0 <= k < |timeouts| ==>
      var left := MsLeft(cmsWait, startMs, rounds, k);
      timeouts[k] == TaskQueues.ToInt32(left) && (k == 0 || cmsWait == -1 || 0 < left)
  }

  /** The wait has consumed n rounds, and none of them ended it, but for the last if that lowered the flag. */
  ghost predicate GotTo(w: World, cmsWait: int, startMs: int, rounds: seq<EpollRound>, n: nat, timeouts: seq<int>) {
    && |timeouts| == n <= |rounds| && w.flagWait
    && Sleeps(cmsWait, startMs, rounds, timeouts)
    && (forall k :: 0 <= k < n - 1 ==> EndOfRound(w, cmsWait, startMs, rounds, k).StillWaiting?)
    && (n > 0 ==> var end := EndOfRound(w, cmsWait, startMs, rounds, n - 1); end.StillWaiting? || end.Woken?)
  }

  /** The end that a round brings whatever the flag; Woken if the loop goes on to its test. */
  function PollTest(r: EpollRound, cmsWait: int, startMs: int): WaitEnd {
    if r.PollFailed? then Failed
    else if r.NoneReported? || RunOut(r, cmsWait, startMs) then TimedOut
    else Woken
  }

  ghost predicate EpollAfter(w: World, cmsWait: int, startMs: int, rounds: seq<EpollRound>, n: nat,
                             timeouts: seq<int>, end: WaitEnd) {
    && |timeouts| == n && Sleeps(cmsWait, startMs, rounds, timeouts)
    && if end.Woken? then GotTo(w, cmsWait, startMs, rounds, n, timeouts)
       else EpollEnds(w, cmsWait, startMs, rounds, n, end)
  }

  lemma NextSleep(w: World, cmsWait: int, startMs: int, rounds: seq<EpollRound>, n: nat, timeouts: seq<int>)
    requires GotTo(w, cmsWait, startMs, rounds, n, timeouts) && n < |rounds|
    ensures Sleeps(cmsWait, startMs, rounds, timeouts + [TaskQueues.ToInt32(MsLeft(cmsWait, startMs, rounds, n))])
  {
  }

  /** The next round is taken with what is left of the wait. */
  lemma NextRound(w: World, cmsWait: int, startMs: int, rounds: seq<EpollRound>, n: nat, timeouts: seq<int>)
    requires GotTo(w, cmsWait, startMs, rounds, n, timeouts) && n < |rounds| && FlagAfter(w, rounds, n)
    ensures EpollAfter(w, cmsWait, startMs, rounds, n + 1,
                       timeouts + [TaskQueues.ToInt32(MsLeft(cmsWait, startMs, rounds, n))],
                       PollTest(rounds[n], cmsWait, startMs))
  {
    NextSleep(w, cmsWait, startMs, rounds, n, timeouts);
    var end := EndOfRound(w, cmsWait, startMs, rounds, n);
    assert n > 0 ==> EndOfRound(w, cmsWait, startMs, rounds, n - 1).StillWaiting?;
    assert end == PollTest(rounds[n], cmsWait, startMs) || end.StillWaiting?;
  }

  /** Where the loop test fails, or the rounds run out, that is the end. */
  lemma LoopTestEnds(w: World, cmsWait: int, startMs: int, rounds: seq<EpollRound>, n: nat, timeouts: seq<int>)
    requires GotTo(w, cmsWait, startMs, rounds, n, timeouts)
    ensures !FlagAfter(w, rounds, n) ==> EpollEnds(w, cmsWait, startMs, rounds, n, Woken)
    ensures FlagAfter(w, rounds, n) && n == |rounds| ==> EpollEnds(w, cmsWait, startMs, rounds, n, StillWaiting)
  {
    if n == 0 {
      assert PassesOf(rounds[..0]) == [];
    }
  }

  /** Woken means that the flag is down, StillWaiting that it is up. */
  lemma EndTellsFlag(w: World, cmsWait: int, startMs: int, rounds: seq<EpollRound>, used: nat, end: WaitEnd)
    requires EpollEnds(w, cmsWait, startMs, rounds, used, end) && w.flagWait
    ensures end.Woken? ==> !FlagAfter(w, rounds, used)
    ensures end.StillWaiting? ==> FlagAfter(w, rounds, used)
  {
    if used == 0 {
      assert PassesOf(rounds[..0]) == [];
    } else {
      assert end.StillWaiting? ==> EndOfRound(w, cmsWait, startMs, rounds, used - 1).StillWaiting?;
    }
  }

  predicate RoundWakes(r: EpollRound) {
    r.Reported? && exists e :: e in r.events && IsWakeUp(e)
  }

  lemma {:induction false} RoundsLowerFlagIff(w: World, rounds: seq<EpollRound>)
    requires Consistent(w) && Calm(w)
    ensures RunMoves(w, PassesOf(rounds)).flagWait <==> w.flagWait && forall r :: r in rounds ==> !RoundWakes(r)
    decreases |rounds|
  {
    if rounds != [] {
      var before, last := rounds[..|rounds| - 1], rounds[|rounds| - 1];
      RoundsLowerFlagIff(w, before);
      assert forall r :: r in rounds <==> r in before || r == last;
      LastRoundLowersFlagIff(w, before, last);
      assert PassesOf(rounds) == PassesOf(before) + PassOf(last);
    }
  }

  lemma LastRoundLowersFlagIff(w: World, before: seq<EpollRound>, last: EpollRound)
    requires Consistent(w) && Calm(w)
    ensures RunMoves(w, PassesOf(before) + PassOf(last)).flagWait <==>
              RunMoves(w, PassesOf(before)).flagWait && !RoundWakes(last)
  {
    if last.Reported? {
      RunServes(w, PassesOf(before));
      PassLowersFlagIff(RunMoves(w, PassesOf(before)), last.events);
      LastPass(w, PassesOf(before), last.events);
    } else {
      assert PassesOf(before) + PassOf(last) == PassesOf(before);
    }
  }

  lemma LastPass(w: World, passes: seq<Move>, events: seq<Event>)
    ensures RunMoves(w, passes + [Pass(events)]) == ProcessBatch(RunMoves(w, passes), events)
  {
    assert (passes + [Pass(events)])[..|passes|] == passes;
  }

  ghost predicate WakesAtTheFirst(cmsWait: int, startMs: int, rounds: seq<EpollRound>, used: nat, end: WaitEnd) {
    && (forall k :: 0 <= k < |rounds| && RoundWakes(rounds[k]) ==>
          && used <= k + 1
          && (used == k + 1 ==> end == if RunOut(rounds[k], cmsWait, startMs) then TimedOut else Woken))
    && (end.Woken? ==> 0 < used <= |rounds| && RoundWakes(rounds[used - 1]))
  }

  /**
   The first round that reports the wake-up ends the wait, unless an earlier one did: as Woken, or as TimedOut if the
   time ran out in that very round. Nothing else ends it as Woken.
   */
  lemma WakeUpEndsTheWait(w: World, cmsWait: int, startMs: int, rounds: seq<EpollRound>, used: nat, end: WaitEnd)
    requires Consistent(w) && Calm(w) && w.flagWait && EpollEnds(w, cmsWait, startMs, rounds, used, end)
    ensures WakesAtTheFirst(cmsWait, startMs, rounds, used, end)
  {
    forall k | 0 <= k < |rounds| && RoundWakes(rounds[k])
      ensures used <= k + 1
      ensures used == k + 1 ==> end == if RunOut(rounds[k], cmsWait, startMs) then TimedOut else Woken
    {
      WakingRoundEnds(w, cmsWait, startMs, rounds, k);
    }
    if end.Woken? {
      WokenByTheLast(w, cmsWait, startMs, rounds, used);
    }
  }

  lemma WakingRoundEnds(w: World, cmsWait: int, startMs: int, rounds: seq<EpollRound>, k: nat)
    requires Consistent(w) && Calm(w) && k < |rounds| && RoundWakes(rounds[k])
    ensures EndOfRound(w, cmsWait, startMs, rounds, k) ==
            if RunOut(rounds[k], cmsWait, startMs) then TimedOut else Woken
  {
    RoundsLowerFlagIff(w, rounds[..k + 1]);
    assert rounds[..k + 1][k] == rounds[k];
  }

  lemma WokenByTheLast(w: World, cmsWait: int, startMs: int, rounds: seq<EpollRound>, used: nat)
    requires Consistent(w) && Calm(w) && w.flagWait && EpollEnds(w, cmsWait, startMs, rounds, used, Woken)
    ensures RoundWakes(rounds[used - 1])
  {
    RoundsLowerFlagIff(w, rounds[..used]);
    var r :| r in rounds[..used] && RoundWakes(r);
    var k :| 0 <= k < used && rounds[k] == r;
    if k < used - 1 {
      WakingRoundEnds(w, cmsWait, startMs, rounds, k);
      assert false;
    }
  }

  // ----- WaitSelect -----

  /** What one call of select yields. */
  datatype SelectOutcome =
    | SelectFailed
    | SelectInterrupted
    | NothingReady
    | Ready(read: set<int>, write: set<int>, probes: nat -> Probe)

  /** Key k is registered, and its dispatcher asks for one of these events on descriptor fd. */
  predicate Asks(w: World, k: nat, fd: int, events: bv8) {
    && k in w.byKey && w.byKey[k] < |w.socks|
    && w.socks[w.byKey[k]].fd == fd && w.socks[w.byKey[k]].enabled & events != 0
  }

  /** Somebody registered does. */
  ghost predicate Wanted(w: World, fd: int, events: bv8) {
    exists k :: Asks(w, k, fd, events)
  }

  /** What select leaves in the fd_sets: those it reports of the descriptors somebody registered wants to hear of. */
  ghost function SelectedIn(w: World, outcome: SelectOutcome): Sel
    requires outcome.Ready?
  {
    Sel(w,
        set fd | fd in outcome.read && Wanted(w, fd, DE_READ | DE_ACCEPT),
        set fd | fd in outcome.write && Wanted(w, fd, DE_WRITE | DE_CONNECT))
  }

  /** One round of WaitSelect: the world before, the vector of keys it visits, the world after. */
  datatype SelectTurn = SelectTurn(before: World, keys: seq<nat>, after: World)

  /** Every registered key was appended to the vector; if select reported something, the pass over it followed. */
  ghost predicate TurnIs(outcome: SelectOutcome, left: seq<nat>, t: SelectTurn) {
    && left <= t.keys && (forall k :: k in t.before.byKey <==> k in t.keys[|left|..])
    && t.after == if outcome.Ready? then VisitAll(SelectedIn(t.before, outcome), VisitsOf(t.keys, outcome.probes)).w
                  else t.before
  }

  function WorldAt(w: World, turns: seq<SelectTurn>, k: nat): World
    requires k <= |turns|
  {
    if k == 0 then w else turns[k - 1].after
  }

  function KeysAt(left: seq<nat>, turns: seq<SelectTurn>, k: nat): seq<nat>
    requires k <= |turns|
  {
    if k == 0 then left else turns[k - 1].keys
  }

  ghost predicate TurnFollows(w: World, left: seq<nat>, rounds: seq<SelectOutcome>, turns: seq<SelectTurn>, k: nat)
    requires k < |turns| <= |rounds|
  {
    turns[k].before == WorldAt(w, turns, k) && TurnIs(rounds[k], KeysAt(left, turns, k), turns[k])
  }

  /** The end that a round brings; StillWaiting if it brings none. */
  function EndOfTurn(outcome: SelectOutcome, t: SelectTurn): WaitEnd {
    match outcome
    case SelectFailed => Failed
    case NothingReady => TimedOut
    case _ => if t.after.flagWait then StillWaiting else Woken
  }

  /** The turns were taken on the first rounds, each from what the one before left. */
  ghost predicate TurnsTaken(w: World, left: seq<nat>, rounds: seq<SelectOutcome>, turns: seq<SelectTurn>) {
    |turns| <= |rounds| && forall k :: 0 <= k < |turns| ==> TurnFollows(w, left, rounds, turns, k)
  }

  /** The last turn, and none before, brought the end; or there was none and the rounds ran out. */
  ghost predicate SelectEnds(w: World, left: seq<nat>, rounds: seq<SelectOutcome>, turns: seq<SelectTurn>,
                             end: WaitEnd) {
    && TurnsTaken(w, left, rounds, turns)
    && (forall k :: 0 <= k < |turns| - (if end.StillWaiting? then 0 else 1) ==>
          EndOfTurn(rounds[k], turns[k]).StillWaiting?)
    && (if end.StillWaiting? then |turns| == |rounds|
        else turns != [] && EndOfTurn(rounds[|turns| - 1], turns[|turns| - 1]) == end)
  }

  /** None of the turns ended the wait, but for the last if that lowered the flag. */
  ghost predicate SelectGotTo(w: World, left: seq<nat>, rounds: seq<SelectOutcome>, turns: seq<SelectTurn>) {
    && TurnsTaken(w, left, rounds, turns) && w.flagWait
    && (forall k :: 0 <= k < |turns| - 1 ==> EndOfTurn(rounds[k], turns[k]).StillWaiting?)
    && (turns != [] ==>
          var end := EndOfTurn(rounds[|turns| - 1], turns[|turns| - 1]); end.StillWaiting? || end.Woken?)
  }

  lemma {:induction false} TurnStays(w: World, left: seq<nat>, rounds: seq<SelectOutcome>, turns: seq<SelectTurn>,
                                     t: SelectTurn, k: nat)
    requires k < |turns| < |rounds| && TurnFollows(w, left, rounds, turns, k)
    ensures TurnFollows(w, left, rounds, turns + [t], k)
  {
    assert (turns + [t])[k] == turns[k];
    assert WorldAt(w, turns + [t], k) == WorldAt(w, turns, k);
    assert KeysAt(left, turns + [t], k) == KeysAt(left, turns, k);
  }

  lemma NewTurn(w: World, left: seq<nat>, rounds: seq<SelectOutcome>, turns: seq<SelectTurn>, t: SelectTurn)
    requires |turns| < |rounds| && t.before == WorldAt(w, turns, |turns|)
    requires TurnIs(rounds[|turns|], KeysAt(left, turns, |turns|), t)
    ensures TurnFollows(w, left, rounds, turns + [t], |turns|)
  {
    assert WorldAt(w, turns + [t], |turns|) == WorldAt(w, turns, |turns|);
    assert KeysAt(left, turns + [t], |turns|) == KeysAt(left, turns, |turns|);
  }

  lemma MoreTurnsTaken(w: World, left: seq<nat>, rounds: seq<SelectOutcome>, turns: seq<SelectTurn>, t: SelectTurn)
    requires TurnsTaken(w, left, rounds, turns) && |turns| < |rounds| && t.before == WorldAt(w, turns, |turns|)
    requires TurnIs(rounds[|turns|], KeysAt(left, turns, |turns|), t)
    ensures TurnsTaken(w, left, rounds, turns + [t])
  {
    NewTurn(w, left, rounds, turns, t);
    forall k | 0 <= k < |turns|
      ensures TurnFollows(w, left, rounds, turns + [t], k)
    {
      TurnStays(w, left, rounds, turns, t, k);
    }
  }

  /** The end that a round brings whatever the flag; Woken if the loop goes on to its test. */
  function TestOf(outcome: SelectOutcome): WaitEnd {
    match outcome
    case SelectFailed => Failed
    case NothingReady => TimedOut
    case _ => Woken
  }

  ghost predicate SelectAfter(w: World, left: seq<nat>, rounds: seq<SelectOutcome>, turns: seq<SelectTurn>,
                              end: WaitEnd) {
    if end.Woken? then SelectGotTo(w, left, rounds, turns) else SelectEnds(w, left, rounds, turns, end)
  }

  /** A turn more: it goes on, or that was the end. */
  lemma OneTurnMore(w: World, left: seq<nat>, rounds: seq<SelectOutcome>, turns: seq<SelectTurn>, t: SelectTurn)
    requires SelectGotTo(w, left, rounds, turns) && |turns| < |rounds| && WorldAt(w, turns, |turns|).flagWait
    requires t.before == WorldAt(w, turns, |turns|) && TurnIs(rounds[|turns|], KeysAt(left, turns, |turns|), t)
    ensures SelectAfter(w, left, rounds, turns + [t], TestOf(rounds[|turns|]))
  {
    var more := turns + [t];
    MoreTurnsTaken(w, left, rounds, turns, t);
    assert turns != [] ==> EndOfTurn(rounds[|turns| - 1], turns[|turns| - 1]).StillWaiting?;
    forall k | 0 <= k < |turns|
      ensures EndOfTurn(rounds[k], more[k]).StillWaiting?
    {
      assert more[k] == turns[k];
    }
  }

  /** Where the loop test fails, or the rounds run out, that is the end. */
  lemma SelectTestEnds(w: World, left: seq<nat>, rounds: seq<SelectOutcome>, turns: seq<SelectTurn>)
    requires SelectGotTo(w, left, rounds, turns)
    ensures var up := WorldAt(w, turns, |turns|).flagWait;
            && (!up ==> SelectEnds(w, left, rounds, turns, Woken))
            && (up && |turns| == |rounds| ==> SelectEnds(w, left, rounds, turns, StillWaiting))
  {
  }

  /** Woken means that the flag is down, StillWaiting that it is up. */
  lemma SelectTellsFlag(w: World, left: seq<nat>, rounds: seq<SelectOutcome>, turns: seq<SelectTurn>, end: WaitEnd)
    requires SelectEnds(w, left, rounds, turns, end) && w.flagWait
    ensures end.Woken? ==> !WorldAt(w, turns, |turns|).flagWait
    ensures end.StillWaiting? ==> WorldAt(w, turns, |turns|).flagWait
  {
    if turns != [] {
      assert end.StillWaiting? ==> EndOfTurn(rounds[|turns| - 1], turns[|turns| - 1]).StillWaiting?;
    }
  }

  // ----- the wake-up in a pass of select -----

  /** The bits of the wake-up descriptor that this visit finds. */
  predicate FindsWakeUp(s: Sel, v: Visit)
    requires s.w.socks != []
  {
    v.key == 0 && (s.w.socks[0].fd in s.readable || s.w.socks[0].fd in s.writable)
  }

  lemma VisitLowersFlagIff(s: Sel, v: Visit)
    requires Consistent(s.w) && Calm(s.w)
    ensures VisitKey(s, v).w.flagWait == (s.w.flagWait && !FindsWakeUp(s, v))
  {
    if v.key in s.w.byKey {
      var i := s.w.byKey[v.key];
      assert i in s.w.keyOf && (i == 0 <==> v.key == 0);
      var fd := s.w.socks[i].fd;
      var r, wr := fd in s.readable, fd in s.writable;
      FlagsIffReported(s.w, i, r, wr, v.errcode, v.eof);
      OthersKeepFlag(s.w, v.key, i, Report(r, wr, r || wr, v.errcode, v.eof), v.handlers);
    } else {
      assert v.key != 0;
    }
  }

  /** A pass lowers the flag exactly if it visits key 0 and the wake-up descriptor is in one of its fd_sets. */
  lemma {:induction false} SelectLowersFlagIff(s: Sel, visits: seq<Visit>)
    requires Consistent(s.w) && Calm(s.w)
    ensures var fd := s.w.socks[0].fd;
            VisitAll(s, visits).w.flagWait <==>
              s.w.flagWait && !(FirstVisit(visits, 0) < |visits| && (fd in s.readable || fd in s.writable))
    decreases |visits|
  {
    if visits != [] {
      var before, last := visits[..|visits| - 1], visits[|visits| - 1];
      SelectLowersFlagIff(s, before);
      PassKeepsBits(s, before, 0);
      var s1 := VisitAll(s, before);
      assert 0 in s1.w.byKey && s1.w.byKey[0] == 0 && 0 in s.w.byKey;
      VisitLowersFlagIff(s1, last);
      FirstVisitSplits(visits, 0);
    }
  }

  /** A round of select ends the wait as Woken exactly if it reports the wake-up descriptor as readable. */
  lemma SelectWakesIff(outcome: SelectOutcome, left: seq<nat>, t: SelectTurn)
    requires Consistent(t.before) && Calm(t.before) && t.before.flagWait && TurnIs(outcome, left, t)
    ensures EndOfTurn(outcome, t).Woken? <==> outcome.Ready? && t.before.socks[0].fd in outcome.read
  {
    if outcome.Ready? {
      var s, visits := SelectedIn(t.before, outcome), VisitsOf(t.keys, outcome.probes);
      SelectLowersFlagIff(s, visits);
      KeyIsVisited(t.keys, left, visits, 0);
      OnlySignalerHasItsDescriptor(t.before);
    }
  }

  predicate SelectWakes(outcome: SelectOutcome, fd: int) {
    outcome.Ready? && fd in outcome.read
  }

  lemma {:induction false} TurnsServe(w: World, left: seq<nat>, rounds: seq<SelectOutcome>, turns: seq<SelectTurn>,
                                      k: nat)
    requires Consistent(w) && Calm(w) && k <= |turns| && TurnsTaken(w, left, rounds, turns)
    ensures Serves(w, WorldAt(w, turns, k))
  {
    if k == 0 {
      ServesSelf(w);
    } else {
      TurnsServe(w, left, rounds, turns, k - 1);
      assert TurnFollows(w, left, rounds, turns, k - 1);
      TurnServesToo(w, rounds[k - 1], KeysAt(left, turns, k - 1), turns[k - 1]);
    }
  }

  lemma TurnServesToo(w: World, outcome: SelectOutcome, left: seq<nat>, t: SelectTurn)
    requires Serves(w, t.before) && TurnIs(outcome, left, t)
    ensures Serves(w, t.after)
  {
    TurnServes(outcome, left, t);
    ServesTwice(w, t.before, t.after);
  }

  lemma TurnServes(outcome: SelectOutcome, left: seq<nat>, t: SelectTurn)
    requires Consistent(t.before) && Calm(t.before) && TurnIs(outcome, left, t)
    ensures Serves(t.before, t.after)
  {
    if outcome.Ready? {
      AllVisitsServe(SelectedIn(t.before, outcome), VisitsOf(t.keys, outcome.probes));
    } else {
      ServesSelf(t.before);
    }
  }

  /** The wake-up descriptor keeps its number. */
  lemma SignalerKeepsDescriptor(w: World, w': World)
    requires Consistent(w) && Serves(w, w')
    ensures w'.socks[0].fd == w.socks[0].fd
  {
    assert w'.byKey[w'.keyOf[0]] == 0 && w.byKey[w.keyOf[0]] == 0;
  }

  lemma TurnWakesIff(w: World, left: seq<nat>, rounds: seq<SelectOutcome>, turns: seq<SelectTurn>, k: nat)
    requires Consistent(w) && Calm(w) && TurnsTaken(w, left, rounds, turns) && k < |turns|
    requires WorldAt(w, turns, k).flagWait
    ensures EndOfTurn(rounds[k], turns[k]).Woken? <==> SelectWakes(rounds[k], w.socks[0].fd)
  {
    TurnsServe(w, left, rounds, turns, k);
    assert TurnFollows(w, left, rounds, turns, k);
    SignalerKeepsDescriptor(w, turns[k].before);
    SelectWakesIff(rounds[k], KeysAt(left, turns, k), turns[k]);
  }

  /**
   A wait by select that starts in order ends as Woken in the first round that reports the wake-up descriptor as
   readable, and in no other: of the rounds it took, none but the last reported it, and that one only then.
   */
  lemma WakeUpEndsSelect(w: World, left: seq<nat>, rounds: seq<SelectOutcome>, turns: seq<SelectTurn>, end: WaitEnd)
    requires Consistent(w) && Calm(w) && w.flagWait && SelectEnds(w, left, rounds, turns, end)
    ensures forall k :: 0 <= k < |turns| ==>
              (SelectWakes(rounds[k], w.socks[0].fd) <==> end.Woken? && k == |turns| - 1)
  {
    forall k | 0 <= k < |turns|
      ensures SelectWakes(rounds[k], w.socks[0].fd) <==> end.Woken? && k == |turns| - 1
    {
      assert k > 0 ==> EndOfTurn(rounds[k - 1], turns[k - 1]).StillWaiting?;
      TurnWakesIff(w, left, rounds, turns, k);
    }
  }

  lemma KeyIsVisited(keys: seq<nat>, left: seq<nat>, visits: seq<Visit>, k: nat)
    requires left <= keys && k in keys[|left|..] && KeysOf(visits) == keys
    ensures FirstVisit(visits, k) < |visits|
  {
    assert k in KeysOf(visits);
    var m :| 0 <= m < |visits| && KeysOf(visits)[m] == k;
    assert visits[m].key == k;
  }

  /** The wake-up descriptor is wanted for input, and by nobody for output. */
  lemma OnlySignalerHasItsDescriptor(w: World)
    requires Consistent(w)
    ensures 0 in w.byKey && Wanted(w, w.socks[0].fd, DE_READ | DE_ACCEPT)
    ensures !Wanted(w, w.socks[0].fd, DE_WRITE | DE_CONNECT)
  {
    var fd := w.socks[0].fd;
    assert w.byKey[w.keyOf[0]] == 0;
    assert Asks(w, 0, fd, DE_READ | DE_ACCEPT);
    forall k, events | Asks(w, k, fd, events)
      ensures DE_READ & events != 0
    {
      AsksForItsOwn(w, k, events);
    }
    assert DE_READ & (DE_WRITE | DE_CONNECT) == 0;
  }

  lemma AsksForItsOwn(w: World, k: nat, events: bv8)
    requires Consistent(w) && Asks(w, k, w.socks[0].fd, events)
    ensures w.byKey[k] == 0 && DE_READ & events != 0
  {
    assert w.byKey[k] in w.keyOf;
    assert w.open[w.socks[0].fd] == w.byKey[k];
  }
}
