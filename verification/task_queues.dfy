/** The two queues of a Thread: what each operation does to them, and the class that does it in place. */
module TaskQueues {
  import opened DelayedMessages
  import opened MessageHeaps

  // ----- integers -----

  const INT32_MAX: int := 0x7FFF_FFFF

  predicate IsInt32(x: int) {
    -INT32_MAX - 1 <= x <= INT32_MAX
  }

  /** The conversion of an int64_t to an int: the one int that differs by a multiple of 2^32. */
  function ToInt32(x: int): (r: int)
    ensures IsInt32(r)
    ensures (x - r) % 0x1_0000_0000 == 0
    ensures IsInt32(x) ==> r == x
  {
    var low := x % 0x1_0000_0000;
    if low <= INT32_MAX then low else low - 0x1_0000_0000
  }

  /** Congruent ints are equal, so its contract determines the conversion. */
  lemma ToInt32IsDetermined(x: int, r: int)
    requires IsInt32(r) && (x - r) % 0x1_0000_0000 == 0
    ensures r == ToInt32(x)
  {
    var k1, k2 := (x - r) / 0x1_0000_0000, (x - ToInt32(x)) / 0x1_0000_0000;
    assert x - r == k1 * 0x1_0000_0000 && x - ToInt32(x) == k2 * 0x1_0000_0000;
  }

  // ----- the queues -----

  /** What Thread::mutex_ guards. */
  datatype Queues = Queues(messages: seq<Task>, delayed: multiset<DelayedMessage>, nextNum: nat)

  function Functors(s: seq<DelayedMessage>): (r: seq<Task>) {
    seq(|s|, i requires 0 <= i < |s| => s[i].functor)
  }

  lemma FunctorsAppend(s: seq<DelayedMessage>, m: DelayedMessage)
    ensures Functors(s + [m]) == Functors(s) + [m.functor]
  {
  }

  function WithTask(q: Queues, task: Task): Queues {
    q.(messages := q.messages + [task])
  }

  /** The number wraps around as a uint32_t does. */
  function WithTimer(q: Queues, task: Task, delayMs: int, runTimeMs: int): Queues {
    q.(delayed := q.delayed + multiset{DelayedMessage(delayMs, runTimeMs, q.nextNum, task)},
       nextNum := (q.nextNum + 1) % NUMBER_MODULUS)
  }

  /** q' is q after the messages `due` at time now went from the timer queue to the task queue. */
  ghost predicate Drained(q: Queues, now: int, due: seq<DelayedMessage>, q': Queues) {
    && IsDrain(q.delayed, now, due, q'.delayed)
    && q'.messages == q.messages + Functors(due)
    && q'.nextNum == q.nextNum
  }

  /** The timeout Get hands to SocketServer::Wait. */
  function WaitTimeout(cmsWait: int, elapsed: int, gap: int): (t: int) {
    if cmsWait == FOREVER then
      gap
    else
      var left := if cmsWait - elapsed < 0 then 0 else cmsWait - elapsed;
      if gap != FOREVER && gap < left then gap else left
  }

  /**
   The loop sleeps without limit exactly when nothing bounds it, never past a timer or past its budget, and no shorter
   than until the first of these.
   */
  lemma WaitTimeoutCoversTimers(cmsWait: int, elapsed: int, delayed: multiset<DelayedMessage>, now: int, gap: int)
    requires IsGap(delayed, now, gap)
    ensures var t := WaitTimeout(cmsWait, elapsed, gap);
            && (t == FOREVER <==> cmsWait == FOREVER && delayed == multiset{})
            && (t != FOREVER ==> 0 <= t)
            && (forall m :: m in delayed ==> 0 <= t <= m.runTimeMs - now)
            && (cmsWait != FOREVER ==> 0 <= t && (t <= cmsWait - elapsed || t == 0))
            && (t != FOREVER ==>
                  || (exists m :: m in delayed && t == m.runTimeMs - now)
                  || (cmsWait != FOREVER && t == if cmsWait < elapsed then 0 else cmsWait - elapsed))
  {
    if delayed != multiset{} {
      var m :| m in delayed && gap == m.runTimeMs - now;
    }
  }

  datatype Post =
    | Now(task: Task)
    | Later(task: Task, delayMs: int, atMs: int)

  /** What a call of SocketServer::Wait brings: its result, the posts of other threads meanwhile, a Quit, the clock. */
  datatype WaitOutcome = WaitOutcome(ok: bool, posts: seq<Post>, quit: bool, nowMs: int)

  datatype GetEnd = GotTask | Quitting | TimedOut | WaitFailed | StillWaiting

  /** One request for a wait, with the timers pending and the clock reading it was computed from. */
  datatype Request = Request(timeout: int, delayed: multiset<DelayedMessage>, nowMs: int)

  ghost predicate JustRequest(r: Request, cmsWait: int, startMs: int) {
    exists gap :: IsGap(r.delayed, r.nowMs, gap) && r.timeout == WaitTimeout(cmsWait, r.nowMs - startMs, gap)
  }

  /** One turn of ProcessMessages: the waits inside Get, what the task posts, the clock afterwards. */
  datatype Turn = Turn(startMs: int, waits: seq<WaitOutcome>, posts: seq<Post>, endMs: int)

  // ----- posts -----

  function AfterPost(q: Queues, stop: bool, p: Post): Queues {
    if stop then q
    else match p
      case Now(task) => WithTask(q, task)
      case Later(task, delayMs, atMs) => WithTimer(q, task, delayMs, atMs + delayMs)
  }

  function AfterPosts(q: Queues, stop: bool, posts: seq<Post>): Queues
    decreases |posts|
  {
    if posts == [] then q else AfterPost(AfterPosts(q, stop, posts[..|posts| - 1]), stop, posts[|posts| - 1])
  }

  /** The tasks that posts bring to the task queue at once. */
  function NowTasks(stop: bool, posts: seq<Post>): seq<Task>
    decreases |posts|
  {
    if posts == [] then []
    else
      var last := posts[|posts| - 1];
      NowTasks(stop, posts[..|posts| - 1]) + if last.Now? && !stop then [last.task] else []
  }

  lemma {:induction false} PostsAppend(q: Queues, stop: bool, posts: seq<Post>)
    ensures AfterPosts(q, stop, posts).messages == q.messages + NowTasks(stop, posts)
    ensures q.delayed <= AfterPosts(q, stop, posts).delayed
    decreases |posts|
  {
    if posts != [] {
      PostsAppend(q, stop, posts[..|posts| - 1]);
    }
  }

  lemma OnePostMore(q: Queues, stop: bool, posts: seq<Post>, i: nat)
    requires i < |posts|
    ensures AfterPosts(q, stop, posts[..i + 1]) == AfterPost(AfterPosts(q, stop, posts[..i]), stop, posts[i])
    ensures NowTasks(stop, posts[..i + 1]) ==
            NowTasks(stop, posts[..i]) + if posts[i].Now? && !stop then [posts[i].task] else []
  {
    assert posts[..i + 1][..i] == posts[..i];
  }

  // ----- what one call of Get does -----

  /** What other threads can change. */
  datatype Shared = Shared(q: Queues, stop: bool)

  function AfterWait(s: Shared, w: WaitOutcome): Shared {
    Shared(AfterPosts(s.q, s.stop, w.posts), s.stop || w.quit)
  }

  /** One pass of the loop of Get: what it found, what it drained at which reading of the clock. */
  datatype Round = Round(found: Shared, nowMs: int, due: seq<DelayedMessage>, drained: Queues)

  /** What the round leaves, if it takes nothing. */
  function Left(r: Round): Shared {
    Shared(r.drained, r.found.stop)
  }

  predicate BudgetOver(cmsWait: int, startMs: int, nowMs: int) {
    cmsWait != FOREVER && cmsWait <= nowMs - startMs
  }

  /** The round came to its wait: nothing to hand out, and no quitting. */
  predicate ComesToWait(r: Round) {
    r.drained.messages == [] && !r.found.stop
  }

  /** The loop went round again after this wait. */
  predicate GoesOn(cmsWait: int, startMs: int, r: Round, w: WaitOutcome) {
    ComesToWait(r) && w.ok && !BudgetOver(cmsWait, startMs, w.nowMs)
  }

  /** A call of Get went through these rounds; all but the last went on. */
  ghost predicate IsGet(cmsWait: int, startMs: int, waits: seq<WaitOutcome>, first: Shared, rounds: seq<Round>) {
    && 0 < |rounds| <= |waits| + 1
    && rounds[0].found == first && rounds[0].nowMs == startMs
    && (forall i :: 0 <= i < |rounds| ==> Drains(rounds[i]))
    && (forall i :: 0 <= i < |rounds| - 1 ==> GoesOn(cmsWait, startMs, rounds[i], waits[i]))
    && (forall i :: 0 <= i < |rounds| - 1 ==> Follows(waits, rounds, i))
  }

  ghost predicate Drains(r: Round) {
    Drained(r.found.q, r.nowMs, r.due, r.drained)
  }

  /** The round after the i-th finds what the i-th and its wait left. */
  ghost predicate Follows(waits: seq<WaitOutcome>, rounds: seq<Round>, i: nat)
    requires i < |rounds| - 1 && i < |waits|
  {
    rounds[i + 1].found == AfterWait(Left(rounds[i]), waits[i]) && rounds[i + 1].nowMs == waits[i].nowMs
  }

  /** A request that the round may make: for no longer than the timers it left pending and the budget allow. */
  ghost predicate IsRequest(q: Request, cmsWait: int, startMs: int, r: Round) {
    q.delayed == r.drained.delayed && q.nowMs == r.nowMs && JustRequest(q, cmsWait, startMs)
  }

  /** The requests are those of the rounds that came to a wait, in order. */
  ghost predicate Asked(cmsWait: int, startMs: int, rounds: seq<Round>, requests: seq<Request>)
    decreases |rounds|
  {
    if rounds == [] then requests == []
    else
      var before, last := rounds[..|rounds| - 1], rounds[|rounds| - 1];
      if ComesToWait(last)
      then
        && requests != [] && IsRequest(requests[|requests| - 1], cmsWait, startMs, last)
        && Asked(cmsWait, startMs, before, requests[..|requests| - 1])
      else Asked(cmsWait, startMs, before, requests)
  }

  /** How Get ended after its last round, with the task and what it left. */
  datatype GetResult = GetResult(end: GetEnd, task: Task, after: Shared, lastMs: int)

  /** w is the wait of the last round, if one was given. */
  function ResultOf(cmsWait: int, startMs: int, last: Round, waits: seq<WaitOutcome>, m: nat): GetResult {
    if last.drained.messages != [] then
      GetResult(GotTask, last.drained.messages[0],
                Left(last).(q := last.drained.(messages := last.drained.messages[1..])), last.nowMs)
    else if last.found.stop then GetResult(Quitting, NoTask, Left(last), last.nowMs)
    else if |waits| <= m then GetResult(StillWaiting, NoTask, Left(last), last.nowMs)
    else if !waits[m].ok then GetResult(WaitFailed, NoTask, AfterWait(Left(last), waits[m]), last.nowMs)
    else GetResult(TimedOut, NoTask, AfterWait(Left(last), waits[m]), waits[m].nowMs)
  }

  /** The call ends with this result, because the last round could not go on. */
  ghost predicate GetEnds(cmsWait: int, startMs: int, waits: seq<WaitOutcome>, first: Shared, rounds: seq<Round>,
                          r: GetResult) {
    && IsGet(cmsWait, startMs, waits, first, rounds)
    && var m := |rounds| - 1;
       && (m < |waits| ==> !GoesOn(cmsWait, startMs, rounds[m], waits[m]))
       && r == ResultOf(cmsWait, startMs, rounds[m], waits, m)
  }

  ghost predicate NoneDue(delayed: multiset<DelayedMessage>, nowMs: int) {
    forall m :: m in delayed ==> nowMs < m.runTimeMs
  }

  predicate DueAt(m: DelayedMessage, nowMs: int) {
    m.runTimeMs <= nowMs
  }

  /** A task is queued, or a timer has come due. */
  ghost predicate Ready(q: Queues, nowMs: int) {
    q.messages != [] || exists m :: m in q.delayed && DueAt(m, nowMs)
  }

  /** A drain finds something exactly if something was ready. */
  lemma DrainFindsReady(q: Queues, nowMs: int, due: seq<DelayedMessage>, q': Queues)
    requires Drained(q, nowMs, due, q')
    ensures q'.messages != [] <==> Ready(q, nowMs)
  {
    if due != [] {
      assert due[0] in multiset(due);
      assert due[0] in q.delayed && DueAt(due[0], nowMs);
    }
    if m :| m in q.delayed && DueAt(m, nowMs) {
      assert m in multiset(due);
      assert |Functors(due)| == |due| > 0;
    }
  }

  /**
   What the end of a call of Get means. It has a task exactly if in its last round something was ready, and it is the
   first queued one or else the earliest due timer's. Otherwise nothing was ready at the last clock reading before its
   wait, and: it is quitting, or the wait after that failed, or its budget was over then, or it waits still. All rounds
   before came to a wait that was fine, within the budget, with nothing ready.
   */
  lemma EndTells(cmsWait: int, startMs: int, waits: seq<WaitOutcome>, first: Shared, rounds: seq<Round>, r: GetResult)
    requires GetEnds(cmsWait, startMs, waits, first, rounds, r)
    ensures var last, m := rounds[|rounds| - 1], |rounds| - 1;
            && (r.end.GotTask? <==> Ready(last.found.q, last.nowMs))
            && (last.found.q.messages != [] ==> r.end.GotTask? && r.task == last.found.q.messages[0])
            && (r.end.Quitting? <==> !Ready(last.found.q, last.nowMs) && last.found.stop)
            && (r.end.StillWaiting? <==> !Ready(last.found.q, last.nowMs) && !last.found.stop && m == |waits|)
            && (r.end.WaitFailed? <==>
                  !Ready(last.found.q, last.nowMs) && !last.found.stop && m < |waits| && !waits[m].ok)
            && (r.end.TimedOut? ==> m < |waits| && waits[m].ok && BudgetOver(cmsWait, startMs, waits[m].nowMs))
            && (forall i :: 0 <= i < m ==>
                  !Ready(rounds[i].found.q, rounds[i].nowMs) && !rounds[i].found.stop && waits[i].ok &&
                  !BudgetOver(cmsWait, startMs, waits[i].nowMs))
    ensures Ready(first.q, startMs) ==> r.end.GotTask? && |rounds| == 1
    ensures r.end.Quitting? ==> r.after.stop && r.after.q.messages == [] && NoneDue(r.after.q.delayed, r.lastMs)
    ensures r.end.TimedOut? ==> BudgetOver(cmsWait, startMs, r.lastMs)
    ensures r.end.WaitFailed? ==> exists w :: w in waits && !w.ok
    ensures r.end.StillWaiting? ==> forall w :: w in waits ==> w.ok
  {
    forall i | 0 <= i < |rounds|
      ensures rounds[i].drained.messages != [] <==> Ready(rounds[i].found.q, rounds[i].nowMs)
    {
      DrainFindsReady(rounds[i].found.q, rounds[i].nowMs, rounds[i].due, rounds[i].drained);
    }
    if |rounds| > 1 {
      assert GoesOn(cmsWait, startMs, rounds[0], waits[0]);
    }
  }

  // ----- what one call of ProcessMessages does -----

  /** A turn: the call of Get with its budget, and how it ended. */
  datatype Served = Served(budget: int, rounds: seq<Round>, got: GetResult)

  /** What is there when the turn after this one starts. */
  function AfterTurn(s: Served, t: Turn): Shared {
    Shared(AfterPosts(s.got.after.q, s.got.after.stop, t.posts), s.got.after.stop)
  }

  /** The time until the end, as an int, is negative: a task that takes longer than an int holds escapes the test. */
  predicate TimeIsUp(cms: int, nowMs: int, endMs: int) {
    cms != FOREVER && ToInt32(nowMs + cms - endMs) < 0
  }

  /** The budget of turn i: the whole limit first, then what the last task left of it, as an int. */
  function BudgetOf(cms: int, nowMs: int, turns: seq<Turn>, i: nat): int
    requires i <= |turns|
  {
    if i == 0 || cms == FOREVER then cms else ToInt32(nowMs + cms - turns[i - 1].endMs)
  }

  /** A turn with the budget it has, and whether time is up after its task. */
  datatype Slot = Slot(turn: Turn, budget: int, up: bool)

  function Slots(cms: int, nowMs: int, turns: seq<Turn>): (r: seq<Slot>)
    ensures |r| == |turns| && forall i :: 0 <= i < |r| ==> r[i].turn == turns[i]
    decreases |turns|
  {
    if turns == [] then []
    else
      var n := |turns| - 1;
      Slots(cms, nowMs, turns[..n]) +
      [Slot(turns[n], BudgetOf(cms, nowMs, turns, n), TimeIsUp(cms, nowMs, turns[n].endMs))]
  }

  lemma {:induction false} SlotTells(cms: int, nowMs: int, turns: seq<Turn>, i: nat)
    requires i < |turns|
    ensures var slot := Slots(cms, nowMs, turns)[i];
            && slot.budget == BudgetOf(cms, nowMs, turns, i)
            && slot.up == TimeIsUp(cms, nowMs, turns[i].endMs)
    decreases |turns|
  {
    if i < |turns| - 1 {
      SlotTells(cms, nowMs, turns[..|turns| - 1], i);
    }
  }

  lemma FirstBudget(cms: int, nowMs: int, turns: seq<Turn>)
    ensures turns != [] ==> Slots(cms, nowMs, turns)[0].budget == cms
  {
    if turns != [] {
      SlotTells(cms, nowMs, turns, 0);
    }
  }

  ghost predicate ServedOk(slot: Slot, first: Shared, s: Served) {
    s.budget == slot.budget && GetEnds(s.budget, slot.turn.startMs, slot.turn.waits, first, s.rounds, s.got)
  }

  /** The calls of Get follow each other, each with what the one before and its task left. */
  ghost predicate IsProcess(slots: seq<Slot>, first: Shared, served: seq<Served>) {
    && |served| <= |slots|
    && (forall i :: 0 <= i < |served| ==> TurnOk(slots, first, served, i))
    && (forall i :: 0 <= i < |served| - 1 ==> WentOn(slots, served, i))
  }

  /** What turn i finds. */
  ghost function StartOf(slots: seq<Slot>, first: Shared, served: seq<Served>, i: nat): Shared
    requires i <= |served| <= |slots|
  {
    if i == 0 then first else AfterTurn(served[i - 1], slots[i - 1].turn)
  }

  ghost predicate TurnOk(slots: seq<Slot>, first: Shared, served: seq<Served>, i: nat)
    requires i < |served| <= |slots|
  {
    ServedOk(slots[i], StartOf(slots, first, served, i), served[i])
  }

  /** After turn i the loop goes on: it had a task, and time is left. */
  predicate WentOn(slots: seq<Slot>, served: seq<Served>, i: nat)
    requires i < |served| <= |slots|
  {
    served[i].got.task != NoTask && !slots[i].up
  }

  /**
   Why and how the loop is over after its last turn, with what it left. It goes on while tasks come and time is left.
   When time is up it returns true, when Get brings no task whether it is not quitting; while Get still waits, and when
   the turns run out, it has not returned.
   */
  ghost predicate ProcessEnds(slots: seq<Slot>, first: Shared, served: seq<Served>, now: Shared,
                              finished: bool, result: bool) {
    && IsProcess(slots, first, served)
    && (slots == [] ==> !finished && now == first)
    && (slots != [] ==>
          && served != []
          && var n := |served| - 1;
             if served[n].got.task == NoTask then
               now == served[n].got.after && finished == !served[n].got.end.StillWaiting? && result == !now.stop
             else
               && now == AfterTurn(served[n], slots[n].turn)
               && if slots[n].up then finished && result else |served| == |slots| && !finished)
  }

  /** What a call of ProcessMessages ran: the tasks of its turns, but for a last turn that got none. */
  function TasksOf(served: seq<Served>): seq<Task>
    decreases |served|
  {
    if served == [] then []
    else
      var task := served[|served| - 1].got.task;
      TasksOf(served[..|served| - 1]) + if task == NoTask then [] else [task]
  }

  /** These tasks were handed out since `from`, in push order; at the end maybe an empty functor beyond them. */
  predicate IsStretch(pushed: seq<Task>, taken: nat, ran: seq<Task>, from: nat, ended: bool) {
    && NoTask !in ran && from + |ran| <= taken <= |pushed| && ran == pushed[from..from + |ran|]
    && (taken == from + |ran| || (ended && taken == from + |ran| + 1 && pushed[taken - 1] == NoTask))
  }

  lemma StretchStays(pushed: seq<Task>, pushed': seq<Task>, taken: nat, ran: seq<Task>, from: nat, ended: bool)
    requires IsStretch(pushed, taken, ran, from, ended) && pushed <= pushed'
    ensures IsStretch(pushed', taken, ran, from, ended)
  {
  }

  lemma StretchOneMore(pushed: seq<Task>, taken: nat, ran: seq<Task>, from: nat, task: Task)
    requires IsStretch(pushed, taken, ran, from, false) && taken < |pushed| && task == pushed[taken]
    ensures task == NoTask ==> IsStretch(pushed, taken + 1, ran, from, true)
    ensures task != NoTask ==> IsStretch(pushed, taken + 1, ran + [task], from, false)
  {
  }

  class Thread {
    var messages: seq<Task>
    const delayed: MessageHeap
    var nextNum: nat
    var stop: bool
    ghost var pushed: seq<Task>  // every functor that ever entered messages
    ghost var taken: nat         // how many of them Get has handed out

    constructor ()
      ensures Valid() && fresh(delayed)
      ensures View() == Queues([], multiset{}, 1) && !stop && pushed == [] && taken == 0
    {
      messages, nextNum, stop, pushed, taken := [], 1, false, [], 0;
      delayed := new MessageHeap();
    }

    ghost predicate Valid()
      reads this, delayed
    {
      delayed.Valid() && taken <= |pushed| && messages == pushed[taken..]
    }

    ghost function View(): Queues
      reads this, delayed
    {
      Queues(messages, delayed.Contents(), nextNum)
    }

    method PostTaskImpl(task: Task) returns (woke: bool)
      requires Valid()
      modifies this`messages, this`pushed
      ensures Valid() && woke == !stop
      ensures View() == if stop then old(View()) else WithTask(old(View()), task)
      ensures pushed == if stop then old(pushed) else old(pushed) + [task]
    {
      if stop {
        return false;
      }
      messages := messages + [task];
      pushed := pushed + [task];
      return true;
    }

    method PostDelayedTaskImpl(task: Task, delayMs: int, nowMs: int) returns (woke: bool)
      requires Valid()
      modifies this`nextNum, delayed
      ensures Valid() && woke == !stop
      ensures View() == if stop then old(View()) else WithTimer(old(View()), task, delayMs, nowMs + delayMs)
    {
      if stop {
        return false;
      }
      delayed.Push(DelayedMessage(delayMs, nowMs + delayMs, nextNum, task));
      nextNum := (nextNum + 1) % NUMBER_MODULUS;
      return true;
    }

    method Quit()
      modifies this`stop
      ensures stop
    {
      stop := true;
    }

    method Restart()
      modifies this`stop
      ensures !stop
    {
      stop := false;
    }

    method ProcessDelayedMessage(nowMs: int) returns (gap: int, ghost due: seq<DelayedMessage>)
      requires Valid()
      modifies this`messages, this`pushed, delayed
      ensures Valid()
      ensures Drained(old(View()), nowMs, due, View())
      ensures IsGap(delayed.Contents(), nowMs, gap)
      ensures pushed == old(pushed) + Functors(due)
    {
      due := [];
      while delayed.data != []
        invariant Valid()
        invariant Draining(old(delayed.Contents()), nowMs, due, delayed.Contents())
        invariant Moved(old(messages), old(pushed), due)
        decreases |delayed.data|
      {
        var top := delayed.Top();
        if nowMs < top.runTimeMs {
          EarliestIsOnTop();
          DrainingEnds(old(delayed.Contents()), nowMs, due, delayed.Contents(), top);
          return top.runTimeMs - nowMs, due;
        }
        due := MoveTop(nowMs, old(delayed.Contents()), old(messages), old(pushed), due);
      }
      assert delayed.Contents() == multiset{};
      DrainingEmpties(old(delayed.Contents()), nowMs, due);
      return FOREVER, due;
    }

    /** The tasks of `due` were appended to both, in that order. */
    ghost predicate Moved(messages0: seq<Task>, pushed0: seq<Task>, due: seq<DelayedMessage>)
      reads this
    {
      messages == messages0 + Functors(due) && pushed == pushed0 + Functors(due)
    }

    /** One round of the loop: the earliest timer goes from the heap to the task queue. */
    method MoveTop(nowMs: int, ghost heap: multiset<DelayedMessage>, ghost messages0: seq<Task>,
                   ghost pushed0: seq<Task>, ghost due: seq<DelayedMessage>)
      returns (ghost due': seq<DelayedMessage>)
      requires Valid() && delayed.data != [] && delayed.data[0].runTimeMs <= nowMs
      requires Draining(heap, nowMs, due, delayed.Contents()) && Moved(messages0, pushed0, due)
      modifies this`messages, this`pushed, delayed
      ensures Valid() && |delayed.data| == old(|delayed.data|) - 1
      ensures due' == due + [old(delayed.data[0])]
      ensures Draining(heap, nowMs, due', delayed.Contents()) && Moved(messages0, pushed0, due')
    {
      var top := delayed.Top();
      due' := due + [top];
      EarliestIsOnTop();
      DrainingStep(heap, nowMs, due, delayed.Contents(), top);
      FunctorsAppend(due, top);
      messages := messages + [top.functor];
      pushed := pushed + [top.functor];
      assert delayed.data[0] in delayed.Contents();
      delayed.Pop();
      assert |delayed.data| == |delayed.Contents()|;
    }

    lemma EarliestIsOnTop()
      requires Valid() && delayed.data != []
      ensures IsEarliest(delayed.data[0], delayed.Contents())
    {
      forall m | m in delayed.Contents()
        ensures NoLater(delayed.data[0], m)
      {
        var i :| 0 <= i < |delayed.data| && delayed.data[i] == m;
        FrontIsEarliest(delayed.data, i);
      }
    }

    ghost function State(): Shared
      reads this, delayed
    {
      Shared(View(), stop)
    }

    /** What other threads do to this one while it is not holding its mutex. */
    method RunPosts(posts: seq<Post>)
      requires Valid()
      modifies this`messages, this`pushed, this`nextNum, delayed
      ensures Valid() && View() == AfterPosts(old(View()), stop, posts)
      ensures pushed == old(pushed) + NowTasks(stop, posts)
    {
      for i := 0 to |posts|
        invariant Valid() && View() == AfterPosts(old(View()), stop, posts[..i])
        invariant pushed == old(pushed) + NowTasks(stop, posts[..i])
      {
        OnePostMore(old(View()), stop, posts, i);
        RunPost(posts[i]);
      }
      assert posts[..|posts|] == posts;
    }

    method RunPost(p: Post)
      requires Valid()
      modifies this`messages, this`pushed, this`nextNum, delayed
      ensures Valid() && View() == AfterPost(old(View()), stop, p)
      ensures pushed == old(pushed) + if p.Now? && !stop then [p.task] else []
    {
      match p
      case Now(task) => var _ := PostTaskImpl(task);
      case Later(task, delayMs, atMs) =>
        var _ := PostDelayedTaskImpl(task, delayMs, atMs);
        assert pushed == pushed + [];
    }

    /** The part of Get that holds the mutex: move the due timers, then take the front task if there is one. */
    method TakeTask(nowMs: int) returns (found: bool, task: Task, gap: int, ghost r: Round)
      requires Valid()
      modifies this`messages, this`pushed, this`taken, delayed
      ensures Valid() && old(pushed) <= pushed
      ensures r.found == old(State()) && r.nowMs == nowMs && Drained(r.found.q, nowMs, r.due, r.drained)
      ensures found <==> r.drained.messages != []
      ensures found ==> task == r.drained.messages[0] && View() == r.drained.(messages := r.drained.messages[1..])
      ensures found ==> taken == old(taken) + 1 && task == pushed[old(taken)]
      ensures !found ==> task == NoTask && View() == r.drained && taken == old(taken)
      ensures !found ==> IsGap(delayed.Contents(), nowMs, gap)
    {
      ghost var s := State();
      ghost var due;
      gap, due := ProcessDelayedMessage(nowMs);
      r := Round(s, nowMs, due, View());
      found := messages != [];
      task := NoTask;
      if found {
        task := messages[0];
        messages := messages[1..];
        taken := taken + 1;
      }
    }

    /** What happens while SocketServer::Wait blocks. */
    method DuringWait(w: WaitOutcome)
      requires Valid()
      modifies this`messages, this`pushed, this`nextNum, this`stop, delayed
      ensures Valid() && old(pushed) <= pushed && State() == AfterWait(old(State()), w)
    {
      RunPosts(w.posts);
      if w.quit {
        Quit();
      }
    }

    /** One pass of the loop of Get, with the wait at its end if it comes to that. */
    method GetRound(cmsWait: int, startMs: int, nowMs: int, waits: seq<WaitOutcome>, i: nat)
      returns (over: bool, task: Task, end: GetEnd, lastMs: int, ghost r: Round, ghost asked: seq<Request>)
      requires Valid() && i <= |waits|
      modifies this, delayed
      ensures Valid() && old(pushed) <= pushed
      ensures over && end.GotTask? ==> taken == old(taken) + 1 && task == pushed[old(taken)]
      ensures !(over && end.GotTask?) ==> taken == old(taken)
      ensures r.found == old(State()) && r.nowMs == nowMs && Drains(r)
      ensures over <==> !(i < |waits| && GoesOn(cmsWait, startMs, r, waits[i]))
      ensures over ==> GetResult(end, task, State(), lastMs) == ResultOf(cmsWait, startMs, r, waits, i)
      ensures !over ==> State() == AfterWait(Left(r), waits[i]) && lastMs == waits[i].nowMs
      ensures if ComesToWait(r) then |asked| == 1 && IsRequest(asked[0], cmsWait, startMs, r) else asked == []
    {
      over, end, lastMs, asked := true, GotTask, nowMs, [];
      var found, gap;
      found, task, gap, r := TakeTask(nowMs);
      if found {
        return;
      }
      if stop {
        end := Quitting;
        return;
      }
      var timeout := WaitTimeout(cmsWait, nowMs - startMs, gap);
      asked := [Request(timeout, r.drained.delayed, nowMs)];
      if i == |waits| {
        end := StillWaiting;
        return;
      }
      DuringWait(waits[i]);
      if !waits[i].ok {
        end := WaitFailed;
        return;
      }
      lastMs := waits[i].nowMs;
      over, end := cmsWait != FOREVER && cmsWait <= lastMs - startMs, TimedOut;
    }

    /** The waits are given as outcomes; when they run out, the loop is still waiting. */
    method Get(cmsWait: int, startMs: int, waits: seq<WaitOutcome>)
      returns (task: Task, end: GetEnd, lastMs: int, ghost requests: seq<Request>, ghost rounds: seq<Round>)
      requires Valid()
      modifies this, delayed
      ensures Valid() && old(pushed) <= pushed
      // a task is the next one in push order, and only then is one consumed
      ensures end.GotTask? ==> taken == old(taken) + 1 && task == pushed[old(taken)]
      ensures !end.GotTask? ==> taken == old(taken)
      // which end it is, what it left and when; EndTells says what that means
      ensures GetEnds(cmsWait, startMs, waits, old(State()), rounds, GetResult(end, task, State(), lastMs))
      ensures Ready(old(View()), startMs) ==> end.GotTask?
      // quitting drains: nothing is queued and no timer is due
      ensures end.Quitting? ==> stop && messages == [] && NoneDue(delayed.Contents(), lastMs)
      ensures end.TimedOut? ==> BudgetOver(cmsWait, startMs, lastMs)
      ensures end.WaitFailed? ==> exists w :: w in waits && !w.ok
      ensures end.StillWaiting? ==> forall w :: w in waits ==> w.ok
      // each round that waits asks for no longer than its timers and its budget allow
      ensures Asked(cmsWait, startMs, rounds, requests)
    {
      task, end, lastMs, requests, rounds := NoTask, StillWaiting, startMs, [], [];
      var i, over := 0, false;
      while !over
        invariant 0 <= i <= |waits| + (if over then 1 else 0) && Valid() && old(pushed) <= pushed
        invariant over && end.GotTask? ==> taken == old(taken) + 1 && task == pushed[old(taken)]
        invariant !(over && end.GotTask?) ==> taken == old(taken)
        invariant !over ==> SoFar(cmsWait, startMs, waits, old(State()), rounds, i, State(), lastMs)
        invariant over ==>
                    GetEnds(cmsWait, startMs, waits, old(State()), rounds, GetResult(end, task, State(), lastMs))
        invariant Asked(cmsWait, startMs, rounds, requests)
        decreases |waits| + 1 - i
      {
        ghost var now := State();
        ghost var r, asked;
        over, task, end, lastMs, r, asked := GetRound(cmsWait, startMs, lastMs, waits, i);
        if over {
          LastRound(cmsWait, startMs, waits, old(State()), rounds, i, now, r);
        } else {
          NextRound(cmsWait, startMs, waits, old(State()), rounds, i, now, r);
        }
        RoundAsks(cmsWait, startMs, rounds, requests, r, asked);
        rounds, requests := rounds + [r], requests + asked;
        i := i + 1;
      }
      EndTells(cmsWait, startMs, waits, old(State()), rounds, GetResult(end, task, State(), lastMs));
    }

    /** Runs at most |turns| tasks; `finished` tells whether the source's loop would have returned, with `result`. */
    method ProcessMessages(cms: int, nowMs: int, turns: seq<Turn>)
      returns (finished: bool, result: bool, ran: seq<Task>, ghost served: seq<Served>)
      requires Valid()
      modifies this, delayed
      ensures Valid() && old(pushed) <= pushed
      // what ran is the next stretch of the push order; at most an empty functor was consumed beyond it
      ensures IsStretch(pushed, taken, ran, old(taken), finished) && |ran| <= |turns|
      // the calls of Get, each from what the one before it and its task left, and why there are no more
      ensures ProcessEnds(Slots(cms, nowMs, turns), old(State()), served, State(), finished, result)
      ensures ran == TasksOf(served)
      ensures turns != [] && Ready(old(View()), turns[0].startMs) ==> taken > old(taken)
    {
      var msEnd := if cms == FOREVER then 0 else nowMs + cms;
      var cmsNext := cms;
      ran, served := [], [];
      ghost var slots := Slots(cms, nowMs, turns);
      FirstBudget(cms, nowMs, turns);
      for i := 0 to |turns|
        invariant Valid() && old(pushed) <= pushed && |ran| == |served| == i
        invariant IsStretch(pushed, taken, ran, old(taken), false) && ran == TasksOf(served)
        invariant i > 0 ==> taken > old(taken)
        invariant InProcess(slots, old(State()), served, State())
        invariant i < |slots| ==> cmsNext == slots[i].budget
      {
        var task, end;
        task, end, ran, served := ServeTurn(cmsNext, turns[i], slots, old(State()), served, ran, old(taken));
        if task == NoTask {
          return end != StillWaiting, !stop, ran, served;
        }
        var up;
        cmsNext, up := TimeLeft(cms, msEnd, nowMs, turns, i);
        if up {
          return true, true, ran, served;
        }
      }
      TurnsRunOut(slots, old(State()), served, State());
      return false, false, ran, served;
    }

    /** The rest of the limit after turn i, and whether it is negative. */
    static method TimeLeft(cms: int, msEnd: int, ghost nowMs: int, turns: seq<Turn>, i: nat)
      returns (cmsNext: int, up: bool)
      requires i < |turns| && (cms != FOREVER ==> msEnd == nowMs + cms)
      ensures up == Slots(cms, nowMs, turns)[i].up
      ensures i + 1 < |turns| ==> cmsNext == Slots(cms, nowMs, turns)[i + 1].budget
    {
      SlotTells(cms, nowMs, turns, i);
      if i + 1 < |turns| {
        SlotTells(cms, nowMs, turns, i + 1);
      }
      cmsNext, up := cms, false;
      if cms != FOREVER {
        cmsNext := ToInt32(msEnd - turns[i].endMs);
        if cmsNext < 0 {
          up := true;
        }
      }
    }

    /** One turn of the loop of ProcessMessages, up to the question whether time is left. */
    method ServeTurn(budget: int, turn: Turn, ghost slots: seq<Slot>, ghost first: Shared, ghost served: seq<Served>,
                     ran: seq<Task>, ghost from: nat)
      returns (task: Task, end: GetEnd, ran': seq<Task>, ghost served': seq<Served>)
      requires Valid() && InProcess(slots, first, served, State()) && |served| < |slots|
      requires slots[|served|].turn == turn && slots[|served|].budget == budget
      requires IsStretch(pushed, taken, ran, from, false) && ran == TasksOf(served)
      modifies this, delayed
      ensures Valid() && old(pushed) <= pushed && |served'| == |served| + 1 && ran' == TasksOf(served')
      ensures |ran'| == |ran| + if task == NoTask then 0 else 1
      ensures IsStretch(pushed, taken, ran', from, task == NoTask && end.GotTask?)
      ensures task == NoTask ==> ProcessEnds(slots, first, served', State(), end != StillWaiting, !stop)
      ensures task != NoTask ==>
                if slots[|served|].up then ProcessEnds(slots, first, served', State(), true, true)
                else InProcess(slots, first, served', State())
      ensures Ready(old(View()), turn.startMs) || task != NoTask ==> taken > old(taken)
      ensures taken >= old(taken)
    {
      ghost var now := State();
      ghost var s;
      task, end, ran', s := RunTurn(budget, turn, slots[|served|], ran, from);
      served' := served + [s];
      ServedNext(slots, first, served, now, s);
      ServedLast(slots, first, served, now, s, State(), end != StillWaiting, !stop);
    }

    /** The Get of one turn, and what its task posts. */
    method RunTurn(budget: int, turn: Turn, ghost slot: Slot, ran: seq<Task>, ghost from: nat)
      returns (task: Task, end: GetEnd, ran': seq<Task>, ghost s: Served)
      requires Valid() && slot.turn == turn && slot.budget == budget && IsStretch(pushed, taken, ran, from, false)
      modifies this, delayed
      ensures Valid() && old(pushed) <= pushed
      ensures ServedOk(slot, old(State()), s) && s.got.end == end && s.got.task == task
      ensures taken > old(taken) <==> end.GotTask?
      ensures task == NoTask ==> ran' == ran && State() == s.got.after
      ensures task != NoTask ==> ran' == ran + [task] && State() == AfterTurn(s, turn)
      ensures IsStretch(pushed, taken, ran', from, task == NoTask && end.GotTask?)
      ensures Ready(old(View()), turn.startMs) || task != NoTask ==> taken > old(taken)
      ensures taken >= old(taken)
    {
      var lastMs;
      ghost var requests, rounds;
      task, end, lastMs, requests, rounds := Get(budget, turn.startMs, turn.waits);
      s := Served(budget, rounds, GetResult(end, task, State(), lastMs));
      ran' := ran;
      NoneWithoutTask(budget, turn, rounds, old(State()), s.got);
      StretchStays(old(pushed), pushed, old(taken), ran, from, false);
      if end.GotTask? {
        StretchOneMore(pushed, old(taken), ran, from, task);
      }
      if task != NoTask {
        ran' := ran + [task];
        DispatchTask(turn, ran', from);
      }
    }

    /** What the task of this turn posts while it runs. */
    method DispatchTask(turn: Turn, ghost ran: seq<Task>, ghost from: nat)
      requires Valid() && IsStretch(pushed, taken, ran, from, false)
      modifies this`messages, this`pushed, this`nextNum, delayed
      ensures Valid() && old(pushed) <= pushed && IsStretch(pushed, taken, ran, from, false)
      ensures State() == Shared(AfterPosts(old(View()), stop, turn.posts), stop)
    {
      RunPosts(turn.posts);
      StretchStays(old(pushed), pushed, taken, ran, from, false);
    }
  }

  // ----- the steps of the two loops -----

  /** i rounds went on, and this is what there is now. */
  ghost predicate SoFar(cmsWait: int, startMs: int, waits: seq<WaitOutcome>, first: Shared, rounds: seq<Round>, i: nat,
                        now: Shared, lastMs: int) {
    && i == |rounds| <= |waits|
    && (i == 0 ==> now == first && lastMs == startMs)
    && (i > 0 ==>
          && IsGet(cmsWait, startMs, waits, first, rounds)
          && GoesOn(cmsWait, startMs, rounds[i - 1], waits[i - 1])
          && now == AfterWait(Left(rounds[i - 1]), waits[i - 1]) && lastMs == waits[i - 1].nowMs)
  }

  lemma RoundFollows(cmsWait: int, startMs: int, waits: seq<WaitOutcome>, first: Shared, rounds: seq<Round>, i: nat,
                     now: Shared, r: Round)
    requires SoFar(cmsWait, startMs, waits, first, rounds, i, now, r.nowMs) && r.found == now && Drains(r)
    ensures IsGet(cmsWait, startMs, waits, first, rounds + [r])
  {
    var more := rounds + [r];
    forall j | 0 <= j < |more| - 1
      ensures GoesOn(cmsWait, startMs, more[j], waits[j]) && Follows(waits, more, j)
    {
      assert more[j] == rounds[j];
      if j < i - 1 {
        FollowsStill(waits, rounds, r, j);
      }
    }
    forall j | 0 <= j < |more|
      ensures Drains(more[j])
    {
      assert j < |rounds| ==> more[j] == rounds[j];
    }
  }

  lemma FollowsStill(waits: seq<WaitOutcome>, rounds: seq<Round>, r: Round, j: nat)
    requires j < |rounds| - 1 && j < |waits| && Follows(waits, rounds, j)
    ensures Follows(waits, rounds + [r], j)
  {
  }

  lemma NextRound(cmsWait: int, startMs: int, waits: seq<WaitOutcome>, first: Shared, rounds: seq<Round>, i: nat,
                  now: Shared, r: Round)
    requires SoFar(cmsWait, startMs, waits, first, rounds, i, now, r.nowMs) && r.found == now && Drains(r)
    requires i < |waits| && GoesOn(cmsWait, startMs, r, waits[i])
    ensures SoFar(cmsWait, startMs, waits, first, rounds + [r], i + 1, AfterWait(Left(r), waits[i]), waits[i].nowMs)
  {
    RoundFollows(cmsWait, startMs, waits, first, rounds, i, now, r);
  }

  lemma LastRound(cmsWait: int, startMs: int, waits: seq<WaitOutcome>, first: Shared, rounds: seq<Round>, i: nat,
                  now: Shared, r: Round)
    requires SoFar(cmsWait, startMs, waits, first, rounds, i, now, r.nowMs) && r.found == now && Drains(r)
    requires !(i < |waits| && GoesOn(cmsWait, startMs, r, waits[i]))
    ensures GetEnds(cmsWait, startMs, waits, first, rounds + [r], ResultOf(cmsWait, startMs, r, waits, i))
  {
    RoundFollows(cmsWait, startMs, waits, first, rounds, i, now, r);
  }

  lemma RoundAsks(cmsWait: int, startMs: int, rounds: seq<Round>, requests: seq<Request>, r: Round, asked: seq<Request>)
    requires Asked(cmsWait, startMs, rounds, requests)
    requires if ComesToWait(r) then |asked| == 1 && IsRequest(asked[0], cmsWait, startMs, r) else asked == []
    ensures Asked(cmsWait, startMs, rounds + [r], requests + asked)
  {
    assert (rounds + [r])[..|rounds|] == rounds;
    if ComesToWait(r) {
      assert (requests + asked)[..|requests|] == requests;
    } else {
      assert requests + asked == requests;
    }
  }

  /** All turns so far had a task and time left, and this is what there is now. */
  ghost predicate InProcess(slots: seq<Slot>, first: Shared, served: seq<Served>, now: Shared) {
    && IsProcess(slots, first, served)
    && (served != [] ==> WentOn(slots, served, |served| - 1))
    && now == StartOf(slots, first, served, |served|)
  }

  lemma ServedNext(slots: seq<Slot>, first: Shared, served: seq<Served>, now: Shared, s: Served)
    requires InProcess(slots, first, served, now) && |served| < |slots| && ServedOk(slots[|served|], now, s)
    ensures IsProcess(slots, first, served + [s])
    ensures TasksOf(served + [s]) == TasksOf(served) + if s.got.task == NoTask then [] else [s.got.task]
  {
    var more := served + [s];
    assert more[..|served|] == served;
    forall i | 0 <= i < |more|
      ensures TurnOk(slots, first, more, i)
    {
      SameStart(slots, first, served, s, i);
      assert i < |served| ==> TurnOk(slots, first, served, i);
    }
    forall i | 0 <= i < |more| - 1
      ensures WentOn(slots, more, i)
    {
      assert WentOn(slots, served, i);
    }
  }

  /** What the turn just served makes of the loop: it goes on, or this is its end. */
  lemma ServedLast(slots: seq<Slot>, first: Shared, served: seq<Served>, now: Shared, s: Served, after: Shared,
                   finished: bool, stopped: bool)
    requires InProcess(slots, first, served, now) && |served| < |slots| && ServedOk(slots[|served|], now, s)
    requires after == if s.got.task == NoTask then s.got.after else AfterTurn(s, slots[|served|].turn)
    requires finished == !s.got.end.StillWaiting? && stopped == !after.stop
    ensures s.got.task == NoTask ==> ProcessEnds(slots, first, served + [s], after, finished, stopped)
    ensures s.got.task != NoTask && slots[|served|].up ==> ProcessEnds(slots, first, served + [s], after, true, true)
    ensures s.got.task != NoTask && !slots[|served|].up ==> InProcess(slots, first, served + [s], after)
    ensures s.got.task != NoTask && !slots[|served|].up && |served| + 1 == |slots| ==>
              ProcessEnds(slots, first, served + [s], after, false, false)
  {
    ServedNext(slots, first, served, now, s);
  }

  lemma TurnsRunOut(slots: seq<Slot>, first: Shared, served: seq<Served>, now: Shared)
    requires InProcess(slots, first, served, now) && |served| == |slots|
    ensures ProcessEnds(slots, first, served, now, false, false)
  {
  }

  /** Without a task in hand Get gives back none. */
  lemma NoneWithoutTask(budget: int, turn: Turn, rounds: seq<Round>, first: Shared, r: GetResult)
    requires GetEnds(budget, turn.startMs, turn.waits, first, rounds, r)
    ensures !r.end.GotTask? ==> r.task == NoTask
  {
  }

  lemma SameStart(slots: seq<Slot>, first: Shared, served: seq<Served>, s: Served, i: nat)
    requires i <= |served| < |slots|
    ensures StartOf(slots, first, served + [s], i) == StartOf(slots, first, served, i)
  {
  }
}
