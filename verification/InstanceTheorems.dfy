/** What one instance guarantees over all its runs: refresh spacing, bursts, and waiters. */
module InstanceTheorems {
  import opened Basics
  import opened Catalogue
  import opened Index
  import opened RefreshProgram
  import opened Instance
  import IP = IndexProgram

  // ---------------------------------------------------------------- what a step keeps

  predicate Ended(pc: IP.Pc) {
    pc.Served? || pc.Refused?
  }

  ghost predicate ClockLater(x: Inst, y: Inst) {
    && y.interval == x.interval && x.clock <= y.clock && (y.open ==> x.open)
    && (forall p :: p in x.refresher.last ==> p in y.refresher.last && x.refresher.last[p] <= y.refresher.last[p])
  }

  ghost predicate StampsLater(x: Inst, y: Inst) {
    forall p :: p in x.stamps ==> p in y.stamps && x.stamps[p] <= y.stamps[p]
  }

  ghost predicate ContactsLater(x: Inst, y: Inst) {
    forall p :: p in x.contacts ==> p in y.contacts && x.contacts[p] <= y.contacts[p]
  }

  ghost predicate FirstLater(x: Inst, y: Inst) {
    forall p :: p in x.first ==> p in y.first && y.first[p] == x.first[p]
  }

  ghost predicate TimesLater(x: Inst, y: Inst) {
    ClockLater(x, y) && StampsLater(x, y) && ContactsLater(x, y) && FirstLater(x, y)
  }

  ghost predicate QueuesLater(x: Inst, y: Inst) {
    && x.accepted <= y.accepted && x.finished <= y.finished && x.answers <= y.answers && x.outcomes <= y.outcomes
    && forall h :: h in x.handlers ==> h in y.handlers && HandlerLater(x.handlers[h], y.handlers[h])
  }

  /** A handler keeps what it asked, and its outcome once it has one. */
  predicate HandlerLater(f: Handler, g: Handler) {
    && g.provider == f.provider
    && (Ended(f.pc) ==> g.pc == f.pc && g.got == f.got && g.missedAt == f.missedAt)
  }

  /** What later states of an instance keep of earlier ones: recorded times never go back or away,
      refreshes are only added, waiters only join at the end, answers are final. */
  ghost predicate Later(x: Inst, y: Inst) {
    TimesLater(x, y) && QueuesLater(x, y)
  }

  lemma LaterTransitive(x: Inst, y: Inst, z: Inst)
    requires Later(x, y) && Later(y, z)
    ensures Later(x, z)
  {
  }

  lemma WorkClock(x: Inst, w: Event, logged: nat)
    requires LastInv(x) && Do(x, Work(w), logged).Some?
    ensures ClockLater(x, Do(x, Work(w), logged).value)
  {
    LastMoves(x.interval, x.refresher, w);
  }

  lemma WorkHistory(x: Inst, w: Event, logged: nat)
    requires Do(x, Work(w), logged).Some?
    ensures var y := Do(x, Work(w), logged).value; StampsLater(x, y) && ContactsLater(x, y) && FirstLater(x, y)
  {
  }

  lemma WorkQueues(x: Inst, w: Event, logged: nat)
    requires Do(x, Work(w), logged).Some?
    ensures QueuesLater(x, Do(x, Work(w), logged).value)
  {
  }

  lemma WorkIsLater(x: Inst, w: Event, logged: nat)
    requires LastInv(x) && Do(x, Work(w), logged).Some?
    ensures Later(x, Do(x, Work(w), logged).value)
  {
    WorkClock(x, w, logged);
    WorkHistory(x, w, logged);
    WorkQueues(x, w, logged);
  }

  lemma HandleIsLater(x: Inst, h: nat, e: IP.Event, logged: nat)
    requires DoHandle(x, h, e, logged).Some?
    ensures Later(x, DoHandle(x, h, e, logged).value)
  {
  }

  lemma StepIsLater(x: Inst, step: Step, logged: nat)
    requires LastInv(x) && Do(x, step, logged).Some?
    ensures Later(x, Do(x, step, logged).value)
  {
    match step
    case Work(w) => WorkIsLater(x, w, logged);
    case Handle(h, e) => HandleIsLater(x, h, e, logged);
    case _ =>
  }

  // ---------------------------------------------------------------- refresh rate

  /** Once a refresh of a provider is recorded, every later one starts more than an interval after it
      ended, recorded or still under way. */
  lemma RateLimit(x: Inst, log: seq<Commit>, i: nat, p: Provider, k: nat)
    requires Inv(x, log, i) && p in x.stamps && k < |x.stamps[p]|
    ensures forall m :: k < m < |x.stamps[p]| ==> x.stamps[p][m].start > x.stamps[p][k].end + x.interval
    ensures Upstream(x.refresher.worker) && x.refresher.worker.msg.provider == p ==>
              x.startedAt > x.stamps[p][k].end + x.interval
    ensures p in x.refresher.last && x.stamps[p][k].end <= x.refresher.last[p] <= x.clock
  {
    var rs := x.stamps[p];
    assert Spaced(x.interval, rs);
    EndsGrow(x.interval, rs, k, |rs| - 1);
    forall m | k < m < |rs| ensures rs[m].start > rs[k].end + x.interval {
      EndsGrow(x.interval, rs, k, m - 1);
    }
  }

  /** Every contact with upstream for a remembered provider follows a recorded refresh of its own, by more
      than an interval, and is itself recorded once it is over. */
  lemma ContactsFollowRefreshes(x: Inst, log: seq<Commit>, i: nat, p: Provider, k: nat)
    requires Inv(x, log, i) && p in x.contacts && k < |x.contacts[p]|
    ensures p in x.stamps && k < |x.stamps[p]|
    ensures x.contacts[p][k] > x.stamps[p][k].end + x.interval
    ensures k + 1 < |x.stamps[p]| ==> x.contacts[p][k] == x.stamps[p][k + 1].start
    ensures k + 1 == |x.stamps[p]| ==>
              Upstream(x.refresher.worker) && x.refresher.worker.msg.provider == p && x.contacts[p][k] == x.startedAt
  {
    assert ContactsAt(x, p);
    var rs := AllRefreshes(x, p);
    assert rs[k + 1].start > rs[k].end + x.interval;
  }

  /** k - j contacts in a row take more than k - j intervals. */
  lemma ContactsAreSpaced(x: Inst, log: seq<Commit>, i: nat, p: Provider, j: nat, k: nat)
    requires Inv(x, log, i) && p in x.contacts && j < k < |x.contacts[p]|
    ensures x.contacts[p][k] - x.contacts[p][j] > (k - j) * x.interval
  {
    assert ContactsAt(x, p);
    var rs := AllRefreshes(x, p);
    RefreshesSpan(x.interval, rs, j + 1, k + 1);
    assert x.contacts[p][j] == rs[j + 1].start && x.contacts[p][k] == rs[k + 1].start;
    assert k + 1 - (j + 1) == k - j;
  }

  /** The recorded refreshes of a provider, followed by the one under way. */
  lemma AllRefreshes(x: Inst, p: Provider) returns (rs: seq<Refreshed>)
    requires LastInv(x) && ContactsAt(x, p) && p in x.stamps
    ensures Spaced(x.interval, rs) && rs != [] && x.stamps[p] != [] && rs[0] == x.stamps[p][0]
    ensures |ContactsOf(x, p)| == |rs| - 1 && x.stamps[p] <= rs
    ensures forall k :: 0 <= k < |rs| - 1 ==> ContactsOf(x, p)[k] == rs[k + 1].start
  {
    rs := x.stamps[p];
    if UnderWay(x, p) != [] {
      SpacedSnoc(x.interval, rs, x.startedAt, x.clock);
      rs := rs + [Refreshed(x.startedAt, x.clock)];
    }
  }

  lemma {:induction false} EndsGrow(interval: nat, rs: seq<Refreshed>, j: nat, k: nat)
    requires Spaced(interval, rs) && j <= k < |rs|
    ensures rs[j].end <= rs[k].end
    decreases k
  {
    if j < k {
      EndsGrow(interval, rs, j, k - 1);
    }
  }

  // ---------------------------------------------------------------- waiters

  /** Every request the refresher is done with that has a channel was answered, exactly once, and in the
      order the requests were accepted; nobody else was. */
  lemma AnsweredInOrder(x: Inst, log: seq<Commit>, i: nat)
    requires Inv(x, log, i)
    ensures x.answers == Channels(x.finished) && x.finished <= x.accepted
    ensures x.answers <= Channels(x.accepted) && NoDuplicates(x.answers)
    ensures |x.queue| <= 10_000
  {
    WaiterPlaces(x);
    forall j, k | 0 <= j < k < |x.answers| ensures x.answers[j] != x.answers[k] {
      assert Channels(x.accepted)[j] == x.answers[j] && Channels(x.accepted)[k] == x.answers[k];
    }
  }

  /** A live handler that is ready to send can put its message into the queue exactly while the instance is
      open and fewer than ten thousand messages are queued; the message then stands at the end and has an
      empty answer channel.  A handler that only reminds needs the same room. */
  lemma SendsIff(x: Inst, h: nat, logged: nat)
    requires h in x.handlers && x.handlers[h].live && (x.handlers[h].pc.Sending? || x.handlers[h].pc.Notifying?)
    ensures var p := x.handlers[h].pc.provider;
      var e := if x.handlers[h].pc.Sending? then IP.SendTried(p, IP.Accepted) else IP.TrySent(p, true);
      var m := Message(p, if x.handlers[h].pc.Sending? then Some(h) else None);
      var y := Do(x, Handle(h, e), logged);
      && (y.Some? <==> x.open && |x.queue| < 10_000)
      && (y.Some? ==> y.value.queue == x.queue + [m] && y.value.accepted == x.accepted + [m])
      && (y.Some? ==> y.value.slots == if e.SendTried? then x.slots[h := Empty] else x.slots)
  {
  }

  /** A refresh that has begun is finished before cancellation is seen; then the channel is closed for
      good, and everyone still queued is told so at once. */
  lemma StopReleasesWaiters(x: Inst, log: seq<Commit>, i: nat)
    requires Inv(x, log, i) && Do(x, Work(Cancelled), |log|).Some?
    ensures x.refresher.worker.Idle?
    ensures var y := Do(x, Work(Cancelled), |log|).value;
      && !y.open && !HasRoom(y)
      && (forall h :: h in Channels(x.queue) ==> h in y.slots && y.slots[h].Dropped?)
  {
    forall h | h in Channels(x.queue) ensures h in x.slots {
      PlacesAreApart(x, h);
      assert WaiterAt(x, h);
    }
    StopMoves(x, |log|);
  }

  lemma StopMoves(x: Inst, logged: nat)
    requires Do(x, Work(Cancelled), logged).Some?
    ensures x.refresher.worker.Idle?
    ensures var y := Do(x, Work(Cancelled), logged).value;
      && !y.open
      && (forall h :: h in Channels(x.queue) && h in x.slots ==> h in y.slots && y.slots[h].Dropped?)
  {
  }

  /** How many moves the refresher still needs to be done with what it has in hand. */
  function WorkLeft(w: Worker): nat {
    match w
    case Checking(_) => 5
    case Fetching(_) => 4
    case Storing(_, _) => 3
    case Stamping(_, _) => 2
    case Replying(_, _) => 1
    case _ => 0
  }

  /** The position of a waiter in the queue, counted from one; the length plus one if it is not there. */
  function Position(queue: seq<Message>, h: nat): nat {
    if queue == [] then 1 else if queue[0].channel == Some(h) then 1 else 1 + Position(queue[1..], h)
  }

  /** An upper bound on the refresher's moves until waiter `h` has its answer. */
  function Rank(x: Inst, h: nat): nat {
    if h in Channels(x.queue) then WorkLeft(x.refresher.worker) + 6 * Position(x.queue, h)
    else if h in Channels(Hand(x.refresher.worker)) then WorkLeft(x.refresher.worker)
    else 0
  }

  lemma {:induction false} PositionStays(queue: seq<Message>, ms: seq<Message>, h: nat)
    requires h in Channels(queue)
    ensures Position(queue + ms, h) == Position(queue, h)
    decreases |queue|
  {
    ChannelMember(queue, h);
    assert (queue + ms)[0] == queue[0];
    if queue[0].channel != Some(h) {
      HeadIsNot(queue, h);
      PositionStays(queue[1..], ms, h);
      assert (queue + ms)[1..] == queue[1..] + ms;
    }
  }

  lemma HeadIsNot(queue: seq<Message>, h: nat)
    requires queue != [] && queue[0].channel != Some(h)
    ensures h in Channels(queue) <==> h in Channels(queue[1..])
  {
    assert queue == [queue[0]] + queue[1..];
    ChannelsAppend([queue[0]], queue[1..]);
    SingleChannel(queue[0], h);
  }

  lemma SelectionBringsCloser(x: Inst, w: Event, logged: nat, h: nat)
    requires FifoInv(x) && NoDuplicates(Channels(x.accepted)) && Do(x, Work(w), logged).Some? && w.Selected?
    requires Rank(x, h) > 0
    ensures Rank(Do(x, Work(w), logged).value, h) < Rank(x, h)
  {
    HandMoves(x.interval, x.refresher, w);
    SingleChannel(w.msg, h);
    if w.msg.channel != Some(h) {
      HeadIsNot(x.queue, h);
    } else {
      StepKeepsFifo(x, Work(w), logged);
      PlacesAreApart(Do(x, Work(w), logged).value, h);
    }
  }

  lemma MoveBringsCloser(x: Inst, w: Event, logged: nat, h: nat)
    requires FifoInv(x) && Do(x, Work(w), logged).Some? && !w.Selected? && !w.Cancelled? && Rank(x, h) > 0
    ensures Rank(Do(x, Work(w), logged).value, h) < Rank(x, h)
  {
    HandMoves(x.interval, x.refresher, w);
    WorkShrinks(x.interval, x.refresher, w);
  }

  /** Each move of the refresher, other than stopping, brings every waiter strictly closer to its answer. */
  lemma WorkBringsWaitersCloser(x: Inst, w: Event, log: seq<Commit>, i: nat, h: nat)
    requires Inv(x, log, i) && Do(x, Work(w), |log|).Some? && !w.Cancelled? && Rank(x, h) > 0
    ensures Rank(Do(x, Work(w), |log|).value, h) < Rank(x, h)
  {
    if w.Selected? {
      SelectionBringsCloser(x, w, |log|, h);
    } else {
      MoveBringsCloser(x, w, |log|, h);
    }
  }

  lemma WorkShrinks(interval: nat, r: Refresher, e: Event)
    requires Next(interval, r, e).Some? && !e.Selected? && !e.Cancelled?
    ensures WorkLeft(Next(interval, r, e).value.worker) < WorkLeft(r.worker)
  {
  }

  /** Nobody else's step puts a waiter back. */
  lemma OthersDoNotPushBack(x: Inst, step: Step, log: seq<Commit>, i: nat, h: nat)
    requires Inv(x, log, i) && Do(x, step, |log|).Some? && !step.Work? && h in Channels(x.accepted)
    ensures Rank(Do(x, step, |log|).value, h) == Rank(x, h)
  {
    if step.Handle? {
      HandlersDoNotPushBack(x, step.h, step.e, |log|, h);
    }
  }

  lemma HandlersDoNotPushBack(x: Inst, g: nat, e: IP.Event, logged: nat, h: nat)
    requires WaiterInv(x) && DoHandle(x, g, e, logged).Some? && h in Channels(x.accepted)
    ensures Rank(DoHandle(x, g, e, logged).value, h) == Rank(x, h)
  {
    var sent := SentBy(g, e);
    if sent != [] {
      SendersAreOthers(x, g, e, logged, h);
      JoinsBehind(x.queue, sent[0], h);
    } else {
      assert x.queue + sent == x.queue;
    }
  }

  lemma SendersAreOthers(x: Inst, g: nat, e: IP.Event, logged: nat, h: nat)
    requires WaiterInv(x) && DoHandle(x, g, e, logged).Some? && h in Channels(x.accepted) && SentBy(g, e) != []
    ensures SentBy(g, e) == [SentBy(g, e)[0]] && SentBy(g, e)[0].channel != Some(h)
  {
    assert WaiterAt(x, h);
  }

  lemma JoinsBehind(queue: seq<Message>, m: Message, h: nat)
    requires m.channel != Some(h)
    ensures h in Channels(queue + [m]) <==> h in Channels(queue)
    ensures h in Channels(queue) ==> Position(queue + [m], h) == Position(queue, h)
  {
    ChannelsSnoc(queue, m);
    if h in Channels(queue) {
      PositionStays(queue, [m], h);
    }
  }

  /** The waiter has its answer, or finds its channel closed. */
  predicate Settled(x: Inst, h: nat) {
    h in x.slots && !x.slots[h].Empty?
  }

  lemma RankZeroIsSettled(x: Inst, h: nat)
    requires FifoInv(x) && WaiterInv(x) && SlotInv(x) && h in Channels(x.accepted)
    requires Rank(x, h) == 0
    ensures Settled(x, h)
  {
    PlacesAreApart(x, h);
    assert WaiterAt(x, h) && SlotTells(x, h);
    if h in Channels(Hand(x.refresher.worker)) {
      HandHasWork(x.refresher.worker);
      ChannelMember(Hand(x.refresher.worker), h);
    }
  }

  /** After the refresher has stopped nobody waits in vain: every waiting handler has an answer or a
      closed channel to receive. */
  lemma NobodyWaitsOnTheDead(x: Inst, log: seq<Commit>, i: nat, h: nat)
    requires Inv(x, log, i) && !x.open && h in x.handlers && x.handlers[h].live && x.handlers[h].pc.Waiting?
    ensures Settled(x, h)
    ensures exists reply :: Do(x, Handle(h, IP.Answered(reply)), |log|).Some?
  {
    assert WaiterAt(x, h);
    RankZeroIsSettled(x, h);
    HasSomethingToReceive(x, |log|, h);
  }

  lemma HasSomethingToReceive(x: Inst, logged: nat, h: nat)
    requires h in x.handlers && x.handlers[h].live && x.handlers[h].pc.Waiting? && h in x.slots && !x.slots[h].Empty?
    ensures exists reply :: Do(x, Handle(h, IP.Answered(reply)), logged).Some?
  {
    var reply := if x.slots[h].Filled? then Some(x.slots[h].reply) else None;
    assert Do(x, Handle(h, IP.Answered(reply)), logged).Some?;
  }

  lemma HandHasWork(w: Worker)
    ensures Hand(w) == [] <==> WorkLeft(w) == 0
  {
  }

  lemma RankedMeansMovable(x: Inst, logged: nat, h: nat) returns (w: Event)
    requires FifoInv(x) && Rank(x, h) > 0
    ensures !w.Cancelled? && Do(x, Work(w), logged).Some?
  {
    ChannelMember(x.queue, h);
    match x.refresher.worker {
      case Idle => w := Selected(x.queue[0]);
      case Checking(msg) => w := ClockRead(x.clock);
      case Fetching(msg) => w := ProviderGot(msg.provider, Err(FetchFailed));
      case Storing(msg, versions) => w := StoreAnswered(msg.provider, versions, false);
      case Stamping(_, _) => w := ClockRead(x.clock);
      case Replying(msg, reply) => w := Sent(msg.channel.value, reply);
    }
  }

  /** A waiter of rank zero has its answer; a waiter of positive rank means the refresher can move; and no
      rank is above six moves for each place in the queue and five for the message in hand. */
  lemma WaitersAreReached(x: Inst, log: seq<Commit>, i: nat, h: nat)
    requires Inv(x, log, i) && h in Channels(x.accepted)
    ensures Rank(x, h) == 0 ==> Settled(x, h)
    ensures Rank(x, h) > 0 ==> exists w: Event :: !w.Cancelled? && Do(x, Work(w), |log|).Some?
    ensures Rank(x, h) <= 60_005
  {
    if Rank(x, h) > 0 {
      var w := RankedMeansMovable(x, |log|, h);
    } else {
      RankZeroIsSettled(x, h);
    }
    PositionBound(x.queue, h);
  }

  lemma {:induction false} PositionBound(queue: seq<Message>, h: nat)
    ensures h in Channels(queue) ==> Position(queue, h) <= |queue|
    decreases |queue|
  {
    if queue != [] && queue[0].channel != Some(h) {
      HeadIsNot(queue, h);
      PositionBound(queue[1..], h);
    }
  }

  /** Whoever was accepted stays accepted, and whoever is settled stays settled. */
  lemma SettledStays(x: Inst, step: Step, log: seq<Commit>, i: nat, h: nat)
    requires Inv(x, log, i) && Do(x, step, |log|).Some? && h in Channels(x.accepted)
    ensures h in Channels(Do(x, step, |log|).value.accepted)
    ensures Settled(x, h) ==> Settled(Do(x, step, |log|).value, h)
  {
    match step
    case Work(w) => SettledInWork(x, w, |log|, h);
    case Handle(g, e) => SettledInHandle(x, g, e, |log|, h);
    case _ =>
  }

  lemma SettledInWork(x: Inst, w: Event, logged: nat, h: nat)
    requires Do(x, Work(w), logged).Some?
    ensures Do(x, Work(w), logged).value.accepted == x.accepted
    ensures Settled(x, h) ==> Settled(Do(x, Work(w), logged).value, h)
  {
  }

  lemma SettledInHandle(x: Inst, g: nat, e: IP.Event, logged: nat, h: nat)
    requires WaiterInv(x) && DoHandle(x, g, e, logged).Some? && h in Channels(x.accepted)
    ensures h in Channels(DoHandle(x, g, e, logged).value.accepted)
    ensures Settled(x, h) ==> Settled(DoHandle(x, g, e, logged).value, h)
  {
    ChannelsAppend(x.accepted, SentBy(g, e));
    if SentBy(g, e) != [] {
      SendersAreOthers(x, g, e, logged, h);
    }
  }

  /** A stop settles everyone who is still waiting in the queue; in the middle of a refresh there is none. */
  lemma StopSettles(x: Inst, log: seq<Commit>, i: nat, h: nat)
    requires Inv(x, log, i) && Do(x, Work(Cancelled), |log|).Some? && h in Channels(x.accepted)
    ensures Settled(Do(x, Work(Cancelled), |log|).value, h)
  {
    if h in Channels(x.queue) {
      StopReleasesWaiters(x, log, i);
    } else {
      RankZeroIsSettled(x, h);
      SettledInWork(x, Cancelled, |log|, h);
    }
  }

  /** How many of the refresher's own moves a step is. */
  function Counts(step: Step): nat {
    if step.Work? then 1 else 0
  }

  /** From `x` to `y` an accepted waiter became settled, or `n` moves closer. */
  predicate Closer(x: Inst, y: Inst, h: nat, n: nat) {
    && h in Channels(y.accepted)
    && (Settled(x, h) ==> Settled(y, h))
    && (Settled(y, h) || Rank(y, h) + n <= Rank(x, h))
  }

  lemma CloserTransitive(x: Inst, y: Inst, z: Inst, h: nat, m: nat, n: nat)
    requires Closer(x, y, h, m) && Closer(y, z, h, n)
    ensures Closer(x, z, h, m + n)
  {
  }

  lemma CloserReflexive(x: Inst, h: nat)
    requires h in Channels(x.accepted)
    ensures Closer(x, x, h, 0)
  {
  }

  /** Every step leaves a waiter settled, or as much closer as the refresher moved. */
  lemma StepBringsCloser(x: Inst, step: Step, log: seq<Commit>, i: nat, h: nat)
    requires Inv(x, log, i) && Do(x, step, |log|).Some? && h in Channels(x.accepted)
    ensures Closer(x, Do(x, step, |log|).value, h, Counts(step))
  {
    SettledStays(x, step, log, i, h);
    if step.Work? {
      if step.w.Cancelled? {
        StopSettles(x, log, i, h);
      } else if Rank(x, h) == 0 {
        RankZeroIsSettled(x, h);
      } else {
        WorkBringsWaitersCloser(x, step.w, log, i, h);
      }
    } else {
      OthersDoNotPushBack(x, step, log, i, h);
    }
  }
}
