/** One running instance: its queue, its refresher, its clock, and any number of index handlers with
    their answer channels. */
module Instance {
  import opened Basics
  import opened Catalogue
  import opened Index
  import opened RefreshProgram
  import IP = IndexProgram

  const CAPACITY: nat := 10_000

  /** A store that took effect. */
  datatype Commit = Commit(instance: nat, provider: Provider, versions: ProviderVersions)

  /** The receiving end of an answer channel. */
  datatype Slot = Empty | Filled(reply: Reply) | Dropped

  /** An index handler.  `missedAt` is how many stores had committed when its read found nothing;
      `got` is what came out of its answer channel. */
  datatype Handler = Handler(provider: Provider, pc: IP.Pc, live: bool, missedAt: Option<nat>,
                             got: Option<Option<Reply>>)

  /** A refresh that was recorded: when it went upstream and when it was recorded. */
  datatype Refreshed = Refreshed(start: Time, end: Time)

  /** What became of a message: when its provider was last refreshed and when that was looked at, if it was
      known; what upstream and the store answered, if they were asked; what was decided; and when the
      provider was last refreshed from then on. */
  datatype Outcome = Outcome(
    msg: Message,
    recorded: Option<Time>,
    checked: Option<Time>,
    got: Option<Result<ProviderVersions, RefreshError>>,
    stored: Option<bool>,
    reply: Reply,
    after: Option<Time>)

  datatype Inst = Inst(
    interval: nat,
    clock: Time,
    open: bool,
    queue: seq<Message>,
    refresher: Refresher,
    handlers: map<nat, Handler>,
    slots: map<nat, Slot>,
    // what has happened so far
    startedAt: Time,
    committed: Option<nat>,
    accepted: seq<Message>,
    finished: seq<Message>,
    dropped: seq<Message>,
    answers: seq<nat>,
    stamps: map<Provider, seq<Refreshed>>,
    contacts: map<Provider, seq<Time>>,
    outcomes: seq<Outcome>,
    trace: seq<Event>,
    first: map<Provider, nat>)

  datatype Step =
    | Request(h: nat, p: Provider)
    | Handle(h: nat, e: IP.Event)
    | Leave(h: nat)
    | Tick(now: Time)
    | Work(w: Event)

  function Booted(interval: nat, now: Time): Inst {
    Inst(interval, now, true, [], FRESH, map[], map[], now, None, [], [], [], [], map[], map[], [], [], map[])
  }

  /** The message the refresher has in hand. */
  function Hand(w: Worker): seq<Message> {
    match w
    case Checking(msg) => [msg]
    case Fetching(msg) => [msg]
    case Storing(msg, _) => [msg]
    case Stamping(msg, _) => [msg]
    case Replying(msg, _) => [msg]
    case _ => []
  }

  /** Who waits for an answer, in order. */
  function Channels(ms: seq<Message>): seq<nat> {
    if ms == [] then []
    else Channels(ms[..|ms| - 1]) + (if ms[|ms| - 1].channel.Some? then [ms[|ms| - 1].channel.value] else [])
  }

  /** The channel takes messages while it is open and not full. */
  predicate HasRoom(x: Inst) {
    x.open && |x.queue| < CAPACITY
  }

  /** The message an answer to a send puts into the queue, if any. */
  function SentBy(h: nat, e: IP.Event): seq<Message> {
    match e
    case TrySent(p, true) => [Message(p, None)]
    case SendTried(p, Accepted) => [Message(p, Some(h))]
    case _ => []
  }

  predicate CanHandle(x: Inst, h: nat, e: IP.Event) {
    match e
    case Listed(_, _) => true
    case TrySent(_, ok) => ok ==> HasRoom(x)
    case SendTried(_, outcome) => (outcome.Accepted? ==> HasRoom(x)) && (outcome.Closed? ==> !x.open)
    case Answered(reply) =>
      h in x.slots && !x.slots[h].Empty? && reply == if x.slots[h].Filled? then Some(x.slots[h].reply) else None
  }

  function Moved(f: Handler, e: IP.Event, pc: IP.Pc, logged: nat): Handler {
    match e
    case Listed(_, listing) => f.(pc := pc, missedAt := if listing == Ok(None) then Some(logged) else None)
    case Answered(reply) => f.(pc := pc, got := Some(reply))
    case _ => f.(pc := pc)
  }

  function DoHandle(x: Inst, h: nat, e: IP.Event, logged: nat): Option<Inst> {
    if h !in x.handlers || !x.handlers[h].live || !CanHandle(x, h, e) || IP.Next(x.handlers[h].pc, e).None? then None
    else
      var pc := IP.Next(x.handlers[h].pc, e).value;
      Some(x.(
        handlers := x.handlers[h := Moved(x.handlers[h], e, pc, logged)],
        queue := x.queue + SentBy(h, e),
        accepted := x.accepted + SentBy(h, e),
        slots := if e.SendTried? && e.outcome.Accepted? then x.slots[h := Empty] else x.slots))
  }

  function NextSlots(x: Inst, w: Event): map<nat, Slot> {
    if w.Sent? then x.slots[w.channel := Filled(w.reply)]
    else if w.Cancelled? then map h | h in x.slots :: if h in Channels(x.queue) then Dropped else x.slots[h]
    else x.slots
  }

  /** The refresh that a clock reading records, if it records one. */
  predicate Stamps(x: Inst, w: Event) {
    w.ClockRead? && x.refresher.worker.Stamping?
  }

  function NextStamps(x: Inst, w: Event): map<Provider, seq<Refreshed>> {
    if !Stamps(x, w) then x.stamps
    else
      var p := x.refresher.worker.msg.provider;
      x.stamps[p := (if p in x.stamps then x.stamps[p] else []) + [Refreshed(x.startedAt, w.now)]]
  }

  function ContactsOf(x: Inst, p: Provider): seq<Time> {
    if p in x.contacts then x.contacts[p] else []
  }

  /** Every time the refresher goes upstream for a provider it already remembers is noted. */
  function NextContacts(x: Inst, r: Refresher): map<Provider, seq<Time>> {
    if r.worker.Fetching? && r.worker.msg.provider in r.last
    then x.contacts[r.worker.msg.provider := ContactsOf(x, r.worker.msg.provider) + [x.clock]]
    else x.contacts
  }

  function Remembered(last: map<Provider, Time>, p: Provider): Option<Time> {
    if p in last then Some(last[p]) else None
  }

  /** A move of the refresher that settles what the message in hand is answered. */
  predicate Decides(v: Worker, v': Worker) {
    (v.Checking? || Upstream(v)) && (v'.Replying? || v'.Idle?)
  }

  function Decision(v: Worker, e: Event): Reply {
    match (v, e)
    case (Fetching(_), ProviderGot(_, got)) => RefreshPerformed(got)
    case (Storing(_, _), _) => RefreshPerformed(Err(StoreFailed))
    case (Stamping(_, result), _) => RefreshPerformed(result)
    case _ => ProviderVersionNotStale
  }

  function NextOutcomes(x: Inst, w: Event, r: Refresher): seq<Outcome> {
    var v := x.refresher.worker;
    if !Decides(v, r.worker) then x.outcomes
    else
      var p := v.msg.provider;
      var recorded := Remembered(x.refresher.last, p);
      var checked := if recorded.None? then None else if v.Checking? then Some(x.clock) else Some(x.startedAt);
      var tr := x.trace + [w];
      x.outcomes + [Outcome(v.msg, recorded, checked, GotOf(tr), StoredOf(tr), Decision(v, w), Remembered(r.last, p))]
  }

  function NextFirst(x: Inst, w: Event): map<Provider, nat> {
    if !Stamps(x, w) || x.committed.None? || x.refresher.worker.msg.provider in x.first then x.first
    else x.first[x.refresher.worker.msg.provider := x.committed.value]
  }

  /** What happens around a move of the refresher to `r`. */
  function Around(x: Inst, w: Event, r: Refresher, logged: nat): Inst {
    Inst(
      x.interval,
      x.clock,
      x.open && !w.Cancelled?,
      if w.Cancelled? then [] else if w.Selected? && x.queue != [] then x.queue[1..] else x.queue,
      r,
      x.handlers,
      NextSlots(x, w),
      if r.worker.Fetching? then x.clock else x.startedAt,
      if w.Selected? then None else if w.StoreAnswered? && w.ok then Some(logged) else x.committed,
      x.accepted,
      if Hand(r.worker) == [] then x.finished + Hand(x.refresher.worker) else x.finished,
      if w.Cancelled? then x.dropped + x.queue else x.dropped,
      if w.Sent? then x.answers + [w.channel] else x.answers,
      NextStamps(x, w),
      NextContacts(x, r),
      NextOutcomes(x, w, r),
      x.trace + [w],
      NextFirst(x, w))
  }

  predicate CanWork(x: Inst, w: Event) {
    match w
    case Selected(msg) => x.queue != [] && x.queue[0] == msg
    case ClockRead(now) => now == x.clock
    case _ => true
  }

  /** One step of an instance, given how many stores have committed anywhere. */
  function Do(x: Inst, step: Step, logged: nat): Option<Inst> {
    match step
    case Request(h, p) =>
      if h in x.handlers then None
      else Some(x.(handlers := x.handlers[h := Handler(p, IP.Reading(p), true, None, None)]))
    case Handle(h, e) => DoHandle(x, h, e, logged)
    case Leave(h) =>
      if h !in x.handlers then None else Some(x.(handlers := x.handlers[h := x.handlers[h].(live := false)]))
    case Tick(now) => if now < x.clock then None else Some(x.(clock := now))
    case Work(w) =>
      if !CanWork(x, w) then None
      else match RefreshProgram.Next(x.interval, x.refresher, w)
        case None => None
        case Some(r) => Some(Around(x, w, r, logged))
  }

  // ---------------------------------------------------------------- the queue and its waiters

  ghost predicate FifoInv(x: Inst) {
    && x.accepted == x.finished + Hand(x.refresher.worker) + x.queue + x.dropped
    && x.answers == Channels(x.finished)
    && |x.queue| <= CAPACITY
    && (x.open ==> x.dropped == [] && !x.refresher.worker.Stopped?)
    && (!x.open ==> x.queue == [] && x.refresher.worker.Stopped?)
    && (x.refresher.worker.Replying? ==> x.refresher.worker.msg.channel.Some?)
  }

  predicate HasSent(pc: IP.Pc) {
    pc.Waiting? || pc.Served? || pc.Refused?
  }

  /** A handler waits under its own number, at most once, and only after it has sent. */
  ghost predicate WaiterInv(x: Inst) {
    && NoDuplicates(Channels(x.accepted))
    && (forall h :: WaiterAt(x, h))
    && (forall k :: 0 <= k < |x.accepted| ==> Owned(x.handlers, x.accepted[k]))
  }

  /** Handler `h` has an answer channel exactly if its request was accepted. */
  predicate WaiterAt(x: Inst, h: nat) {
    && (h in x.slots <==> h in Channels(x.accepted))
    && (h in x.slots ==> h in x.handlers && HasSent(x.handlers[h].pc))
    && (h in x.handlers && x.handlers[h].pc.Waiting? ==> h in x.slots)
  }

  /** The channel of a message is that of a handler that asks about the same provider. */
  predicate Owned(handlers: map<nat, Handler>, m: Message) {
    m.channel.Some? ==> m.channel.value in handlers && handlers[m.channel.value].provider == m.provider
  }

  ghost predicate SlotInv(x: Inst) {
    forall h :: h in x.slots ==> SlotTells(x, h)
  }

  lemma ChannelsSnoc(ms: seq<Message>, m: Message)
    ensures Channels(ms + [m]) == Channels(ms) + (if m.channel.Some? then [m.channel.value] else [])
  {
    assert (ms + [m])[..|ms|] == ms;
  }

  lemma {:induction false} ChannelsAppend(a: seq<Message>, b: seq<Message>)
    ensures Channels(a + b) == Channels(a) + Channels(b)
  {
    if b == [] {
      assert a + b == a;
    } else {
      var init, last := b[..|b| - 1], b[|b| - 1];
      ChannelsAppend(a, init);
      assert a + b == (a + init) + [last];
      ChannelsSnoc(a + init, last);
      assert b == init + [last];
      ChannelsSnoc(init, last);
    }
  }

  lemma {:induction false} ChannelMember(ms: seq<Message>, h: nat)
    ensures h in Channels(ms) <==> exists k :: 0 <= k < |ms| && ms[k].channel == Some(h)
  {
    if ms != [] {
      var init, last := ms[..|ms| - 1], ms[|ms| - 1];
      ChannelMember(init, h);
      assert Channels(ms) == Channels(init) + (if last.channel.Some? then [last.channel.value] else []);
      if k :| 0 <= k < |init| && init[k].channel == Some(h) {
        assert ms[k].channel == Some(h);
      }
      if k :| 0 <= k < |ms| && ms[k].channel == Some(h) {
        assert k < |init| ==> init[k].channel == Some(h);
      }
    }
  }

  /** How a message passes through the refresher's hand. */
  lemma HandMoves(interval: nat, r: Refresher, e: Event)
    requires RefreshProgram.Next(interval, r, e).Some?
    ensures var r' := RefreshProgram.Next(interval, r, e).value;
      && (e.Selected? ==> Hand(r.worker) == [] && Hand(r'.worker) == [e.msg])
      && (e.Cancelled? ==> Hand(r.worker) == [] && r'.worker.Stopped?)
      && (!e.Cancelled? ==> !r'.worker.Stopped?)
      && (!e.Selected? && !e.Cancelled? ==>
            && |Hand(r.worker)| == 1
            && (Hand(r'.worker) == Hand(r.worker) || Hand(r'.worker) == [])
            && (e.Sent? ==> Hand(r'.worker) == [] && Hand(r.worker)[0].channel == Some(e.channel))
            && (!e.Sent? && Hand(r'.worker) == [] ==> Hand(r.worker)[0].channel.None?))
      && (r'.worker.Replying? ==> r'.worker.msg.channel.Some?)
  {
  }

  lemma SelectKeepsFifo(x: Inst, w: Event, logged: nat)
    requires FifoInv(x) && Do(x, Work(w), logged).Some? && w.Selected?
    ensures FifoInv(Do(x, Work(w), logged).value)
  {
    HandMoves(x.interval, x.refresher, w);
    TakenUp(x.finished, x.queue, x.dropped);
  }

  /** Taking up the head of the queue loses nothing. */
  lemma TakenUp(finished: seq<Message>, queue: seq<Message>, dropped: seq<Message>)
    requires queue != []
    ensures finished + [] + queue + dropped == (finished + []) + [queue[0]] + queue[1..] + dropped
    ensures finished + [] == finished
  {
    assert queue == [queue[0]] + queue[1..];
  }

  lemma CancelKeepsFifo(x: Inst, logged: nat)
    requires FifoInv(x) && Do(x, Work(Cancelled), logged).Some?
    ensures FifoInv(Do(x, Work(Cancelled), logged).value)
  {
    HandMoves(x.interval, x.refresher, Cancelled);
    GivenUp(x.finished, x.queue);
  }

  /** Giving up the queue loses nothing. */
  lemma GivenUp(finished: seq<Message>, queue: seq<Message>)
    ensures finished + [] + queue + [] == (finished + []) + [] + [] + ([] + queue)
    ensures finished + [] == finished
  {
  }

  lemma WorkKeepsFifo(x: Inst, w: Event, logged: nat)
    requires FifoInv(x) && Do(x, Work(w), logged).Some? && !w.Selected? && !w.Cancelled?
    ensures FifoInv(Do(x, Work(w), logged).value)
  {
    var y := Do(x, Work(w), logged).value;
    HandMoves(x.interval, x.refresher, w);
    var m := Hand(x.refresher.worker)[0];
    assert Hand(x.refresher.worker) == [m];
    ChannelsSnoc(x.finished, m);
    AllAccounted(x.finished, [m], Hand(y.refresher.worker), x.queue, x.dropped);
  }

  /** Handing a message on from the hand to the finished ones loses nothing. */
  lemma AllAccounted(finished: seq<Message>, hand: seq<Message>, hand': seq<Message>, queue: seq<Message>,
                     dropped: seq<Message>)
    requires hand' == hand || hand' == []
    ensures finished + hand + queue + dropped
            == (if hand' == [] then finished + hand else finished) + hand' + queue + dropped
  {
    assert finished + hand + [] == finished + hand;
  }

  lemma HandleKeepsFifo(x: Inst, h: nat, e: IP.Event, logged: nat)
    requires FifoInv(x) && DoHandle(x, h, e, logged).Some?
    ensures FifoInv(DoHandle(x, h, e, logged).value)
  {
  }

  lemma StepKeepsFifo(x: Inst, step: Step, logged: nat)
    requires FifoInv(x) && Do(x, step, logged).Some?
    ensures FifoInv(Do(x, step, logged).value)
  {
    match step
    case Handle(h, e) => HandleKeepsFifo(x, h, e, logged);
    case Work(w) =>
      if w.Selected? {
        SelectKeepsFifo(x, w, logged);
      } else if w.Cancelled? {
        CancelKeepsFifo(x, logged);
      } else {
        WorkKeepsFifo(x, w, logged);
      }
    case _ =>
  }

  /** Every accepted waiter is in exactly one place: answered, in hand, queued, or dropped. */
  lemma WaiterPlaces(x: Inst)
    requires FifoInv(x)
    ensures Channels(x.accepted)
            == Channels(x.finished) + Channels(Hand(x.refresher.worker)) + Channels(x.queue) + Channels(x.dropped)
  {
    ChannelsAppend(x.finished + Hand(x.refresher.worker) + x.queue, x.dropped);
    ChannelsAppend(x.finished + Hand(x.refresher.worker), x.queue);
    ChannelsAppend(x.finished, Hand(x.refresher.worker));
  }

  lemma Disjoint(a: seq<nat>, b: seq<nat>, c: seq<nat>, d: seq<nat>, h: nat)
    requires NoDuplicates(a + b + c + d)
    ensures h in a ==> h !in b && h !in c && h !in d
    ensures h in b ==> h !in c && h !in d
    ensures h in c ==> h !in d
  {
    var all := a + b + c + d;
    if h in a {
      var i :| 0 <= i < |a| && a[i] == h;
      assert all[i] == h;
    }
    if h in b {
      var i :| 0 <= i < |b| && b[i] == h;
      assert all[|a| + i] == h;
    }
    if h in c {
      var i :| 0 <= i < |c| && c[i] == h;
      assert all[|a| + |b| + i] == h;
    }
    if h in d {
      var i :| 0 <= i < |d| && d[i] == h;
      assert all[|a| + |b| + |c| + i] == h;
    }
  }

  lemma PlacesAreApart(x: Inst, h: nat)
    requires FifoInv(x) && NoDuplicates(Channels(x.accepted))
    ensures h in Channels(x.accepted) <==>
              h in Channels(x.finished) || h in Channels(Hand(x.refresher.worker)) || h in Channels(x.queue)
              || h in Channels(x.dropped)
    ensures h in Channels(x.finished) ==>
              h !in Channels(Hand(x.refresher.worker)) && h !in Channels(x.queue) && h !in Channels(x.dropped)
    ensures h in Channels(Hand(x.refresher.worker)) ==> h !in Channels(x.queue) && h !in Channels(x.dropped)
    ensures h in Channels(x.queue) ==> h !in Channels(x.dropped)
  {
    WaiterPlaces(x);
    Disjoint(Channels(x.finished), Channels(Hand(x.refresher.worker)), Channels(x.queue), Channels(x.dropped), h);
  }

  lemma SingleChannel(m: Message, h: nat)
    ensures h in Channels([m]) <==> m.channel == Some(h)
  {
    ChannelMember([m], h);
    assert [m][0] == m;
  }

  /** An answer goes to the waiter of the message in hand, who has none yet. */
  lemma SentChannel(x: Inst, w: Event, logged: nat)
    requires FifoInv(x) && WaiterInv(x) && Do(x, Work(w), logged).Some? && w.Sent?
    ensures Hand(x.refresher.worker) == [x.refresher.worker.msg] && x.refresher.worker.msg.channel == Some(w.channel)
    ensures w.channel in Channels(x.accepted) && w.channel in x.slots && w.channel in x.handlers
    ensures x.handlers[w.channel].provider == x.refresher.worker.msg.provider
  {
    var m := x.refresher.worker.msg;
    HandMoves(x.interval, x.refresher, w);
    SingleChannel(m, w.channel);
    PlacesAreApart(x, w.channel);
    assert WaiterAt(x, w.channel);
    assert x.accepted[|x.finished|] == m && Owned(x.handlers, m);
  }

  lemma WorkKeepsWaiters(x: Inst, w: Event, logged: nat)
    requires FifoInv(x) && WaiterInv(x) && Do(x, Work(w), logged).Some?
    ensures WaiterInv(Do(x, Work(w), logged).value)
  {
    if w.Sent? {
      SentChannel(x, w, logged);
    }
    var y := Do(x, Work(w), logged).value;
    forall h ensures WaiterAt(y, h) {
      assert WaiterAt(x, h);
    }
  }

  /** What a message that was taken changes: the sender waits for it, or is served without. */
  lemma SendMoves(x: Inst, h: nat, e: IP.Event, logged: nat)
    requires DoHandle(x, h, e, logged).Some? && SentBy(h, e) != []
    ensures var y := DoHandle(x, h, e, logged).value;
      && h in x.handlers && h in y.handlers && HasSent(y.handlers[h].pc)
      && y.handlers == x.handlers[h := y.handlers[h]]
      && Channels(y.accepted) == Channels(x.accepted) + (if e.SendTried? then [h] else [])
      && y.slots == (if e.SendTried? then x.slots[h := Empty] else x.slots)
      && (y.handlers[h].pc.Waiting? ==> e.SendTried?)
  {
    ChannelsSnoc(x.accepted, SentBy(h, e)[0]);
  }

  lemma SendKeepsWaiter(x: Inst, y: Inst, h: nat, g: nat, sent: bool)
    requires WaiterAt(x, g) && h in x.handlers && h in y.handlers && HasSent(y.handlers[h].pc)
    requires y.handlers == x.handlers[h := y.handlers[h]]
    requires Channels(y.accepted) == Channels(x.accepted) + (if sent then [h] else [])
    requires y.slots == (if sent then x.slots[h := Empty] else x.slots)
    requires y.handlers[h].pc.Waiting? ==> sent
    ensures WaiterAt(y, g)
  {
  }

  lemma SendKeepsWaiters(x: Inst, h: nat, e: IP.Event, logged: nat)
    requires WaiterInv(x) && DoHandle(x, h, e, logged).Some? && SentBy(h, e) != []
    requires x.handlers[h].pc.Sending? || x.handlers[h].pc.Notifying?
    requires x.handlers[h].pc.provider == x.handlers[h].provider
    ensures WaiterInv(DoHandle(x, h, e, logged).value)
  {
    var y := DoHandle(x, h, e, logged).value;
    SendMoves(x, h, e, logged);
    assert WaiterAt(x, h);
    forall g ensures WaiterAt(y, g) {
      assert WaiterAt(x, g);
      SendKeepsWaiter(x, y, h, g, e.SendTried?);
    }
    forall k | 0 <= k < |y.accepted| ensures Owned(y.handlers, y.accepted[k]) {
      assert k < |x.accepted| ==> Owned(x.handlers, x.accepted[k]);
    }
  }

  lemma QuietKeepsWaiters(x: Inst, h: nat, e: IP.Event, logged: nat)
    requires WaiterInv(x) && DoHandle(x, h, e, logged).Some? && SentBy(h, e) == []
    ensures WaiterInv(DoHandle(x, h, e, logged).value)
  {
    var y := DoHandle(x, h, e, logged).value;
    assert x.accepted + [] == x.accepted;
    forall g ensures WaiterAt(y, g) {
      assert WaiterAt(x, g);
    }
    forall k | 0 <= k < |y.accepted| ensures Owned(y.handlers, y.accepted[k]) {
      assert Owned(x.handlers, x.accepted[k]);
    }
  }

  lemma WorkKeepsSlots(x: Inst, w: Event, logged: nat)
    requires FifoInv(x) && WaiterInv(x) && SlotInv(x) && Do(x, Work(w), logged).Some?
    ensures SlotInv(Do(x, Work(w), logged).value)
  {
    var y := Do(x, Work(w), logged).value;
    if w.Sent? {
      SentChannel(x, w, logged);
      SingleChannel(x.refresher.worker.msg, w.channel);
      PlacesAreApart(x, w.channel);
    }
    forall h | h in y.slots ensures SlotTells(y, h) {
      assert SlotTells(x, h);
      PlacesAreApart(x, h);
      FinishedBy(x, w, logged, h);
      if w.Cancelled? {
        CancelTells(x, logged, h);
      } else {
        MoveTells(x, w, logged, h);
      }
    }
  }

  /** The slot of a waiter tells what became of its request. */
  predicate SlotTells(x: Inst, h: nat)
    requires h in x.slots
  {
    (x.slots[h].Filled? <==> h in Channels(x.finished)) && (x.slots[h].Dropped? <==> h in Channels(x.dropped))
  }

  lemma CancelTells(x: Inst, logged: nat, h: nat)
    requires FifoInv(x) && Do(x, Work(Cancelled), logged).Some? && h in x.slots && SlotTells(x, h)
    requires h in Channels(x.queue) ==> h !in Channels(x.finished)
    requires h in Channels(Do(x, Work(Cancelled), logged).value.finished) <==> h in Channels(x.finished)
    ensures SlotTells(Do(x, Work(Cancelled), logged).value, h)
  {
    assert [] + x.queue == x.queue;
  }

  lemma MoveTells(x: Inst, w: Event, logged: nat, h: nat)
    requires Do(x, Work(w), logged).Some? && !w.Cancelled? && h in x.slots && SlotTells(x, h)
    requires w.Sent? ==> w.channel !in Channels(x.dropped)
    requires h in Channels(Do(x, Work(w), logged).value.finished) <==>
               h in Channels(x.finished) || (w.Sent? && w.channel == h)
    ensures SlotTells(Do(x, Work(w), logged).value, h)
  {
  }

  /** A waiter is finished with when its answer is sent, and not otherwise. */
  lemma FinishedBy(x: Inst, w: Event, logged: nat, h: nat)
    requires FifoInv(x) && Do(x, Work(w), logged).Some?
    ensures h in Channels(Do(x, Work(w), logged).value.finished) <==>
              h in Channels(x.finished) || (w.Sent? && w.channel == h)
  {
    HandMoves(x.interval, x.refresher, w);
    var hand, y := Hand(x.refresher.worker), Do(x, Work(w), logged).value;
    assert y.finished == x.finished + if Hand(y.refresher.worker) == [] then hand else [];
    if hand != [] {
      assert hand == [hand[0]];
      ChannelsSnoc(x.finished, hand[0]);
    }
    assert x.finished + [] == x.finished;
  }

  lemma HandleKeepsSlots(x: Inst, h: nat, e: IP.Event, logged: nat)
    requires FifoInv(x) && WaiterInv(x) && SlotInv(x) && DoHandle(x, h, e, logged).Some?
    ensures SlotInv(DoHandle(x, h, e, logged).value)
  {
    if SentBy(h, e) != [] {
      SendersAreUnknown(x, h, e, logged);
      UnknownAnywhere(x, h);
    }
  }

  lemma SendersAreUnknown(x: Inst, h: nat, e: IP.Event, logged: nat)
    requires WaiterInv(x) && DoHandle(x, h, e, logged).Some? && SentBy(h, e) != []
    ensures h !in Channels(x.accepted)
  {
    assert WaiterAt(x, h);
  }

  lemma UnknownAnywhere(x: Inst, h: nat)
    requires FifoInv(x) && h !in Channels(x.accepted)
    ensures h !in Channels(x.finished) && h !in Channels(x.dropped)
  {
    WaiterPlaces(x);
  }

  // ---------------------------------------------------------------- refresh times

  /** Recorded refreshes of one provider, in order, with more than an interval between the end of one and
      the start of the next. */
  ghost predicate Spaced(interval: nat, rs: seq<Refreshed>) {
    && (forall k :: 0 <= k < |rs| ==> rs[k].start <= rs[k].end)
    && (forall k :: 0 < k < |rs| ==> rs[k].start > rs[k - 1].end + interval)
  }

  ghost predicate LastInv(x: Inst) {
    && (forall p :: p in x.refresher.last <==> p in x.stamps)
    && (forall p :: p in x.stamps ==>
          && x.stamps[p] != [] && Spaced(x.interval, x.stamps[p])
          && x.refresher.last[p] == x.stamps[p][|x.stamps[p]| - 1].end
          && x.refresher.last[p] <= x.clock)
    && (Upstream(x.refresher.worker) ==>
          && x.startedAt <= x.clock
          && (x.refresher.worker.msg.provider in x.refresher.last ==>
                x.startedAt > x.refresher.last[x.refresher.worker.msg.provider] + x.interval))
  }

  /** The refresher is somewhere between contacting upstream and recording the refresh. */
  predicate Upstream(w: Worker) {
    w.Fetching? || w.Storing? || w.Stamping?
  }

  /** How a move of the refresher changes its memory and enters a refresh. */
  lemma LastMoves(interval: nat, r: Refresher, e: Event)
    requires RefreshProgram.Next(interval, r, e).Some?
    ensures var r' := RefreshProgram.Next(interval, r, e).value;
      && (r.worker.Stamping? ==> e.ClockRead?)
      && r'.last == (if r.worker.Stamping? then r.last[r.worker.msg.provider := e.now] else r.last)
      && (Upstream(r'.worker) ==>
            || (Upstream(r.worker) && r'.worker.msg == r.worker.msg && !r'.worker.Fetching?)
            || (r'.worker.Fetching? && r'.worker.msg.provider !in r.last)
            || (r'.worker.Fetching? && e.ClockRead? && e.now - r.last[r'.worker.msg.provider] > interval))
  {
  }

  lemma SpacedSnoc(interval: nat, rs: seq<Refreshed>, start: Time, end: Time)
    requires Spaced(interval, rs) && start <= end && (rs != [] ==> start > rs[|rs| - 1].end + interval)
    ensures Spaced(interval, rs + [Refreshed(start, end)])
  {
  }

  lemma StampIsSpaced(x: Inst)
    requires LastInv(x) && x.refresher.worker.Stamping?
    ensures var p := x.refresher.worker.msg.provider;
      Spaced(x.interval, (if p in x.stamps then x.stamps[p] else []) + [Refreshed(x.startedAt, x.clock)])
  {
    var p := x.refresher.worker.msg.provider;
    SpacedSnoc(x.interval, if p in x.stamps then x.stamps[p] else [], x.startedAt, x.clock);
  }

  lemma StampKeepsLast(x: Inst, w: Event, logged: nat)
    requires LastInv(x) && Do(x, Work(w), logged).Some? && x.refresher.worker.Stamping?
    ensures LastInv(Do(x, Work(w), logged).value)
  {
    LastMoves(x.interval, x.refresher, w);
    StampIsSpaced(x);
    var y, p := Do(x, Work(w), logged).value, x.refresher.worker.msg.provider;
    forall q | q in y.stamps
      ensures y.stamps[q] != [] && Spaced(y.interval, y.stamps[q])
              && y.refresher.last[q] == y.stamps[q][|y.stamps[q]| - 1].end && y.refresher.last[q] <= y.clock
    {
      assert q != p ==> q in x.stamps;
    }
  }

  lemma WorkKeepsLast(x: Inst, w: Event, logged: nat)
    requires LastInv(x) && Do(x, Work(w), logged).Some? && !x.refresher.worker.Stamping?
    ensures LastInv(Do(x, Work(w), logged).value)
  {
    LastMoves(x.interval, x.refresher, w);
  }

  // ---------------------------------------------------------------- contacts with upstream

  function StartsOf(rs: seq<Refreshed>): seq<Time> {
    seq(|rs|, k requires 0 <= k < |rs| => rs[k].start)
  }

  /** The contact under way, if the refresher is upstream for this provider. */
  function UnderWay(x: Inst, p: Provider): seq<Time> {
    if Upstream(x.refresher.worker) && x.refresher.worker.msg.provider == p then [x.startedAt] else []
  }

  /** Once a provider is remembered every contact with upstream for it ends up recorded, or is under way. */
  predicate ContactsAt(x: Inst, p: Provider) {
    if p in x.stamps
    then x.stamps[p] != [] && ContactsOf(x, p) == StartsOf(x.stamps[p][1..]) + UnderWay(x, p)
    else ContactsOf(x, p) == []
  }

  ghost predicate ContactInv(x: Inst) {
    forall p :: ContactsAt(x, p)
  }

  lemma WorkKeepsContacts(x: Inst, w: Event, logged: nat)
    requires LastInv(x) && ContactInv(x) && Do(x, Work(w), logged).Some?
    ensures ContactInv(Do(x, Work(w), logged).value)
  {
    forall p ensures ContactsAt(Do(x, Work(w), logged).value, p) {
      assert ContactsAt(x, p);
      assert p in x.refresher.last <==> p in x.stamps;
      if x.refresher.worker.Stamping? {
        StampKeepsContacts(x, w, logged, p);
      } else {
        MoveKeepsContacts(x, w, logged, p);
      }
    }
  }

  lemma StampKeepsContacts(x: Inst, w: Event, logged: nat, p: Provider)
    requires ContactsAt(x, p) && Do(x, Work(w), logged).Some? && x.refresher.worker.Stamping?
    ensures ContactsAt(Do(x, Work(w), logged).value, p)
  {
    StampedContacts(if p in x.stamps then x.stamps[p] else [], Refreshed(x.startedAt, w.now));
  }

  /** Where the refresher goes from where it is, when it records nothing. */
  lemma UpstreamMoves(interval: nat, r: Refresher, e: Event)
    requires RefreshProgram.Next(interval, r, e).Some? && !r.worker.Stamping?
    ensures var r' := RefreshProgram.Next(interval, r, e).value;
      && r'.last == r.last
      && (r'.worker.Fetching? ==> !Upstream(r.worker))
      && (Upstream(r'.worker) && !r'.worker.Fetching? ==> Upstream(r.worker) && r'.worker.msg == r.worker.msg)
      && (Upstream(r.worker) && !Upstream(r'.worker) ==> r.worker.msg.provider !in r.last)
  {
  }

  lemma MoveKeepsContacts(x: Inst, w: Event, logged: nat, p: Provider)
    requires ContactsAt(x, p) && (p in x.refresher.last <==> p in x.stamps)
    requires Do(x, Work(w), logged).Some? && !x.refresher.worker.Stamping?
    ensures ContactsAt(Do(x, Work(w), logged).value, p)
  {
    UpstreamMoves(x.interval, x.refresher, w);
    var y := Do(x, Work(w), logged).value;
    assert y.stamps == x.stamps;
    if Upstream(x.refresher.worker) && Upstream(y.refresher.worker) {
      assert UnderWay(y, p) == UnderWay(x, p);
    }
  }

  lemma StampedContacts(rs: seq<Refreshed>, r: Refreshed)
    ensures StartsOf((rs + [r])[1..]) == if rs == [] then [] else StartsOf(rs[1..]) + [r.start]
  {
    if rs != [] {
      assert (rs + [r])[1..] == rs[1..] + [r];
    } else {
      assert (rs + [r])[1..] == [];
    }
  }

  /** n recorded refreshes of one provider span more than n - 1 intervals. */
  lemma {:induction false} RefreshesSpan(interval: nat, rs: seq<Refreshed>, j: nat, k: nat)
    requires Spaced(interval, rs) && j < k < |rs|
    ensures rs[k].start - rs[j].start > (k - j) * interval
    decreases k
  {
    if j + 1 < k {
      RefreshesSpan(interval, rs, j, k - 1);
      assert (k - j) * interval == (k - 1 - j) * interval + interval;
    }
  }

  // ---------------------------------------------------------------- what answers are worth

  /** The store of these versions, by this instance, took effect. */
  ghost predicate Committed(log: seq<Commit>, i: nat, p: Provider, versions: ProviderVersions) {
    Commit(i, p, versions) in log
  }

  /** A success reports a committed store; "not stale" means this instance has recorded a refresh. */
  ghost predicate ReplyOk(x: Inst, log: seq<Commit>, i: nat, p: Provider, reply: Reply) {
    match reply
    case RefreshPerformed(Ok(versions)) => Committed(log, i, p, versions)
    case RefreshPerformed(Err(_)) => true
    case ProviderVersionNotStale => p in x.first
  }

  ghost predicate WorkerInv(x: Inst, log: seq<Commit>, i: nat) {
    && (forall p :: p in x.refresher.last ==> p in x.first)
    && (forall p :: p in x.first ==>
          x.first[p] < |log| && log[x.first[p]].instance == i && log[x.first[p]].provider == p)
    && match x.refresher.worker
       case Checking(msg) => msg.provider in x.refresher.last
       case Fetching(msg) => true
       case Storing(msg, _) => true
       case Stamping(msg, result) =>
         if result.Ok?
         then x.committed.Some? && x.committed.value < |log|
              && log[x.committed.value] == Commit(i, msg.provider, result.value)
         else msg.provider in x.refresher.last
       case Replying(msg, reply) => ReplyOk(x, log, i, msg.provider, reply)
       case _ => true
  }

  ghost predicate HandlerInv(x: Inst, log: seq<Commit>, i: nat, f: Handler) {
    && (f.pc.Reading? || f.pc.Notifying? || f.pc.Sending? || f.pc.Waiting? ==> f.pc.provider == f.provider)
    && (f.missedAt.Some? ==> f.missedAt.value <= |log|)
    && (f.got.Some? ==>
          && f.pc == IP.Interpret(f.provider, f.got.value)
          && (f.got.value.Some? ==> ReplyOk(x, log, i, f.provider, f.got.value.value)))
    && (f.pc.Refused? && f.pc.error.ConcurrentProviderFetch? ==> f.got == Some(Some(ProviderVersionNotStale)))
  }

  ghost predicate AnswerInv(x: Inst, log: seq<Commit>, i: nat) {
    && (forall h :: h in x.handlers ==> HandlerInv(x, log, i, x.handlers[h]))
    && (forall h :: h in x.slots && x.slots[h].Filled? ==>
          h in x.handlers && ReplyOk(x, log, i, x.handlers[h].provider, x.slots[h].reply))
  }

  ghost predicate Inv(x: Inst, log: seq<Commit>, i: nat) {
    && FifoInv(x) && WaiterInv(x) && SlotInv(x) && LastInv(x) && ContactInv(x) && WorkerInv(x, log, i)
    && AnswerInv(x, log, i)
  }

  lemma BootedInv(interval: nat, now: Time, log: seq<Commit>, i: nat)
    ensures Inv(Booted(interval, now), log, i)
  {
  }

  /** The log after a step: longer by the commit that the step acknowledges, if it does. */
  function Logged(log: seq<Commit>, i: nat, step: Step): seq<Commit> {
    if step.Work? && step.w.StoreAnswered? && step.w.ok
    then log + [Commit(i, step.w.provider, step.w.versions)] else log
  }

  lemma ReplyOkKept(x: Inst, y: Inst, log: seq<Commit>, log': seq<Commit>, i: nat, p: Provider, reply: Reply)
    requires ReplyOk(x, log, i, p, reply) && log <= log' && forall q :: q in x.first ==> q in y.first
    ensures ReplyOk(y, log', i, p, reply)
  {
    if reply.RefreshPerformed? && reply.result.Ok? {
      var k :| 0 <= k < |log| && log[k] == Commit(i, p, reply.result.value);
      assert log'[k] == log[k];
    }
  }

  lemma HandlerInvKept(x: Inst, y: Inst, log: seq<Commit>, log': seq<Commit>, i: nat, f: Handler)
    requires HandlerInv(x, log, i, f) && log <= log' && forall q :: q in x.first ==> q in y.first
    ensures HandlerInv(y, log', i, f)
  {
    if f.got.Some? && f.got.value.Some? {
      ReplyOkKept(x, y, log, log', i, f.provider, f.got.value.value);
    }
  }

  /** How a move of the refresher sets the remembered first commits. */
  lemma FirstKept(x: Inst, w: Event, logged: nat, log: seq<Commit>, i: nat)
    requires WorkerInv(x, log, i) && Do(x, Work(w), logged).Some?
    ensures var y := Do(x, Work(w), logged).value;
      && (forall q :: q in x.first ==> q in y.first && y.first[q] == x.first[q])
      && (forall q :: q in y.refresher.last ==> q in y.first)
      && (forall p :: p in y.first ==>
            y.first[p] < |log| && log[y.first[p]].instance == i && log[y.first[p]].provider == p)
  {
    LastMoves(x.interval, x.refresher, w);
  }

  lemma WorkKeepsWorker(x: Inst, w: Event, log: seq<Commit>, i: nat)
    requires WorkerInv(x, log, i) && Do(x, Work(w), |log|).Some?
    ensures WorkerInv(Do(x, Work(w), |log|).value, Logged(log, i, Work(w)), i)
  {
    var y, log' := Do(x, Work(w), |log|).value, Logged(log, i, Work(w));
    FirstKept(x, w, |log|, log, i);
    assert forall k :: 0 <= k < |log| ==> log'[k] == log[k];
    if y.refresher.worker.Replying? {
      ReplyIsEarned(x, w, log, i);
    }
  }

  /** A reply is written down only when it is true. */
  lemma ReplyIsEarned(x: Inst, w: Event, log: seq<Commit>, i: nat)
    requires WorkerInv(x, log, i) && Do(x, Work(w), |log|).Some?
    requires Do(x, Work(w), |log|).value.refresher.worker.Replying?
    ensures var y := Do(x, Work(w), |log|).value;
      ReplyOk(y, Logged(log, i, Work(w)), i, y.refresher.worker.msg.provider, y.refresher.worker.reply)
  {
    FirstKept(x, w, |log|, log, i);
  }

  lemma WorkKeepsAnswers(x: Inst, w: Event, log: seq<Commit>, i: nat)
    requires Inv(x, log, i) && Do(x, Work(w), |log|).Some?
    ensures AnswerInv(Do(x, Work(w), |log|).value, Logged(log, i, Work(w)), i)
  {
    var y, log' := Do(x, Work(w), |log|).value, Logged(log, i, Work(w));
    FirstKept(x, w, |log|, log, i);
    forall h | h in y.handlers ensures HandlerInv(y, log', i, y.handlers[h]) {
      HandlerInvKept(x, y, log, log', i, x.handlers[h]);
    }
    if w.Sent? {
      SentChannel(x, w, |log|);
    }
    forall h | h in y.slots && y.slots[h].Filled?
      ensures h in y.handlers && ReplyOk(y, log', i, y.handlers[h].provider, y.slots[h].reply)
    {
      ReplyOkKept(x, y, log, log', i, x.handlers[h].provider, y.slots[h].reply);
    }
  }

  lemma MovedInv(x: Inst, h: nat, e: IP.Event, log: seq<Commit>, i: nat)
    requires AnswerInv(x, log, i) && DoHandle(x, h, e, |log|).Some?
    ensures HandlerInv(x, log, i, DoHandle(x, h, e, |log|).value.handlers[h])
  {
    assert HandlerInv(x, log, i, x.handlers[h]);
  }

  lemma HandleKeepsAnswers(x: Inst, h: nat, e: IP.Event, log: seq<Commit>, i: nat)
    requires AnswerInv(x, log, i) && DoHandle(x, h, e, |log|).Some?
    ensures AnswerInv(DoHandle(x, h, e, |log|).value, log, i)
  {
    var y := DoHandle(x, h, e, |log|).value;
    MovedInv(x, h, e, log, i);
    forall g | g in y.handlers ensures HandlerInv(y, log, i, y.handlers[g]) {
      HandlerInvKept(x, y, log, log, i, y.handlers[g]);
    }
    forall g | g in y.slots && y.slots[g].Filled?
      ensures g in y.handlers && ReplyOk(y, log, i, y.handlers[g].provider, y.slots[g].reply)
    {
      ReplyOkKept(x, y, log, log, i, x.handlers[g].provider, x.slots[g].reply);
    }
  }

  lemma HandleKeepsContacts(x: Inst, h: nat, e: IP.Event, logged: nat)
    requires ContactInv(x) && DoHandle(x, h, e, logged).Some?
    ensures ContactInv(DoHandle(x, h, e, logged).value)
  {
    forall p ensures ContactsAt(DoHandle(x, h, e, logged).value, p) {
      assert ContactsAt(x, p);
    }
  }

  lemma HandleKeepsInv(x: Inst, h: nat, e: IP.Event, log: seq<Commit>, i: nat)
    requires Inv(x, log, i) && DoHandle(x, h, e, |log|).Some?
    ensures Inv(DoHandle(x, h, e, |log|).value, log, i)
  {
    HandleKeepsFifo(x, h, e, |log|);
    assert HandlerInv(x, log, i, x.handlers[h]);
    if SentBy(h, e) == [] {
      QuietKeepsWaiters(x, h, e, |log|);
    } else {
      SendKeepsWaiters(x, h, e, |log|);
    }
    HandleKeepsSlots(x, h, e, |log|);
    HandleKeepsContacts(x, h, e, |log|);
    HandleKeepsAnswers(x, h, e, log, i);
  }

  lemma WorkKeepsInv(x: Inst, w: Event, log: seq<Commit>, i: nat)
    requires Inv(x, log, i) && Do(x, Work(w), |log|).Some?
    ensures Inv(Do(x, Work(w), |log|).value, Logged(log, i, Work(w)), i)
  {
    StepKeepsFifo(x, Work(w), |log|);
    WorkKeepsWaiters(x, w, |log|);
    WorkKeepsSlots(x, w, |log|);
    if x.refresher.worker.Stamping? {
      StampKeepsLast(x, w, |log|);
    } else {
      WorkKeepsLast(x, w, |log|);
    }
    WorkKeepsContacts(x, w, |log|);
    WorkKeepsWorker(x, w, log, i);
    WorkKeepsAnswers(x, w, log, i);
  }

  /** Every step of an instance keeps its invariant. */
  lemma StepInv(x: Inst, step: Step, log: seq<Commit>, i: nat)
    requires Inv(x, log, i) && Do(x, step, |log|).Some?
    ensures Inv(Do(x, step, |log|).value, Logged(log, i, step), i)
  {
    match step
    case Handle(h, e) => HandleKeepsInv(x, h, e, log, i);
    case Work(w) => WorkKeepsInv(x, w, log, i);
    case _ => PlainStepInv(x, step, log, i);
  }

  /** Steps that touch neither the queue nor the refresher's memory. */
  lemma PlainStepInv(x: Inst, step: Step, log: seq<Commit>, i: nat)
    requires Inv(x, log, i) && Do(x, step, |log|).Some? && !step.Handle? && !step.Work?
    ensures Inv(Do(x, step, |log|).value, log, i)
  {
    PlainStepQueues(x, step, |log|);
    PlainStepTimes(x, step, log, i);
    PlainStepAnswers(x, step, log, i);
  }

  lemma PlainStepQueues(x: Inst, step: Step, logged: nat)
    requires FifoInv(x) && WaiterInv(x) && SlotInv(x) && Do(x, step, logged).Some? && !step.Handle? && !step.Work?
    ensures var y := Do(x, step, logged).value; FifoInv(y) && WaiterInv(y) && SlotInv(y)
  {
    var y := Do(x, step, logged).value;
    forall h ensures WaiterAt(y, h) {
      assert WaiterAt(x, h);
    }
    forall k | 0 <= k < |y.accepted| ensures Owned(y.handlers, y.accepted[k]) {
      assert Owned(x.handlers, x.accepted[k]);
    }
    forall h | h in y.slots ensures SlotTells(y, h) {
      assert SlotTells(x, h);
    }
  }

  lemma PlainStepTimes(x: Inst, step: Step, log: seq<Commit>, i: nat)
    requires LastInv(x) && ContactInv(x) && WorkerInv(x, log, i) && Do(x, step, |log|).Some?
    requires !step.Handle? && !step.Work?
    ensures var y := Do(x, step, |log|).value; LastInv(y) && ContactInv(y) && WorkerInv(y, log, i)
  {
    var y := Do(x, step, |log|).value;
    forall p ensures ContactsAt(y, p) {
      assert ContactsAt(x, p);
    }
    if y.refresher.worker.Replying? {
      ReplyOkKept(x, y, log, log, i, x.refresher.worker.msg.provider, x.refresher.worker.reply);
    }
  }

  lemma PlainStepAnswers(x: Inst, step: Step, log: seq<Commit>, i: nat)
    requires AnswerInv(x, log, i) && Do(x, step, |log|).Some? && !step.Handle? && !step.Work?
    ensures AnswerInv(Do(x, step, |log|).value, log, i)
  {
    var y := Do(x, step, |log|).value;
    forall h | h in y.handlers ensures HandlerInv(y, log, i, y.handlers[h]) {
      if h in x.handlers {
        HandlerInvKept(x, y, log, log, i, x.handlers[h]);
      }
    }
    forall h | h in y.slots && y.slots[h].Filled?
      ensures h in y.handlers && ReplyOk(y, log, i, y.handlers[h].provider, y.slots[h].reply)
    {
      ReplyOkKept(x, y, log, log, i, x.handlers[h].provider, x.slots[h].reply);
    }
  }

  /** Commits made elsewhere disturb nothing. */
  lemma LogGrowthKeepsInv(x: Inst, log: seq<Commit>, log': seq<Commit>, i: nat)
    requires Inv(x, log, i) && log <= log'
    ensures Inv(x, log', i)
  {
    forall h | h in x.handlers ensures HandlerInv(x, log', i, x.handlers[h]) {
      HandlerInvKept(x, x, log, log', i, x.handlers[h]);
    }
    forall h | h in x.slots && x.slots[h].Filled?
      ensures h in x.handlers && ReplyOk(x, log', i, x.handlers[h].provider, x.slots[h].reply)
    {
      ReplyOkKept(x, x, log, log', i, x.handlers[h].provider, x.slots[h].reply);
    }
    if x.refresher.worker.Replying? {
      ReplyOkKept(x, x, log, log', i, x.refresher.worker.msg.provider, x.refresher.worker.reply);
    }
  }
}
