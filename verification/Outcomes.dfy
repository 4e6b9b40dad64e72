/** What the refresher decides about each message, in the order of the queue, and when a burst of
    requests for one provider costs exactly one refresh. */
module Outcomes {
  import opened Basics
  import opened Catalogue
  import opened Index
  import opened RefreshProgram
  import opened Instance
  import IT = InstanceTheorems
  import IP = IndexProgram

  // ---------------------------------------------------------------- one message

  predicate Performed(o: Outcome) {
    o.reply.RefreshPerformed?
  }

  /** The provider was remembered, and looked at no later than an interval after `t`. */
  predicate LookedAtWithin(o: Outcome, t: Option<Time>, interval: nat) {
    t.Some? && o.checked.Some? && o.checked.value - t.value <= interval
  }

  /** A message is answered "not stale" exactly if its provider was remembered and was looked at within the
      interval; then nothing changes.  Otherwise a refresh was performed, and nothing is remembered after
      it exactly if nothing was before and it failed. */
  predicate Judged(interval: nat, clock: Time, o: Outcome) {
    && (o.recorded.None? <==> o.checked.None?)
    && (!Performed(o) <==> LookedAtWithin(o, o.recorded, interval))
    && (!Performed(o) ==> o.after == o.recorded)
    && (Performed(o) ==> (o.after.None? <==> o.recorded.None? && o.reply.result.Err?))
    && (o.recorded.Some? ==> o.after.Some? && o.recorded.value <= o.after.value)
    && (o.checked.Some? ==> o.checked.value <= clock)
    && Reported(o)
  }

  /** The answer is what happened for this message: nothing was asked, or its refresh is reported as it went. */
  predicate Reported(o: Outcome) {
    match o.reply
    case RefreshPerformed(result) => Reports(o.got, o.stored, result)
    case ProviderVersionNotStale => o.got.None? && o.stored.None?
  }

  // ---------------------------------------------------------------- the messages for one provider

  function For(outs: seq<Outcome>, p: Provider): seq<Outcome> {
    if outs == [] then []
    else For(Init(outs), p) + (if Last(outs).msg.provider == p then [Last(outs)] else [])
  }

  lemma ForSnoc(outs: seq<Outcome>, o: Outcome, p: Provider)
    ensures For(outs + [o], p) == For(outs, p) + (if o.msg.provider == p then [o] else [])
  {
    assert Init(outs + [o]) == outs;
  }

  lemma {:induction false} ForAppend(a: seq<Outcome>, b: seq<Outcome>, p: Provider)
    ensures For(a + b, p) == For(a, p) + For(b, p)
  {
    if b == [] {
      assert a + b == a;
    } else {
      ForAppend(a, Init(b), p);
      assert a + b == (a + Init(b)) + [Last(b)];
      ForSnoc(a + Init(b), Last(b), p);
    }
  }

  lemma {:induction false} ForMember(outs: seq<Outcome>, o: Outcome, p: Provider)
    ensures o in For(outs, p) <==> o in outs && o.msg.provider == p
  {
    if outs != [] {
      ForMember(Init(outs), o, p);
      assert outs == Init(outs) + [Last(outs)];
    }
  }

  /** Each message finds remembered what the one before it left, the first what was there at the start. */
  ghost predicate Linked(start: Option<Time>, outs: seq<Outcome>) {
    forall k :: 0 <= k < |outs| ==> outs[k].recorded == Left(start, outs, k)
  }

  /** What is remembered before message `k`. */
  function Left(start: Option<Time>, outs: seq<Outcome>, k: nat): Option<Time>
    requires k <= |outs|
  {
    if k == 0 then start else outs[k - 1].after
  }

  /** Of messages for one provider served after one another, exactly the first is answered with a refresh. */
  predicate ExactlyFirst(outs: seq<Outcome>)
    requires outs != []
  {
    Performed(outs[0]) && forall k :: 0 < k < |outs| ==> !Performed(outs[k])
  }

  predicate NonePerformed(outs: seq<Outcome>) {
    forall k :: 0 <= k < |outs| ==> !Performed(outs[k])
  }

  predicate OthersWithin(outs: seq<Outcome>, t: Option<Time>, interval: nat) {
    forall k :: 0 < k < |outs| ==> LookedAtWithin(outs[k], t, interval)
  }

  ghost predicate AllJudged(interval: nat, clock: Time, outs: seq<Outcome>) {
    forall k :: 0 <= k < |outs| ==> Judged(interval, clock, outs[k])
  }

  /** While later messages are looked at within the interval of what one left, none of them refreshes. */
  lemma {:induction false} StaysFresh(interval: nat, clock: Time, start: Option<Time>, outs: seq<Outcome>, k: nat)
    requires AllJudged(interval, clock, outs) && Linked(start, outs) && 0 < k <= |outs|
    requires forall j :: 0 < j < k ==> LookedAtWithin(outs[j], outs[0].after, interval)
    ensures Left(start, outs, k) == outs[0].after
    ensures forall j :: 0 < j < k ==> !Performed(outs[j])
  {
    if k > 1 {
      StaysFresh(interval, clock, start, outs, k - 1);
      assert Judged(interval, clock, outs[k - 1]);
    }
  }

  /** And if none of them refreshes, what one left is what each of them finds. */
  lemma {:induction false} StaysRemembered(interval: nat, clock: Time, start: Option<Time>, outs: seq<Outcome>, k: nat)
    requires AllJudged(interval, clock, outs) && Linked(start, outs) && 0 < k <= |outs|
    requires forall j :: 0 < j < k ==> !Performed(outs[j])
    ensures Left(start, outs, k) == outs[0].after
    ensures forall j :: 0 < j < k ==> LookedAtWithin(outs[j], outs[0].after, interval)
  {
    if k > 1 {
      StaysRemembered(interval, clock, start, outs, k - 1);
      assert Judged(interval, clock, outs[k - 1]);
    }
  }

  /** Exactly the first of several messages refreshes if and only if it does not find the provider fresh,
      leaves it remembered, and all others are looked at within the interval of that. */
  lemma ExactlyFirstIff(interval: nat, clock: Time, start: Option<Time>, outs: seq<Outcome>)
    requires AllJudged(interval, clock, outs) && Linked(start, outs) && outs != []
    ensures ExactlyFirst(outs) <==>
              !LookedAtWithin(outs[0], start, interval) && OthersWithin(outs, outs[0].after, interval)
  {
    assert Judged(interval, clock, outs[0]) && outs[0].recorded == Left(start, outs, 0);
    if OthersWithin(outs, outs[0].after, interval) {
      StaysFresh(interval, clock, start, outs, |outs|);
    }
    if forall k :: 0 < k < |outs| ==> !Performed(outs[k]) {
      StaysRemembered(interval, clock, start, outs, |outs|);
    }
  }

  /** None refreshes if and only if the first finds the provider fresh and all others are looked at within
      the interval of the same refresh. */
  lemma NonePerformedIff(interval: nat, clock: Time, start: Option<Time>, outs: seq<Outcome>)
    requires AllJudged(interval, clock, outs) && Linked(start, outs) && outs != []
    ensures NonePerformed(outs) <==> LookedAtWithin(outs[0], start, interval) && OthersWithin(outs, start, interval)
  {
    assert Judged(interval, clock, outs[0]) && outs[0].recorded == Left(start, outs, 0);
    if LookedAtWithin(outs[0], start, interval) && OthersWithin(outs, start, interval) {
      StaysFresh(interval, clock, start, outs, |outs|);
    }
    if NonePerformed(outs) {
      StaysRemembered(interval, clock, start, outs, |outs|);
    }
  }

  // ---------------------------------------------------------------- what an instance decides

  function Messages(outs: seq<Outcome>): seq<Message> {
    seq(|outs|, k requires 0 <= k < |outs| => outs[k].msg)
  }

  /** The message whose answer is decided and not yet handed over. */
  function Undelivered(w: Worker): seq<Message> {
    match w
    case Replying(msg, _) => [msg]
    case _ => []
  }

  /** Every message the refresher is done with, in order, and the one it is answering, has its outcome. */
  ghost predicate Paired(x: Inst) {
    && Messages(x.outcomes) == x.finished + Undelivered(x.refresher.worker)
    && (x.refresher.worker.Replying? ==> x.outcomes != [] && Last(x.outcomes).reply == x.refresher.worker.reply)
  }

  /** The outcomes for `p` follow from one another, and from the last follows what is remembered now. */
  ghost predicate ChainAt(x: Inst, p: Provider) {
    var outs := For(x.outcomes, p);
    Linked(None, outs) && Left(None, outs, |outs|) == Remembered(x.refresher.last, p)
  }

  /** Whoever waited for a finished message was handed exactly what was decided. */
  predicate HandedOver(x: Inst, k: nat)
    requires k < |x.finished| && k < |x.outcomes|
  {
    x.finished[k].channel.Some? ==>
      x.finished[k].channel.value in x.slots && x.slots[x.finished[k].channel.value] == Filled(x.outcomes[k].reply)
  }

  ghost predicate Delivered(x: Inst) {
    |x.finished| <= |x.outcomes| && forall k :: 0 <= k < |x.finished| ==> HandedOver(x, k)
  }

  ghost predicate OutcomeInv(x: Inst) {
    && Run(x.interval, FRESH, x.trace) == Some(x.refresher)
    && Paired(x) && AllJudged(x.interval, x.clock, x.outcomes)
    && (forall p :: ChainAt(x, p))
    && Delivered(x)
  }

  lemma BootedOutcomes(interval: nat, now: Time)
    ensures OutcomeInv(Booted(interval, now))
  {
  }

  /** What a deciding move writes down is what the waiter will be told. */
  lemma DecisionIs(interval: nat, r: Refresher, e: Event)
    requires RefreshProgram.Next(interval, r, e).Some?
    ensures var r' := RefreshProgram.Next(interval, r, e).value;
      && (Decides(r.worker, r'.worker) ==> r'.worker == Respond(r.worker.msg, Decision(r.worker, e)))
      && (!Decides(r.worker, r'.worker) ==> r'.last == r.last && (r'.worker.Replying? ==> false))
      && (r.worker.Replying? ==> e.Sent? && r'.worker.Idle?)
  {
  }

  lemma MessagesSnoc(outs: seq<Outcome>, o: Outcome)
    ensures Messages(outs + [o]) == Messages(outs) + [o.msg]
  {
    assert forall k :: 0 <= k < |outs| ==> (outs + [o])[k] == outs[k];
  }

  lemma WorkKeepsPaired(x: Inst, w: Event, logged: nat)
    requires FifoInv(x) && Paired(x) && Do(x, Work(w), logged).Some?
    ensures Paired(Do(x, Work(w), logged).value)
  {
    var y := Do(x, Work(w), logged).value;
    DecisionIs(x.interval, x.refresher, w);
    HandMoves(x.interval, x.refresher, w);
    if Decides(x.refresher.worker, y.refresher.worker) {
      MessagesSnoc(x.outcomes, Last(y.outcomes));
      assert Undelivered(x.refresher.worker) == [] && x.finished + [] == x.finished;
      assert Hand(x.refresher.worker) == [x.refresher.worker.msg];
    } else if x.refresher.worker.Replying? {
      assert x.finished + Hand(x.refresher.worker) + [] == x.finished + Undelivered(x.refresher.worker);
    } else {
      assert x.finished + [] == x.finished;
    }
  }

  /** Only a remembered provider is checked, and only one has a failure recorded. */
  predicate Grounded(r: Refresher) {
    && (r.worker.Checking? ==> r.worker.msg.provider in r.last)
    && (r.worker.Stamping? && r.worker.result.Err? ==> r.worker.msg.provider in r.last)
  }

  /** The refresher's history is one of its program. */
  lemma WorkKeepsTrace(x: Inst, w: Event, logged: nat)
    requires Run(x.interval, FRESH, x.trace) == Some(x.refresher) && Do(x, Work(w), logged).Some?
    ensures var y := Do(x, Work(w), logged).value; Run(y.interval, FRESH, y.trace) == Some(y.refresher)
    ensures Do(x, Work(w), logged).value.trace == x.trace + [w]
  {
    RunSnoc(x.interval, FRESH, x.trace, w);
  }

  /** What is decided reports what the history says happened. */
  lemma DecisionReports(interval: nat, r: Refresher, tr: seq<Event>, e: Event)
    requires Run(interval, FRESH, tr) == Some(r) && RefreshProgram.Next(interval, r, e).Some?
    requires Decides(r.worker, RefreshProgram.Next(interval, r, e).value.worker)
    ensures match Decision(r.worker, e)
            case RefreshPerformed(result) => Reports(GotOf(tr + [e]), StoredOf(tr + [e]), result)
            case ProviderVersionNotStale => GotOf(tr + [e]).None? && StoredOf(tr + [e]).None?
  {
    ReportsWhatHappened(interval, tr);
    assert Init(tr + [e]) == tr && Last(tr + [e]) == e;
  }

  /** A decision is right by the memory and the clock at hand. */
  lemma DecidedByMemory(x: Inst, w: Event, logged: nat, o: Outcome)
    requires LastInv(x) && Grounded(x.refresher) && Do(x, Work(w), logged).Some?
    requires Decides(x.refresher.worker, Do(x, Work(w), logged).value.refresher.worker)
    requires Reported(o) && NextOutcomes(x, w, Do(x, Work(w), logged).value.refresher) == x.outcomes + [o]
    ensures Judged(x.interval, x.clock, o)
  {
    LastMoves(x.interval, x.refresher, w);
    assert o == (x.outcomes + [o])[|x.outcomes|];
  }

  lemma DecidedRightly(x: Inst, w: Event, logged: nat)
    requires LastInv(x) && Grounded(x.refresher) && Run(x.interval, FRESH, x.trace) == Some(x.refresher)
    requires Do(x, Work(w), logged).Some? && Decides(x.refresher.worker, Do(x, Work(w), logged).value.refresher.worker)
    ensures var y := Do(x, Work(w), logged).value;
      y.outcomes != [] && Init(y.outcomes) == x.outcomes && Judged(x.interval, x.clock, Last(y.outcomes))
  {
    DecisionReports(x.interval, x.refresher, x.trace, w);
    var y := Do(x, Work(w), logged).value;
    var o := Last(y.outcomes);
    assert y.outcomes == x.outcomes + [o];
    DecidedByMemory(x, w, logged, o);
  }

  lemma WorkKeepsJudged(x: Inst, w: Event, logged: nat)
    requires LastInv(x) && Grounded(x.refresher) && AllJudged(x.interval, x.clock, x.outcomes)
    requires Run(x.interval, FRESH, x.trace) == Some(x.refresher) && Do(x, Work(w), logged).Some?
    ensures var y := Do(x, Work(w), logged).value; AllJudged(y.interval, y.clock, y.outcomes)
  {
    var y := Do(x, Work(w), logged).value;
    if Decides(x.refresher.worker, y.refresher.worker) {
      DecidedRightly(x, w, logged);
      forall k | 0 <= k < |y.outcomes| ensures Judged(y.interval, y.clock, y.outcomes[k]) {
        assert k < |x.outcomes| ==> y.outcomes[k] == x.outcomes[k];
      }
    }
  }

  lemma LinkedSnoc(start: Option<Time>, outs: seq<Outcome>, o: Outcome)
    requires Linked(start, outs) && o.recorded == Left(start, outs, |outs|)
    ensures Linked(start, outs + [o])
  {
    forall k | 0 <= k < |outs + [o]| ensures (outs + [o])[k].recorded == Left(start, outs + [o], k) {
      if k < |outs| {
        assert outs[k].recorded == Left(start, outs, k);
      }
    }
  }

  lemma WorkKeepsChain(x: Inst, w: Event, logged: nat, p: Provider)
    requires ChainAt(x, p) && Do(x, Work(w), logged).Some?
    ensures ChainAt(Do(x, Work(w), logged).value, p)
  {
    var y := Do(x, Work(w), logged).value;
    DecisionIs(x.interval, x.refresher, w);
    if Decides(x.refresher.worker, y.refresher.worker) {
      var o := Last(y.outcomes);
      ForSnoc(x.outcomes, o, p);
      OthersRemembered(x.interval, x.refresher, w, p);
      if o.msg.provider == p {
        LinkedSnoc(None, For(x.outcomes, p), o);
      } else {
        assert For(x.outcomes, p) + [] == For(x.outcomes, p);
      }
    }
  }

  /** A move of the refresher changes what is remembered of no other provider. */
  lemma OthersRemembered(interval: nat, r: Refresher, e: Event, p: Provider)
    requires RefreshProgram.Next(interval, r, e).Some?
    ensures var last := RefreshProgram.Next(interval, r, e).value.last;
      Remembered(last, p) == Remembered(r.last, p) || (r.worker.Stamping? && r.worker.msg.provider == p)
  {
  }

  // ---------------------------------------------------------------- answers handed over

  /** Slots of finished messages are never written again. */
  lemma WorkKeepsHandedOver(x: Inst, w: Event, logged: nat, k: nat)
    requires FifoInv(x) && WaiterInv(x) && Do(x, Work(w), logged).Some?
    requires k < |x.finished| && k < |x.outcomes| && HandedOver(x, k)
    ensures var y := Do(x, Work(w), logged).value;
      k < |y.finished| && k < |y.outcomes| && HandedOver(y, k)
  {
    var y := Do(x, Work(w), logged).value;
    HistoryKept(x, w, logged, k);
    if x.finished[k].channel.Some? {
      var ch := x.finished[k].channel.value;
      FinishedSlotStays(x, w, logged, ch, k);
    }
  }

  lemma HistoryKept(x: Inst, w: Event, logged: nat, k: nat)
    requires Do(x, Work(w), logged).Some? && k < |x.finished| && k < |x.outcomes|
    ensures var y := Do(x, Work(w), logged).value;
      k < |y.finished| && k < |y.outcomes| && y.finished[k] == x.finished[k] && y.outcomes[k] == x.outcomes[k]
  {
  }

  lemma FinishedSlotStays(x: Inst, w: Event, logged: nat, ch: nat, k: nat)
    requires FifoInv(x) && WaiterInv(x) && Do(x, Work(w), logged).Some?
    requires k < |x.finished| && x.finished[k].channel == Some(ch) && ch in x.slots
    ensures ch in Do(x, Work(w), logged).value.slots && Do(x, Work(w), logged).value.slots[ch] == x.slots[ch]
  {
    ChannelMember(x.finished, ch);
    PlacesAreApart(x, ch);
    if w.Sent? {
      SentChannel(x, w, logged);
      SingleChannel(x.refresher.worker.msg, w.channel);
    }
  }

  lemma WorkKeepsDelivered(x: Inst, w: Event, logged: nat)
    requires FifoInv(x) && WaiterInv(x) && Paired(x) && Delivered(x) && Do(x, Work(w), logged).Some?
    ensures Delivered(Do(x, Work(w), logged).value)
  {
    var y := Do(x, Work(w), logged).value;
    WorkKeepsPaired(x, w, logged);
    assert |y.finished| <= |Messages(y.outcomes)|;
    forall k | 0 <= k < |y.finished| ensures HandedOver(y, k) {
      if k < |x.finished| {
        assert HandedOver(x, k);
        WorkKeepsHandedOver(x, w, logged, k);
      } else {
        NewlyHandedOver(x, w, logged, k);
      }
    }
  }

  lemma NewlyHandedOver(x: Inst, w: Event, logged: nat, k: nat)
    requires FifoInv(x) && Paired(x) && Do(x, Work(w), logged).Some?
    requires |x.finished| <= k < |Do(x, Work(w), logged).value.finished| && k < |Do(x, Work(w), logged).value.outcomes|
    ensures HandedOver(Do(x, Work(w), logged).value, k)
  {
    HandMoves(x.interval, x.refresher, w);
    DecisionIs(x.interval, x.refresher, w);
    assert |Messages(x.outcomes)| == |x.finished| + |Undelivered(x.refresher.worker)|;
  }

  // ---------------------------------------------------------------- every step

  lemma WorkKeepsOutcomes(x: Inst, w: Event, log: seq<Commit>, i: nat)
    requires Inv(x, log, i) && OutcomeInv(x) && Do(x, Work(w), |log|).Some?
    ensures OutcomeInv(Do(x, Work(w), |log|).value)
  {
    WorkKeepsTrace(x, w, |log|);
    WorkKeepsPaired(x, w, |log|);
    WorkKeepsJudged(x, w, |log|);
    WorkKeepsDelivered(x, w, |log|);
    forall p ensures ChainAt(Do(x, Work(w), |log|).value, p) {
      assert ChainAt(x, p);
      WorkKeepsChain(x, w, |log|, p);
    }
  }

  lemma HandleKeepsOutcomes(x: Inst, h: nat, e: IP.Event, logged: nat)
    requires FifoInv(x) && WaiterInv(x) && OutcomeInv(x) && DoHandle(x, h, e, logged).Some?
    ensures OutcomeInv(DoHandle(x, h, e, logged).value)
  {
    var y := DoHandle(x, h, e, logged).value;
    forall p ensures ChainAt(y, p) {
      assert ChainAt(x, p);
    }
    forall k | 0 <= k < |y.finished| ensures HandedOver(y, k) {
      assert HandedOver(x, k);
      if x.finished[k].channel.Some? {
        ChannelMember(x.finished, x.finished[k].channel.value);
        if SentBy(h, e) != [] {
          SendersAreUnknown(x, h, e, logged);
          UnknownAnywhere(x, h);
        }
      }
    }
  }

  lemma PlainKeepsOutcomes(x: Inst, step: Step, logged: nat)
    requires OutcomeInv(x) && Do(x, step, logged).Some? && !step.Handle? && !step.Work?
    ensures OutcomeInv(Do(x, step, logged).value)
  {
    var y := Do(x, step, logged).value;
    forall p ensures ChainAt(y, p) {
      assert ChainAt(x, p);
    }
    forall k | 0 <= k < |y.finished| ensures HandedOver(y, k) {
      assert HandedOver(x, k);
    }
    forall k | 0 <= k < |y.outcomes| ensures Judged(y.interval, y.clock, y.outcomes[k]) {
      assert Judged(x.interval, x.clock, x.outcomes[k]);
    }
  }

  lemma StepKeepsOutcomes(x: Inst, step: Step, log: seq<Commit>, i: nat)
    requires Inv(x, log, i) && OutcomeInv(x) && Do(x, step, |log|).Some?
    ensures OutcomeInv(Do(x, step, |log|).value)
  {
    match step
    case Handle(h, e) => HandleKeepsOutcomes(x, h, e, |log|);
    case Work(w) => WorkKeepsOutcomes(x, w, log, i);
    case _ => PlainKeepsOutcomes(x, step, |log|);
  }

  // ---------------------------------------------------------------- a queue, and a burst

  lemma LinkedMiddle(start: Option<Time>, a: seq<Outcome>, b: seq<Outcome>, c: seq<Outcome>)
    requires Linked(start, a + b + c)
    ensures Linked(Left(start, a, |a|), b)
  {
    var all := a + b + c;
    forall k | 0 <= k < |b| ensures b[k].recorded == Left(Left(start, a, |a|), b, k) {
      assert all[|a| + k] == b[k];
      assert all[|a| + k].recorded == Left(start, all, |a| + k);
      if k > 0 {
        assert all[|a| + k - 1] == b[k - 1];
      }
    }
  }

  /** What each of several messages finds remembered is no older than what there was at the start. */
  lemma {:induction false} RememberedLater(interval: nat, clock: Time, start: Option<Time>, outs: seq<Outcome>, k: nat)
    requires AllJudged(interval, clock, outs) && Linked(start, outs) && k < |outs| && start.Some?
    ensures outs[k].recorded.Some? && outs[k].recorded.value >= start.value
  {
    assert outs[k].recorded == Left(start, outs, k);
    if k > 0 {
      RememberedLater(interval, clock, start, outs, k - 1);
      assert Judged(interval, clock, outs[k - 1]);
    }
  }

  /** The messages about one provider, in order. */
  function Asking(ms: seq<Message>, p: Provider): seq<Message> {
    if ms == [] then [] else Asking(Init(ms), p) + (if Last(ms).provider == p then [Last(ms)] else [])
  }

  lemma {:induction false} ForMessages(outs: seq<Outcome>, p: Provider)
    ensures Messages(For(outs, p)) == Asking(Messages(outs), p)
  {
    if outs != [] {
      ForMessages(Init(outs), p);
      assert outs == Init(outs) + [Last(outs)];
      MessagesSnoc(Init(outs), Last(outs));
      assert Init(Messages(outs)) == Messages(Init(outs)) && Last(Messages(outs)) == Last(outs).msg;
      if Last(outs).msg.provider == p {
        MessagesSnoc(For(Init(outs), p), Last(outs));
      }
    }
  }

  /** How many messages will have been served before the present queue. */
  function Ahead(x: Inst): nat {
    |x.finished| + |Hand(x.refresher.worker)|
  }

  /** By state `y` everything queued in state `x` has been served. */
  predicate QueueServed(x: Inst, y: Inst) {
    Ahead(x) + |x.queue| <= |y.finished| <= |y.outcomes|
  }

  /** What became of the messages about `p` that were queued in state `x`. */
  function Served(x: Inst, y: Inst, p: Provider): seq<Outcome>
    requires QueueServed(x, y)
  {
    For(y.outcomes[Ahead(x)..Ahead(x) + |x.queue|], p)
  }

  /** What is remembered of `p` when the first of them is taken up. */
  function Before(x: Inst, y: Inst, p: Provider): Option<Time>
    requires QueueServed(x, y)
  {
    var outs := For(y.outcomes[..Ahead(x)], p);
    Left(None, outs, |outs|)
  }

  /** A queue is served in its order, and each waiter is handed what was decided about its message. */
  lemma ServedInOrder(x: Inst, y: Inst)
    requires FifoInv(x) && FifoInv(y) && OutcomeInv(y) && x.accepted <= y.accepted && QueueServed(x, y)
    ensures forall k :: 0 <= k < |x.queue| ==> y.finished[Ahead(x) + k] == x.queue[k]
    ensures Messages(y.outcomes[Ahead(x)..Ahead(x) + |x.queue|]) == x.queue
  {
    var lo := Ahead(x);
    forall k | 0 <= k < |x.queue| ensures y.finished[lo + k] == x.queue[k] && y.outcomes[lo + k].msg == x.queue[k] {
      assert x.accepted[lo + k] == x.queue[k];
      assert y.accepted[lo + k] == y.finished[lo + k];
      assert Messages(y.outcomes)[lo + k] == y.finished[lo + k];
    }
  }

  lemma ServedIsLinked(x: Inst, y: Inst, p: Provider)
    requires AllJudged(y.interval, y.clock, y.outcomes) && Linked(None, For(y.outcomes, p)) && QueueServed(x, y)
    ensures AllJudged(y.interval, y.clock, Served(x, y, p)) && Linked(Before(x, y, p), Served(x, y, p))
  {
    MiddleIsLinked(y.interval, y.clock, y.outcomes, Ahead(x), Ahead(x) + |x.queue|, p);
  }

  /** Within a sequence of outcomes, those of any stretch for one provider follow from what came before it. */
  lemma MiddleIsLinked(interval: nat, clock: Time, outs: seq<Outcome>, lo: nat, hi: nat, p: Provider)
    requires AllJudged(interval, clock, outs) && Linked(None, For(outs, p)) && lo <= hi <= |outs|
    ensures AllJudged(interval, clock, For(outs[lo..hi], p))
    ensures Linked(Left(None, For(outs[..lo], p), |For(outs[..lo], p)|), For(outs[lo..hi], p))
  {
    var a, b, c := outs[..lo], outs[lo..hi], outs[hi..];
    assert outs == a + b + c;
    ForAppend(a + b, c, p);
    ForAppend(a, b, p);
    LinkedMiddle(None, For(a, p), For(b, p), For(c, p));
    assert forall k :: 0 <= k < |b| ==> b[k] == outs[lo + k];
    JudgedFor(interval, clock, b, p);
  }

  lemma JudgedFor(interval: nat, clock: Time, outs: seq<Outcome>, p: Provider)
    requires AllJudged(interval, clock, outs)
    ensures AllJudged(interval, clock, For(outs, p))
  {
    var few := For(outs, p);
    forall k | 0 <= k < |few| ensures Judged(interval, clock, few[k]) {
      ForMember(outs, few[k], p);
    }
  }

  lemma ServedMessages(x: Inst, y: Inst, p: Provider)
    requires FifoInv(x) && FifoInv(y) && OutcomeInv(y) && x.accepted <= y.accepted && QueueServed(x, y)
    ensures Messages(Served(x, y, p)) == Asking(x.queue, p)
  {
    ServedInOrder(x, y);
    ForMessages(y.outcomes[Ahead(x)..Ahead(x) + |x.queue|], p);
  }

  /** Of the messages about one provider that were queued together, once all are served: exactly the first
      was answered with a refresh if and only if it found the provider not fresh, the provider is
      remembered once it was served, and the others were looked at within the interval of that; and none
      was if and only if the first found it fresh and all others were looked at within the interval of
      the same refresh. */
  lemma QueuedTogether(x: Inst, y: Inst, p: Provider)
    requires FifoInv(x) && FifoInv(y) && OutcomeInv(y) && x.accepted <= y.accepted && QueueServed(x, y)
    ensures Messages(Served(x, y, p)) == Asking(x.queue, p)
    ensures var outs, start := Served(x, y, p), Before(x, y, p);
      outs != [] ==>
        && (ExactlyFirst(outs) <==>
              !LookedAtWithin(outs[0], start, y.interval) && OthersWithin(outs, outs[0].after, y.interval))
        && (NonePerformed(outs) <==>
              LookedAtWithin(outs[0], start, y.interval) && OthersWithin(outs, start, y.interval))
        && (outs[0].after.None? <==> start.None? && Performed(outs[0]) && outs[0].reply.result.Err?)
  {
    ServedMessages(x, y, p);
    assert ChainAt(y, p);
    ServedIsLinked(x, y, p);
    if Served(x, y, p) != [] {
      OneOrNone(y.interval, y.clock, Before(x, y, p), Served(x, y, p));
    }
  }

  lemma OneOrNone(interval: nat, clock: Time, start: Option<Time>, outs: seq<Outcome>)
    requires AllJudged(interval, clock, outs) && Linked(start, outs) && outs != []
    ensures ExactlyFirst(outs) <==>
              !LookedAtWithin(outs[0], start, interval) && OthersWithin(outs, outs[0].after, interval)
    ensures NonePerformed(outs) <==> LookedAtWithin(outs[0], start, interval) && OthersWithin(outs, start, interval)
    ensures outs[0].after.None? <==> start.None? && Performed(outs[0]) && outs[0].reply.result.Err?
  {
    ExactlyFirstIff(interval, clock, start, outs);
    NonePerformedIff(interval, clock, start, outs);
    assert Judged(interval, clock, outs[0]) && outs[0].recorded == Left(start, outs, 0);
  }

  /** If the refresher is free, what the first message finds is what is remembered now. */
  lemma BeforeIsNow(x: Inst, y: Inst, p: Provider)
    requires OutcomeInv(x) && x.refresher.worker.Idle? && x.outcomes <= y.outcomes && QueueServed(x, y)
    ensures Before(x, y, p) == Remembered(x.refresher.last, p)
  {
    assert |Messages(x.outcomes)| == |x.finished|;
    assert y.outcomes[..Ahead(x)] == x.outcomes;
    assert ChainAt(x, p);
  }

  /** Whatever is decided about a provider while the clock is within the interval of a recorded refresh of
      it is "not stale", and upstream is not contacted for it. */
  lemma BurstOutcomes(x: Inst, y: Inst, p: Provider, k: nat)
    requires LastInv(x) && OutcomeInv(x) && OutcomeInv(y) && x.outcomes <= y.outcomes && y.interval == x.interval
    requires p in x.stamps && k < |x.stamps[p]| && y.clock <= x.stamps[p][k].end + x.interval
    ensures forall m :: |x.outcomes| <= m < |y.outcomes| && y.outcomes[m].msg.provider == p ==>
              !Performed(y.outcomes[m])
  {
    var rest := y.outcomes[|x.outcomes|..];
    assert y.outcomes == x.outcomes + rest;
    NewOnesLinked(x, y, rest, p);
    LastIsLatest(x, p, k);
    NoneWhileFresh(y.interval, y.clock, x.refresher.last[p], For(rest, p));
    forall m | |x.outcomes| <= m < |y.outcomes| && y.outcomes[m].msg.provider == p ensures !Performed(y.outcomes[m]) {
      assert rest[m - |x.outcomes|] == y.outcomes[m];
      ForMember(rest, y.outcomes[m], p);
    }
  }

  lemma LastIsLatest(x: Inst, p: Provider, k: nat)
    requires LastInv(x) && p in x.stamps && k < |x.stamps[p]|
    ensures p in x.refresher.last && x.stamps[p][k].end <= x.refresher.last[p]
  {
    assert Spaced(x.interval, x.stamps[p]);
    IT.EndsGrow(x.interval, x.stamps[p], k, |x.stamps[p]| - 1);
  }

  lemma NoneWhileFresh(interval: nat, clock: Time, start: Time, outs: seq<Outcome>)
    requires AllJudged(interval, clock, outs) && Linked(Some(start), outs) && clock - start <= interval
    ensures forall o :: o in outs ==> !Performed(o)
  {
    forall k | 0 <= k < |outs| ensures !Performed(outs[k]) {
      RememberedLater(interval, clock, Some(start), outs, k);
      assert Judged(interval, clock, outs[k]);
    }
  }

  lemma NewOnesLinked(x: Inst, y: Inst, rest: seq<Outcome>, p: Provider)
    requires OutcomeInv(x) && OutcomeInv(y) && y.outcomes == x.outcomes + rest
    ensures Linked(Remembered(x.refresher.last, p), For(rest, p)) && AllJudged(y.interval, y.clock, For(rest, p))
  {
    assert ChainAt(x, p) && ChainAt(y, p);
    ForAppend(x.outcomes, rest, p);
    assert For(x.outcomes, p) + For(rest, p) + [] == For(x.outcomes, p) + For(rest, p);
    LinkedMiddle(None, For(x.outcomes, p), For(rest, p), []);
    forall k | 0 <= k < |rest| ensures Judged(y.interval, y.clock, rest[k]) {
      assert rest[k] == y.outcomes[|x.outcomes| + k];
    }
    JudgedFor(y.interval, y.clock, rest, p);
  }

  /** While the clock is within the interval of a recorded refresh, contacts do not grow. */
  lemma BurstContacts(x: Inst, y: Inst, log: seq<Commit>, log': seq<Commit>, i: nat, p: Provider, k: nat)
    requires Inv(x, log, i) && Inv(y, log', i) && IT.Later(x, y)
    requires p in x.stamps && k < |x.stamps[p]| && y.clock <= x.stamps[p][k].end + x.interval
    ensures ContactsOf(y, p) == ContactsOf(x, p)
  {
    assert ContactsAt(x, p) && ContactsAt(y, p);
    assert ContactsOf(x, p) <= ContactsOf(y, p);
    if |ContactsOf(y, p)| > |ContactsOf(x, p)| {
      var c := |ContactsOf(x, p)|;
      IT.ContactsFollowRefreshes(y, log', i, p, c);
      assert c >= |x.stamps[p]| - 1;
      assert Spaced(y.interval, y.stamps[p]);
      IT.EndsGrow(y.interval, y.stamps[p], k, c);
      ContactsArePast(y, log', i, p, c);
    }
  }

  lemma ContactsArePast(x: Inst, log: seq<Commit>, i: nat, p: Provider, k: nat)
    requires Inv(x, log, i) && p in x.contacts && k < |x.contacts[p]|
    ensures x.contacts[p][k] <= x.clock
  {
    IT.ContactsFollowRefreshes(x, log, i, p, k);
    if k + 1 < |x.stamps[p]| {
      assert Spaced(x.interval, x.stamps[p]);
      IT.EndsGrow(x.interval, x.stamps[p], k + 1, |x.stamps[p]| - 1);
    }
  }
}
