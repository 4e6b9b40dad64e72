/** Runs that do happen: a first request served straight from a refresh, and the refusal that follows
    when the refresh brought no platform. */
module Scenarios {
  import opened Basics
  import opened Decimal
  import opened Catalogue
  import opened Index
  import opened Mirror
  import Inst = Instance
  import IP = IndexProgram
  import RP = RefreshProgram

  const NOTHING_DRAWN: Drawn := Drawn(0, [], 0)

  /** The refresher is free and nobody is queued. */
  predicate Ready(x: Inst.Inst) {
    x.open && x.refresher.worker.Idle? && x.queue == []
  }

  function With(w: World, i: nat, x: Inst.Inst): World {
    w.(instances := w.instances[i := x])
  }

  function One(i: nat, local: Inst.Step): seq<Step> {
    [Local(i, local, NOTHING_DRAWN, false)]
  }

  /** A local step that stores nothing moves its instance and nothing else. */
  lemma Move(w: World, i: nat, local: Inst.Step)
    requires i in w.instances && Inst.Do(w.instances[i], local, |w.log|).Some? && Honest(w.shared.tables, local)
    requires !(local.Work? && local.w.StoreAnswered?)
    ensures Leads(w, One(i, local), With(w, i, Inst.Do(w.instances[i], local, |w.log|).value))
  {
    var step := One(i, local)[0];
    assert One(i, local)[..0] == [];
    assert Do(w, step) == Some(With(w, i, Inst.Do(w.instances[i], local, |w.log|).value));
  }

  /** Two local steps in a row. */
  lemma MoveTwice(w: World, i: nat, a: Inst.Step, b: Inst.Step)
    requires i in w.instances && Inst.Do(w.instances[i], a, |w.log|).Some?
    requires Inst.Do(Inst.Do(w.instances[i], a, |w.log|).value, b, |w.log|).Some?
    requires Honest(w.shared.tables, a) && Honest(w.shared.tables, b)
    requires !(a.Work? && a.w.StoreAnswered?) && !(b.Work? && b.w.StoreAnswered?)
    ensures Leads(w, One(i, a) + One(i, b),
                  With(w, i, Inst.Do(Inst.Do(w.instances[i], a, |w.log|).value, b, |w.log|).value))
  {
    var x := Inst.Do(w.instances[i], a, |w.log|).value;
    Move(w, i, a);
    Move(With(w, i, x), i, b);
    assert With(With(w, i, x), i, Inst.Do(x, b, |w.log|).value) == With(w, i, Inst.Do(x, b, |w.log|).value);
    ExecAppend(w, One(i, a), One(i, b));
  }

  /** One stretch of an instance's moves after another. */
  lemma Then(w: World, i: nat, a: seq<Step>, x: Inst.Inst, b: seq<Step>, y: Inst.Inst) returns (steps: seq<Step>)
    requires Leads(w, a, With(w, i, x)) && Leads(With(w, i, x), b, With(With(w, i, x), i, y))
    ensures Leads(w, steps, With(w, i, y))
  {
    assert With(With(w, i, x), i, y) == With(w, i, y);
    ExecAppend(w, a, b);
    steps := a + b;
  }

  // ---------------------------------------------------------------- the moves of a request

  /** A handler whose read found nothing, or failed. */
  function Newcomer(p: Provider, pc: IP.Pc, missedAt: Option<nat>): Inst.Handler {
    Inst.Handler(p, pc, true, missedAt, None)
  }

  /** What there is to say of a read that lists nothing: it failed, or it found nothing at this time. */
  function MissedAt(w: World, failed: bool): Option<nat> {
    if failed then None else Some(|w.log|)
  }

  /** Everything but the handlers, the queue and the answer channels is as it was. */
  predicate Alike(x: Inst.Inst, y: Inst.Inst) {
    && y.open == x.open && y.refresher == x.refresher && y.clock == x.clock && y.interval == x.interval
    && y.first == x.first && y.committed == x.committed
  }

  lemma Read(w: World, i: nat, h: nat, p: Provider, failed: bool) returns (steps: seq<Step>, y: Inst.Inst)
    requires i in w.instances && h !in w.instances[i].handlers && (failed || ListingOf(w.shared.tables, p).None?)
    ensures Leads(w, steps, With(w, i, y)) && Alike(w.instances[i], y) && y.queue == w.instances[i].queue
    ensures y.handlers == w.instances[i].handlers[h := Newcomer(p, IP.Sending(p), MissedAt(w, failed))]
  {
    var ask, read := Inst.Request(h, p), Inst.Handle(h, IP.Listed(p, if failed then Err(Unavailable) else Ok(None)));
    MoveTwice(w, i, ask, read);
    steps := One(i, ask) + One(i, read);
    y := Inst.Do(Inst.Do(w.instances[i], ask, |w.log|).value, read, |w.log|).value;
  }

  lemma Send(w: World, i: nat, h: nat, p: Provider) returns (steps: seq<Step>, y: Inst.Inst)
    requires i in w.instances && Inst.HasRoom(w.instances[i]) && h in w.instances[i].handlers
    requires w.instances[i].handlers[h].live && w.instances[i].handlers[h].pc == IP.Sending(p)
    ensures Leads(w, steps, With(w, i, y)) && Alike(w.instances[i], y)
    ensures y.queue == w.instances[i].queue + [RP.Message(p, Some(h))]
    ensures y.handlers == w.instances[i].handlers[h := w.instances[i].handlers[h].(pc := IP.Waiting(p))]
  {
    var send := Inst.Handle(h, IP.SendTried(p, IP.Accepted));
    Move(w, i, send);
    steps, y := One(i, send), Inst.Do(w.instances[i], send, |w.log|).value;
  }

  /** A handler's read finds nothing listed or fails, and its request is alone in the queue. */
  lemma Ask(w: World, i: nat, h: nat, p: Provider, failed: bool) returns (steps: seq<Step>, y: Inst.Inst)
    requires i in w.instances && Ready(w.instances[i]) && h !in w.instances[i].handlers
    requires failed || ListingOf(w.shared.tables, p).None?
    ensures Leads(w, steps, With(w, i, y)) && Alike(w.instances[i], y) && y.queue == [RP.Message(p, Some(h))]
    ensures y.handlers == w.instances[i].handlers[h := Newcomer(p, IP.Waiting(p), MissedAt(w, failed))]
  {
    var x, sent;
    steps, x := Read(w, i, h, p, failed);
    sent, y := Send(With(w, i, x), i, h, p);
    steps := Then(w, i, steps, x, sent, y);
  }

  /** The waiter is handed a reply and takes it. */
  lemma Deliver(w: World, i: nat, h: nat, msg: RP.Message, reply: RP.Reply) returns (steps: seq<Step>, y: Inst.Inst)
    requires i in w.instances && w.instances[i].refresher.worker == RP.Replying(msg, reply) && msg.channel == Some(h)
    requires h in w.instances[i].handlers && w.instances[i].handlers[h].live && w.instances[i].handlers[h].pc.Waiting?
    ensures Leads(w, steps, With(w, i, y))
    ensures var x := w.instances[i];
      && y.queue == x.queue && Alike(x.(refresher := x.refresher.(worker := RP.Idle)), y)
      && y.handlers == x.handlers[h := x.handlers[h].(pc := IP.Interpret(x.handlers[h].pc.provider, Some(reply)),
                                                      got := Some(Some(reply)))]
  {
    var sent, taken := Inst.Work(RP.Sent(h, reply)), Inst.Handle(h, IP.Answered(Some(reply)));
    MoveTwice(w, i, sent, taken);
    steps := One(i, sent) + One(i, taken);
    y := Inst.Do(Inst.Do(w.instances[i], sent, |w.log|).value, taken, |w.log|).value;
  }

  // ---------------------------------------------------------------- a request within the interval

  lemma Recheck(w: World, i: nat, msg: RP.Message) returns (steps: seq<Step>, y: Inst.Inst)
    requires i in w.instances && w.instances[i].refresher.worker.Idle? && w.instances[i].queue == [msg]
    requires msg.channel.Some?
    requires var x := w.instances[i];
             msg.provider in x.refresher.last && x.clock - x.refresher.last[msg.provider] <= x.interval
    ensures Leads(w, steps, With(w, i, y))
    ensures var x := w.instances[i];
      && y.queue == [] && y.handlers == x.handlers && y.first == x.first
      && y.refresher.worker == RP.Replying(msg, RP.ProviderVersionNotStale)
  {
    var take, look := Inst.Work(RP.Selected(msg)), Inst.Work(RP.ClockRead(w.instances[i].clock));
    MoveTwice(w, i, take, look);
    steps := One(i, take) + One(i, look);
    y := Inst.Do(Inst.Do(w.instances[i], take, |w.log|).value, look, |w.log|).value;
  }

  /** A provider that was refreshed within the interval and lists nothing is refused, although nothing
      failed and nothing was concurrent. */
  lemma RefusedWithinInterval(w: World, i: nat, h: nat, p: Provider) returns (steps: seq<Step>, y: Inst.Inst)
    requires i in w.instances && Ready(w.instances[i]) && h !in w.instances[i].handlers
    requires var x := w.instances[i]; p in x.refresher.last && x.clock - x.refresher.last[p] <= x.interval
    requires ListingOf(w.shared.tables, p).None?
    ensures Leads(w, steps, With(w, i, y)) && y.first == w.instances[i].first
    ensures var told := Some(Some(RP.ProviderVersionNotStale));
      y.handlers == w.instances[i].handlers[
        h := Inst.Handler(p, IP.Refused(IP.ConcurrentProviderFetch(p)), true, Some(|w.log|), told)]
  {
    var x, more;
    steps, x := AskAgain(w, i, h, p);
    more, y := Deliver(With(w, i, x), i, h, RP.Message(p, Some(h)), RP.ProviderVersionNotStale);
    steps := Then(w, i, steps, x, more, y);
  }

  lemma AskAgain(w: World, i: nat, h: nat, p: Provider) returns (steps: seq<Step>, y: Inst.Inst)
    requires i in w.instances && Ready(w.instances[i]) && h !in w.instances[i].handlers
    requires var x := w.instances[i]; p in x.refresher.last && x.clock - x.refresher.last[p] <= x.interval
    requires ListingOf(w.shared.tables, p).None?
    ensures Leads(w, steps, With(w, i, y)) && y.first == w.instances[i].first
    ensures y.handlers == w.instances[i].handlers[h := Newcomer(p, IP.Waiting(p), Some(|w.log|))]
    ensures y.refresher.worker == RP.Replying(RP.Message(p, Some(h)), RP.ProviderVersionNotStale)
  {
    var x, more;
    steps, x := Ask(w, i, h, p, false);
    more, y := Recheck(With(w, i, x), i, RP.Message(p, Some(h)));
    steps := Then(w, i, steps, x, more, y);
  }

  // ---------------------------------------------------------------- failing attempts

  lemma Fail(w: World, i: nat, msg: RP.Message, rest: seq<RP.Message>) returns (steps: seq<Step>, y: Inst.Inst)
    requires i in w.instances && w.instances[i].refresher.worker.Idle? && msg.channel.Some?
    requires w.instances[i].queue == [msg] + rest && msg.provider !in w.instances[i].refresher.last
    ensures Leads(w, steps, With(w, i, y))
    ensures var x := w.instances[i];
      && y.queue == rest && y.handlers == x.handlers
      && Alike(x.(refresher := x.refresher.(worker := RP.Replying(msg, RP.RefreshPerformed(Err(RP.FetchFailed)))),
                  committed := None), y)
  {
    var take, got := Inst.Work(RP.Selected(msg)), Inst.Work(RP.ProviderGot(msg.provider, Err(RP.FetchFailed)));
    MoveTwice(w, i, take, got);
    steps := One(i, take) + One(i, got);
    y := Inst.Do(Inst.Do(w.instances[i], take, |w.log|).value, got, |w.log|).value;
  }

  /** A handler was told that the refresh it asked for was performed and failed upstream. */
  predicate Told(x: Inst.Inst, h: nat) {
    && h in x.handlers && x.handlers[h].pc == IP.Refused(IP.RefreshFailed(RP.FetchFailed))
    && x.handlers[h].got == Some(Some(RP.RefreshPerformed(Err(RP.FetchFailed))))
  }

  /** The head of the queue is about an unknown provider: it is refreshed, that fails, and its waiter is told. */
  lemma FailHead(w: World, i: nat, h: nat, p: Provider, rest: seq<RP.Message>) returns (steps: seq<Step>, y: Inst.Inst)
    requires i in w.instances && w.instances[i].refresher.worker.Idle?
    requires w.instances[i].queue == [RP.Message(p, Some(h))] + rest && p !in w.instances[i].refresher.last
    requires h in w.instances[i].handlers && w.instances[i].handlers[h].live
    requires w.instances[i].handlers[h].pc == IP.Waiting(p)
    ensures Leads(w, steps, With(w, i, y))
    ensures var x := w.instances[i];
      && y.open == x.open && y.clock == x.clock && y.refresher == x.refresher && y.queue == rest
      && h in y.handlers && Told(y, h) && y.handlers == x.handlers[h := y.handlers[h]]
  {
    var msg, z, more := RP.Message(p, Some(h)), w.instances[i], [];
    steps, z := Fail(w, i, msg, rest);
    more, y := Deliver(With(w, i, z), i, h, msg, RP.RefreshPerformed(Err(RP.FetchFailed)));
    steps := Then(w, i, steps, z, more, y);
  }

  lemma FailOnce(w: World, i: nat, h: nat, p: Provider) returns (steps: seq<Step>, y: Inst.Inst)
    requires i in w.instances && Ready(w.instances[i]) && h !in w.instances[i].handlers
    requires p !in w.instances[i].refresher.last && ListingOf(w.shared.tables, p).None?
    ensures Leads(w, steps, With(w, i, y))
    ensures var x := w.instances[i];
      && Ready(y) && y.clock == x.clock && y.refresher == x.refresher
      && h in y.handlers && Told(y, h) && y.handlers == x.handlers[h := y.handlers[h]]
  {
    var x, more;
    steps, x := Ask(w, i, h, p, false);
    more, y := FailHead(With(w, i, x), i, h, p, []);
    steps := Then(w, i, steps, x, more, y);
  }

  // ---------------------------------------------------------------- two requests at once

  /** Two handlers find nothing listed, and both requests are queued before the refresher looks at either. */
  lemma AskBoth(w: World, i: nat, h: nat, g: nat, p: Provider) returns (steps: seq<Step>, y: Inst.Inst)
    requires i in w.instances && Ready(w.instances[i]) && ListingOf(w.shared.tables, p).None?
    requires h !in w.instances[i].handlers && g !in w.instances[i].handlers && g != h
    ensures Leads(w, steps, With(w, i, y)) && Alike(w.instances[i], y)
    ensures y.queue == [RP.Message(p, Some(h)), RP.Message(p, Some(g))]
    ensures var waiting := Newcomer(p, IP.Waiting(p), Some(|w.log|));
      y.handlers == w.instances[i].handlers[h := waiting][g := waiting]
  {
    var x, z, more;
    steps, x := Ask(w, i, h, p, false);
    more, z := Read(With(w, i, x), i, g, p, false);
    steps := Then(w, i, steps, x, more, z);
    more, y := Send(With(w, i, z), i, g, p);
    steps := Then(w, i, steps, z, more, y);
  }

  /** Of two requests for an unknown provider that are queued together, both can be answered with a refresh
      performed: the first one fails, leaves nothing remembered, and the second tries again. */
  lemma BothRefresh(w: World, i: nat, h: nat, g: nat, p: Provider)
    returns (before: seq<Step>, x: Inst.Inst, after: seq<Step>, y: Inst.Inst)
    requires i in w.instances && Ready(w.instances[i]) && ListingOf(w.shared.tables, p).None?
    requires h !in w.instances[i].handlers && g !in w.instances[i].handlers && g != h
    requires p !in w.instances[i].refresher.last
    ensures Leads(w, before, With(w, i, x)) && x.refresher.worker.Idle?
    ensures x.queue == [RP.Message(p, Some(h)), RP.Message(p, Some(g))]
    ensures Leads(With(w, i, x), after, With(With(w, i, x), i, y)) && Told(y, h) && Told(y, g)
  {
    var z, more;
    before, x := AskBoth(w, i, h, g, p);
    assert x.queue == [RP.Message(p, Some(h))] + [RP.Message(p, Some(g))];
    var w1 := With(w, i, x);
    after, z := FailHead(w1, i, h, p, [RP.Message(p, Some(g))]);
    assert z.queue == [RP.Message(p, Some(g))] + [];
    more, y := FailHead(With(w1, i, z), i, g, p, []);
    after := Then(w1, i, after, z, more, y);
  }

  /** Such a run starts from nothing, for every provider and interval. */
  lemma BothRefreshIsReachable(prefix: string, interval: nat, p: Provider)
    returns (before: seq<Step>, w: World, after: seq<Step>, w': World)
    ensures Leads(Mirror.Start(prefix), before, w) && Leads(w, after, w')
    ensures 0 in w.instances && w.instances[0].refresher.worker.Idle?
    ensures w.instances[0].queue == [RP.Message(p, Some(1)), RP.Message(p, Some(2))]
    ensures 0 in w'.instances && Told(w'.instances[0], 1) && Told(w'.instances[0], 2)
  {
    var start, boot := Mirror.Start(prefix), Boot(0, interval, 0);
    var booted := Do(start, boot).value;
    assert [boot][..0] == [];
    var x, y;
    before, x, after, y := BothRefresh(booted, 0, 1, 2, p);
    w := With(booted, 0, x);
    w' := With(w, 0, y);
    ExecAppend(start, [boot], before);
    before := [boot] + before;
  }

  /** Before the first success nothing limits the rate: any number of attempts can fail upstream one
      after another within one clock reading, and leave nothing recorded. */
  lemma {:induction false} FirstAttemptsAreUnlimited(w: World, i: nat, h: nat, p: Provider, n: nat)
    returns (steps: seq<Step>, y: Inst.Inst)
    requires i in w.instances && Ready(w.instances[i]) && forall k :: k >= h ==> k !in w.instances[i].handlers
    requires p !in w.instances[i].refresher.last && ListingOf(w.shared.tables, p).None?
    ensures Leads(w, steps, With(w, i, y)) && Ready(y) && y.clock == w.instances[i].clock
    ensures y.refresher == w.instances[i].refresher
    ensures forall k :: k >= h + n ==> k !in y.handlers
    ensures forall k :: h <= k < h + n ==> Told(y, k)
  {
    if n == 0 {
      steps, y := [], w.instances[i];
      assert With(w, i, y) == w;
    } else {
      var x, more;
      steps, x := FirstAttemptsAreUnlimited(w, i, h, p, n - 1);
      more, y := FailOnce(With(w, i, x), i, h + n - 1, p);
      steps := Then(w, i, steps, x, more, y);
      forall k | h <= k < h + n ensures Told(y, k) {
        assert k < h + n - 1 ==> Told(x, k);
      }
    }
  }

  // ---------------------------------------------------------------- a first request

  lemma Fetch(w: World, i: nat, msg: RP.Message, versions: ProviderVersions) returns (steps: seq<Step>, y: Inst.Inst)
    requires i in w.instances && w.instances[i].refresher.worker.Idle? && w.instances[i].queue == [msg]
    requires msg.channel.Some?
    requires msg.provider !in w.instances[i].refresher.last
    ensures Leads(w, steps, With(w, i, y))
    ensures var x := w.instances[i];
      && y.queue == [] && y.handlers == x.handlers
      && Alike(x.(refresher := x.refresher.(worker := RP.Storing(msg, versions)), committed := None), y)
  {
    var take, got := Inst.Work(RP.Selected(msg)), Inst.Work(RP.ProviderGot(msg.provider, Ok(versions)));
    MoveTwice(w, i, take, got);
    steps := One(i, take) + One(i, got);
    y := Inst.Do(Inst.Do(w.instances[i], take, |w.log|).value, got, |w.log|).value;
  }

  /** The store commits and the refresh is recorded. */
  lemma Record(w: World, i: nat, msg: RP.Message, versions: ProviderVersions, d: Drawn)
    returns (steps: seq<Step>, w': World)
    requires i in w.instances && w.instances[i].refresher.worker == RP.Storing(msg, versions) && msg.channel.Some?
    requires Stored(w.shared.tables, Inst.Commit(i, msg.provider, versions), d).Some?
    ensures Leads(w, steps, w') && i in w'.instances && w'.instances.Keys == w.instances.Keys
    ensures w'.log == w.log + [Inst.Commit(i, msg.provider, versions)]
    ensures w'.shared.tables == Stored(w.shared.tables, Inst.Commit(i, msg.provider, versions), d).value
    ensures var x, y := w.instances[i], w'.instances[i];
      && y.open == x.open && y.queue == x.queue && y.clock == x.clock && y.interval == x.interval
      && y.handlers == x.handlers
      && y.refresher == RP.Refresher(x.refresher.last[msg.provider := x.clock],
                                     RP.Replying(msg, RP.RefreshPerformed(Ok(versions))))
  {
    var mid, y, more;
    steps, mid := CommitStore(w, i, msg, versions, d);
    more, y := Stamp(mid, i, msg, versions);
    w' := With(mid, i, y);
    ExecAppend(w, steps, more);
    steps := steps + more;
  }

  lemma CommitStore(w: World, i: nat, msg: RP.Message, versions: ProviderVersions, d: Drawn)
    returns (steps: seq<Step>, w': World)
    requires i in w.instances && w.instances[i].refresher.worker == RP.Storing(msg, versions)
    requires Stored(w.shared.tables, Inst.Commit(i, msg.provider, versions), d).Some?
    ensures Leads(w, steps, w') && i in w'.instances && w'.instances.Keys == w.instances.Keys
    ensures w'.log == w.log + [Inst.Commit(i, msg.provider, versions)]
    ensures w'.shared.tables == Stored(w.shared.tables, Inst.Commit(i, msg.provider, versions), d).value
    ensures var x, y := w.instances[i], w'.instances[i];
      && y.open == x.open && y.queue == x.queue && y.clock == x.clock && y.interval == x.interval
      && y.handlers == x.handlers
      && y.refresher == x.refresher.(worker := RP.Stamping(msg, Ok(versions)))
  {
    var store := Local(i, Inst.Work(RP.StoreAnswered(msg.provider, versions, true)), d, false);
    assert Init([store]) == [];
    steps, w' := [store], Do(w, store).value;
  }

  lemma Stamp(w: World, i: nat, msg: RP.Message, versions: ProviderVersions) returns (steps: seq<Step>, y: Inst.Inst)
    requires i in w.instances && w.instances[i].refresher.worker == RP.Stamping(msg, Ok(versions)) && msg.channel.Some?
    ensures Leads(w, steps, With(w, i, y))
    ensures var x := w.instances[i];
      && y.open == x.open && y.queue == x.queue && y.clock == x.clock && y.interval == x.interval
      && y.handlers == x.handlers
      && y.refresher == RP.Refresher(x.refresher.last[msg.provider := x.clock],
                                     RP.Replying(msg, RP.RefreshPerformed(Ok(versions))))
  {
    var stamp := Inst.Work(RP.ClockRead(w.instances[i].clock));
    Move(w, i, stamp);
    steps, y := One(i, stamp), Inst.Do(w.instances[i], stamp, |w.log|).value;
  }

  /** The handler was served the index of this response. */
  predicate IsServed(f: Inst.Handler, p: Provider, versions: ProviderVersions) {
    && f.provider == p && f.pc == IP.Served(IndexOf(Names(versions)))
    && f.got == Some(Some(RP.RefreshPerformed(Ok(versions))))
  }

  /** A first request for a provider on an instance that is free, whose read finds nothing or fails, is
      served straight from the refresh it sets off, whatever the response and whatever is known. */
  lemma FirstRequestServed(w: World, i: nat, h: nat, p: Provider, versions: ProviderVersions, d: Drawn, failed: bool)
    returns (steps: seq<Step>, w': World)
    requires i in w.instances && Ready(w.instances[i]) && h !in w.instances[i].handlers
    requires p !in w.instances[i].refresher.last && (failed || ListingOf(w.shared.tables, p).None?)
    requires Stored(w.shared.tables, Inst.Commit(i, p, versions), d).Some?
    ensures Leads(w, steps, w') && i in w'.instances && w'.instances.Keys == w.instances.Keys
    ensures w'.log == w.log + [Inst.Commit(i, p, versions)]
    ensures w'.shared.tables == Stored(w.shared.tables, Inst.Commit(i, p, versions), d).value
    ensures var x, y := w.instances[i], w'.instances[i];
      && Ready(y) && y.clock == x.clock && y.interval == x.interval
      && y.handlers.Keys == x.handlers.Keys + {h} && IsServed(y.handlers[h], p, versions)
      && y.handlers[h].missedAt == MissedAt(w, failed)
      && y.refresher.last == x.refresher.last[p := x.clock]
  {
    var x, mid, more;
    steps, x := AskAndFetch(w, i, h, p, versions, failed);
    more, mid := Record(With(w, i, x), i, RP.Message(p, Some(h)), versions, d);
    ExecAppend(w, steps, more);
    steps := steps + more;
    more, x := Deliver(mid, i, h, RP.Message(p, Some(h)), RP.RefreshPerformed(Ok(versions)));
    w' := With(mid, i, x);
    ExecAppend(w, steps, more);
    steps := steps + more;
  }

  lemma AskAndFetch(w: World, i: nat, h: nat, p: Provider, versions: ProviderVersions, failed: bool)
    returns (steps: seq<Step>, y: Inst.Inst)
    requires i in w.instances && Ready(w.instances[i]) && h !in w.instances[i].handlers
    requires p !in w.instances[i].refresher.last && (failed || ListingOf(w.shared.tables, p).None?)
    ensures Leads(w, steps, With(w, i, y))
    ensures var x := w.instances[i]; var msg := RP.Message(p, Some(h));
      && y.queue == [] && y.handlers == x.handlers[h := Newcomer(p, IP.Waiting(p), MissedAt(w, failed))]
      && y.open == x.open && y.clock == x.clock && y.interval == x.interval
      && y.refresher == x.refresher.(worker := RP.Storing(msg, versions))
  {
    var x, more;
    steps, x := Ask(w, i, h, p, failed);
    more, y := Fetch(With(w, i, x), i, RP.Message(p, Some(h)), versions);
    steps := Then(w, i, steps, x, more, y);
  }

  /** A provider whose first response has no platform: that request is served, and the next one, with
      nothing failing and nothing concurrent, is refused for a concurrent fetch although the first
      success committed before its read. */
  lemma PlatformlessIsRefusedNext(w: World, i: nat, h: nat, g: nat, p: Provider, versions: ProviderVersions, d: Drawn)
    returns (steps: seq<Step>, w': World)
    requires Inv(w) && i in w.instances && Ready(w.instances[i])
    requires h !in w.instances[i].handlers && g !in w.instances[i].handlers && g != h
    requires p !in w.instances[i].refresher.last && ListingOf(w.shared.tables, p).None?
    requires Stored(w.shared.tables, Inst.Commit(i, p, versions), d).Some? && NamesWithPlatform(versions) == {}
    ensures Leads(w, steps, w') && i in w'.instances
    ensures var hs := w'.instances[i].handlers;
      && h in hs && hs[h].pc == IP.Served(IndexOf(Names(versions)))
      && g in hs && hs[g].pc == IP.Refused(IP.ConcurrentProviderFetch(p))
      && hs[g].missedAt.Some? && p in w'.instances[i].first && w'.instances[i].first[p] < hs[g].missedAt.value
  {
    var mid, more, y;
    steps, mid := FirstBringsNothing(w, i, h, p, versions, d);
    more, y := RefusedWithinInterval(mid, i, g, p);
    w' := With(mid, i, y);
    ExecAppend(w, steps, more);
    steps := steps + more;
  }

  lemma FirstBringsNothing(w: World, i: nat, h: nat, p: Provider, versions: ProviderVersions, d: Drawn)
    returns (steps: seq<Step>, w': World)
    requires Inv(w) && i in w.instances && Ready(w.instances[i]) && h !in w.instances[i].handlers
    requires p !in w.instances[i].refresher.last && ListingOf(w.shared.tables, p).None?
    requires Stored(w.shared.tables, Inst.Commit(i, p, versions), d).Some? && NamesWithPlatform(versions) == {}
    ensures Leads(w, steps, w') && i in w'.instances && ListingOf(w'.shared.tables, p).None?
    ensures var x, y := w.instances[i], w'.instances[i];
      && Ready(y) && y.handlers.Keys == x.handlers.Keys + {h} && y.handlers[h].pc == IP.Served(IndexOf(Names(versions)))
      && p in y.refresher.last && y.clock - y.refresher.last[p] <= y.interval
      && p in y.first && y.first[p] < |w'.log|
  {
    steps, w' := FirstRequestServed(w, i, h, p, versions, d, false);
    InvConstraints(w);
    StillNothingListed(w.shared.tables, Inst.Commit(i, p, versions), d);
    RecordedIsLogged(w, steps, w', i, p);
  }

  lemma InvConstraints(w: World)
    requires Inv(w)
    ensures Constraints(w.shared.tables)
  {
  }

  lemma RecordedIsLogged(w: World, steps: seq<Step>, w': World, i: nat, p: Provider)
    requires Inv(w) && Leads(w, steps, w') && i in w'.instances && p in w'.instances[i].refresher.last
    ensures p in w'.instances[i].first && w'.instances[i].first[p] < |w'.log|
  {
    RunKeeps(w, steps, w');
    assert InstanceInv(w'.instances[i], w'.log, i);
  }

  lemma StillNothingListed(t: Tables, c: Inst.Commit, d: Drawn)
    requires Constraints(t) && Stored(t, c, d).Some?
    requires ListingOf(t, c.provider).None? && NamesWithPlatform(c.versions) == {}
    ensures ListingOf(Stored(t, c, d).value, c.provider).None?
  {
    FirstListing(t, c.provider, c.versions, d.providerId, d.ids, d.now);
  }

  /** Such a run starts from nothing. */
  lemma RefusalIsReachable(prefix: string, interval: nat, p: Provider) returns (steps: seq<Step>, w': World)
    requires ProviderFits(p)
    ensures Leads(Mirror.Start(prefix), steps, w') && 0 in w'.instances && 2 in w'.instances[0].handlers
    ensures var x := w'.instances[0]; var f := x.handlers[2];
      && f.pc == IP.Refused(IP.ConcurrentProviderFetch(p)) && f.missedAt.Some?
      && p in x.first && x.first[p] < f.missedAt.value
  {
    var start, boot := Mirror.Start(prefix), Boot(0, interval, 0);
    var w := Do(start, boot).value;
    assert [boot][..0] == [];
    StartInv(prefix);
    StepInv(start, boot);
    var nothing := ProviderVersions([]);
    var d := Drawn(1, [], 0);
    assert Flatten(nothing) == [];
    steps, w' := PlatformlessIsRefusedNext(w, 0, 1, 2, p, nothing, d);
    ExecAppend(start, [boot], steps);
    steps := [boot] + steps;
  }

  // ---------------------------------------------------------------- a known provider, and a failed read

  function DrawnFrom(providerId: Id, first: int, versions: ProviderVersions): Drawn
    requires 1 <= first && first + |Flatten(versions)| - 1 <= I64_MAX
  {
    Drawn(providerId, Draw(first, |Flatten(versions)|), 0)
  }

  /** A response whose texts fit can be stored with ids that are fresh. */
  lemma CanStore(t: Tables, c: Inst.Commit, providerId: Id, first: int)
    requires Constraints(t) && !TooLong(c.provider, c.versions) && providerId !in t.providers
    requires 1 <= first && first + |Flatten(c.versions)| - 1 <= I64_MAX && forall i :: i in t.versions ==> i < first
    ensures Stored(t, c, DrawnFrom(providerId, first, c.versions)).Some?
  {
    DrawsAreFresh(t, first, |Flatten(c.versions)|);
    ResponseRefusedIff(t, c.provider, c.versions, providerId, Draw(first, |Flatten(c.versions)|), 0);
  }

  /** What the store drew is all it used. */
  lemma DrawnUpTo(t: Tables, c: Inst.Commit, providerId: Id, first: int)
    requires Constraints(t) && providerId !in t.providers && 1 <= first
    requires first + |Flatten(c.versions)| - 1 <= I64_MAX && forall i :: i in t.versions ==> i < first
    requires Stored(t, c, DrawnFrom(providerId, first, c.versions)).Some?
    ensures var u := Stored(t, c, DrawnFrom(providerId, first, c.versions)).value;
      && Constraints(u)
      && (forall i :: i in u.providers ==> i in t.providers || i == providerId)
      && (forall i :: i in u.versions ==> i < first + |Flatten(c.versions)|)
  {
    var d := DrawnFrom(providerId, first, c.versions);
    StoreRows(t, c.provider, Flatten(c.versions), providerId, d.ids, d.now);
    StoreProviders(t, c.provider, Flatten(c.versions), providerId, d.ids, d.now);
  }

  lemma BootNext(w: World, i: nat, interval: nat)
    requires i !in w.instances
    ensures Leads(w, [Boot(i, interval, 0)], w.(instances := w.instances[i := Inst.Booted(interval, 0)]))
  {
    assert Init([Boot(i, interval, 0)]) == [];
  }

  /** From nothing, an instance serves a first request. */
  lemma OneInstanceServes(prefix: string, interval: nat, p: Provider, a: ProviderVersions)
    returns (steps: seq<Step>, w: World)
    requires !TooLong(p, a) && |Flatten(a)| <= I64_MAX
    ensures Leads(Mirror.Start(prefix), steps, w)
    ensures w.log == [Inst.Commit(0, p, a)] && w.instances.Keys == {0}
    ensures Constraints(w.shared.tables) && 2 !in w.shared.tables.providers
    ensures forall i :: i in w.shared.tables.versions ==> i < 1 + |Flatten(a)|
  {
    var start := Mirror.Start(prefix);
    var booted := start.(instances := start.instances[0 := Inst.Booted(interval, 0)]);
    var more;
    BootNext(start, 0, interval);
    CanStore(EMPTY, Inst.Commit(0, p, a), 1, 1);
    more, w := FirstRequestServed(booted, 0, 1, p, a, DrawnFrom(1, 1, a), false);
    DrawnUpTo(EMPTY, Inst.Commit(0, p, a), 1, 1);
    ExecAppend(start, [Boot(0, interval, 0)], more);
    steps := [Boot(0, interval, 0)] + more;
  }

  /** One instance serves `a` as a first request; then a second one, whose read fails, serves `b`. */
  lemma TwoInstancesServe(prefix: string, interval: nat, p: Provider, a: ProviderVersions, b: ProviderVersions)
    returns (steps: seq<Step>, w: World)
    requires !TooLong(p, a) && !TooLong(p, b) && |Flatten(a)| + |Flatten(b)| <= I64_MAX
    ensures Leads(Mirror.Start(prefix), steps, w)
    ensures w.log == [Inst.Commit(0, p, a), Inst.Commit(1, p, b)]
    ensures 1 in w.instances && 1 in w.instances[1].handlers && IsServed(w.instances[1].handlers[1], p, b)
    ensures w.instances[1].handlers[1].missedAt.None?
  {
    var one, more;
    steps, one := OneInstanceServes(prefix, interval, p, a);
    more, w := AnotherServes(one, 1, interval, p, b, 1 + |Flatten(a)|);
    ExecAppend(Mirror.Start(prefix), steps, more);
    steps := steps + more;
  }

  lemma AnotherServes(w: World, i: nat, interval: nat, p: Provider, b: ProviderVersions, first: int)
    returns (steps: seq<Step>, w': World)
    requires i !in w.instances && Constraints(w.shared.tables) && 2 !in w.shared.tables.providers
    requires !TooLong(p, b) && 1 <= first && first + |Flatten(b)| - 1 <= I64_MAX
    requires forall v :: v in w.shared.tables.versions ==> v < first
    ensures Leads(w, steps, w') && w'.log == w.log + [Inst.Commit(i, p, b)]
    ensures i in w'.instances && 1 in w'.instances[i].handlers && IsServed(w'.instances[i].handlers[1], p, b)
    ensures w'.instances[i].handlers[1].missedAt.None?
  {
    var booted, more := w.(instances := w.instances[i := Inst.Booted(interval, 0)]), [];
    BootNext(w, i, interval);
    CanStore(w.shared.tables, Inst.Commit(i, p, b), 2, first);
    more, w' := FirstRequestServed(booted, i, 1, p, b, DrawnFrom(2, first, b), true);
    ExecAppend(w, [Boot(i, interval, 0)], more);
    steps := [Boot(i, interval, 0)] + more;
  }
}
