/** The refresher as it runs: every run is a history of the program of module RefreshProgram. */
module RefreshHandler {
  import opened Basics
  import opened Catalogue
  import opened Index
  import opened RefreshProgram

  datatype Selection = Received(msg: Message) | CancelSeen | NothingYet

  /** The queue, the clock, the registry, the database and the waiters as the refresher meets them.
      `rounds` bounds how many selections are observed; every bound is covered. */
  class Services {
    var events: seq<Event>
    var rounds: nat

    constructor (rounds: nat)
      ensures events == [] && this.rounds == rounds
    {
      events := [];
      this.rounds := rounds;
    }

    /** Waits for a message or for cancellation, whichever is taken. */
    method Select() returns (s: Selection)
      modifies this
      ensures s.NothingYet? ==> events == old(events)
      ensures s.Received? ==> events == old(events) + [Selected(s.msg)] && rounds < old(rounds)
      ensures s.CancelSeen? ==> events == old(events) + [Cancelled]
    {
      s := *;
      if s.Received? && rounds > 0 {
        events, rounds := events + [Selected(s.msg)], rounds - 1;
      } else if s.CancelSeen? {
        events := events + [Cancelled];
      } else {
        s := NothingYet;
      }
    }

    method Now() returns (now: Time)
      modifies this`events
      ensures events == old(events) + [ClockRead(now)]
    {
      now := *;
      events := events + [ClockRead(now)];
    }

    method ProviderGet(p: Provider) returns (got: Result<ProviderVersions, RefreshError>)
      modifies this`events
      ensures events == old(events) + [ProviderGot(p, got)]
    {
      got := *;
      events := events + [ProviderGot(p, got)];
    }

    method StoreProviderVersions(p: Provider, versions: ProviderVersions) returns (ok: bool)
      modifies this`events
      ensures events == old(events) + [StoreAnswered(p, versions, ok)]
    {
      ok := *;
      events := events + [StoreAnswered(p, versions, ok)];
    }

    method Send(channel: nat, reply: Reply)
      modifies this`events
      ensures events == old(events) + [Sent(channel, reply)]
    {
      events := events + [Sent(channel, reply)];
    }
  }

  ghost predicate At(s: Services, interval: nat, r: Refresher)
    reads s
  {
    Run(interval, FRESH, s.events) == Some(r)
  }

  /** How one more call reads in a history. */
  lemma OneMore(h: seq<Event>, e: Event)
    ensures GotOf(h + [e]) == match e case Selected(_) => None case ProviderGot(_, got) => Some(got) case _ => GotOf(h)
    ensures StoredOf(h + [e])
         == match e case Selected(_) => None case StoreAnswered(_, _, ok) => Some(ok) case _ => StoredOf(h)
    ensures ClockOf(h + [e]) == match e case ClockRead(now) => Some(now) case Sent(_, _) => ClockOf(h) case _ => None
  {
    assert Init(h + [e]) == h;
  }

  /** Fetches the versions of a provider and stores them; only a committed store counts as success. */
  method RefreshVersions(s: Services, interval: nat, ghost last: map<Provider, Time>, msg: Message)
    returns (result: Result<ProviderVersions, RefreshError>)
    requires At(s, interval, Refresher(last, Worker.Fetching(msg)))
    modifies s`events
    ensures At(s, interval, Conclude(Refresher(last, Worker.Fetching(msg)), msg, result))
    ensures Reports(GotOf(s.events), StoredOf(s.events), result)
    ensures old(s.events) < s.events
    ensures forall k :: |old(s.events)| <= k < |s.events| ==>
              !s.events[k].Sent? && Concerns(msg.provider, GotOf(s.events), s.events[k])
  {
    ghost var h := s.events;
    ReportsWhatHappened(interval, h);
    result := s.ProviderGet(msg.provider);
    RunSnoc(interval, FRESH, h, ProviderGot(msg.provider, result));
    OneMore(h, ProviderGot(msg.provider, result));
    if result.Ok? {
      h := s.events;
      var stored := s.StoreProviderVersions(msg.provider, result.value);
      RunSnoc(interval, FRESH, h, StoreAnswered(msg.provider, result.value, stored));
      OneMore(h, StoreAnswered(msg.provider, result.value, stored));
      if !stored {
        result := Err(StoreFailed);
      }
    }
  }

  method Answer(s: Services, interval: nat, ghost last: map<Provider, Time>, msg: Message, reply: Reply)
    requires At(s, interval, Refresher(last, Respond(msg, reply)))
    modifies s`events
    ensures At(s, interval, Refresher(last, Worker.Idle))
    ensures s.events == old(s.events) + if msg.channel.Some? then [Sent(msg.channel.value, reply)] else []
    ensures GotOf(s.events) == GotOf(old(s.events)) && StoredOf(s.events) == StoredOf(old(s.events))
    ensures ClockOf(s.events) == ClockOf(old(s.events))
  {
    if msg.channel.Some? {
      ghost var h := s.events;
      s.Send(msg.channel.value, reply);
      RunSnoc(interval, FRESH, h, Sent(msg.channel.value, reply));
      OneMore(h, Sent(msg.channel.value, reply));
    }
  }

  /** Reads the clock for the record. */
  method Stamp(s: Services, interval: nat, last: map<Provider, Time>, msg: Message,
               ghost result: Result<ProviderVersions, RefreshError>) returns (lastRefresh: map<Provider, Time>)
    requires At(s, interval, Refresher(last, Worker.Stamping(msg, result)))
    modifies s`events
    ensures At(s, interval, Refresher(lastRefresh, Respond(msg, RefreshPerformed(result))))
    ensures exists now :: s.events == old(s.events) + [ClockRead(now)] && lastRefresh == last[msg.provider := now]
    ensures GotOf(s.events) == GotOf(old(s.events)) && StoredOf(s.events) == StoredOf(old(s.events))
    ensures ClockOf(s.events).Some? && lastRefresh == last[msg.provider := ClockOf(s.events).value]
  {
    ghost var h := s.events;
    var now := s.Now();
    RunSnoc(interval, FRESH, h, ClockRead(now));
    OneMore(h, ClockRead(now));
    lastRefresh := last[msg.provider := now];
  }

  /** The provider is not known to this instance. */
  method ServeNew(s: Services, interval: nat, last: map<Provider, Time>, msg: Message)
    returns (lastRefresh: map<Provider, Time>)
    requires msg.provider !in last && At(s, interval, Refresher(last, Worker.Fetching(msg)))
    modifies s`events
    ensures At(s, interval, Refresher(lastRefresh, Worker.Idle))
    ensures Serves(interval, last, msg, old(s.events), s.events, lastRefresh)
  {
    lastRefresh := last;
    var result := RefreshVersions(s, interval, lastRefresh, msg);
    if result.Ok? {
      lastRefresh := Stamp(s, interval, lastRefresh, msg, result);
    }
    Answer(s, interval, lastRefresh, msg, RefreshPerformed(result));
  }

  /** The provider is known to this instance: only if its time is long past is it refreshed. */
  method ServeKnown(s: Services, interval: nat, last: map<Provider, Time>, msg: Message)
    returns (lastRefresh: map<Provider, Time>)
    requires msg.provider in last && At(s, interval, Refresher(last, Worker.Checking(msg)))
    modifies s`events
    ensures At(s, interval, Refresher(lastRefresh, Worker.Idle))
    ensures Serves(interval, last, msg, old(s.events), s.events, lastRefresh)
  {
    lastRefresh := last;
    ghost var h := s.events;
    ReportsWhatHappened(interval, h);
    var now := s.Now();
    RunSnoc(interval, FRESH, h, ClockRead(now));
    OneMore(h, ClockRead(now));
    if now - lastRefresh[msg.provider] > interval {
      // Stale: a failure here is not critical, so its time is recorded all the same.
      var result := RefreshVersions(s, interval, lastRefresh, msg);
      lastRefresh := Stamp(s, interval, lastRefresh, msg, result);
      Answer(s, interval, lastRefresh, msg, RefreshPerformed(result));
    } else {
      Answer(s, interval, lastRefresh, msg, ProviderVersionNotStale);
    }
  }

  /** Serves one message: refresh if the provider is new or stale, and answer whoever waits. */
  method Serve(s: Services, interval: nat, last: map<Provider, Time>, msg: Message)
    returns (lastRefresh: map<Provider, Time>)
    requires At(s, interval,
                Refresher(last, if msg.provider in last then Worker.Checking(msg) else Worker.Fetching(msg)))
    modifies s`events
    ensures At(s, interval, Refresher(lastRefresh, Worker.Idle))
    ensures Serves(interval, last, msg, old(s.events), s.events, lastRefresh)
  {
    if msg.provider in last {
      lastRefresh := ServeKnown(s, interval, last, msg);
    } else {
      lastRefresh := ServeNew(s, interval, last, msg);
    }
  }

  /** Takes messages one at a time until cancelled. */
  method RunRefresher(s: Services, interval: nat) returns (cancelled: bool, lastRefresh: map<Provider, Time>)
    requires s.events == []
    modifies s
    ensures At(s, interval, Refresher(lastRefresh, if cancelled then Worker.Stopped else Worker.Idle))
  {
    lastRefresh := map[];
    cancelled := false;
    while true
      invariant At(s, interval, Refresher(lastRefresh, Worker.Idle))
      decreases s.rounds
    {
      ghost var h := s.events;
      var selected := s.Select();
      match selected {
        case NothingYet => return;
        case CancelSeen =>
          RunSnoc(interval, FRESH, h, Cancelled);
          cancelled := true;
          return;
        case Received(msg) =>
          RunSnoc(interval, FRESH, h, Selected(msg));
          lastRefresh := Serve(s, interval, lastRefresh, msg);
      }
    }
  }
}
