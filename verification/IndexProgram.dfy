/** The index handler: as a program over its external calls, and as it runs. */
module IndexProgram {
  import opened Basics
  import opened Catalogue
  import opened Index
  import opened RefreshProgram

  datatype IndexError =
    | RefreshFailed(error: RefreshError)
    | ConcurrentProviderFetch(provider: Provider)
    | TooManyRequestsInChannel
    | BrokenRefresherChannel

  datatype SendOutcome = Accepted | TimedOut | Closed

  datatype Event =
    | Listed(provider: Provider, listing: Result<Option<MirrorIndex>, DbError>)
    | TrySent(provider: Provider, ok: bool)
    | SendTried(provider: Provider, outcome: SendOutcome)
    | Answered(reply: Option<Reply>)

  datatype Pc =
    | Reading(provider: Provider)
    | Notifying(provider: Provider, index: MirrorIndex)
    | Sending(provider: Provider)
    | Waiting(provider: Provider)
    | Served(index: MirrorIndex)
    | Refused(error: IndexError)

  /** What the handler makes of the refresher's answer, or of a channel closed without one. */
  function Interpret(p: Provider, reply: Option<Reply>): Pc {
    match reply
    case Some(RefreshPerformed(Ok(versions))) => Served(IndexOf(Names(versions)))
    case Some(RefreshPerformed(Err(e))) => Refused(RefreshFailed(e))
    case Some(ProviderVersionNotStale) => Refused(ConcurrentProviderFetch(p))
    case None => Refused(BrokenRefresherChannel)
  }

  function Next(pc: Pc, e: Event): Option<Pc> {
    match (pc, e)
    case (Reading(p), Listed(q, listing)) =>
      if q != p then None
      else if listing.Ok? && listing.value.Some? then Some(Notifying(p, listing.value.value))
      else Some(Sending(p))
    case (Notifying(p, index), TrySent(q, _)) => if q != p then None else Some(Served(index))
    case (Sending(p), SendTried(q, outcome)) =>
      if q != p then None
      else (match outcome
        case Accepted => Some(Waiting(p))
        case TimedOut => Some(Refused(TooManyRequestsInChannel))
        case Closed => Some(Refused(BrokenRefresherChannel)))
    case (Waiting(p), Answered(reply)) => Some(Interpret(p, reply))
    case _ => None
  }

  function Run(pc: Pc, tr: seq<Event>): Option<Pc> {
    if tr == [] then Some(pc)
    else match Run(pc, tr[..|tr| - 1]) case None => None case Some(mid) => Next(mid, tr[|tr| - 1])
  }

  lemma RunSnoc(pc: Pc, tr: seq<Event>, e: Event)
    ensures Run(pc, tr + [e]) == match Run(pc, tr) case None => None case Some(mid) => Next(mid, e)
  {
    assert (tr + [e])[..|tr|] == tr;
  }

  // ---------------------------------------------------------------- what a history says

  /** What the calls of a finished request amount to, read off the calls alone.  The index listed first is
      what is served, whatever became of the note to the refresher; otherwise the last call decides. */
  ghost predicate Tells(p: Provider, tr: seq<Event>, r: Result<MirrorIndex, IndexError>) {
    && tr != []
    && match r
       case Ok(index) =>
         || (tr[0] == Listed(p, Ok(Some(index))) && Last(tr).TrySent?)
         || exists v :: Last(tr) == Answered(Some(RefreshPerformed(Ok(v)))) && Shows(index, Names(v))
       case Err(RefreshFailed(e)) => Last(tr) == Answered(Some(RefreshPerformed(Err(e))))
       case Err(ConcurrentProviderFetch(q)) => q == p && Last(tr) == Answered(Some(ProviderVersionNotStale))
       case Err(TooManyRequestsInChannel) => Last(tr) == SendTried(p, TimedOut)
       case Err(BrokenRefresherChannel) => Last(tr) == SendTried(p, Closed) || Last(tr) == Answered(None)
  }

  predicate IsOutcome(pc: Pc, r: Result<MirrorIndex, IndexError>) {
    match r
    case Ok(index) => pc == Served(index)
    case Err(e) => pc == Refused(e)
  }

  /** The first call of a request is its read; what it holds since is what was listed. */
  lemma {:induction false} ListedFirst(p: Provider, tr: seq<Event>)
    requires Run(Reading(p), tr).Some?
    ensures var pc := Run(Reading(p), tr).value;
      && (pc.Reading? <==> tr == [])
      && (pc.Reading? || pc.Notifying? || pc.Sending? || pc.Waiting? ==> pc.provider == p)
      && (pc.Notifying? ==> tr[0] == Listed(p, Ok(Some(pc.index))))
      && (pc.Notifying? <==> |tr| == 1 && tr[0].Listed? && tr[0].listing.Ok? && tr[0].listing.value.Some?)
      && (tr != [] && Last(tr).TrySent? ==> |tr| == 2 && pc.Served? && tr[0] == Listed(p, Ok(Some(pc.index))))
  {
    if tr != [] {
      ListedFirst(p, tr[..|tr| - 1]);
    }
  }

  /** A request has ended with this outcome if and only if its history says so. */
  lemma OutcomeTells(p: Provider, tr: seq<Event>, r: Result<MirrorIndex, IndexError>)
    requires Run(Reading(p), tr).Some?
    ensures IsOutcome(Run(Reading(p), tr).value, r) <==> Tells(p, tr, r)
  {
    ListedFirst(p, tr);
    if tr != [] {
      ListedFirst(p, tr[..|tr| - 1]);
      if !Last(tr).TrySent? {
        LastCallTells(p, Run(Reading(p), tr[..|tr| - 1]).value, Last(tr), r);
      }
    }
  }

  lemma OnlyOutcome(p: Provider, tr: seq<Event>, r: Result<MirrorIndex, IndexError>)
    requires Run(Reading(p), tr).Some? && IsOutcome(Run(Reading(p), tr).value, r)
    ensures Tells(p, tr, r) && forall other :: Tells(p, tr, other) ==> other == r
  {
    OutcomeTells(p, tr, r);
    forall other | Tells(p, tr, other) ensures other == r {
      OutcomeTells(p, tr, other);
    }
  }

  /** Any last call but the note to the refresher settles the outcome. */
  lemma LastCallTells(p: Provider, before: Pc, e: Event, r: Result<MirrorIndex, IndexError>)
    requires Next(before, e).Some? && (before.Reading? || before.Notifying? || before.Sending? || before.Waiting?)
    requires before.provider == p && !e.TrySent?
    ensures IsOutcome(Next(before, e).value, r) <==> Tells(p, [e], r)
  {
    assert Last([e]) == e;
    if e.Answered? && e.reply.Some? && e.reply.value.RefreshPerformed? && e.reply.value.result.Ok? && r.Ok? {
      ShowsIsIndexOf(r.value, Names(e.reply.value.result.value));
    }
  }

  /** The database and the channel to the refresher as one handler meets them. */
  class Services {
    var events: seq<Event>

    constructor ()
      ensures events == []
    {
      events := [];
    }

    method ListProviderVersions(p: Provider) returns (listing: Result<Option<MirrorIndex>, DbError>)
      modifies this
      ensures events == old(events) + [Listed(p, listing)]
    {
      listing := *;
      events := events + [Listed(p, listing)];
    }

    method TrySend(p: Provider) returns (ok: bool)
      modifies this
      ensures events == old(events) + [TrySent(p, ok)]
    {
      ok := *;
      events := events + [TrySent(p, ok)];
    }

    method SendTimeout(p: Provider) returns (outcome: SendOutcome)
      modifies this
      ensures events == old(events) + [SendTried(p, outcome)]
    {
      outcome := *;
      events := events + [SendTried(p, outcome)];
    }

    method Receive() returns (reply: Option<Reply>)
      modifies this
      ensures events == old(events) + [Answered(reply)]
    {
      reply := *;
      events := events + [Answered(reply)];
    }
  }

  /** Has the refresher fetch the provider, and waits for what it says. */
  method AskRefresher(s: Services, p: Provider) returns (r: Result<MirrorIndex, IndexError>)
    requires Run(Reading(p), s.events) == Some(Sending(p))
    modifies s
    ensures Run(Reading(p), s.events) == Some(match r case Ok(index) => Served(index) case Err(e) => Refused(e))
  {
    ghost var h := s.events;
    var outcome := s.SendTimeout(p);
    RunSnoc(Reading(p), h, SendTried(p, outcome));
    match outcome {
      case TimedOut => return Err(TooManyRequestsInChannel);
      case Closed => return Err(BrokenRefresherChannel);
      case Accepted =>
    }
    h := s.events;
    var reply := s.Receive();
    RunSnoc(Reading(p), h, Answered(reply));
    match reply {
      case Some(RefreshPerformed(Ok(versions))) =>
        var index := FromProviderVersions(versions);
        return Ok(index);
      case Some(RefreshPerformed(Err(e))) => return Err(RefreshFailed(e));
      case Some(ProviderVersionNotStale) => return Err(ConcurrentProviderFetch(p));
      case None => return Err(BrokenRefresherChannel);
    }
  }

  /** Serves the index of a provider from the catalogue, or has the refresher fetch it first. */
  method IndexHandler(s: Services, p: Provider) returns (r: Result<MirrorIndex, IndexError>)
    requires s.events == []
    modifies s
    ensures Run(Reading(p), s.events) == Some(match r case Ok(index) => Served(index) case Err(e) => Refused(e))
    ensures Tells(p, s.events, r) && forall other :: Tells(p, s.events, other) ==> other == r
  {
    ghost var h := s.events;
    var listing := s.ListProviderVersions(p);
    RunSnoc(Reading(p), h, Listed(p, listing));
    if listing.Ok? && listing.value.Some? {
      h := s.events;
      // Whether the refresh could be requested makes no difference here.
      var ok := s.TrySend(p);
      RunSnoc(Reading(p), h, TrySent(p, ok));
      r := Ok(listing.value.value);
    } else {
      r := AskRefresher(s, p);
    }
    OnlyOutcome(p, s.events, r);
  }
}
