/** The refresher as a program over its external calls, and what its histories say about rate limiting,
    bursts and response channels. */
module RefreshProgram {
  import opened Basics
  import opened Catalogue
  import opened Index

  datatype RefreshError = FetchFailed | StoreFailed

  /** A request to refresh a provider, with the waiter to answer, if anyone waits. */
  datatype Message = Message(provider: Provider, channel: Option<nat>)

  datatype Reply =
    | RefreshPerformed(result: Result<ProviderVersions, RefreshError>)
    | ProviderVersionNotStale

  datatype Event =
    | Selected(msg: Message)
    | Cancelled
    | ClockRead(now: Time)
    | ProviderGot(provider: Provider, got: Result<ProviderVersions, RefreshError>)
    | StoreAnswered(provider: Provider, versions: ProviderVersions, ok: bool)
    | Sent(channel: nat, reply: Reply)

  datatype Worker =
    | Idle
    | Checking(msg: Message)
    | Fetching(msg: Message)
    | Storing(msg: Message, versions: ProviderVersions)
    | Stamping(msg: Message, result: Result<ProviderVersions, RefreshError>)
    | Replying(msg: Message, reply: Reply)
    | Stopped

  /** The refresher's memory of when it last refreshed what, and where it stands. */
  datatype Refresher = Refresher(last: map<Provider, Time>, worker: Worker)

  /** Answer the waiter, or go straight on if there is none. */
  function Respond(msg: Message, reply: Reply): Worker {
    if msg.channel.Some? then Replying(msg, reply) else Idle
  }

  /** What follows the end of a refresh: its time is recorded unless it was a first attempt that failed. */
  function Conclude(r: Refresher, msg: Message, result: Result<ProviderVersions, RefreshError>): Refresher {
    if msg.provider in r.last || result.Ok?
    then r.(worker := Stamping(msg, result))
    else r.(worker := Respond(msg, RefreshPerformed(result)))
  }

  function Next(interval: nat, r: Refresher, e: Event): Option<Refresher> {
    match (r.worker, e)
    case (Idle, Selected(msg)) =>
      Some(r.(worker := if msg.provider in r.last then Checking(msg) else Fetching(msg)))
    case (Idle, Cancelled) => Some(r.(worker := Stopped))
    case (Checking(msg), ClockRead(now)) =>
      if msg.provider in r.last && now - r.last[msg.provider] > interval
      then Some(r.(worker := Fetching(msg)))
      else Some(r.(worker := Respond(msg, ProviderVersionNotStale)))
    case (Fetching(msg), ProviderGot(p, got)) =>
      if p != msg.provider then None
      else (match got
        case Ok(versions) => Some(r.(worker := Storing(msg, versions)))
        case Err(_) => Some(Conclude(r, msg, got)))
    case (Storing(msg, versions), StoreAnswered(p, v, ok)) =>
      if p != msg.provider || v != versions then None
      else Some(Conclude(r, msg, if ok then Ok(versions) else Err(StoreFailed)))
    case (Stamping(msg, result), ClockRead(now)) =>
      Some(Refresher(r.last[msg.provider := now], Respond(msg, RefreshPerformed(result))))
    case (Replying(msg, reply), Sent(channel, sent)) =>
      if msg.channel != Some(channel) || sent != reply then None else Some(r.(worker := Idle))
    case _ => None
  }

  function Run(interval: nat, r: Refresher, tr: seq<Event>): Option<Refresher> {
    if tr == [] then Some(r)
    else match Run(interval, r, Init(tr)) case None => None case Some(mid) => Next(interval, mid, tr[|tr| - 1])
  }

  lemma RunSnoc(interval: nat, r: Refresher, tr: seq<Event>, e: Event)
    ensures Run(interval, r, tr + [e]) ==
            match Run(interval, r, tr) case None => None case Some(mid) => Next(interval, mid, e)
  {
    assert Init(tr + [e]) == tr;
  }

  /** The refresher has not begun: nothing recorded, nothing in hand. */
  const FRESH: Refresher := Refresher(map[], Idle)

  // ---------------------------------------------------------------- what a history says

  /** What upstream answered since the last message was taken up, if it was asked. */
  function GotOf(tr: seq<Event>): Option<Result<ProviderVersions, RefreshError>> {
    if tr == [] then None
    else match Last(tr)
      case Selected(_) => None
      case ProviderGot(_, got) => Some(got)
      case _ => GotOf(Init(tr))
  }

  /** Whether the store took effect since the last message was taken up, if one was tried. */
  function StoredOf(tr: seq<Event>): Option<bool> {
    if tr == [] then None
    else match Last(tr)
      case Selected(_) => None
      case StoreAnswered(_, _, ok) => Some(ok)
      case _ => StoredOf(Init(tr))
  }

  /** What the clock said last, after the last answer from outside. */
  function ClockOf(tr: seq<Event>): Option<Time> {
    if tr == [] then None
    else match Last(tr)
      case ClockRead(now) => Some(now)
      case Sent(_, _) => ClockOf(Init(tr))
      case _ => None
  }

  /** The message taken up last. */
  function TakenOf(tr: seq<Event>): Option<Message> {
    if tr == [] then None else if Last(tr).Selected? then Some(Last(tr).msg) else TakenOf(Init(tr))
  }

  /** A refresh reports what happened: upstream's failure as it came, the response if it was stored, and a
      failed store otherwise. */
  predicate Reports(got: Option<Result<ProviderVersions, RefreshError>>, stored: Option<bool>,
                    result: Result<ProviderVersions, RefreshError>)
  {
    match got
    case None => false
    case Some(Err(e)) => stored.None? && result == Err(e)
    case Some(Ok(versions)) => stored.Some? && result == if stored.value then Ok(versions) else Err(StoreFailed)
  }

  /** A waiter is told what happened, or that nothing had to. */
  predicate Answers(got: Option<Result<ProviderVersions, RefreshError>>, stored: Option<bool>, reply: Reply) {
    match reply
    case RefreshPerformed(result) => Reports(got, stored, result)
    case ProviderVersionNotStale => got.None?
  }

  /** A call made on behalf of a provider is about that provider, and what is stored is what was got. */
  predicate Concerns(p: Provider, got: Option<Result<ProviderVersions, RefreshError>>, e: Event) {
    match e
    case ProviderGot(asked, _) => asked == p
    case StoreAnswered(asked, versions, _) => asked == p && got == Some(Ok(versions))
    case _ => true
  }

  /** Serving one message, read off the calls made since `h`: upstream is asked exactly if the provider is
      not remembered, or the clock says that its time is more than an interval ago; the time afterwards is
      remembered exactly if the provider was remembered before or its response was stored; and whoever
      waits, nobody else, is told last of all what happened. */
  ghost predicate Serves(interval: nat, last: map<Provider, Time>, msg: Message, h: seq<Event>, tr: seq<Event>,
                         last': map<Provider, Time>)
  {
    var p, got, stored, clock := msg.provider, GotOf(tr), StoredOf(tr), ClockOf(tr);
    && h < tr
    && (forall k :: |h| <= k < |tr| ==> Concerns(p, got, tr[k]))
    && (got.Some? <==> p !in last || (tr[|h|].ClockRead? && tr[|h|].now - last[p] > interval))
    && (if got.Some? && (p in last || stored == Some(true)) then clock.Some? && last' == last[p := clock.value]
        else last' == last)
    && (match msg.channel
        case Some(c) => Last(tr).Sent? && Last(tr).channel == c && Answers(got, stored, Last(tr).reply)
        case None => forall k :: |h| <= k < |tr| ==> !tr[k].Sent?)
  }

  /** What a control point knows of the calls made for the message in hand. */
  predicate Informed(w: Worker, tr: seq<Event>) {
    match w
    case Checking(msg) => TakenOf(tr) == Some(msg) && GotOf(tr).None? && StoredOf(tr).None?
    case Fetching(msg) => TakenOf(tr) == Some(msg) && GotOf(tr).None? && StoredOf(tr).None?
    case Storing(msg, versions) =>
      TakenOf(tr) == Some(msg) && GotOf(tr) == Some(Ok(versions)) && StoredOf(tr).None?
    case Stamping(msg, result) => TakenOf(tr) == Some(msg) && Reports(GotOf(tr), StoredOf(tr), result)
    case Replying(msg, RefreshPerformed(result)) =>
      TakenOf(tr) == Some(msg) && Reports(GotOf(tr), StoredOf(tr), result)
    case Replying(msg, ProviderVersionNotStale) => TakenOf(tr) == Some(msg) && GotOf(tr).None? && StoredOf(tr).None?
    case _ => true
  }

  /** Over every history: the result written down and the one answered are what upstream and the store
      answered for this very message, first attempt or not. */
  lemma {:induction false} ReportsWhatHappened(interval: nat, tr: seq<Event>)
    requires Run(interval, FRESH, tr).Some?
    ensures Informed(Run(interval, FRESH, tr).value.worker, tr)
  {
    if tr != [] {
      ReportsWhatHappened(interval, Init(tr));
      StaysInformed(interval, Run(interval, FRESH, Init(tr)).value, tr);
    }
  }

  lemma StaysInformed(interval: nat, r: Refresher, tr: seq<Event>)
    requires tr != [] && Informed(r.worker, Init(tr)) && Next(interval, r, Last(tr)).Some?
    ensures Informed(Next(interval, r, Last(tr)).value.worker, tr)
  {
  }

  // ---------------------------------------------------------------- response channels do not matter

  function Mute(msg: Message): Message {
    msg.(channel := None)
  }

  function MuteWorker(w: Worker): Worker {
    match w
    case Checking(msg) => Checking(Mute(msg))
    case Fetching(msg) => Fetching(Mute(msg))
    case Storing(msg, versions) => Storing(Mute(msg), versions)
    case Stamping(msg, result) => Stamping(Mute(msg), result)
    case Replying(_, _) => Idle
    case _ => w
  }

  /** The same history with every request carrying no channel, and so no answer sent. */
  function MuteTrace(tr: seq<Event>): seq<Event> {
    if tr == [] then []
    else match tr[|tr| - 1]
      case Selected(msg) => MuteTrace(Init(tr)) + [Selected(Mute(msg))]
      case Sent(_, _) => MuteTrace(Init(tr))
      case e => MuteTrace(Init(tr)) + [e]
  }

  /** What is remembered of refreshes does not depend on who waits for an answer. */
  lemma {:induction false} ChannelsDoNotMatter(interval: nat, tr: seq<Event>)
    requires Run(interval, FRESH, tr).Some?
    ensures var r := Run(interval, FRESH, tr).value;
      Run(interval, FRESH, MuteTrace(tr)) == Some(Refresher(r.last, MuteWorker(r.worker)))
  {
    if tr != [] {
      ChannelsDoNotMatter(interval, Init(tr));
      var mid, e := Run(interval, FRESH, Init(tr)).value, tr[|tr| - 1];
      MuteStep(interval, mid, e);
      var muted := match e case Selected(msg) => Selected(Mute(msg)) case _ => e;
      RunSnoc(interval, FRESH, MuteTrace(Init(tr)), muted);
    }
  }

  lemma MuteStep(interval: nat, r: Refresher, e: Event)
    requires Next(interval, r, e).Some?
    ensures var r' := Next(interval, r, e).value;
            var quiet := Refresher(r.last, MuteWorker(r.worker));
            var quiet' := Refresher(r'.last, MuteWorker(r'.worker));
      match e
      case Selected(msg) => Next(interval, quiet, Selected(Mute(msg))) == Some(quiet')
      case Sent(_, _) => quiet' == quiet
      case _ => Next(interval, quiet, e) == Some(quiet')
  {
  }
}
