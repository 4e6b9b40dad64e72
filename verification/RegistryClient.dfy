/** Bounded reading of upstream bodies, and the two reads behind every registry request. */
module RegistryClient {
  import opened Basics

  const DISCOVERY_RESPONSE_SIZE_MAX_BYTES: nat := 16384
  const REGISTRY_METADATA_SIZE_MAX_BYTES: nat := 8388608

  datatype TerrashineError =
    | ProviderResponseTooLarge(limit: nat)
    | ProviderResponseFailure
    | ProviderDeserializationError
    | TerraformServiceNotSupported
    | ProviderGetBuildUrlFailure
    | CredentialFailure

  /** What the transport delivers next of a body. */
  datatype Delivery = Data(bytes: Bytes) | TransportError

  predicate Clean(items: seq<Delivery>) {
    forall i :: 0 <= i < |items| ==> items[i].Data?
  }

  /** The whole body that a clean delivery splits. */
  function Body(items: seq<Delivery>): Bytes {
    if items == [] then []
    else (match items[0] case Data(bytes) => bytes case TransportError => []) + Body(items[1..])
  }

  /** The result of a bounded read, and what it leaves in the buffer. */
  function ReadOutcome(buffer: Bytes, items: seq<Delivery>, limit: nat): (Result<(), TerrashineError>, Bytes)
    decreases |items|
  {
    if items == [] then (Ok(()), buffer)
    else match items[0]
      case TransportError => (Err(ProviderResponseFailure), buffer)
      case Data(bytes) =>
        if |buffer| + |bytes| > limit then (Err(ProviderResponseTooLarge(limit)), buffer)
        else ReadOutcome(buffer + bytes, items[1..], limit)
  }

  class Buffer {
    var data: Bytes

    constructor ()
      ensures data == []
    {
      data := [];
    }
  }

  class Response {
    var rest: seq<Delivery>

    constructor (items: seq<Delivery>)
      ensures rest == items
    {
      rest := items;
    }

    method Chunk() returns (r: Result<Option<Bytes>, TerrashineError>)
      modifies this
      ensures old(rest) == [] ==> r == Ok(None) && rest == []
      ensures old(rest) != [] && old(rest)[0].Data? ==> r == Ok(Some(old(rest)[0].bytes)) && rest == old(rest)[1..]
      ensures old(rest) != [] && old(rest)[0].TransportError? ==> r == Err(ProviderResponseFailure)
    {
      if rest == [] {
        return Ok(None);
      }
      var item := rest[0];
      rest := rest[1..];
      r := match item case Data(bytes) => Ok(Some(bytes)) case TransportError => Err(ProviderResponseFailure);
    }
  }

  /** Appends a body to the caller's buffer, unless that would take it past the limit. */
  method ReadBodyLimit(buffer: Buffer, response: Response, limit: nat) returns (r: Result<(), TerrashineError>)
    modifies buffer, response
    ensures (r, buffer.data) == old(ReadOutcome(buffer.data, response.rest, limit))
  {
    while true
      invariant ReadOutcome(buffer.data, response.rest, limit) == old(ReadOutcome(buffer.data, response.rest, limit))
      decreases |response.rest|
    {
      var next := response.Chunk();
      match next {
        case Err(e) => return Err(e);
        case Ok(None) => return Ok(());
        case Ok(Some(chunk)) =>
          if |buffer.data| + |chunk| > limit {
            return Err(ProviderResponseTooLarge(limit));
          }
          buffer.data := buffer.data + chunk;
      }
    }
  }

  /** Whatever is delivered, the buffer only ever holds a prefix of it, within the limit. */
  lemma {:induction false} ReadIsBounded(buffer: Bytes, items: seq<Delivery>, limit: nat)
    requires |buffer| <= limit
    ensures var (r, data) := ReadOutcome(buffer, items, limit);
      buffer <= data && data <= buffer + Body(items) && |data| <= limit
    decreases |items|
  {
    if items != [] && items[0].Data? && |buffer| + |items[0].bytes| <= limit {
      ReadIsBounded(buffer + items[0].bytes, items[1..], limit);
      assert buffer + items[0].bytes + Body(items[1..]) == buffer + Body(items);
    }
  }

  /** A clean body is read in full exactly when all of it fits, and is refused as too large otherwise. */
  lemma {:induction false} ReadIffFits(buffer: Bytes, items: seq<Delivery>, limit: nat)
    requires Clean(items) && |buffer| <= limit
    ensures var (r, data) := ReadOutcome(buffer, items, limit);
      && (|buffer| + |Body(items)| <= limit ==> r == Ok(()) && data == buffer + Body(items))
      && (|buffer| + |Body(items)| > limit ==> r == Err(ProviderResponseTooLarge(limit)))
    decreases |items|
  {
    if items != [] {
      if |buffer| + |items[0].bytes| <= limit {
        ReadIffFits(buffer + items[0].bytes, items[1..], limit);
        assert buffer + items[0].bytes + Body(items[1..]) == buffer + Body(items);
      }
    }
  }

  /** How a body is split into chunks makes no difference to the answer. */
  lemma ChunkingIsIrrelevant(items: seq<Delivery>, others: seq<Delivery>, limit: nat)
    requires Clean(items) && Clean(others) && Body(items) == Body(others)
    ensures ReadOutcome([], items, limit).0 == ReadOutcome([], others, limit).0
    ensures ReadOutcome([], items, limit).0.Ok? ==> ReadOutcome([], items, limit).1 == ReadOutcome([], others, limit).1
  {
    ReadIffFits([], items, limit);
    ReadIffFits([], others, limit);
  }

  /** A transport error is never read past. */
  lemma {:induction false} OkMeansClean(buffer: Bytes, items: seq<Delivery>, limit: nat)
    ensures ReadOutcome(buffer, items, limit).0.Ok? ==> Clean(items)
    decreases |items|
  {
    if items != [] && items[0].Data? && |buffer| + |items[0].bytes| <= limit {
      OkMeansClean(buffer + items[0].bytes, items[1..], limit);
      assert ReadOutcome(buffer, items, limit).0.Ok? ==> forall i :: 0 < i < |items| ==> items[i] == items[1..][i - 1];
    }
  }

  /** What arrives before any transport error is more than the limit. */
  ghost predicate Overflows(buffer: Bytes, items: seq<Delivery>, limit: nat) {
    exists k: nat :: k <= |items| && Clean(items[..k]) && |buffer| + |Body(items[..k])| > limit
  }

  /** A read is refused as too large exactly if it overflows before it breaks; there is no other failure
      than that and a break. */
  lemma {:induction false} TooLargeIff(buffer: Bytes, items: seq<Delivery>, limit: nat)
    requires |buffer| <= limit
    ensures var r := ReadOutcome(buffer, items, limit).0;
      && (r == Err(ProviderResponseTooLarge(limit)) <==> Overflows(buffer, items, limit))
      && (r == Err(ProviderResponseFailure) <==> !Overflows(buffer, items, limit) && !Clean(items))
    decreases |items|
  {
    if items != [] && items[0].Data? {
      if |buffer| + |items[0].bytes| <= limit {
        TooLargeIff(buffer + items[0].bytes, items[1..], limit);
        OverflowsLater(buffer, items, limit);
      } else {
        assert items[..1] == [items[0]] && Body(items[..1]) == items[0].bytes + Body(items[..1][1..]);
      }
    }
  }

  lemma OverflowsLater(buffer: Bytes, items: seq<Delivery>, limit: nat)
    requires items != [] && items[0].Data? && |buffer| + |items[0].bytes| <= limit
    ensures Overflows(buffer, items, limit) <==> Overflows(buffer + items[0].bytes, items[1..], limit)
    ensures Clean(items) <==> Clean(items[1..])
  {
    forall k: nat | 0 < k <= |items|
      ensures Clean(items[..k]) <==> Clean(items[1..][..k - 1])
      ensures Body(items[..k]) == items[0].bytes + Body(items[1..][..k - 1])
    {
      assert items[..k] == [items[0]] + items[1..][..k - 1];
    }
    if k: nat :| k < |items| && Clean(items[1..][..k])
                 && |buffer + items[0].bytes| + |Body(items[1..][..k])| > limit {
      assert Clean(items[..k + 1]) && |buffer| + |Body(items[..k + 1])| > limit;
    }
    assert Clean(items) <==> Clean(items[..|items|]);
    assert Clean(items[1..]) <==> Clean(items[1..][..|items| - 1]);
  }

  // ---------------------------------------------------------------- registry requests

  /** One HTTP exchange as the client sees it. */
  datatype Http = SendFailed | BadStatus | Answered(items: seq<Delivery>)

  predicate Fits(http: Http, limit: nat) {
    http.Answered? && Clean(http.items) && |Body(http.items)| <= limit
  }

  /** Everything a registry request depends on outside this client. */
  datatype Exchange<!A> = Exchange(
    discovery: Http,
    services: Bytes -> Option<Option<string>>,
    joins: string -> bool,
    credentials: bool,
    metadata: Http,
    decode: Bytes -> Option<A>)

  /** What a request fails with, if it fails. */
  ghost function FetchFault(http: Http, limit: nat): Option<TerrashineError> {
    if Fits(http, limit) then None
    else if http.Answered? && Overflows([], http.items, limit) then Some(ProviderResponseTooLarge(limit))
    else Some(ProviderResponseFailure)
  }

  /** Sends a request and reads its body up to the limit. */
  method Fetch(http: Http, limit: nat) returns (r: Result<Bytes, TerrashineError>)
    ensures r.Ok? <==> Fits(http, limit)
    ensures r.Ok? ==> r.value == Body(http.items)
    ensures r.Err? ==> Some(r.error) == FetchFault(http, limit)
  {
    match http {
      case SendFailed => return Err(ProviderResponseFailure);
      case BadStatus => return Err(ProviderResponseFailure);
      case Answered(items) =>
        var buffer := new Buffer();
        var response := new Response(items);
        var read := ReadBodyLimit(buffer, response, limit);
        OkMeansClean([], items, limit);
        TooLargeIff([], items, limit);
        if Clean(items) {
          ReadIffFits([], items, limit);
        }
        if read.Err? {
          return Err(read.error);
        }
        r := Ok(buffer.data);
    }
  }

  /** The services a host offers, as far as its discovery document says. */
  method DiscoverServices<A>(x: Exchange<A>) returns (r: Result<Option<string>, TerrashineError>)
    ensures r.Ok? <==> Fits(x.discovery, 16_384) && x.services(Body(x.discovery.items)).Some?
    ensures r.Ok? ==> Some(r.value) == x.services(Body(x.discovery.items))
    ensures r.Err? ==> if Fits(x.discovery, 16_384) then r.error == ProviderDeserializationError
                       else Some(r.error) == FetchFault(x.discovery, 16_384)
  {
    var body := Fetch(x.discovery, DISCOVERY_RESPONSE_SIZE_MAX_BYTES);
    if body.Err? {
      return Err(body.error);
    }
    match x.services(body.value) {
      case None => return Err(ProviderDeserializationError);
      case Some(services) => return Ok(services);
    }
  }

  /** The host serves providers, at an address that makes sense. */
  ghost predicate Serves(services: Option<Option<string>>, joins: string -> bool) {
    services.Some? && services.value.Some? && joins(services.value.value)
  }

  /** What a registry request fails with: the first of its conditions that does not hold tells. */
  ghost predicate Explains<A>(x: Exchange<A>, e: TerrashineError) {
    if !Fits(x.discovery, 16_384) then Some(e) == FetchFault(x.discovery, 16_384)
    else
      var services := x.services(Body(x.discovery.items));
      if services == Some(None) then e == TerraformServiceNotSupported
      else if services.Some? && !x.joins(services.value.value) then e == ProviderGetBuildUrlFailure
      else if services.Some? && !x.credentials then e == CredentialFailure
      else if services.Some? && !Fits(x.metadata, 8_388_608) then Some(e) == FetchFault(x.metadata, 8_388_608)
      else e == ProviderDeserializationError
  }

  ghost predicate Available<A>(x: Exchange<A>) {
    && Fits(x.discovery, 16_384)
    && Serves(x.services(Body(x.discovery.items)), x.joins)
    && x.credentials && Fits(x.metadata, 8_388_608)
    && x.decode(Body(x.metadata.items)).Some?
  }

  /** A registry request succeeds exactly when both bodies are within their limits and readable; the
      answer is decoded from the whole of the second body and nothing else. */
  method ProviderGet<A>(x: Exchange<A>) returns (r: Result<A, TerrashineError>)
    ensures r.Ok? <==> Available(x)
    ensures r.Ok? ==> Some(r.value) == x.decode(Body(x.metadata.items))
    ensures r.Err? ==> Explains(x, r.error)
  {
    var services := DiscoverServices(x);
    if services.Err? {
      return Err(services.error);
    }
    if services.value.None? {
      return Err(TerraformServiceNotSupported);
    }
    if !x.joins(services.value.value) {
      return Err(ProviderGetBuildUrlFailure);
    }
    if !x.credentials {
      return Err(CredentialFailure);
    }
    var body := Fetch(x.metadata, REGISTRY_METADATA_SIZE_MAX_BYTES);
    if body.Err? {
      return Err(body.error);
    }
    match x.decode(body.value) {
      case None => return Err(ProviderDeserializationError);
      case Some(a) => return Ok(a);
    }
  }
}
