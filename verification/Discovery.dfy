/**
 * Advertised transports: the server's DID document builder (trust-registry/src/didcomm/did_document.rs)
 * against the client's parser and choice (trql-client/src/discovery.rs). Services follow section 5.4
 * of W3C DID Core 1.0.
 */
module Discovery {
  import opened Domain
  import opened Text

  const TSP_TYPE := "TSPTransport"
  const DIDCOMM_TYPE := "DIDCommMessaging"
  const REST_TYPE := "TRQPRest"
  const VTA_REST_TYPE := "VTARest"

  // ---------------------------------------------------------------- server: flags and URL

  datatype TransportFlags = TransportFlags(rest: bool, didcomm: bool, tsp: bool)

  datatype FlagError = NoTransport | TspNeedsDidcomm | TspNotCompiled

  /** `TransportFlags::validate`. */
  function Validate(flags: TransportFlags, tspCompiled: bool): Result<TransportFlags, FlagError> {
    if !flags.rest && !flags.didcomm && !flags.tsp then Err(NoTransport)
    else if flags.tsp && !flags.didcomm then Err(TspNeedsDidcomm)
    else if flags.tsp && !tspCompiled then Err(TspNotCompiled)
    else Ok(flags)
  }

  /** The text before the first '/', ':' or '?'. */
  function HostOf(s: string): (host: string)
    ensures host <= s && '/' !in host && ':' !in host && '?' !in host
    ensures |host| < |s| ==> s[|host|] in {'/', ':', '?'}
  {
    if s == [] || s[0] in {'/', ':', '?'} then [] else [s[0]] + HostOf(s[1..])
  }

  /** `validate_public_url`: HTTPS anywhere, cleartext to loopback only. */
  predicate AcceptedUrl(url: string) {
    "https://" <= url
    || ("http://" <= url
        && var rest := url[7..];
           HostOf(rest) == "localhost" || HostOf(rest) == "127.0.0.1" || "[::1]" <= rest)
  }

  // ---------------------------------------------------------------- server: the document

  function DidcommService(did: string, mediator: string): Json {
    Obj(map["id" := Str(did + "#didcomm"), "type" := Str(DIDCOMM_TYPE),
            "serviceEndpoint" := Obj(map["uri" := Str(mediator), "accept" := Arr([Str("didcomm/v2")]),
                                         "routingKeys" := Arr([])])])
  }

  function RestService(did: string, url: string): Json {
    Obj(map["id" := Str(did + "#rest"), "type" := Str(REST_TYPE), "serviceEndpoint" := Str(url)])
  }

  function TspService(did: string, mediator: string): Json {
    Obj(map["id" := Str(did + "#tsp"), "type" := Str(TSP_TYPE), "serviceEndpoint" := Str(mediator)])
  }

  /** Whether there is a public URL to advertise: blank means none. */
  predicate HasUrl(publicUrl: Option<string>) {
    publicUrl.Some? && Trim(publicUrl.value) != ""
  }

  function UrlOf(publicUrl: Option<string>): string {
    if publicUrl.Some? then TrimEndSlashes(Trim(publicUrl.value)) else ""
  }

  function Gathered(a: bool, first: Json, b: bool, second: Json, c: bool, third: Json): seq<Json> {
    (if a then [first] else []) + ((if b then [second] else []) + (if c then [third] else []))
  }

  function ServicesFor(did: string, mediator: string, publicUrl: Option<string>, flags: TransportFlags): seq<Json> {
    Gathered(flags.didcomm, DidcommService(did, mediator),
             flags.rest && HasUrl(publicUrl), RestService(did, UrlOf(publicUrl)),
             flags.tsp, TspService(did, mediator))
  }

  /** `build_services`. */
  method BuildServices(did: string, mediator: string, publicUrl: Option<string>, flags: TransportFlags)
    returns (services: seq<Json>)
    ensures services == ServicesFor(did, mediator, publicUrl, flags)
  {
    services := [];
    if flags.didcomm {
      services := services + [DidcommService(did, mediator)];
    }
    if flags.rest && publicUrl.Some? {
      var url := Trim(publicUrl.value);
      if url != "" {
        services := services + [RestService(did, TrimEndSlashes(url))];
      }
    }
    if flags.tsp {
      services := services + [TspService(did, mediator)];
    }
  }

  /** `build_did_document`; the key material comes ready made. */
  function BuildDocument(did: string, methods: Json, keyRefs: Json, services: seq<Json>): Json {
    Obj(map["@context" := Arr([Str("https://www.w3.org/ns/did/v1"), Str("https://w3id.org/security/suites/jws-2020/v1")]),
            "id" := Str(did), "verificationMethod" := methods, "authentication" := keyRefs,
            "assertionMethod" := keyRefs, "keyAgreement" := keyRefs, "service" := Arr(services)])
  }

  // ---------------------------------------------------------------- client: parsing

  datatype Kind = Tsp | Didcomm | Https

  datatype Capabilities = Capabilities(tsp: Option<string>, didcomm: Option<string>, https: Option<string>) {
    function Endpoint(kind: Kind): Option<string> {
      match kind
      case Tsp => tsp
      case Didcomm => didcomm
      case Https => https
    }
  }

  function Member(v: Json, key: string): Option<Json> {
    if v.Obj? && key in v.fields then Some(v.fields[key]) else None
  }

  /** `endpoint_uri`: a string, an object's `uri`, or the first of a list that yields one. */
  function EndpointUri(endpoint: Json): Option<string> {
    match endpoint
    case Str(s) => Some(s)
    case Obj(fields) => if "uri" in fields && fields["uri"].Str? then Some(fields["uri"].s) else None
    case Arr(items) => FirstUri(items)
    case _ => None
  }

  function FirstUri(items: seq<Json>): Option<string> {
    if items == [] then None
    else
      var uri := EndpointUri(items[0]);
      if uri.Some? then uri else FirstUri(items[1..])
  }

  /** `service_has_type`: the type may be a string or a list of strings. */
  predicate HasType(svc: Json, t: string) {
    match Member(svc, "type")
    case Some(Str(s)) => s == t
    case Some(Arr(items)) => Str(t) in items
    case _ => false
  }

  /** The transport a service advertises: TSP before DIDComm before REST when it lists several types. */
  function KindOf(svc: Json): Option<Kind> {
    if HasType(svc, TSP_TYPE) then Some(Tsp)
    else if HasType(svc, DIDCOMM_TYPE) then Some(Didcomm)
    else if HasType(svc, REST_TYPE) || HasType(svc, VTA_REST_TYPE) then Some(Https)
    else None
  }

  /** The usable endpoint of a service, if it has one. */
  function UsableUri(svc: Json): Option<string> {
    var endpoint := Member(svc, "serviceEndpoint");
    var uri := if endpoint.Some? then EndpointUri(endpoint.value) else None;
    if uri == Some("") then None else uri
  }

  /** What one service offers for a transport. */
  function Offer(svc: Json, kind: Kind): Option<string> {
    if KindOf(svc) == Some(kind) then UsableUri(svc) else None
  }

  /** The first offer for a transport in a list of services. */
  function FirstOffer(services: seq<Json>, kind: Kind): Option<string> {
    if services == [] then None
    else if Offer(services[0], kind).Some? then Offer(services[0], kind)
    else FirstOffer(services[1..], kind)
  }

  /** Service `i` offers `uri` and no earlier one offers anything for this transport. */
  predicate FirstAt(services: seq<Json>, kind: Kind, uri: string, i: nat)
    requires i < |services|
  {
    Offer(services[i], kind) == Some(uri) && forall j :: 0 <= j < i ==> Offer(services[j], kind).None?
  }

  lemma {:induction false} FirstOfferIsFirst(services: seq<Json>, kind: Kind, uri: string)
    ensures FirstOffer(services, kind) == Some(uri) <==> exists i :: 0 <= i < |services| && FirstAt(services, kind, uri, i)
  {
    if services != [] {
      var rest := services[1..];
      FirstOfferIsFirst(rest, kind, uri);
      if Offer(services[0], kind).None? {
        if i :| 0 <= i < |rest| && FirstAt(rest, kind, uri, i) {
          assert forall j :: 0 < j < i + 1 ==> services[j] == rest[j - 1];
          assert FirstAt(services, kind, uri, i + 1);
        }
        if i :| 0 <= i < |services| && FirstAt(services, kind, uri, i) {
          assert forall j :: 0 <= j < i - 1 ==> rest[j] == services[j + 1];
          assert FirstAt(rest, kind, uri, i - 1);
        }
      } else if Offer(services[0], kind) == Some(uri) {
        assert FirstAt(services, kind, uri, 0);
      }
    }
  }

  lemma {:induction false} FirstOfferAppend(a: seq<Json>, b: seq<Json>, kind: Kind)
    ensures FirstOffer(a + b, kind) == if FirstOffer(a, kind).Some? then FirstOffer(a, kind) else FirstOffer(b, kind)
  {
    if a == [] {
      assert a + b == b;
    } else {
      assert (a + b)[1..] == a[1..] + b;
      FirstOfferAppend(a[1..], b, kind);
    }
  }

  function CapabilitiesOf(services: seq<Json>): Capabilities {
    Capabilities(FirstOffer(services, Tsp), FirstOffer(services, Didcomm), FirstOffer(services, Https))
  }

  function Parsed(doc: Json): Capabilities {
    match Member(doc, "service")
    case Some(Arr(services)) => CapabilitiesOf(services)
    case _ => Capabilities(None, None, None)
  }

  function OrElse(held: Option<string>, uri: string): Option<string> {
    if held.Some? then held else Some(uri)
  }

  /** `from_document`: one pass, keeping the first usable endpoint of each transport. */
  method FromDocument(doc: Json) returns (caps: Capabilities)
    ensures caps == Parsed(doc)
  {
    caps := Capabilities(None, None, None);
    var member := Member(doc, "service");
    if member.None? || !member.value.Arr? {
      return;
    }
    var services := member.value.items;
    for i := 0 to |services|
      invariant caps == CapabilitiesOf(services[..i])
    {
      var svc := services[i];
      AppendOne(services, i);
      var endpoint := Member(svc, "serviceEndpoint");
      if endpoint.None? {
        continue;
      }
      var uri := EndpointUri(endpoint.value);
      if uri.None? || uri.value == "" {
        continue;
      }
      if HasType(svc, TSP_TYPE) {
        caps := caps.(tsp := OrElse(caps.tsp, uri.value));
      } else if HasType(svc, DIDCOMM_TYPE) {
        caps := caps.(didcomm := OrElse(caps.didcomm, uri.value));
      } else if HasType(svc, REST_TYPE) || HasType(svc, VTA_REST_TYPE) {
        caps := caps.(https := OrElse(caps.https, uri.value));
      }
    }
    assert services[..|services|] == services;
  }

  predicate Extends(services: seq<Json>, i: nat, kind: Kind)
    requires i < |services|
  {
    var held := FirstOffer(services[..i], kind);
    FirstOffer(services[..i + 1], kind) == if held.Some? then held else Offer(services[i], kind)
  }

  lemma AppendOne(services: seq<Json>, i: nat)
    requires i < |services|
    ensures Extends(services, i, Tsp) && Extends(services, i, Didcomm) && Extends(services, i, Https)
  {
    assert services[..i + 1] == services[..i] + [services[i]];
    FirstOfferAppend(services[..i], [services[i]], Tsp);
    FirstOfferAppend(services[..i], [services[i]], Didcomm);
    FirstOfferAppend(services[..i], [services[i]], Https);
  }

  // ---------------------------------------------------------------- client: choosing

  const PREFERENCE: seq<Kind> := [Tsp, Didcomm, Https]

  datatype Choice = Choice(kind: Kind, endpoint: string)

  datatype NoMatch = NoMatch(ours: seq<Kind>, theirs: seq<Kind>)

  function AdvertisedIn(order: seq<Kind>, caps: Capabilities): seq<Kind> {
    if order == [] then []
    else (if caps.Endpoint(order[0]).Some? then [order[0]] else []) + AdvertisedIn(order[1..], caps)
  }

  /** `advertised`. */
  function Advertised(caps: Capabilities): seq<Kind> {
    AdvertisedIn(PREFERENCE, caps)
  }

  function SelectIn(order: seq<Kind>, ours: seq<Kind>, caps: Capabilities): Option<Choice> {
    if order == [] then None
    else if order[0] in ours && caps.Endpoint(order[0]).Some? then Some(Choice(order[0], caps.Endpoint(order[0]).value))
    else SelectIn(order[1..], ours, caps)
  }

  /** `select`. */
  function Select(ours: seq<Kind>, caps: Capabilities): Result<Choice, NoMatch> {
    match SelectIn(PREFERENCE, ours, caps)
    case Some(choice) => Ok(choice)
    case None => Err(NoMatch(ours, Advertised(caps)))
  }

  function Rank(kind: Kind): nat {
    match kind
    case Tsp => 0
    case Didcomm => 1
    case Https => 2
  }

  predicate Shared(ours: seq<Kind>, caps: Capabilities, kind: Kind) {
    kind in ours && caps.Endpoint(kind).Some?
  }

  /** The best transport both sides speak. */
  ghost predicate BestShared(ours: seq<Kind>, caps: Capabilities, kind: Kind) {
    Shared(ours, caps, kind) && forall k :: Rank(k) < Rank(kind) ==> !Shared(ours, caps, k)
  }

  lemma PreferenceUnrolled(ours: seq<Kind>, caps: Capabilities)
    ensures SelectIn(PREFERENCE, ours, caps) ==
      if Shared(ours, caps, Tsp) then Some(Choice(Tsp, caps.tsp.value))
      else if Shared(ours, caps, Didcomm) then Some(Choice(Didcomm, caps.didcomm.value))
      else if Shared(ours, caps, Https) then Some(Choice(Https, caps.https.value))
      else None
    ensures forall k :: k in Advertised(caps) <==> caps.Endpoint(k).Some?
  {
    assert PREFERENCE[1..] == [Didcomm, Https] && [Didcomm, Https][1..] == [Https] && [Https][1..] == [];
    assert SelectIn([], ours, caps) == None && AdvertisedIn([], caps) == [];
    assert SelectIn([Https], ours, caps) == if Shared(ours, caps, Https) then Some(Choice(Https, caps.https.value)) else None;
    assert AdvertisedIn([Https], caps) == if caps.https.Some? then [Https] else [];
    assert SelectIn([Didcomm, Https], ours, caps) ==
      if Shared(ours, caps, Didcomm) then Some(Choice(Didcomm, caps.didcomm.value)) else SelectIn([Https], ours, caps);
    assert AdvertisedIn([Didcomm, Https], caps) ==
      (if caps.didcomm.Some? then [Didcomm] else []) + AdvertisedIn([Https], caps);
    forall k
      ensures k in Advertised(caps) <==> caps.Endpoint(k).Some?
    {
      match k case Tsp => case Didcomm => case Https =>
    }
  }

  /** The choice is the best transport both sides speak, and there is none exactly when they share none. */
  lemma SelectsBestShared(ours: seq<Kind>, caps: Capabilities, c: Choice)
    ensures Select(ours, caps) == Ok(c) <==>
      BestShared(ours, caps, c.kind) && caps.Endpoint(c.kind) == Some(c.endpoint)
    ensures Select(ours, caps).Err? <==> forall k :: !Shared(ours, caps, k)
    ensures Select(ours, caps).Err? ==>
      Select(ours, caps).error.ours == ours
      && forall k :: k in Select(ours, caps).error.theirs <==> caps.Endpoint(k).Some?
  {
    PreferenceUnrolled(ours, caps);
    if Select(ours, caps).Err? {
      forall k
        ensures !Shared(ours, caps, k)
      {
        match k case Tsp => case Didcomm => case Https =>
      }
    }
    match c.kind {
      case Tsp =>
      case Didcomm => assert Rank(Tsp) < Rank(Didcomm);
      case Https => assert Rank(Tsp) < Rank(Https) && Rank(Didcomm) < Rank(Https);
    }
  }

  // ---------------------------------------------------------------- builder against parser

  /** What the built document lets a client recover, for any inputs whatever. */
  function Recoverable(mediator: string, publicUrl: Option<string>, flags: TransportFlags): Capabilities {
    var url := UrlOf(publicUrl);
    Capabilities(
      if flags.tsp && mediator != "" then Some(mediator) else None,
      if flags.didcomm && mediator != "" then Some(mediator) else None,
      if flags.rest && url != "" then Some(url) else None)
  }

  lemma ServiceKinds(did: string, text: string)
    ensures KindOf(DidcommService(did, text)) == Some(Didcomm) && KindOf(RestService(did, text)) == Some(Https)
    ensures KindOf(TspService(did, text)) == Some(Tsp)
    ensures var usable := if text == "" then None else Some(text);
      && UsableUri(DidcommService(did, text)) == usable
      && UsableUri(RestService(did, text)) == usable
      && UsableUri(TspService(did, text)) == usable
  {
    assert |TSP_TYPE| == 12 && |DIDCOMM_TYPE| == 16 && |REST_TYPE| == 8;
  }

  lemma FirstOfMaybe(listed: bool, svc: Json, rest: seq<Json>, kind: Kind)
    ensures var front := if listed then [svc] else [];
      FirstOffer(front + rest, kind) ==
        if listed && Offer(svc, kind).Some? then Offer(svc, kind) else FirstOffer(rest, kind)
  {
    var front := if listed then [svc] else [];
    FirstOfferAppend(front, rest, kind);
  }

  lemma RecoveredKind(a: bool, first: Json, b: bool, second: Json, c: bool, third: Json, kind: Kind)
    ensures FirstOffer(Gathered(a, first, b, second, c, third), kind) ==
        if a && Offer(first, kind).Some? then Offer(first, kind)
        else if b && Offer(second, kind).Some? then Offer(second, kind)
        else if c then Offer(third, kind)
        else None
  {
    var tail := if c then [third] else [];
    FirstOfMaybe(b, second, tail, kind);
    FirstOfMaybe(a, first, (if b then [second] else []) + tail, kind);
  }

  lemma RecoveredServices(a: bool, first: Json, b: bool, second: Json, c: bool, third: Json,
                          mediator: Option<string>, url: Option<string>)
    requires KindOf(first) == Some(Didcomm) && KindOf(second) == Some(Https) && KindOf(third) == Some(Tsp)
    requires UsableUri(first) == mediator && UsableUri(second) == url && UsableUri(third) == mediator
    ensures CapabilitiesOf(Gathered(a, first, b, second, c, third))
      == Capabilities(if c then mediator else None, if a then mediator else None, if b then url else None)
  {
    RecoveredKind(a, first, b, second, c, third, Tsp);
    RecoveredKind(a, first, b, second, c, third, Didcomm);
    RecoveredKind(a, first, b, second, c, third, Https);
  }

  lemma ServicesRecovered(did: string, mediator: string, publicUrl: Option<string>, flags: TransportFlags)
    ensures CapabilitiesOf(ServicesFor(did, mediator, publicUrl, flags)) == Recoverable(mediator, publicUrl, flags)
  {
    var url := UrlOf(publicUrl);
    ServiceKinds(did, mediator);
    ServiceKinds(did, url);
    RecoveredServices(flags.didcomm, DidcommService(did, mediator),
                      flags.rest && HasUrl(publicUrl), RestService(did, url),
                      flags.tsp, TspService(did, mediator),
                      if mediator == "" then None else Some(mediator), if url == "" then None else Some(url));
  }

  /** Parsing what was built recovers exactly what was worth advertising. */
  lemma BuiltThenParsed(did: string, methods: Json, keyRefs: Json, mediator: string, publicUrl: Option<string>,
                        flags: TransportFlags)
    ensures Parsed(BuildDocument(did, methods, keyRefs, ServicesFor(did, mediator, publicUrl, flags)))
      == Recoverable(mediator, publicUrl, flags)
  {
    ServicesRecovered(did, mediator, publicUrl, flags);
  }

  /** An accepted URL never trims away. */
  lemma AcceptedUrlSurvives(url: string)
    requires AcceptedUrl(url)
    ensures TrimEndSlashes(Trim(url)) != ""
  {
    assert url[0] == 'h';
    LettersAreNoSpace('h');
    TrimKeepsHead(url);
  }

  /** With validated flags, a mediator and an accepted URL, the client recovers exactly the enabled transports. */
  lemma ValidatedRoundTrip(did: string, methods: Json, keyRefs: Json, mediator: string, publicUrl: Option<string>,
                           flags: TransportFlags, compiled: bool)
    requires Validate(flags, compiled) == Ok(flags) && mediator != ""
    requires publicUrl.Some? ==> AcceptedUrl(publicUrl.value)
    ensures var caps := Parsed(BuildDocument(did, methods, keyRefs, ServicesFor(did, mediator, publicUrl, flags)));
      && caps.tsp == (if flags.tsp then Some(mediator) else None)
      && caps.didcomm == (if flags.didcomm then Some(mediator) else None)
      && (caps.https.Some? <==> flags.rest && publicUrl.Some?)
      && (caps.https.Some? ==> caps.https == Some(TrimEndSlashes(Trim(publicUrl.value))))
      && (caps.tsp.Some? ==> compiled && caps.didcomm.Some?)
  {
    BuiltThenParsed(did, methods, keyRefs, mediator, publicUrl, flags);
    if publicUrl.Some? {
      AcceptedUrlSurvives(publicUrl.value);
    }
  }

  /** A transport the registry serves under these flags. */
  predicate Served(flags: TransportFlags, kind: Kind) {
    match kind
    case Tsp => flags.tsp
    case Didcomm => flags.didcomm
    case Https => flags.rest
  }

  /** A client's choice from the built document is always a transport the registry serves. */
  lemma ChoiceIsServed(did: string, methods: Json, keyRefs: Json, mediator: string, publicUrl: Option<string>,
                       flags: TransportFlags, ours: seq<Kind>)
    ensures var caps := Parsed(BuildDocument(did, methods, keyRefs, ServicesFor(did, mediator, publicUrl, flags)));
      var choice := Select(ours, caps);
      && (choice.Ok? ==> Served(flags, choice.value.kind) && choice.value.kind in ours && choice.value.endpoint != "")
      && (choice.Err? && mediator != "" ==>
            !(flags.tsp && Tsp in ours) && !(flags.didcomm && Didcomm in ours))
  {
    BuiltThenParsed(did, methods, keyRefs, mediator, publicUrl, flags);
    var caps := Recoverable(mediator, publicUrl, flags);
    var choice := Select(ours, caps);
    if choice.Ok? {
      SelectsBestShared(ours, caps, choice.value);
    } else {
      SelectsBestShared(ours, caps, Choice(Tsp, ""));
      assert !Shared(ours, caps, Tsp) && !Shared(ours, caps, Didcomm);
    }
  }

  /** Only `type` and `serviceEndpoint` matter: relabelling a service changes nothing. */
  lemma LabelsDoNotMatter(svc: Json, key: string, text: Json)
    requires svc.Obj? && key !in {"type", "serviceEndpoint"}
    ensures forall kind :: Offer(Obj(svc.fields[key := text]), kind) == Offer(svc, kind)
  {
  }

  // ---------------------------------------------------------------- what a client reads, without reference to its code

  /** The endpoint is this text, an object whose `uri` is, or a list whose first fruitful item is such an endpoint. */
  ghost predicate Yields(endpoint: Json, uri: string) {
    match endpoint
    case Str(s) => s == uri
    case Obj(fields) => "uri" in fields && fields["uri"] == Str(uri)
    case Arr(items) => exists i :: 0 <= i < |items| && Yields(items[i], uri) && forall j :: 0 <= j < i ==> Barren(items[j])
    case _ => false
  }

  /** Nothing in it is an endpoint. */
  ghost predicate Barren(endpoint: Json) {
    match endpoint
    case Str(_) => false
    case Obj(fields) => "uri" in fields ==> !fields["uri"].Str?
    case Arr(items) => forall i :: 0 <= i < |items| ==> Barren(items[i])
    case _ => true
  }

  lemma {:induction false} YieldedIff(endpoint: Json, uri: string)
    ensures EndpointUri(endpoint) == Some(uri) <==> Yields(endpoint, uri)
    ensures EndpointUri(endpoint) == None <==> Barren(endpoint)
    decreases endpoint, 1, 0
  {
    if endpoint.Arr? {
      YieldedInIff(endpoint, 0, uri);
      assert endpoint.items[0..] == endpoint.items;
    }
  }

  /** In a list from item `k` on, the first fruitful item decides. */
  lemma {:induction false} YieldedInIff(endpoint: Json, k: nat, uri: string)
    requires endpoint.Arr? && k <= |endpoint.items|
    ensures var items := endpoint.items;
      && (FirstUri(items[k..]) == Some(uri) <==>
            exists i :: k <= i < |items| && Yields(items[i], uri) && forall j :: k <= j < i ==> Barren(items[j]))
      && (FirstUri(items[k..]) == None <==> forall i :: k <= i < |items| ==> Barren(items[i]))
    decreases endpoint, 0, |endpoint.items| - k
  {
    var items := endpoint.items;
    if k < |items| {
      assert items[k..][1..] == items[k + 1..];
      YieldedIff(items[k], uri);
      YieldedInIff(endpoint, k + 1, uri);
    }
  }

  /** The service is of this type, or lists it among its types. */
  predicate Lists(svc: Json, t: string) {
    svc.Obj? && "type" in svc.fields && (svc.fields["type"] == Str(t) || (svc.fields["type"].Arr? && Str(t) in svc.fields["type"].items))
  }

  /** A service listing several types counts for TSP before DIDComm before REST, of which there are two names. */
  predicate CountsFor(svc: Json, kind: Kind) {
    match kind
    case Tsp => Lists(svc, "TSPTransport")
    case Didcomm => Lists(svc, "DIDCommMessaging") && !Lists(svc, "TSPTransport")
    case Https =>
      (Lists(svc, "TRQPRest") || Lists(svc, "VTARest")) && !Lists(svc, "DIDCommMessaging") && !Lists(svc, "TSPTransport")
  }

  /** What a client may use of one service. */
  ghost predicate Advertises(svc: Json, kind: Kind, uri: string) {
    CountsFor(svc, kind) && uri != "" && "serviceEndpoint" in svc.fields && Yields(svc.fields["serviceEndpoint"], uri)
  }

  lemma AdvertisedIff(svc: Json, kind: Kind, uri: string)
    ensures Offer(svc, kind) == Some(uri) <==> Advertises(svc, kind, uri)
  {
    if svc.Obj? && "serviceEndpoint" in svc.fields {
      YieldedIff(svc.fields["serviceEndpoint"], uri);
    }
  }

  /**
   * Whatever the document: the client recovers an endpoint for a transport exactly when some service
   * advertises it and no earlier one advertises any, endpoints and types given as lists included.
   */
  lemma RecoveredIff(doc: Json, kind: Kind, uri: string)
    ensures Parsed(doc).Endpoint(kind) == Some(uri) <==>
      doc.Obj? && "service" in doc.fields && doc.fields["service"].Arr?
      && var services := doc.fields["service"].items;
         exists i :: 0 <= i < |services| && Advertises(services[i], kind, uri)
           && forall j, other :: 0 <= j < i ==> !Advertises(services[j], kind, other)
  {
    if doc.Obj? && "service" in doc.fields && doc.fields["service"].Arr? {
      var services := doc.fields["service"].items;
      FirstOfferIsFirst(services, kind, uri);
      forall i | 0 <= i < |services|
        ensures FirstAt(services, kind, uri, i) <==>
          Advertises(services[i], kind, uri) && forall j, other :: 0 <= j < i ==> !Advertises(services[j], kind, other)
      {
        FirstAdvertised(services, kind, uri, i);
      }
    }
  }

  lemma FirstAdvertised(services: seq<Json>, kind: Kind, uri: string, i: nat)
    requires i < |services|
    ensures FirstAt(services, kind, uri, i) <==>
      Advertises(services[i], kind, uri) && forall j, other :: 0 <= j < i ==> !Advertises(services[j], kind, other)
  {
    AdvertisedIff(services[i], kind, uri);
    forall j | 0 <= j < i
      ensures Offer(services[j], kind).None? <==> forall other :: !Advertises(services[j], kind, other)
    {
      if Offer(services[j], kind).Some? {
        AdvertisedIff(services[j], kind, Offer(services[j], kind).value);
      } else {
        forall other
          ensures !Advertises(services[j], kind, other)
        {
          AdvertisedIff(services[j], kind, other);
        }
      }
    }
  }

  // ---------------------------------------------------------------- what the builder writes and accepts

  /** Accepted are at least one transport, TSP only beside DIDComm and only when compiled in; else the first rule broken. */
  lemma ValidateIff(flags: TransportFlags, compiled: bool)
    ensures Validate(flags, compiled) == Ok(flags) <==> (flags.rest || flags.didcomm) && (flags.tsp ==> flags.didcomm && compiled)
    ensures Validate(flags, compiled) == Err(NoTransport) <==> flags == TransportFlags(false, false, false)
    ensures Validate(flags, compiled) == Err(TspNeedsDidcomm) <==> flags.tsp && !flags.didcomm
    ensures Validate(flags, compiled) == Err(TspNotCompiled) <==> flags.tsp && flags.didcomm && !compiled
  {
  }

  /** Nothing, or something past the end of the host. */
  predicate EndsHost(rest: string, host: string) {
    rest == host || (host < rest && rest[|host|] in {'/', ':', '?'})
  }

  lemma HostIff(rest: string, host: string)
    requires '/' !in host && ':' !in host && '?' !in host
    ensures HostOf(rest) == host <==> EndsHost(rest, host)
  {
    var found := HostOf(rest);
    assert EndsHost(rest, host) ==> |found| == |host|;
  }

  /** An accepted public URL is HTTPS, or cleartext to one of the three loopback hosts and no longer host. */
  lemma AcceptedUrlIff(url: string)
    ensures AcceptedUrl(url) <==>
      "https://" <= url
      || ("http://" <= url && (EndsHost(url[7..], "localhost") || EndsHost(url[7..], "127.0.0.1") || "[::1]" <= url[7..]))
  {
    if "http://" <= url {
      HostIff(url[7..], "localhost");
      HostIff(url[7..], "127.0.0.1");
    }
  }

  /** The text without outer white space and then without trailing slashes. */
  ghost predicate Reduces(text: string, base: string) {
    (base == "" || base[|base| - 1] != '/')
    && exists inner :: Pads(text, inner) && base <= inner && inner != "" && forall i :: |base| <= i < |inner| ==> inner[i] == '/'
  }

  /**
   * Exactly the enabled transports are advertised, REST only with a URL that is not blank: under ids of
   * their own, the mediator as endpoint of DIDComm and TSP, the reduced URL as endpoint of REST.
   */
  lemma ServicesWritten(did: string, mediator: string, publicUrl: Option<string>, flags: TransportFlags, svc: Json)
    ensures svc in ServicesFor(did, mediator, publicUrl, flags) <==>
      || (flags.didcomm && svc == Obj(map["id" := Str(did + "#didcomm"), "type" := Str("DIDCommMessaging"), "serviceEndpoint" :=
            Obj(map["uri" := Str(mediator), "accept" := Arr([Str("didcomm/v2")]), "routingKeys" := Arr([])])]))
      || (flags.tsp && svc == Obj(map["id" := Str(did + "#tsp"), "type" := Str("TSPTransport"), "serviceEndpoint" := Str(mediator)]))
      || (flags.rest && publicUrl.Some? && RestWritten(did, publicUrl.value, svc))
    ensures |ServicesFor(did, mediator, publicUrl, flags)| ==
      (if flags.didcomm then 1 else 0) + (if flags.rest && publicUrl.Some? && !Pads(publicUrl.value, "") then 1 else 0)
        + (if flags.tsp then 1 else 0)
  {
    if publicUrl.Some? {
      RestIsReduced(did, publicUrl.value, svc);
      TrimIff(publicUrl.value, "");
    }
  }

  /** The document around them: its id, contexts and keys, every key reference good for all three purposes. */
  lemma DocumentWritten(did: string, methods: Json, keyRefs: Json, services: seq<Json>)
    ensures var doc := BuildDocument(did, methods, keyRefs, services);
      && doc.Obj? && doc.fields.Keys == {"@context", "id", "verificationMethod", "authentication", "assertionMethod",
                                         "keyAgreement", "service"}
      && doc.fields["id"] == Str(did) && doc.fields["service"] == Arr(services) && doc.fields["verificationMethod"] == methods
      && (forall use :: use in {"authentication", "assertionMethod", "keyAgreement"} ==> doc.fields[use] == keyRefs)
      && doc.fields["@context"] == Arr([Str("https://www.w3.org/ns/did/v1"), Str("https://w3id.org/security/suites/jws-2020/v1")])
  {
  }

  ghost predicate RestWritten(did: string, text: string, svc: Json) {
    exists base :: Reduces(text, base)
      && svc == Obj(map["id" := Str(did + "#rest"), "type" := Str("TRQPRest"), "serviceEndpoint" := Str(base)])
  }

  lemma RestIsReduced(did: string, text: string, svc: Json)
    ensures RestWritten(did, text, svc) <==> Trim(text) != "" && svc == RestService(did, TrimEndSlashes(Trim(text)))
  {
    TrimIff(text, Trim(text));
    if Trim(text) != "" {
      assert Reduces(text, TrimEndSlashes(Trim(text)));
    }
    if RestWritten(did, text, svc) {
      var base :| Reduces(text, base)
        && svc == Obj(map["id" := Str(did + "#rest"), "type" := Str("TRQPRest"), "serviceEndpoint" := Str(base)]);
      var inner :| Pads(text, inner) && base <= inner && inner != "" && forall i :: |base| <= i < |inner| ==> inner[i] == '/';
      TrimIff(text, inner);
      SlashesGone(inner, base);
    }
  }

  lemma SlashesGone(inner: string, base: string)
    requires base <= inner && (forall i :: |base| <= i < |inner| ==> inner[i] == '/') && (base == "" || base[|base| - 1] != '/')
    ensures TrimEndSlashes(inner) == base
  {
    var t := TrimEndSlashes(inner);
    assert |t| == |base|;
  }
}
