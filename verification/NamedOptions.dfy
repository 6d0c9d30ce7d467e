/** The round trip in the caller's own terms: options by name. */
module NamedOptions {
  import opened Types
  import opened Serialization
  import opened RoundTrip

  /** The names the code treats apart, and the key each of them has. */
  lemma SpecialNames()
    ensures KeyOf("countdown") == Countdown && KeyOf("eta") == Eta && KeyOf("expires") == Expires
    ensures KeyOf("link") == Link && KeyOf("link_error") == LinkError && KeyOf("chain") == Chain
    ensures KeyOf("chord") == Chord
    ensures KeyOf("queue") == Queue && KeyOf("exchange") == Exchange && KeyOf("routing_key") == RoutingKey
    ensures KeyOf("headers") == Headers && KeyOf("timeout") == Timeout
  {
  }

  /** The names that are never stored or published. */
  ghost predicate NeverPublished(name: string) {
    name in {"producer", "connection", "publisher", "task_type", "router", "app", "body", "content_type",
             "content_encoding", "serializer", "headers", "exchange_type", "delivery_mode", "compression",
             "reply_to", "correlation_id", "declare", "retry_policy", "timeout", "countdown"}
  }

  lemma KindOfName(name: string)
    ensures IsTransient(KeyOf(name)) || KeyOf(name) in {Timeout, Countdown} <==> NeverPublished(name)
    ensures KeyOf(name) in {Link, LinkError, Chain} <==> name in {"link", "link_error", "chain"}
    ensures KeyOf(name) in {Queue, Exchange, RoutingKey} <==> name in {"queue", "exchange", "routing_key"}
    ensures KeyOf(name) == Eta <==> name == "eta"
    ensures KeyOf(name) == Expires <==> name == "expires"
    ensures KeyOf(name) == Chord <==> name == "chord"
  {
    SpecialNames();
    KeyTellsName(name);
  }

  /** Named options as the model keys them. */
  function Keyed(o: map<string, Value>): Options {
    map k | k in (set name | name in o :: KeyOf(name)) && NameOf(k) in o :: o[NameOf(k)]
  }

  /** And back. */
  function Named(o: Options): map<string, Value> {
    map name | name in (set k | k in o :: NameOf(k)) && KeyOf(name) in o :: o[KeyOf(name)]
  }

  lemma KeyedHas(o: map<string, Value>, name: string)
    ensures KeyOf(name) in Keyed(o) <==> name in o
    ensures name in o ==> Keyed(o)[KeyOf(name)] == o[name]
  {
    KeyTellsName(name);
  }

  lemma NamedHas(o: Options, name: string)
    ensures name in Named(o) <==> KeyOf(name) in o
    ensures name in Named(o) ==> Named(o)[name] == o[KeyOf(name)]
  {
    KeyTellsName(name);
    if KeyOf(name) in o { assert NameOf(KeyOf(name)) in (set k | k in o :: NameOf(k)); }
  }

  /** Keys lose nothing and mix nothing up. */
  lemma NamesComeBack(o: map<string, Value>)
    ensures Named(Keyed(o)) == o
  {
    forall name ensures SameAt(Named(Keyed(o)), o, name) {
      NamedHas(Keyed(o), name);
      KeyedHas(o, name);
    }
    SameEverywhere(Named(Keyed(o)), o);
  }

  ghost predicate SameAt(a: map<string, Value>, b: map<string, Value>, name: string) {
    (name in a <==> name in b) && (name in a && name in b ==> a[name] == b[name])
  }

  lemma SameEverywhere(a: map<string, Value>, b: map<string, Value>)
    requires forall name :: SameAt(a, b, name)
    ensures a == b
  {
    assert forall name :: SameAt(a, b, name) ==> (name in a <==> name in b);
  }

  function NamedCall(c: Codec, o: map<string, Value>, countdown: Option<real>, eta: Value, now: real): Call {
    Call(c, Keyed(o), countdown, eta, now)
  }

  /** What a task sent with the named options `o` is published with, by name. */
  function Published(call: Call, trace: Option<string>, baggage: Option<string>): Result<map<string, Value>> {
    match Prepared(call.codec, Message(Stored(call.Serialized()), CURRENT_SCHEMA_VERSION, trace, baggage))
    case Ok(r) => Ok(Named(r.options))
    case Err(f) => Err(f)
  }

  /** What JSON holds just as it is. */
  ghost predicate IsJson(v: Value) {
    match v
    case Nil | Flag(_) | Number(_) | Text(_) => true
    case List(items) => forall i :: 0 <= i < |items| ==> IsJson(items[i])
    case Dict(e) => forall k :: k in e ==> IsJson(e[k])
    case _ => false
  }

  lemma {:induction false} PlainJson(v: Value)
    requires IsJson(v)
    ensures Plain(v) == v
  {
    match v
    case List(items) =>
      forall i | 0 <= i < |items| ensures Plain(items[i]) == items[i] { PlainJson(items[i]); }
    case Dict(e) =>
      forall k | k in e ensures Plain(e[k]) == e[k] { PlainJson(e[k]); }
    case _ =>
  }

  /** A signature as it is published. */
  ghost predicate IsSignature(v: Value, r: Value) {
    && (v.Signature? || v.Dict?)
    && r.Signature? && r.entries.Keys == v.entries.Keys
    && forall k :: k in v.entries && IsJson(v.entries[k]) ==> r.entries[k] == v.entries[k]
  }

  lemma SentIsSignature(v: Value)
    requires v.Signature? || v.Dict?
    ensures IsSignature(v, Sent(v))
  {
    forall k | k in v.entries && IsJson(v.entries[k]) ensures Sent(v).entries[k] == v.entries[k] {
      PlainJson(v.entries[k]);
    }
  }

  /** Under `link`, `link_error` and `chain`: a list of the signatures given, in order, what is no
      signature dropped and one by itself wrapped; nothing when there is none. */
  ghost predicate ListPublished(o: map<string, Value>, r: map<string, Value>, name: string) {
    && (name in r <==> name in o && Signatures(o[name]) != [])
    && (name in r ==> r[name] == List(Signatures(o[name])))
    && (name in o && (o[name].Signature? || o[name].Dict?) ==>
          name in r && r[name].List? && |r[name].items| == 1 && IsSignature(o[name], r[name].items[0]))
  }

  ghost predicate ChordPublished(o: map<string, Value>, r: map<string, Value>, name: string) {
    && (name in r <==> name in o && (o[name].Signature? || o[name].Dict?))
    && (name in r ==> IsSignature(o[name], r[name]))
  }

  /** Under `queue`, `exchange` and `routing_key`: the name, as text. */
  ghost predicate BrokerPublished(c: Codec, o: map<string, Value>, r: map<string, Value>, name: string) {
    && (name in r <==> name in o && o[name] != Nil)
    && (name in r ==>
          match o[name]
          case Text(t) => r[name] == Text(t)
          case Named(n) => r[name] == Text(n)
          case other => r[name] == Text(c.str(other)))
  }

  ghost predicate EtaPublished(countdown: Option<real>, eta: Value, now: real, r: map<string, Value>, name: string) {
    match (countdown, eta)
    case (Some(seconds), _) => name in r && r[name] == Moment(now + seconds)
    case (None, Nil) => name !in r
    case _ => name in r && r[name] == eta
  }

  /** Any other option: exactly if it was given and is not `None`, and as it was. */
  ghost predicate OtherPublished(o: map<string, Value>, r: map<string, Value>, name: string) {
    && (name in r <==> name in o && o[name] != Nil)
    && (name in r ==> r[name] == Plain(o[name]) && (IsJson(o[name]) ==> r[name] == o[name]))
  }

  ghost predicate ExpiresPublished(o: map<string, Value>, r: map<string, Value>, name: string) {
    && (name in r <==> name in o && o[name] != Nil)
    && (name in r ==> r[name] == o[name])
  }

  /** How the code treats a name. */
  datatype Kind = EtaKind | ExpiresKind | ListKind | ChordKind | BrokerKind | NeverKind | OtherKind

  ghost function KindOf(name: string): Kind {
    if name == "eta" then EtaKind
    else if name == "expires" then ExpiresKind
    else if name in {"link", "link_error", "chain"} then ListKind
    else if name == "chord" then ChordKind
    else if name in {"queue", "exchange", "routing_key"} then BrokerKind
    else if NeverPublished(name) then NeverKind
    else OtherKind
  }

  /** What is published under one name. */
  ghost predicate ComesBack(call: Call, o: map<string, Value>, r: map<string, Value>, name: string) {
    match KindOf(name)
    case EtaKind => EtaPublished(call.countdown, call.eta, call.now, r, name)
    case ExpiresKind => ExpiresPublished(o, r, name)
    case ListKind => ListPublished(o, r, name)
    case ChordKind => ChordPublished(o, r, name)
    case BrokerKind => BrokerPublished(call.codec, o, r, name)
    case NeverKind => name !in r
    case OtherKind => OtherPublished(o, r, name)
  }

  /** The times are moments, or for `expires` numbers, as the promise asks. */
  ghost predicate TimesGiven(o: map<string, Value>, eta: Value) {
    && (eta.Nil? || eta.Moment?)
    && ("expires" in o ==>
          o["expires"].Nil? || o["expires"].Moment? || o["expires"].Number? || o["expires"].Flag?)
  }

  /** Options sent by name are published by name, each name as the code treats it. */
  lemma {:induction false} NamedOptionsComeBack(c: Codec, o: map<string, Value>, countdown: Option<real>, eta: Value,
                                                now: real, trace: Option<string>, baggage: Option<string>)
    requires c.Valid() && TimesGiven(o, eta)
    requires CanStore(NamedCall(c, o, countdown, eta, now).Serialized())
    ensures var call := NamedCall(c, o, countdown, eta, now);
            var r := Published(call, trace, baggage);
            && r.Ok?
            && forall name :: ComesBack(call, o, r.value, name)
  {
    var call := NamedCall(c, o, countdown, eta, now);
    SpecialNames();
    KeyedHas(o, "expires");
    OptionsComeBack(call, trace, baggage);
    var r := Prepared(c, Message(Stored(call.Serialized()), CURRENT_SCHEMA_VERSION, trace, baggage)).value.options;
    forall name ensures ComesBack(call, o, Named(r), name) {
      KeyComesBack(call, o, r, name);
    }
  }

  /** What stands under a name is what is returned under its key. */
  ghost predicate UnderKey(call: Call, r: map<string, Value>, name: string) {
    && (name in r <==> Returned(call, KeyOf(name)).Some?)
    && (name in r ==> r[name] == Returned(call, KeyOf(name)).value)
  }

  lemma KeyComesBack(call: Call, o: map<string, Value>, r: Options, name: string)
    requires call.codec.Valid() && call.options == Keyed(o)
    requires KeyOf(name) in r <==> Returned(call, KeyOf(name)).Some?
    requires KeyOf(name) in r ==> r[KeyOf(name)] == Returned(call, KeyOf(name)).value
    ensures ComesBack(call, o, Named(r), name)
  {
    NamedHas(r, name);
    KeyedHas(o, name);
    NameComesBack(call, o, Named(r), name);
  }

  lemma NameComesBack(call: Call, o: map<string, Value>, r: map<string, Value>, name: string)
    requires call.codec.Valid() && UnderKey(call, r, name)
    requires KeyOf(name) in call.options <==> name in o
    requires name in o ==> call.options[KeyOf(name)] == o[name]
    ensures ComesBack(call, o, r, name)
  {
    KindComesBack(call, o, r, name);
    KindOfKey(name);
  }

  lemma KindOfKey(name: string)
    ensures KindOf(name) ==
              match KeyOf(name)
              case Eta => EtaKind
              case Expires => ExpiresKind
              case Link | LinkError | Chain => ListKind
              case Chord => ChordKind
              case Queue | Exchange | RoutingKey => BrokerKind
              case Countdown | Headers | Timeout | Transient(_) => NeverKind
              case Custom(_) => OtherKind
  {
    KindOfName(name);
  }

  lemma KindComesBack(call: Call, o: map<string, Value>, r: map<string, Value>, name: string)
    requires call.codec.Valid() && UnderKey(call, r, name)
    requires KeyOf(name) in call.options <==> name in o
    requires name in o ==> call.options[KeyOf(name)] == o[name]
    ensures match KeyOf(name)
            case Eta => EtaPublished(call.countdown, call.eta, call.now, r, name)
            case Expires => ExpiresPublished(o, r, name)
            case Link | LinkError | Chain => ListPublished(o, r, name)
            case Chord => ChordPublished(o, r, name)
            case Queue | Exchange | RoutingKey => BrokerPublished(call.codec, o, r, name)
            case Countdown | Headers | Timeout | Transient(_) => name !in r
            case Custom(_) => OtherPublished(o, r, name)
  {
    match KeyOf(name)
    case Link | LinkError | Chain => ListComesBack(call, o, r, name);
    case Chord => ChordComesBack(call, o, r, name);
    case Queue | Exchange | RoutingKey => BrokerComesBack(call, o, r, name);
    case Custom(_) =>
      if name in o && IsJson(o[name]) { PlainJson(o[name]); }
    case _ =>
  }

  lemma ListComesBack(call: Call, o: map<string, Value>, r: map<string, Value>, name: string)
    requires KeyOf(name) in {Link, LinkError, Chain} && UnderKey(call, r, name)
    requires KeyOf(name) in call.options <==> name in o
    requires name in o ==> call.options[KeyOf(name)] == o[name]
    ensures ListPublished(o, r, name)
  {
    if name in o && (o[name].Signature? || o[name].Dict?) { SentIsSignature(o[name]); }
  }

  lemma ChordComesBack(call: Call, o: map<string, Value>, r: map<string, Value>, name: string)
    requires KeyOf(name) == Chord && UnderKey(call, r, name)
    requires KeyOf(name) in call.options <==> name in o
    requires name in o ==> call.options[KeyOf(name)] == o[name]
    ensures ChordPublished(o, r, name)
  {
    if name in r { SentIsSignature(o[name]); }
  }

  lemma BrokerComesBack(call: Call, o: map<string, Value>, r: map<string, Value>, name: string)
    requires call.codec.Valid() && KeyOf(name) in {Queue, Exchange, RoutingKey} && UnderKey(call, r, name)
    requires KeyOf(name) in call.options <==> name in o
    requires name in o ==> call.options[KeyOf(name)] == o[name]
    ensures BrokerPublished(call.codec, o, r, name)
  {
  }
}
