/** The options of a task on their way through the outbox row
    (django_celery_outbox/serialization.py, django_celery_outbox/relay/_publisher.py). */
module Serialization {
  import opened Types

  /** An option's name. Those the code treats apart have a constructor of their own. */
  datatype Key =
    | Countdown | Eta | Expires
    | Link | LinkError | Chain | Chord
    | Queue | Exchange | RoutingKey
    | Headers | Timeout
    | Transient(name: string)
    | Custom(name: string)

  const OTHER_TRANSIENT: set<string> := {
    "producer", "connection", "publisher", "task_type", "router", "app", "body", "content_type", "content_encoding",
    "serializer", "exchange_type", "delivery_mode", "compression", "reply_to", "correlation_id", "declare",
        "retry_policy"}

  function KeyOf(name: string): Key {
    match name
    case "countdown" => Countdown
    case "eta" => Eta
    case "expires" => Expires
    case "link" => Link
    case "link_error" => LinkError
    case "chain" => Chain
    case "chord" => Chord
    case "queue" => Queue
    case "exchange" => Exchange
    case "routing_key" => RoutingKey
    case "headers" => Headers
    case "timeout" => Timeout
    case _ => if name in OTHER_TRANSIENT then Transient(name) else Custom(name)
  }

  function NameOf(k: Key): string {
    match k
    case Countdown => "countdown"
    case Eta => "eta"
    case Expires => "expires"
    case Link => "link"
    case LinkError => "link_error"
    case Chain => "chain"
    case Chord => "chord"
    case Queue => "queue"
    case Exchange => "exchange"
    case RoutingKey => "routing_key"
    case Headers => "headers"
    case Timeout => "timeout"
    case Transient(name) => name
    case Custom(name) => name
  }

  /** A key tells its name, so different names are different keys. */
  lemma KeyTellsName(name: string)
    ensures NameOf(KeyOf(name)) == name
  {
  }

  predicate IsTransient(k: Key) { k == Headers || k.Transient? }
  predicate IsSpecial(k: Key) {
    k in {Countdown, Eta, Expires, Link, LinkError, Chain, Chord, Queue, Exchange, RoutingKey}
  }

  /** The Python values options are made of. A `Signature` is Celery's dict subclass, `Named`
      a kombu object with a name, `Other` anything else. */
  datatype Value =
    | Nil
    | Flag(flag: bool)
    | Number(number: real)
    | Text(text: string)
    | Moment(at: real)
    | List(items: seq<Value>)
    | Tuple(items: seq<Value>)
    | Dict(entries: map<string, Value>)
    | Signature(entries: map<string, Value>)
    | Named(name: string)
    | Other(tag: nat)

  type Options = map<Key, Value>

  /** `datetime.isoformat`, `datetime.fromisoformat` and `str`. */
  datatype Codec = Codec(iso: real -> string, parse: string -> Option<real>, str: Value -> string)
  {
    ghost predicate Valid() {
      && (forall t :: parse(iso(t)) == Some(t))
      && (forall s :: str(Text(s)) == s)
    }
  }

  // ---- What is stored under each key ------------------------------------------------------

  /** `_signature_to_dict` */
  function SignatureToDict(v: Value): Option<Value> {
    match v
    case Signature(e) => Some(Dict(e))
    case Dict(_) => Some(v)
    case _ => None
  }

  /** The signatures among `items`, as dicts and in order. */
  function Dicts(items: seq<Value>): seq<Value> {
    if items == [] then []
    else
      var last := SignatureToDict(items[|items| - 1]);
      Dicts(items[..|items| - 1]) + if last.Some? then [last.value] else []
  }

  function SignatureList(v: Value): Option<seq<Value>> {
    if v.List? || v.Tuple? then
      if Dicts(v.items) == [] then None else Some(Dicts(v.items))
    else
      var d := SignatureToDict(v);
      if d.Some? then Some([d.value]) else None
  }

  /** `_kombu_obj_to_str` */
  function KombuName(c: Codec, v: Value): Option<Value> {
    match v
    case Nil => None
    case Text(_) => Some(v)
    case Named(name) => Some(Text(name))
    case _ => Some(Text(c.str(v)))
  }

  function EtaText(c: Codec, countdown: Option<real>, eta: Value, now: real): Option<Value> {
    if countdown.Some? then Some(Text(c.iso(now + countdown.value)))
    else match eta
         case Nil => None
         case Moment(t) => Some(Text(c.iso(t)))
         case _ => Some(Text(c.str(eta)))
  }

  function ExpiresText(c: Codec, v: Value): Option<Value> {
    match v
    case Nil => None
    case Moment(t) => Some(Text(c.iso(t)))
    case Number(_) | Flag(_) => Some(v)
    case _ => Some(Text(c.str(v)))
  }

  /** A call of `serialize_options`; `now` is the clock it reads. */
  datatype Call = Call(codec: Codec, options: Options, countdown: Option<real>, eta: Value, now: real)
  {
    /** What it leaves under `key`, if anything. */
    function Entry(key: Key): Option<Value> {
      if key == Eta then EtaText(codec, countdown, eta, now)
      else if key !in options then None
      else EntryOf(codec, key, options[key])
    }

    /** The entries of the keys in `done`. */
    function Entries(done: set<Key>): Options {
      map k | k in done && Entry(k).Some? :: Entry(k).value
    }

    function Serialized(): Options { Entries(options.Keys + {Eta}) }
  }

  function EntryOf(c: Codec, key: Key, v: Value): Option<Value> {
    match key
    case Expires => ExpiresText(c, v)
    case Link | LinkError | Chain =>
      var l := SignatureList(v);
      if l.Some? then Some(List(l.value)) else None
    case Chord => SignatureToDict(v)
    case Queue | Exchange | RoutingKey => KombuName(c, v)
    case Eta | Countdown | Headers | Transient(_) => None
    case _ => if v == Nil then None else Some(v)
  }

  function Put(r: Options, key: Key, e: Option<Value>): Options {
    if e.Some? then r[key := e.value] else r
  }

  lemma OneMoreEntry(call: Call, done: set<Key>, key: Key)
    ensures call.Entries(done + {key}) == Put(call.Entries(done), key, call.Entry(key))
  {
  }

  lemma AllEntries(call: Call, done: set<Key>)
    requires call.options.Keys + {Eta} <= done
    ensures call.Entries(done) == call.Serialized()
  {
  }

  // ---- `serialize_options`, as it fills its result ------------------------------------------

  method SignaturesToList(sigs: Value) returns (r: Option<seq<Value>>)
    ensures r == SignatureList(sigs)
  {
    if sigs == Nil {
      return None;
    }
    if sigs.List? || sigs.Tuple? {
      var result := [];
      for i := 0 to |sigs.items|
        invariant result == Dicts(sigs.items[..i])
      {
        var d := SignatureToDict(sigs.items[i]);
        assert sigs.items[..i + 1][..i] == sigs.items[..i];
        if d.Some? {
          result := result + [d.value];
        }
      }
      assert sigs.items[..|sigs.items|] == sigs.items;
      return if result == [] then None else Some(result);
    }
    var d := SignatureToDict(sigs);
    r := if d.Some? then Some([d.value]) else None;
  }

  method SerializeEta(call: Call) returns (result: Options)
    ensures result == call.Entries({Eta})
  {
    result := map[];
    if call.countdown.Some? {
      result := result[Eta := Text(call.codec.iso(call.now + call.countdown.value))];
    } else if call.eta != Nil {
      result := result[Eta := if call.eta.Moment? then Text(call.codec.iso(call.eta.at))
                       else Text(call.codec.str(call.eta))];
    }
    assert result.Keys == call.Entries({Eta}).Keys;
  }

  method SerializeExpires(call: Call, filled: Options) returns (result: Options)
    requires Expires in call.options
    ensures result == Put(filled, Expires, call.Entry(Expires))
  {
    result := filled;
    var expires := call.options[Expires];
    if expires.Moment? {
      result := result[Expires := Text(call.codec.iso(expires.at))];
    } else if expires.Number? || expires.Flag? {
      result := result[Expires := expires];
    } else if expires != Nil {
      result := result[Expires := Text(call.codec.str(expires))];
    }
  }

  const LISTS: seq<Key> := [Link, LinkError, Chain]
  const NAMES: seq<Key> := [Queue, Exchange, RoutingKey]

  function KeysOf(s: seq<Key>): set<Key> { set k | k in s }

  lemma OneMoreKey(s: seq<Key>, i: nat)
    requires i < |s|
    ensures KeysOf(s[..i + 1]) == KeysOf(s[..i]) + {s[i]}
  {
    assert s[..i + 1] == s[..i] + [s[i]];
  }

  method SerializeSignatures(call: Call, ghost done: set<Key>, filled: Options) returns (result: Options)
    requires filled == call.Entries(done)
    ensures result == call.Entries(done + KeysOf(LISTS) + {Chord})
  {
    result := filled;
    for i := 0 to |LISTS|
      invariant result == call.Entries(done + KeysOf(LISTS[..i]))
    {
      var key := LISTS[i];
      OneMoreKey(LISTS, i);
      OneMoreEntry(call, done + KeysOf(LISTS[..i]), key);
      assert done + KeysOf(LISTS[..i]) + {key} == done + KeysOf(LISTS[..i + 1]);
      if key in call.options {
        var serialized := SignaturesToList(call.options[key]);
        if serialized.Some? {
          result := result[key := List(serialized.value)];
        }
      }
    }
    assert LISTS[..|LISTS|] == LISTS;
    OneMoreEntry(call, done + KeysOf(LISTS), Chord);
    if Chord in call.options {
      var d := SignatureToDict(call.options[Chord]);
      if d.Some? {
        result := result[Chord := d.value];
      }
    }
  }

  method SerializeKombuKeys(call: Call, ghost done: set<Key>, filled: Options) returns (result: Options)
    requires filled == call.Entries(done)
    ensures result == call.Entries(done + KeysOf(NAMES))
  {
    result := filled;
    for i := 0 to |NAMES|
      invariant result == call.Entries(done + KeysOf(NAMES[..i]))
    {
      var key := NAMES[i];
      OneMoreKey(NAMES, i);
      OneMoreEntry(call, done + KeysOf(NAMES[..i]), key);
      assert done + KeysOf(NAMES[..i]) + {key} == done + KeysOf(NAMES[..i + 1]);
      if key in call.options {
        var val := KombuName(call.codec, call.options[key]);
        if val.Some? {
          result := result[key := val.value];
        }
      }
    }
    assert NAMES[..|NAMES|] == NAMES;
  }

  lemma OtherEntry(call: Call, seen: set<Key>, key: Key)
    requires key in call.options && forall k :: IsSpecial(k) && k != Countdown ==> k in seen
    ensures var r, val := call.Entries(seen), call.options[key];
            call.Entries(seen + {key})
            == if key in r || IsTransient(key) || IsSpecial(key) || val == Nil then r else r[key := val]
  {
    OneMoreEntry(call, seen, key);
    if key in seen { assert seen + {key} == seen; }
  }

  /** The options no helper has dealt with are copied as they are. */
  method SerializeOthers(call: Call, ghost done: set<Key>, filled: Options) returns (result: Options)
    requires filled == call.Entries(done)
    requires forall k :: IsSpecial(k) && k != Countdown ==> k in done
    ensures result == call.Entries(done + call.options.Keys)
  {
    result := filled;
    var todo := call.options.Keys;
    ghost var seen := done;
    assert done + (call.options.Keys - todo) == done;
    while todo != {}
      invariant todo <= call.options.Keys && seen == done + (call.options.Keys - todo)
      invariant result == call.Entries(seen)
      decreases |todo|
    {
      var key :| key in todo;
      todo := todo - {key};
      OtherEntry(call, seen, key);
      seen := seen + {key};
      var val := call.options[key];
      if key in result || IsTransient(key) || IsSpecial(key) || val == Nil {
        continue;
      }
      result := result[key := val];
    }
    assert seen == done + call.options.Keys;
  }

  method SerializeOptions(call: Call) returns (result: Options)
    ensures result == call.Serialized()
  {
    result := SerializeEta(call);
    ghost var done := {Eta} + {Expires};
    OneMoreEntry(call, {Eta}, Expires);
    if Expires in call.options {
      result := SerializeExpires(call, result);
    }
    result := SerializeSignatures(call, done, result);
    done := done + KeysOf(LISTS) + {Chord};
    result := SerializeKombuKeys(call, done, result);
    done := done + KeysOf(NAMES);
    SpecialKeysDone(done);
    result := SerializeOthers(call, done, result);
    AllEntries(call, done + call.options.Keys);
  }

  lemma SpecialKeysDone(done: set<Key>)
    requires {Eta, Expires, Chord} <= done && KeysOf(LISTS) <= done && KeysOf(NAMES) <= done
    ensures forall k :: IsSpecial(k) && k != Countdown ==> k in done
  {
    assert LISTS[0] == Link && LISTS[1] == LinkError && LISTS[2] == Chain;
    assert NAMES[0] == Queue && NAMES[1] == Exchange && NAMES[2] == RoutingKey;
    assert {Link, LinkError, Chain} <= KeysOf(LISTS) && {Queue, Exchange, RoutingKey} <= KeysOf(NAMES);
  }
}
