/** Reading the stored options back (django_celery_outbox/serialization.py) and what the relay
    hands to the broker (django_celery_outbox/relay/_publisher.py): the options a task was
    sent with come back as they went in. */
module RoundTrip {
  import opened Types
  import opened Serialization

  // ---- The JSON column ------------------------------------------------------------------------

  /** What the column can hold; anything else makes the insert fail. */
  predicate Storable(v: Value) {
    match v
    case Nil | Flag(_) | Number(_) | Text(_) => true
    case List(items) => forall i :: 0 <= i < |items| ==> Storable(items[i])
    case Tuple(items) => forall i :: 0 <= i < |items| ==> Storable(items[i])
    case Dict(e) => forall k :: k in e ==> Storable(e[k])
    case Signature(e) => forall k :: k in e ==> Storable(e[k])
    case Moment(_) | Named(_) | Other(_) => false
  }

  /** What it gives back: JSON knows only lists and dicts. */
  function Plain(v: Value): Value {
    match v
    case List(items) => List(seq(|items|, i requires 0 <= i < |items| => Plain(items[i])))
    case Tuple(items) => List(seq(|items|, i requires 0 <= i < |items| => Plain(items[i])))
    case Dict(e) => Dict(map k | k in e :: Plain(e[k]))
    case Signature(e) => Dict(map k | k in e :: Plain(e[k]))
    case _ => v
  }

  lemma {:induction false} PlainTwice(v: Value)
    ensures Plain(Plain(v)) == Plain(v)
  {
    match v
    case List(items) =>
      forall i | 0 <= i < |items| ensures Plain(Plain(items[i])) == Plain(items[i]) { PlainTwice(items[i]); }
    case Tuple(items) =>
      forall i | 0 <= i < |items| ensures Plain(Plain(items[i])) == Plain(items[i]) { PlainTwice(items[i]); }
    case Dict(e) =>
      forall k | k in e ensures Plain(Plain(e[k])) == Plain(e[k]) { PlainTwice(e[k]); }
    case Signature(e) =>
      forall k | k in e ensures Plain(Plain(e[k])) == Plain(e[k]) { PlainTwice(e[k]); }
    case _ =>
  }

  predicate CanStore(o: Options) { forall k :: k in o ==> Storable(o[k]) }

  function Stored(o: Options): Options { map k | k in o :: Plain(o[k]) }

  // ---- `deserialize_options` ------------------------------------------------------------------

  datatype Failure = UnsupportedVersion(version: int) | BadValue(key: Key)
  datatype Result<+T> = Ok(value: T) | Err(failure: Failure)

  /** `Signature.from_dict`, for what is a dict. */
  function FromDict(v: Value): Option<Value> {
    if v.Dict? || v.Signature? then Some(Signature(v.entries)) else None
  }

  function AllFromDict(items: seq<Value>): Option<seq<Value>> {
    if items == [] then Some([])
    else
      var front, last := AllFromDict(items[..|items| - 1]), FromDict(items[|items| - 1]);
      if front.None? || last.None? then None else Some(front.value + [last.value])
  }

  function ParseMoment(c: Codec, v: Value): Option<Value> {
    if !v.Text? || c.parse(v.text).None? then None else Some(Moment(c.parse(v.text).value))
  }

  /** What a stored entry is read back as; `None` where reading raises. */
  function Restored(c: Codec, key: Key, v: Value): Option<Value> {
    match key
    case Eta => ParseMoment(c, v)
    case Expires => if v.Text? then ParseMoment(c, v) else Some(v)
    case Link | LinkError | Chain =>
      if !v.List? then Some(v)
      else
        var l := AllFromDict(v.items);
        if l.None? then None else Some(List(l.value))
    case Chord => if v.Dict? || v.Signature? then FromDict(v) else Some(v)
    case _ => Some(v)
  }

  predicate Bad(c: Codec, o: Options, key: Key) { key in o && Restored(c, key, o[key]).None? }

  const ORDER: seq<Key> := [Eta, Expires, Link, LinkError, Chain, Chord]

  /** The first key, in the order the code takes them, whose entry cannot be read. */
  function FirstBad(c: Codec, o: Options, i: nat): Option<Key>
    requires i <= |ORDER|
    decreases |ORDER| - i
  {
    if i == |ORDER| then None else if Bad(c, o, ORDER[i]) then Some(ORDER[i]) else FirstBad(c, o, i + 1)
  }

  /** `o` with the entries of `done` read back. */
  function Partly(c: Codec, o: Options, done: seq<Key>): Options {
    map k | k in o :: if k in done && !Bad(c, o, k) then Restored(c, k, o[k]).value else o[k]
  }

  function Deserialized(c: Codec, o: Options, version: int): Result<Options> {
    if !(MIN_SUPPORTED_VERSION <= version <= CURRENT_SCHEMA_VERSION) then Err(UnsupportedVersion(version))
    else if FirstBad(c, o, 0).Some? then Err(BadValue(FirstBad(c, o, 0).value))
    else Ok(Partly(c, o, ORDER))
  }

  lemma {:induction false} NoneBad(c: Codec, o: Options, i: nat)
    requires i <= |ORDER| && FirstBad(c, o, i).None?
    ensures forall j :: i <= j < |ORDER| ==> !Bad(c, o, ORDER[j])
    decreases |ORDER| - i
  {
    if i < |ORDER| { NoneBad(c, o, i + 1); }
  }

  lemma {:induction false} FirstBadIs(c: Codec, o: Options, i: nat, j: nat)
    requires i <= j < |ORDER| && Bad(c, o, ORDER[j]) && forall k :: i <= k < j ==> !Bad(c, o, ORDER[k])
    ensures FirstBad(c, o, i) == Some(ORDER[j])
    decreases j - i
  {
    if i < j { FirstBadIs(c, o, i + 1, j); }
  }

  lemma {:induction false} NoneBadIs(c: Codec, o: Options, i: nat)
    requires i <= |ORDER| && forall k :: i <= k < |ORDER| ==> !Bad(c, o, ORDER[k])
    ensures FirstBad(c, o, i).None?
    decreases |ORDER| - i
  {
    if i < |ORDER| { NoneBadIs(c, o, i + 1); }
  }

  /** `[Signature.from_dict(d) for d in val]` */
  method SignaturesFromDicts(items: seq<Value>) returns (r: Option<seq<Value>>)
    ensures r == AllFromDict(items)
  {
    var result := [];
    for i := 0 to |items|
      invariant AllFromDict(items[..i]) == Some(result)
    {
      assert items[..i + 1][..i] == items[..i];
      var sig := FromDict(items[i]);
      if sig.None? {
        OneIsNoDict(items, i);
        return None;
      }
      result := result + [sig.value];
    }
    assert items[..|items|] == items;
    return Some(result);
  }

  lemma {:induction false} OneIsNoDict(items: seq<Value>, i: nat)
    requires i < |items| && FromDict(items[i]).None?
    ensures AllFromDict(items).None?
    decreases |items|
  {
    if i < |items| - 1 { OneIsNoDict(items[..|items| - 1], i); }
  }

  /** Rewrites one entry of `result`, if it is there; false when reading it raises. */
  method RestoreEntry(c: Codec, key: Key, result: Options) returns (result': Options, ok: bool)
    ensures ok <==> !Bad(c, result, key)
    ensures ok ==> result' == if key in result then result[key := Restored(c, key, result[key]).value] else result
  {
    result', ok := result, true;
    if key !in result {
      return;
    }
    var val := result[key];
    if key == Eta || (key == Expires && val.Text?) {
      ok := val.Text? && c.parse(val.text).Some?;
      if ok {
        result' := result[key := Moment(c.parse(val.text).value)];
      }
    } else if key in {Link, LinkError, Chain} && val.List? {
      var signatures := SignaturesFromDicts(val.items);
      ok := signatures.Some?;
      if ok {
        result' := result[key := List(signatures.value)];
      }
    } else if key == Chord && (val.Dict? || val.Signature?) {
      result' := result[key := Signature(val.entries)];
    } else {
      assert result[key := val] == result;
    }
  }

  method DeserializeOptions(c: Codec, o: Options, version: int) returns (r: Result<Options>)
    ensures r == Deserialized(c, o, version)
  {
    if version > CURRENT_SCHEMA_VERSION || version < MIN_SUPPORTED_VERSION {
      return Err(UnsupportedVersion(version));
    }
    var result := o;
    for i := 0 to |ORDER|
      invariant forall k :: 0 <= k < i ==> !Bad(c, o, ORDER[k])
      invariant result == Partly(c, o, ORDER[..i])
    {
      var key := ORDER[i];
      assert key !in ORDER[..i];
      assert Bad(c, result, key) <==> Bad(c, o, key);
      var ok;
      result, ok := RestoreEntry(c, key, result);
      if !ok {
        FirstBadIs(c, o, 0, i);
        return Err(BadValue(key));
      }
      assert ORDER[..i + 1] == ORDER[..i] + [key];
    }
    assert ORDER[..|ORDER|] == ORDER;
    NoneBadIs(c, o, 0);
    return Ok(result);
  }

  /** The one version that can be read is 1. */
  lemma OnlyVersionOne(c: Codec, o: Options, version: int)
    ensures Deserialized(c, o, version) == Err(UnsupportedVersion(version)) <==> version != 1
    ensures version != 1 ==> Deserialized(c, o, version).Err?
  {
  }

  /** What cannot be read back: times that are no text `fromisoformat` takes (`expires` may also
      be no text at all) and lists with anything but objects in them. */
  ghost predicate Unreadable(c: Codec, o: Options, key: Key) {
    && key in o
    && var v := o[key];
       match key
       case Eta => !v.Text? || c.parse(v.text).None?
       case Expires => v.Text? && c.parse(v.text).None?
       case Link | LinkError | Chain =>
         v.List? && exists i :: 0 <= i < |v.items| && !v.items[i].Dict? && !v.items[i].Signature?
       case _ => false
  }

  lemma {:induction false} AllFromDictIff(items: seq<Value>)
    ensures AllFromDict(items).Some? <==> forall i :: 0 <= i < |items| ==> items[i].Dict? || items[i].Signature?
    decreases |items|
  {
    if items != [] {
      AllFromDictIff(items[..|items| - 1]);
      assert forall i :: 0 <= i < |items| - 1 ==> items[..|items| - 1][i] == items[i];
    }
  }

  lemma BadIffUnreadable(c: Codec, o: Options, key: Key)
    ensures Bad(c, o, key) <==> Unreadable(c, o, key)
  {
    if key in o && o[key].List? { AllFromDictIff(o[key].items); }
  }

  /** Of the entries that cannot be read back, the first in the order eta, expires, link,
      link_error, chain is the one reported; if there is none, the options can be read. */
  lemma {:induction false} FirstUnreadable(c: Codec, o: Options)
    ensures var r := Deserialized(c, o, 1);
            if Unreadable(c, o, Eta) then r == Err(BadValue(Eta))
            else if Unreadable(c, o, Expires) then r == Err(BadValue(Expires))
            else if Unreadable(c, o, Link) then r == Err(BadValue(Link))
            else if Unreadable(c, o, LinkError) then r == Err(BadValue(LinkError))
            else if Unreadable(c, o, Chain) then r == Err(BadValue(Chain))
            else r.Ok?
  {
    forall k ensures Bad(c, o, k) <==> Unreadable(c, o, k) { BadIffUnreadable(c, o, k); }
    assert FirstBad(c, o, 6).None?;
    assert FirstBad(c, o, 5) == if Bad(c, o, ORDER[5]) then Some(ORDER[5]) else FirstBad(c, o, 6);
    assert FirstBad(c, o, 4) == if Bad(c, o, ORDER[4]) then Some(ORDER[4]) else FirstBad(c, o, 5);
    assert FirstBad(c, o, 3) == if Bad(c, o, ORDER[3]) then Some(ORDER[3]) else FirstBad(c, o, 4);
    assert FirstBad(c, o, 2) == if Bad(c, o, ORDER[2]) then Some(ORDER[2]) else FirstBad(c, o, 3);
    assert FirstBad(c, o, 1) == if Bad(c, o, ORDER[1]) then Some(ORDER[1]) else FirstBad(c, o, 2);
  }

  // ---- `prepare_publish_call` -------------------------------------------------------------------

  datatype Message = Message(options: Options, schemaVersion: int, sentryTraceId: Option<string>,
                             sentryBaggage: Option<string>)
  datatype PublishCall = PublishCall(options: Options, headers: map<string, Value>)

  /** Python's truth value, for what a JSON column can hold. */
  predicate Truthy(v: Value) {
    match v
    case Nil => false
    case Flag(b) => b
    case Number(n) => n != 0.0
    case Text(s) => s != ""
    case List(items) => items != []
    case Tuple(items) => items != []
    case Dict(e) => e.Keys != {}
    case Signature(e) => e.Keys != {}
    case _ => true
  }

  /** `dict(options.pop('headers', {}) or {})`; `None` where `dict` raises. */
  function PoppedHeaders(o: Options): Option<map<string, Value>> {
    if Headers !in o || !Truthy(o[Headers]) then Some(map[])
    else match o[Headers]
         case Dict(e) => Some(e)
         case Signature(e) => Some(e)
         case _ => None
  }

  predicate Given(s: Option<string>) { s.Some? && s.value != "" }

  /** `_apply_sentry_headers` */
  function WithSentry(h: map<string, Value>, msg: Message): map<string, Value> {
    var h1 := if Given(msg.sentryTraceId) then h["sentry-trace" := Text(msg.sentryTraceId.value)] else h;
    if Given(msg.sentryBaggage) then h1["baggage" := Text(msg.sentryBaggage.value)] else h1
  }

  function Prepared(c: Codec, msg: Message): Result<PublishCall> {
    match Deserialized(c, msg.options, msg.schemaVersion)
    case Err(f) => Err(f)
    case Ok(o) =>
      if PoppedHeaders(o).None? then Err(BadValue(Headers))
      else Ok(PublishCall(o - {Headers, Timeout}, WithSentry(PoppedHeaders(o).value, msg)))
  }

  method PreparePublishCall(c: Codec, msg: Message) returns (r: Result<PublishCall>)
    ensures r == Prepared(c, msg)
  {
    var d := DeserializeOptions(c, msg.options, msg.schemaVersion);
    if d.Err? {
      return Err(d.failure);
    }
    var options := d.value;
    var popped := PoppedHeaders(options);
    options := options - {Headers};
    if popped.None? {
      return Err(BadValue(Headers));
    }
    options := options - {Timeout};
    assert options == d.value - {Headers, Timeout};
    return Ok(PublishCall(options, WithSentry(popped.value, msg)));
  }

  // ---- The round trip -----------------------------------------------------------------------------

  /** A signature as the worker will see it: its JSON content. */
  function Sent(v: Value): Value
    requires v.Signature? || v.Dict?
  {
    Signature(map k | k in v.entries :: Plain(v.entries[k]))
  }

  function SignatureIn(v: Value): seq<Value> {
    if v.Signature? || v.Dict? then [Sent(v)] else []
  }

  /** The signatures among `items`; what is no signature is dropped. */
  function SignaturesIn(items: seq<Value>): seq<Value> {
    if items == [] then [] else SignatureIn(items[0]) + SignaturesIn(items[1..])
  }

  /** All the signatures an option value stands for, a single one being a list of one. */
  function Signatures(v: Value): seq<Value> {
    if v.List? || v.Tuple? then SignaturesIn(v.items) else SignatureIn(v)
  }

  /** What the broker must be given under `key` for a task sent with these options. */
  function Returned(call: Call, key: Key): Option<Value> {
    if key == Eta then
      if call.countdown.Some? then Some(Moment(call.now + call.countdown.value))
      else if call.eta == Nil then None
      else Some(call.eta)
    else if key !in call.options || call.options[key] == Nil then None
    else
      var v := call.options[key];
      match key
      case Countdown | Headers | Timeout | Transient(_) => None
      case Link | LinkError | Chain => if Signatures(v) == [] then None else Some(List(Signatures(v)))
      case Chord => if v.Signature? || v.Dict? then Some(Sent(v)) else None
      case Queue | Exchange | RoutingKey => Some(Text(if v.Named? then v.name else call.codec.str(v)))
      case Expires => Some(v)
      case _ => Some(Plain(v))
  }

  /** The options the promise is about: moments for `eta`, moments or numbers for `expires`. */
  ghost predicate Timely(call: Call) {
    && (call.eta.Nil? || call.eta.Moment?)
    && (Expires in call.options ==>
          var v := call.options[Expires]; v.Nil? || v.Moment? || v.Number? || v.Flag?)
  }

  lemma {:induction false} SignaturesInAppend(a: seq<Value>, v: Value)
    ensures SignaturesIn(a + [v]) == SignaturesIn(a) + SignatureIn(v)
    decreases |a|
  {
    if a != [] {
      assert (a + [v])[1..] == a[1..] + [v];
      SignaturesInAppend(a[1..], v);
    } else {
      assert (a + [v])[1..] == [];
    }
  }

  lemma PlainAppend(a: seq<Value>, v: Value)
    ensures Plain(List(a + [v])).items == Plain(List(a)).items + [Plain(v)]
  {
  }

  lemma AllFromDictAppend(a: seq<Value>, v: Value)
    requires AllFromDict(a).Some? && FromDict(v).Some?
    ensures AllFromDict(a + [v]) == Some(AllFromDict(a).value + [FromDict(v).value])
  {
    assert (a + [v])[..|a|] == a;
  }

  /** The stored list of dicts is read back as the signatures the caller gave. */
  lemma {:induction false} DictsComeBack(items: seq<Value>)
    ensures AllFromDict(Plain(List(Dicts(items))).items) == Some(SignaturesIn(items))
    decreases |items|
  {
    if items != [] {
      var front, last := items[..|items| - 1], items[|items| - 1];
      DictsComeBack(front);
      assert items == front + [last];
      SignaturesInAppend(front, last);
      DictsAppend(front, last);
      if SignatureToDict(last).Some? {
        OneMoreDict(Dicts(front), SignaturesIn(front), last);
      } else {
        assert Dicts(front) + [] == Dicts(front) && SignaturesIn(front) + [] == SignaturesIn(front);
      }
    }
  }

  /** One more dict is read back as one more signature. */
  lemma {:induction false} OneMoreDict(dicts: seq<Value>, signatures: seq<Value>, v: Value)
    requires SignatureToDict(v).Some? && AllFromDict(Plain(List(dicts)).items) == Some(signatures)
    ensures AllFromDict(Plain(List(dicts + [SignatureToDict(v).value])).items) == Some(signatures + SignatureIn(v))
  {
    var d := SignatureToDict(v).value;
    PlainAppend(dicts, d);
    AllFromDictAppend(Plain(List(dicts)).items, Plain(d));
  }

  lemma {:induction false} DictsEmpty(items: seq<Value>)
    ensures Dicts(items) == [] <==> SignaturesIn(items) == []
  {
    DictsComeBack(items);
    var stored := Plain(List(Dicts(items))).items;
    SameLength(stored);
  }

  lemma {:induction false} SameLength(items: seq<Value>)
    requires AllFromDict(items).Some?
    ensures |AllFromDict(items).value| == |items|
    decreases |items|
  {
    if items != [] { SameLength(items[..|items| - 1]); }
  }

  /** One entry's way through the row. */
  lemma EntryComesBack(call: Call, key: Key)
    requires call.codec.Valid() && Timely(call) && key != Headers && key != Timeout
    ensures var e := call.Entry(key);
            (if e.Some? then Restored(call.codec, key, Plain(e.value)) == Returned(call, key)
             && Returned(call, key).Some?
             else Returned(call, key).None?)
  {
    if key in call.options && (key == Link || key == LinkError || key == Chain) {
      var v := call.options[key];
      if v.List? || v.Tuple? {
        DictsComeBack(v.items);
        DictsEmpty(v.items);
      } else {
        SingleComesBack(v);
      }
    }
  }

  lemma SingleComesBack(v: Value)
    ensures SignatureToDict(v).Some? <==> SignatureIn(v) != []
    ensures SignatureToDict(v).Some? ==>
              AllFromDict(Plain(List([SignatureToDict(v).value])).items) == Some(SignatureIn(v))
  {
    if SignatureToDict(v).Some? {
      var d := SignatureToDict(v).value;
      PlainAppend([], d);
      assert [] + [d] == [d];
      AllFromDictAppend([], Plain(d));
      assert AllFromDict([]) == Some([]);
      assert Plain(List([])).items == [];
      assert [] + [Sent(v)] == [Sent(v)] && Plain(List([d])).items == [] + [Plain(d)];
    }
  }

  /** The row's entries, key by key. */
  lemma RowComesBack(call: Call)
    requires call.codec.Valid() && Timely(call)
    ensures var c, s := call.codec, Stored(call.Serialized());
            && Headers !in s
            && forall k :: k != Headers && k != Timeout ==>
                 && !Bad(c, s, k)
                 && (k in s <==> Returned(call, k).Some?)
                 && (k in s ==> Restored(c, k, s[k]) == Returned(call, k))
  {
    forall k | k != Headers && k != Timeout
      ensures var c, s := call.codec, Stored(call.Serialized());
              && !Bad(c, s, k)
              && (k in s <==> Returned(call, k).Some?)
              && (k in s ==> Restored(c, k, s[k]) == Returned(call, k))
    {
      EntryComesBack(call, k);
      StoredEntry(call, k);
    }
    StoredEntry(call, Headers);
  }

  lemma StoredEntry(call: Call, k: Key)
    ensures var e, s := call.Entry(k), Stored(call.Serialized());
            && (k in s <==> e.Some?)
            && (k in s ==> s[k] == Plain(e.value))
  {
  }

  /** A task sent with moments for its times reaches the broker with the options it was sent
      with: no transient, `None` or `timeout` entries, single signatures wrapped, what is no
      signature dropped in order, broker objects by name and the countdown made absolute. */
  lemma OptionsComeBack(call: Call, trace: Option<string>, baggage: Option<string>)
    requires call.codec.Valid() && Timely(call) && CanStore(call.Serialized())
    ensures var r := Prepared(call.codec, Message(Stored(call.Serialized()), CURRENT_SCHEMA_VERSION, trace, baggage));
            && r.Ok?
            && (forall k :: k in r.value.options <==> Returned(call, k).Some?)
            && (forall k :: k in r.value.options ==> r.value.options[k] == Returned(call, k).value)
            && r.value.headers == WithSentry(map[],
                                             Message(Stored(call.Serialized()), CURRENT_SCHEMA_VERSION, trace, baggage))
  {
    var o := ReadBack(call);
    PreparedFrom(call.codec, Message(Stored(call.Serialized()), CURRENT_SCHEMA_VERSION, trace, baggage), o);
    assert Returned(call, Timeout).None?;
  }

  lemma ReadBack(call: Call) returns (o: Options)
    requires call.codec.Valid() && Timely(call)
    ensures Deserialized(call.codec, Stored(call.Serialized()), CURRENT_SCHEMA_VERSION) == Ok(o)
    ensures Headers !in o
    ensures forall k :: k != Timeout ==>
              (k in o <==> Returned(call, k).Some?) && (k in o ==> o[k] == Returned(call, k).value)
  {
    var c, s := call.codec, Stored(call.Serialized());
    RowComesBack(call);
    NoneBadIs(c, s, 0);
    RestIsKept(c, s);
    o := Partly(c, s, ORDER);
    assert o.Keys == s.Keys;
    assert Returned(call, Headers).None?;
  }

  lemma PreparedFrom(c: Codec, msg: Message, o: Options)
    requires Deserialized(c, msg.options, msg.schemaVersion) == Ok(o) && Headers !in o
    ensures Prepared(c, msg) == Ok(PublishCall(o - {Timeout}, WithSentry(map[], msg)))
  {
    assert o - {Headers, Timeout} == o - {Timeout};
  }

  lemma RestIsKept(c: Codec, s: Options)
    requires forall k :: k != Headers && k != Timeout ==> !Bad(c, s, k)
    ensures forall k :: k in s ==> Restored(c, k, s[k]).Some? && Partly(c, s, ORDER)[k] == Restored(c, k, s[k]).value
  {
    forall k | k in s
      ensures Restored(c, k, s[k]).Some? && Partly(c, s, ORDER)[k] == Restored(c, k, s[k]).value
    {
      assert !Bad(c, s, k);
      if k !in ORDER {
        assert ORDER[0] == Eta && ORDER[1] == Expires && ORDER[2] == Link && ORDER[3] == LinkError && ORDER[4] == Chain
            && ORDER[5] == Chord;
      }
    }
  }

  /** Text that `fromisoformat` reads. */
  predicate Readable(c: Codec, v: Value) {
    v.Nil? || v.Moment? || c.parse(c.str(v)).Some?
  }

  predicate TimesReadable(call: Call) {
    && (call.countdown.Some? || Readable(call.codec, call.eta))
    && (Expires in call.options ==>
          var v := call.options[Expires]; v.Number? || v.Flag? || Readable(call.codec, v))
  }

  ghost predicate Reads(call: Call, key: Key) {
    call.Entry(key).Some? ==> Restored(call.codec, key, Plain(call.Entry(key).value)).Some?
  }

  lemma OthersRead(call: Call, key: Key)
    requires key != Eta && key != Expires
    ensures Reads(call, key)
  {
    if key in call.options && (key == Link || key == LinkError || key == Chain) {
      var v := call.options[key];
      if v.List? || v.Tuple? { DictsComeBack(v.items); } else { SingleComesBack(v); }
    }
  }

  lemma TimesRead(call: Call)
    requires call.codec.Valid()
    ensures TimesReadable(call) <==> Reads(call, Eta) && Reads(call, Expires)
  {
  }

  lemma BadIffUnread(call: Call, key: Key)
    ensures Bad(call.codec, Stored(call.Serialized()), key) <==> !Reads(call, key)
  {
    StoredEntry(call, key);
  }

  lemma ReadableIffNoneBad(call: Call)
    requires call.codec.Valid()
    ensures TimesReadable(call) <==> FirstBad(call.codec, Stored(call.Serialized()), 0).None?
  {
    var c, s := call.codec, Stored(call.Serialized());
    TimesRead(call);
    BadIffUnread(call, Eta);
    BadIffUnread(call, Expires);
    assert ORDER[0] == Eta && ORDER[1] == Expires;
    if FirstBad(c, s, 0).None? { NoneBad(c, s, 0); }
    if TimesReadable(call) {
      forall k | 0 <= k < |ORDER| ensures !Bad(c, s, ORDER[k]) {
        BadIffUnread(call, ORDER[k]);
        if k > 1 { OthersRead(call, ORDER[k]); }
      }
      NoneBadIs(c, s, 0);
    }
  }

  /** Whatever else a task was sent with, its row can be published exactly when its times can
      be read back. */
  lemma {:induction false} PublishableIffTimesReadable(call: Call, trace: Option<string>, baggage: Option<string>)
    requires call.codec.Valid()
    ensures Prepared(call.codec, Message(Stored(call.Serialized()), CURRENT_SCHEMA_VERSION, trace, baggage)).Ok?
            <==> TimesReadable(call)
  {
    ReadableIffNoneBad(call);
    StoredEntry(call, Headers);
    PreparedIff(call.codec, Message(Stored(call.Serialized()), CURRENT_SCHEMA_VERSION, trace, baggage));
  }

  lemma PreparedIff(c: Codec, msg: Message)
    requires Headers !in msg.options && msg.schemaVersion == CURRENT_SCHEMA_VERSION
    ensures Prepared(c, msg).Ok? <==> FirstBad(c, msg.options, 0).None?
  {
    if FirstBad(c, msg.options, 0).None? { PreparedFrom(c, msg, Partly(c, msg.options, ORDER)); }
  }

  /** Sending the returned options again, their `eta` as the `eta` of the call. */
  function Again(call: Call, o: Options, now: real): Call {
    Call(call.codec, o, None, if Eta in o then o[Eta] else Nil, now)
  }

  lemma EntryAgain(call: Call, o: Options, now: real, k: Key)
    requires call.codec.Valid() && Timely(call) && k != Timeout
    requires k in o <==> Returned(call, k).Some?
    requires k in o ==> o[k] == Returned(call, k).value
    requires Eta in o <==> Returned(call, Eta).Some?
    requires Eta in o ==> o[Eta] == Returned(call, Eta).value
    ensures var e, e2 := call.Entry(k), Again(call, o, now).Entry(k);
            && (e.Some? <==> e2.Some?)
            && (e.Some? ==> Plain(e.value) == Plain(e2.value))
  {
    if k in call.options {
      var v := call.options[k];
      match k
      case Link | LinkError | Chain => ListAgain(v);
      case Chord => if v.Signature? || v.Dict? { ChordAgain(v); }
      case _ => PlainTwice(v); PlainIsNil(v);
    }
  }

  lemma PlainIsNil(v: Value)
    ensures Plain(v) == Nil <==> v == Nil
  {
  }

  lemma {:induction false} DictsOfSignatures(items: seq<Value>)
    ensures Plain(List(Dicts(SignaturesIn(items)))) == Plain(List(Dicts(items)))
    decreases |items|
  {
    if items != [] {
      var front, last := items[..|items| - 1], items[|items| - 1];
      DictsOfSignatures(front);
      assert items == front + [last];
      SignaturesInAppend(front, last);
      if SignatureToDict(last).Some? {
        OneMoreSignature(SignaturesIn(front), Dicts(front), last);
      } else {
        assert Dicts(items) == Dicts(front);
        assert SignaturesIn(front) + [] == SignaturesIn(front);
      }
    }
  }

  lemma OneMoreSignature(signatures: seq<Value>, dicts: seq<Value>, v: Value)
    requires SignatureToDict(v).Some? && Plain(List(Dicts(signatures))) == Plain(List(dicts))
    ensures Plain(List(Dicts(signatures + [Sent(v)]))) == Plain(List(dicts + [SignatureToDict(v).value]))
  {
    var d, d' := SignatureToDict(v).value, Dict(Sent(v).entries);
    DictsAppend(signatures, Sent(v));
    PlainAppend(Dicts(signatures), d');
    PlainAppend(dicts, d);
    ChordAgain(v);
    assert Plain(d) == Plain(d');
    assert Plain(List(Dicts(signatures) + [d'])).items == Plain(List(dicts + [d])).items;
  }

  lemma DictsAppend(a: seq<Value>, v: Value)
    ensures Dicts(a + [v]) == Dicts(a) + if SignatureToDict(v).Some? then [SignatureToDict(v).value] else []
  {
    assert (a + [v])[..|a|] == a;
  }

  lemma PlainLength(items: seq<Value>)
    ensures |Plain(List(items)).items| == |items|
  {
  }

  lemma ListAgain(v: Value)
    ensures SignatureList(v).Some? <==> Signatures(v) != []
    ensures Signatures(v) != [] ==>
              var l := SignatureList(List(Signatures(v)));
              l.Some? && Plain(List(l.value)) == Plain(List(SignatureList(v).value))
  {
    if v.List? || v.Tuple? {
      ItemsAgain(v.items);
    } else if SignatureToDict(v).Some? {
      SingleAgain(v);
    }
  }

  lemma ItemsAgain(items: seq<Value>)
    ensures Dicts(items) != [] <==> SignaturesIn(items) != []
    ensures Dicts(items) != [] ==> Dicts(SignaturesIn(items)) != []
    ensures Plain(List(Dicts(SignaturesIn(items)))) == Plain(List(Dicts(items)))
  {
    DictsEmpty(items);
    DictsOfSignatures(items);
    PlainLength(Dicts(SignaturesIn(items)));
    PlainLength(Dicts(items));
  }

  lemma SingleAgain(v: Value)
    requires SignatureToDict(v).Some?
    ensures Dicts([Sent(v)]) == [Dict(Sent(v).entries)]
    ensures Plain(List([Dict(Sent(v).entries)])) == Plain(List([SignatureToDict(v).value]))
  {
    SentIsADict(v);
    ChordAgain(v);
    SinglePlain(Dict(Sent(v).entries), SignatureToDict(v).value);
  }

  lemma SentIsADict(v: Value)
    requires SignatureToDict(v).Some?
    ensures Dicts([Sent(v)]) == [Dict(Sent(v).entries)]
  {
    DictsAppend([], Sent(v));
    assert [] + [Sent(v)] == [Sent(v)] && Dicts([]) == [];
  }

  lemma {:induction false} SinglePlain(a: Value, b: Value)
    requires Plain(a) == Plain(b)
    ensures Plain(List([a])) == Plain(List([b]))
  {
    assert Plain(List([a])).items == [Plain(a)] && Plain(List([b])).items == [Plain(b)];
  }

  lemma ChordAgain(v: Value)
    requires v.Signature? || v.Dict?
    ensures Plain(Dict(Sent(v).entries)) == Plain(Dict(v.entries))
  {
    PlainTwice(Dict(v.entries));
    assert Sent(v).entries == Plain(Dict(v.entries)).entries;
  }

  /** Serializing what was returned gives the stored row again, but for `timeout`, which the
      broker call sets itself. */
  lemma {:induction false} SentAgainStoresTheSame(call: Call, trace: Option<string>, baggage: Option<string>, now: real)
    requires call.codec.Valid() && Timely(call) && CanStore(call.Serialized())
    ensures var s := Stored(call.Serialized());
            Prepared(call.codec, Message(s, CURRENT_SCHEMA_VERSION, trace, baggage)).Ok?
    ensures var s := Stored(call.Serialized());
            var o := Prepared(call.codec, Message(s, CURRENT_SCHEMA_VERSION, trace, baggage)).value.options;
            && Stored(Again(call, o, now).Serialized()) == s - {Timeout}
            && (Stored(Again(call, o, now).Serialized()) == s
                <==> (Timeout in call.options ==> call.options[Timeout] == Nil))
  {
    var s := Stored(call.Serialized());
    OptionsComeBack(call, trace, baggage);
    var o := Prepared(call.codec, Message(s, CURRENT_SCHEMA_VERSION, trace, baggage)).value.options;
    AgainIsStored(call, o, now);
  }

  lemma AgainIsStored(call: Call, o: Options, now: real)
    requires call.codec.Valid() && Timely(call)
    requires forall k :: k in o <==> Returned(call, k).Some?
    requires forall k :: k in o ==> o[k] == Returned(call, k).value
    ensures var s, s2 := Stored(call.Serialized()), Stored(Again(call, o, now).Serialized());
            && s2 == s - {Timeout}
            && (s2 == s <==> (Timeout in call.options ==> call.options[Timeout] == Nil))
  {
    var s, s2 := Stored(call.Serialized()), Stored(Again(call, o, now).Serialized());
    forall k ensures SameBut(s, s2, k) {
      StoredAgain(call, o, now, k);
    }
    StoredEntry(call, Timeout);
    LessOneKey(s, s2);
  }

  ghost predicate SameBut(s: Options, s2: Options, k: Key) {
    && (k in s2 <==> k in s && k != Timeout)
    && (k in s2 && k in s ==> s2[k] == s[k])
  }

  lemma StoredAgain(call: Call, o: Options, now: real, k: Key)
    requires call.codec.Valid() && Timely(call)
    requires forall k :: k in o <==> Returned(call, k).Some?
    requires forall k :: k in o ==> o[k] == Returned(call, k).value
    ensures SameBut(Stored(call.Serialized()), Stored(Again(call, o, now).Serialized()), k)
  {
    StoredEntry(call, k);
    StoredEntry(Again(call, o, now), k);
    if k != Timeout {
      EntryAgain(call, o, now, k);
    } else {
      assert Returned(call, k).None?;
    }
  }

  lemma LessOneKey(s: Options, s2: Options)
    requires forall k :: SameBut(s, s2, k)
    ensures s2 == s - {Timeout}
    ensures s2 == s <==> Timeout !in s
  {
    forall k
      ensures k in s2 <==> k in s && k != Timeout
      ensures k in s2 && k in s ==> s2[k] == s[k]
    {
      assert SameBut(s, s2, k);
    }
    if Timeout !in s { assert s - {Timeout} == s; }
  }

  lemma SentryAlone(c: Codec, msg: Message)
    requires Headers !in msg.options && msg.schemaVersion == CURRENT_SCHEMA_VERSION && FirstBad(c, msg.options, 0).None?
    ensures Prepared(c, msg).Ok? && Prepared(c, msg).value.headers == WithSentry(map[], msg)
  {
    PreparedFrom(c, msg, Partly(c, msg.options, ORDER));
  }

  /** `headers` is a transient key, so what a stored task is published with are the Sentry
      headers alone, each exactly when the row has a value for it. */
  lemma OnlySentryHeaders(call: Call, trace: Option<string>, baggage: Option<string>)
    requires call.codec.Valid() && TimesReadable(call)
    ensures var r := Prepared(call.codec, Message(Stored(call.Serialized()), CURRENT_SCHEMA_VERSION, trace, baggage));
            && r.Ok?
            && (forall h :: h in r.value.headers <==>
                  (h == "sentry-trace" && Given(trace)) || (h == "baggage" && Given(baggage)))
            && (Given(trace) ==> r.value.headers["sentry-trace"] == Text(trace.value))
            && (Given(baggage) ==> r.value.headers["baggage"] == Text(baggage.value))
  {
    ReadableIffNoneBad(call);
    StoredEntry(call, Headers);
    SentryAlone(call.codec, Message(Stored(call.Serialized()), CURRENT_SCHEMA_VERSION, trace, baggage));
  }

  /** A row that carries headers of its own, as no row stored here does, is published with them,
      its Sentry values on top; absent headers and what Python takes for false are none. */
  lemma HeadersOfTheRow(c: Codec, msg: Message, own: map<string, Value>)
    requires msg.schemaVersion == 1 && Deserialized(c, msg.options, 1).Ok?
    requires if Headers !in msg.options then own == map[]
             else match msg.options[Headers]
                  case Nil => own == map[]
                  case Flag(b) => !b && own == map[]
                  case Number(n) => n == 0.0 && own == map[]
                  case Text(t) => t == "" && own == map[]
                  case List(items) => items == [] && own == map[]
                  case Dict(e) => own == e
                  case _ => false
    ensures var r := Prepared(c, msg);
            && r.Ok?
            && (forall h :: h in r.value.headers <==>
                  || h in own
                  || (h == "sentry-trace" && Given(msg.sentryTraceId)) || (h == "baggage" && Given(msg.sentryBaggage)))
            && (forall h :: h in own && h != "sentry-trace" && h != "baggage" ==> r.value.headers[h] == own[h])
  {
    var o := Deserialized(c, msg.options, 1).value;
    assert Headers in o <==> Headers in msg.options;
    assert Headers in o ==> o[Headers] == msg.options[Headers];
    if own.Keys == {} { assert own == map[]; }
    SentryOnTop(own, msg);
  }

  lemma SentryOnTop(own: map<string, Value>, msg: Message)
    ensures var r := WithSentry(own, msg);
            && (forall h :: h in r <==>
                  || h in own
                  || (h == "sentry-trace" && Given(msg.sentryTraceId)) || (h == "baggage" && Given(msg.sentryBaggage)))
            && (forall h :: h in own && h != "sentry-trace" && h != "baggage" ==> r[h] == own[h])
  {
  }
}
