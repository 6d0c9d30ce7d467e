/** What admins see of a task's options: every nested signature with its arguments redacted
    (django_celery_outbox/app.py). */
module Redaction {
  import opened Types

  /** An object's key. Those the code treats apart have a constructor of their own. */
  datatype Key = Task | Args | Kwargs | Options | Link | LinkError | Chain | Chord | Custom(name: string)

  datatype Json =
    | Null
    | Bool(b: bool)
    | Number(n: real)
    | Text(text: string)
    | Array(items: seq<Json>)
    | Object(entries: map<Key, Json>)

  /** The user's redactor, called with a task name, arguments and keyword arguments, and
      Python's `list` and `dict` on values that are not already lists or objects. `None` is
      a raised exception. */
  datatype Python = Python(
    redact: (Json, seq<Json>, map<Key, Json>) -> Option<(Json, Json)>,
    list: Json -> Option<seq<Json>>,
    dict: Json -> Option<map<Key, Json>>)

  predicate IsList(k: Key) { k == Link || k == LinkError || k == Chain }

  // ---- What one signature becomes ---------------------------------------------------------------

  /** The name a signature's arguments are redacted under. */
  function NameOf(name: Json, sig: map<Key, Json>): Json {
    if Task in sig then sig[Task] else name
  }

  function ArgsOf(py: Python, sig: map<Key, Json>): Option<seq<Json>> {
    if Args !in sig then Some([]) else if sig[Args].Array? then Some(sig[Args].items) else py.list(sig[Args])
  }

  function KwargsOf(py: Python, sig: map<Key, Json>): Option<map<Key, Json>> {
    if Kwargs !in sig then Some(map[])
    else if sig[Kwargs].Object? then Some(sig[Kwargs].entries)
    else py.dict(sig[Kwargs])
  }

  /** The redactor's answer for a signature found where `name` is the nearest name above it. */
  function Answer(py: Python, name: Json, sig: map<Key, Json>): Option<(Json, Json)> {
    if ArgsOf(py, sig).None? || KwargsOf(py, sig).None? then None
    else py.redact(NameOf(name, sig), ArgsOf(py, sig).value, KwargsOf(py, sig).value)
  }

  function RedactedSignature(py: Python, name: Json, sig: Json): Option<Json>
    requires sig.Object?
    decreases sig, 0
  {
    var s := sig.entries;
    var a := Answer(py, name, s);
    if a.None? then None
    else
      var updated := s[Args := a.value.0][Kwargs := a.value.1];
      if Options !in s || !s[Options].Object? then Some(Object(updated))
      else
        var o := RedactedOptions(py, NameOf(name, s), s[Options]);
        if o.None? then None else Some(Object(updated[Options := o.value]))
  }

  function RedactedItem(py: Python, name: Json, v: Json): Option<Json>
    decreases v, 1
  {
    if v.Object? then RedactedSignature(py, name, v) else Some(v)
  }

  function RedactedUnder(py: Python, name: Json, key: Key, v: Json): Option<Json>
    decreases v, 2
  {
    if IsList(key) && v.Array? then
      if forall i :: 0 <= i < |v.items| ==> RedactedItem(py, name, v.items[i]).Some?
      then Some(Array(seq(|v.items|, i requires 0 <= i < |v.items| => RedactedItem(py, name, v.items[i]).value)))
      else None
    else if key == Chord then RedactedItem(py, name, v)
    else Some(v)
  }

  function RedactedOptions(py: Python, name: Json, o: Json): Option<Json>
    requires o.Object?
    decreases o, 0
  {
    if forall k :: k in o.entries ==> RedactedUnder(py, name, k, o.entries[k]).Some?
    then Some(Object(map k | k in o.entries :: RedactedUnder(py, name, k, o.entries[k]).value))
    else None
  }

  // ---- The code, which rewrites its copy entry by entry -----------------------------------------

  method RedactSerializedSignature(py: Python, name: Json, signature: Json) returns (r: Option<Json>)
    requires signature.Object?
    ensures r == RedactedSignature(py, name, signature)
    ensures r.Some? ==>
              && r.value.Object?
              && ArgumentsRedacted(py, if Task in signature.entries then signature.entries[Task] else name,
                                   signature.entries, r.value.entries)
    decreases signature, 0
  {
    if RedactedSignature(py, name, signature).Some? {
      SignatureRedacted(py, name, signature);
      AnsweredUnder(py, name, signature.entries, RedactedSignature(py, name, signature).value.entries);
    }
    var s := signature.entries;
    var signatureName := NameOf(name, s);
    var args, kwargs := ArgsOf(py, s), KwargsOf(py, s);
    if args.None? || kwargs.None? {
      return None;
    }
    var redacted := py.redact(signatureName, args.value, kwargs.value);
    if redacted.None? {
      return None;
    }
    var updated := s[Args := redacted.value.0][Kwargs := redacted.value.1];
    if Options in s && s[Options].Object? {
      var nested := RedactSignatureOptions(py, signatureName, s[Options]);
      if nested.None? {
        return None;
      }
      updated := updated[Options := nested.value];
    }
    return Some(Object(updated));
  }

  method RedactItems(py: Python, name: Json, items: seq<Json>) returns (r: Option<seq<Json>>)
    ensures r.Some? <==> forall i :: 0 <= i < |items| ==> RedactedItem(py, name, items[i]).Some?
    ensures r.Some? ==>
              && |r.value| == |items|
              && forall i :: 0 <= i < |items| ==> Some(r.value[i]) == RedactedItem(py, name, items[i])
    decreases items, 3
  {
    var result := [];
    for i := 0 to |items|
      invariant |result| == i
      invariant forall j :: 0 <= j < i ==> Some(result[j]) == RedactedItem(py, name, items[j])
    {
      var item := Some(items[i]);
      if items[i].Object? {
        item := RedactSerializedSignature(py, name, items[i]);
      }
      if item.None? {
        assert RedactedItem(py, name, items[i]).None?;
        return None;
      }
      result := result + [item.value];
    }
    return Some(result);
  }

  /** What is nested under one key. */
  method RedactUnder(py: Python, name: Json, key: Key, v: Json) returns (r: Option<Json>)
    requires IsList(key) || key == Chord
    ensures r == RedactedUnder(py, name, key, v)
    decreases v, 2
  {
    r := Some(v);
    if IsList(key) && v.Array? {
      var items := RedactItems(py, name, v.items);
      if items.None? {
        return None;
      }
      assert RedactedUnder(py, name, key, v).value.items == items.value;
      return Some(Array(items.value));
    }
    if key == Chord && v.Object? {
      r := RedactSerializedSignature(py, name, v);
    }
  }

  method RedactSignatureOptions(py: Python, name: Json, options: Json) returns (r: Option<Json>)
    requires options.Object?
    ensures r == RedactedOptions(py, name, options)
    decreases options, 0
  {
    var o := options.entries;
    var result := o;
    ghost var done: set<Key> := {};
    var keys := [Link, LinkError, Chain, Chord];
    for i := 0 to |keys|
      invariant Rewritten(py, name, o, done, result)
      invariant forall j :: 0 <= j < i ==> keys[j] in done
    {
      var key := keys[i];
      if key in o {
        var v := RedactUnder(py, name, key, o[key]);
        if v.None? {
          return None;
        }
        OneMoreRewritten(py, name, o, done, result, key);
        result := result[key := v.value];
      }
      done := done + {key};
    }
    assert keys[0] in done && keys[1] in done && keys[2] in done && keys[3] in done;
    RewrittenAll(py, name, options, done, result);
    return Some(Object(result));
  }

  /** `r` is `o` with the entries of `done` redacted. */
  ghost predicate Rewritten(py: Python, name: Json, o: map<Key, Json>, done: set<Key>, r: map<Key, Json>) {
    && r.Keys == o.Keys
    && forall k :: k in o ==> if k in done then RedactedUnder(py, name, k, o[k]) == Some(r[k]) else r[k] == o[k]
  }

  lemma OneMoreRewritten(py: Python, name: Json, o: map<Key, Json>, done: set<Key>, r: map<Key, Json>, key: Key)
    requires Rewritten(py, name, o, done, r) && key in o && RedactedUnder(py, name, key, o[key]).Some?
    ensures Rewritten(py, name, o, done + {key}, r[key := RedactedUnder(py, name, key, o[key]).value])
  {
  }

  lemma RewrittenAll(py: Python, name: Json, o: Json, done: set<Key>, r: map<Key, Json>)
    requires o.Object? && Rewritten(py, name, o.entries, done, r) && {Link, LinkError, Chain, Chord} <= done
    ensures RedactedOptions(py, name, o) == Some(Object(r))
  {
    forall k | k in o.entries ensures RedactedUnder(py, name, k, o.entries[k]) == Some(r[k]) {
      if k !in done { assert !IsList(k) && k != Chord; }
    }
    assert RedactedOptions(py, name, o).value.entries == r;
  }

  /** `_redact_options_for_inspection`; without a redactor, or when it raises, the options
      are shown as they are. */
  method RedactOptionsForInspection(py: Option<Python>, name: Json, options: Json) returns (shown: Json)
    requires options.Object?
    ensures shown == Shown(py, name, options)
  {
    if py.None? {
      return options;
    }
    var redacted := RedactSignatureOptions(py.value, name, options);
    return if redacted.Some? then redacted.value else options;
  }

  function Shown(py: Option<Python>, name: Json, options: Json): Json
    requires options.Object?
  {
    if py.None? || RedactedOptions(py.value, name, options).None? then options
    else RedactedOptions(py.value, name, options).value
  }

  // ---- Every signature at any depth ---------------------------------------------------------------

  /** From options to a signature nested in them. */
  datatype Hop = Nth(key: Key, index: nat) | TheChord

  function Step(o: Json, hop: Hop): Option<Json> {
    if !o.Object? then None
    else
      match hop
      case Nth(key, i) =>
        if IsList(key) && key in o.entries && o.entries[key].Array? && i < |o.entries[key].items|
            && o.entries[key].items[i].Object?
        then Some(o.entries[key].items[i]) else None
      case TheChord => if Chord in o.entries && o.entries[Chord].Object? then Some(o.entries[Chord]) else None
  }

  /** A signature and the nearest task name above it. */
  datatype Found = Found(name: Json, sig: map<Key, Json>)

  /** The signature at the end of `hops`, `name` being the task whose options these are. */
  function Reach(name: Json, o: Json, hops: seq<Hop>): Option<Found>
    requires hops != []
    decreases |hops|
  {
    var v := Step(o, hops[0]);
    if v.None? || !v.value.Object? then None
    else if |hops| == 1 then Some(Found(name, v.value.entries))
    else if Options !in v.value.entries then None
    else Reach(NameOf(name, v.value.entries), v.value.entries[Options], hops[1..])
  }

  /** What stays of the value under an option's key: all of it but the signatures in it, and
      they stay in their places. */
  ghost predicate ValueKept(key: Key, v: Json, r: Json) {
    if (key == Link || key == LinkError || key == Chain) && v.Array? then
      && r.Array? && |r.items| == |v.items|
      && forall i :: 0 <= i < |v.items| ==> if v.items[i].Object? then r.items[i].Object? else r.items[i] == v.items[i]
    else if key == Chord && v.Object? then r.Object?
    else r == v
  }

  ghost predicate OptionsKept(o: Json, r: Json) {
    && o.Object? && r.Object? && r.entries.Keys == o.entries.Keys
    && forall k :: k in o.entries ==> ValueKept(k, o.entries[k], r.entries[k])
  }

  /** `after` is `before` with its arguments redacted and everything else kept, in its own
      options all but the signatures nested there. */
  ghost predicate IsRedacted(py: Python, name: Json, before: map<Key, Json>, after: map<Key, Json>) {
    && Answer(py, name, before).Some?
    && after.Keys == before.Keys + {Args, Kwargs}
    && (after[Args], after[Kwargs]) == Answer(py, name, before).value
    && (forall k :: k in before && k != Args && k != Kwargs && k != Options ==> after[k] == before[k])
    && (Options in before ==>
          if before[Options].Object? then OptionsKept(before[Options], after[Options])
          else after[Options] == before[Options])
  }

  lemma UnderKept(py: Python, name: Json, key: Key, v: Json)
    requires RedactedUnder(py, name, key, v).Some?
    ensures ValueKept(key, v, RedactedUnder(py, name, key, v).value)
  {
    if IsList(key) && v.Array? {
      forall i | 0 <= i < |v.items|
        ensures RedactedItem(py, name, v.items[i]).Some?
        ensures var r := RedactedItem(py, name, v.items[i]).value;
                if v.items[i].Object? then r.Object? else r == v.items[i]
      {
        ItemRedacted(py, name, v.items[i]);
      }
    } else if key == Chord {
      assert RedactedItem(py, name, v).Some?;
      ItemRedacted(py, name, v);
    }
  }

  /** Outside its nested signatures an options object is shown as it is. */
  lemma RestOfOptionsKept(py: Python, name: Json, o: Json)
    requires o.Object? && RedactedOptions(py, name, o).Some?
    ensures OptionsKept(o, RedactedOptions(py, name, o).value)
  {
    var r := RedactedOptions(py, name, o).value;
    forall k | k in o.entries ensures ValueKept(k, o.entries[k], r.entries[k]) {
      assert RedactedUnder(py, name, k, o.entries[k]).Some?;
      UnderKept(py, name, k, o.entries[k]);
    }
  }

  lemma ItemRedacted(py: Python, name: Json, v: Json)
    requires RedactedItem(py, name, v).Some?
    ensures var r := RedactedItem(py, name, v).value;
            && (r.Object? <==> v.Object?)
            && (if v.Object? then RedactedSignature(py, name, v) == Some(r) else r == v)
  {
  }

  lemma SignatureRedacted(py: Python, name: Json, sig: Json)
    requires sig.Object? && RedactedSignature(py, name, sig).Some?
    ensures var r := RedactedSignature(py, name, sig).value;
            && r.Object? && IsRedacted(py, name, sig.entries, r.entries)
            && (Options in sig.entries && sig.entries[Options].Object? ==>
                  RedactedOptions(py, NameOf(name, sig.entries), sig.entries[Options]) == Some(r.entries[Options]))
  {
    if Options in sig.entries && sig.entries[Options].Object? {
      RestOfOptionsKept(py, NameOf(name, sig.entries), sig.entries[Options]);
    }
  }

  lemma StepRedacted(py: Python, name: Json, o: Json, hop: Hop)
    requires o.Object? && RedactedOptions(py, name, o).Some?
    ensures var r := RedactedOptions(py, name, o).value;
            && (Step(r, hop).Some? <==> Step(o, hop).Some?)
            && (Step(o, hop).Some? ==>
                  Step(o, hop).value.Object? && RedactedSignature(py, name, Step(o, hop).value) == Step(r, hop))
  {
    var r := RedactedOptions(py, name, o).value;
    match hop
    case Nth(key, i) =>
      if key in o.entries && IsList(key) {
        assert RedactedUnder(py, name, key, o.entries[key]) == Some(r.entries[key]);
        if o.entries[key].Array? && i < |o.entries[key].items| {
          assert RedactedItem(py, name, o.entries[key].items[i]) == Some(r.entries[key].items[i]);
          ItemRedacted(py, name, o.entries[key].items[i]);
        }
      }
    case TheChord =>
      if Chord in o.entries {
        assert RedactedUnder(py, name, Chord, o.entries[Chord]) == Some(r.entries[Chord]);
        assert RedactedItem(py, name, o.entries[Chord]) == Some(r.entries[Chord]);
        ItemRedacted(py, name, o.entries[Chord]);
      }
  }

  /** The signature reached before and the one reached after redaction. */
  ghost predicate FoundRedacted(py: Python, before: Option<Found>, after: Option<Found>) {
    && (before.Some? <==> after.Some?)
    && (before.Some? ==>
          && after.value.name == before.value.name
          && IsRedacted(py, before.value.name, before.value.sig, after.value.sig))
  }

  /** When nothing raises, the signatures that can be reached are the same as before, and each
      of them, at any depth, has its arguments redacted under its own task name or else the
      nearest name above it, and everything else in it as it was. */
  lemma {:induction false} EverySignatureRedacted(py: Python, name: Json, o: Json, hops: seq<Hop>)
    requires o.Object? && RedactedOptions(py, name, o).Some? && hops != []
    ensures FoundRedacted(py, Reach(name, o, hops), Reach(name, RedactedOptions(py, name, o).value, hops))
    decreases |hops|
  {
    StepRedacted(py, name, o, hops[0]);
    if Step(o, hops[0]).Some? {
      var v := Step(o, hops[0]).value;
      SignatureRedacted(py, name, v);
      if |hops| > 1 && Options in v.entries && v.entries[Options].Object? {
        EverySignatureRedacted(py, NameOf(name, v.entries), v.entries[Options], hops[1..]);
        DeeperRedacted(py, name, o, hops);
      } else if |hops| > 1 {
        assert Options in v.entries ==> Step(v.entries[Options], hops[1]).None?;
      }
    }
  }

  lemma {:induction false} DeeperRedacted(py: Python, name: Json, o: Json, hops: seq<Hop>)
    requires o.Object? && RedactedOptions(py, name, o).Some? && |hops| > 1 && Step(o, hops[0]).Some?
    requires var v := Step(o, hops[0]).value;
             && v.Object? && RedactedSignature(py, name, v).Some?
             && RedactedSignature(py, name, v) == Step(RedactedOptions(py, name, o).value, hops[0])
             && Options in v.entries && v.entries[Options].Object?
             && RedactedOptions(py, NameOf(name, v.entries), v.entries[Options]).Some?
             && FoundRedacted(py, Reach(NameOf(name, v.entries), v.entries[Options], hops[1..]),
                              Reach(NameOf(name, v.entries),
                                    RedactedOptions(py, NameOf(name, v.entries), v.entries[Options]).value, hops[1..]))
    ensures FoundRedacted(py, Reach(name, o, hops), Reach(name, RedactedOptions(py, name, o).value, hops))
  {
    var v := Step(o, hops[0]).value;
    SignatureRedacted(py, name, v);
    var r := RedactedSignature(py, name, v).value;
    assert NameOf(name, r.entries) == NameOf(name, v.entries);
  }

  // ---- When nothing is redacted ---------------------------------------------------------------------

  ghost predicate RaisesAt(py: Python, name: Json, o: Json, hops: seq<Hop>) {
    && hops != [] && Reach(name, o, hops).Some?
    && Answer(py, Reach(name, o, hops).value.name, Reach(name, o, hops).value.sig).None?
  }

  /** The options are shown unredacted exactly when the redactor (or reading its arguments)
      raises for some signature that can be reached. */
  lemma {:induction false} UnredactedIffSomeRaises(py: Python, name: Json, o: Json)
    requires o.Object?
    ensures RedactedOptions(py, name, o).None? <==> exists hops :: RaisesAt(py, name, o, hops)
    decreases o
  {
    if RedactedOptions(py, name, o).None? {
      var k :| k in o.entries && RedactedUnder(py, name, k, o.entries[k]).None?;
      var v := o.entries[k];
      if IsList(k) {
        var i :| 0 <= i < |v.items| && RedactedItem(py, name, v.items[i]).None?;
        RaisesBelow(py, name, o, Nth(k, i), v.items[i]);
      } else {
        assert k == Chord && RedactedItem(py, name, v).None?;
        RaisesBelow(py, name, o, TheChord, v);
      }
    } else {
      forall hops ensures !RaisesAt(py, name, o, hops) {
        if hops != [] { EverySignatureRedacted(py, name, o, hops); }
      }
    }
  }

  lemma {:induction false} RaisesBelow(py: Python, name: Json, o: Json, hop: Hop, sig: Json)
    requires o.Object? && Step(o, hop) == Some(sig) && sig.Object? && RedactedSignature(py, name, sig).None?
    ensures exists hops :: RaisesAt(py, name, o, hops)
    decreases sig
  {
    if Answer(py, name, sig.entries).None? {
      assert RaisesAt(py, name, o, [hop]);
    } else {
      var below := sig.entries[Options];
      UnredactedIffSomeRaises(py, NameOf(name, sig.entries), below);
      var hops :| RaisesAt(py, NameOf(name, sig.entries), below, hops);
      assert ([hop] + hops)[1..] == hops;
      assert RaisesAt(py, name, o, [hop] + hops);
    }
  }

  // ---- The same, place by place -----------------------------------------------------------------

  /** The signature at one hop: an object in the list under `link`, `link_error` or `chain`, or
      the object under `chord`. */
  ghost function Nested(o: Json, hop: Hop): Option<map<Key, Json>> {
    match (o, hop)
    case (Object(e), Nth(key, i)) =>
      if (key == Link || key == LinkError || key == Chain) && key in e && e[key].Array?
         && i < |e[key].items| && e[key].items[i].Object?
      then Some(e[key].items[i].entries) else None
    case (Object(e), TheChord) => if Chord in e && e[Chord].Object? then Some(e[Chord].entries) else None
    case _ => None
  }

  /** All the signatures on the way along `hops`, the outermost first. */
  ghost function Trail(o: Json, hops: seq<Hop>): Option<seq<map<Key, Json>>>
    decreases |hops|
  {
    if hops == [] then Some([])
    else
      var sig := Nested(o, hops[0]);
      if sig.None? then None
      else if |hops| == 1 then Some([sig.value])
      else if Options !in sig.value then None
      else
        var rest := Trail(sig.value[Options], hops[1..]);
        if rest.None? then None else Some([sig.value] + rest.value)
  }

  /** The task name of the last signature of the trail that has one, or else `outer`. */
  ghost function NearestName(outer: Json, trail: seq<map<Key, Json>>): Json {
    if trail == [] then outer
    else if Task in trail[|trail| - 1] then trail[|trail| - 1][Task]
    else NearestName(outer, trail[..|trail| - 1])
  }

  /** `args` and `kwargs` are the signature's own, empty when it has none. */
  ghost predicate HandsOver(py: Python, sig: map<Key, Json>, args: seq<Json>, kwargs: map<Key, Json>) {
    && (if Args !in sig then args == []
        else match sig[Args]
             case Array(items) => args == items
             case other => py.list(other) == Some(args))
    && (if Kwargs !in sig then kwargs == map[]
        else match sig[Kwargs]
             case Object(e) => kwargs == e
             case other => py.dict(other) == Some(kwargs))
  }

  /** `after` is `before` with the redactor's answer under `name` for its arguments. */
  ghost predicate ArgumentsRedacted(py: Python, name: Json, before: map<Key, Json>, after: map<Key, Json>) {
    && Args in after && Kwargs in after
    && exists args, kwargs ::
         HandsOver(py, before, args, kwargs) && py.redact(name, args, kwargs) == Some((after[Args], after[Kwargs]))
  }

  lemma NestedIsStep(o: Json, hop: Hop)
    ensures Nested(o, hop).Some? <==> Step(o, hop).Some? && Step(o, hop).value.Object?
    ensures Nested(o, hop).Some? ==> Nested(o, hop).value == Step(o, hop).value.entries
  {
  }

  lemma {:induction false} NearestOfMore(outer: Json, first: map<Key, Json>, rest: seq<map<Key, Json>>)
    ensures NearestName(outer, [first] + rest) == NearestName(NameOf(outer, first), rest)
    decreases |rest|
  {
    var all := [first] + rest;
    if rest == [] {
      assert all[..0] == [];
    } else {
      assert all[..|all| - 1] == [first] + rest[..|rest| - 1];
      NearestOfMore(outer, first, rest[..|rest| - 1]);
    }
  }

  /** The trail ends at what is reached, and its nearest name is the one in force there. */
  lemma {:induction false} TrailIsReach(name: Json, o: Json, hops: seq<Hop>)
    requires hops != []
    ensures Reach(name, o, hops).Some? <==> Trail(o, hops).Some?
    ensures Trail(o, hops).Some? ==>
              var trail, found := Trail(o, hops).value, Reach(name, o, hops).value;
              && |trail| == |hops| && trail[|trail| - 1] == found.sig
              && NearestName(name, trail) == NameOf(found.name, found.sig)
    decreases |hops|
  {
    NestedIsStep(o, hops[0]);
    if Nested(o, hops[0]).Some? {
      var sig := Nested(o, hops[0]).value;
      if |hops| == 1 {
        NearestOfMore(name, sig, []);
        assert [sig] + [] == [sig];
      } else if Options in sig {
        TrailIsReach(NameOf(name, sig), sig[Options], hops[1..]);
        if Trail(sig[Options], hops[1..]).Some? {
          NearestOfMore(name, sig, Trail(sig[Options], hops[1..]).value);
        }
      }
    }
  }

  lemma AnswerIs(py: Python, name: Json, sig: map<Key, Json>, args: seq<Json>, kwargs: map<Key, Json>)
    ensures HandsOver(py, sig, args, kwargs) <==> ArgsOf(py, sig) == Some(args) && KwargsOf(py, sig) == Some(kwargs)
    ensures HandsOver(py, sig, args, kwargs) ==> Answer(py, name, sig) == py.redact(NameOf(name, sig), args, kwargs)
  {
  }

  /** When nothing raises: the same places hold a signature before and after, at any depth under
      the lists `link`, `link_error` and `chain` and under `chord`; each has the redactor's answer
      for its own arguments, asked under its own task name, or that of the nearest signature
      around it that has one, or else the outer task's; and every other key of it is kept. */
  lemma {:induction false} EveryPlaceRedacted(py: Python, name: Json, o: Json, hops: seq<Hop>)
    requires o.Object? && RedactedOptions(py, name, o).Some? && hops != []
    ensures var before, after := Trail(o, hops), Trail(RedactedOptions(py, name, o).value, hops);
            && (before.Some? <==> after.Some?)
            && (before.Some? ==>
                  && |before.value| == |after.value| == |hops|
                  && var sig, sig' := before.value[|hops| - 1], after.value[|hops| - 1];
                  && ArgumentsRedacted(py, NearestName(name, before.value), sig, sig')
                  && sig'.Keys == sig.Keys + {Args, Kwargs}
                  && (forall k :: k in sig && k != Args && k != Kwargs && k != Options ==> sig'[k] == sig[k])
                  && (Options in sig ==>
                        if sig[Options].Object? then OptionsKept(sig[Options], sig'[Options])
                        else sig'[Options] == sig[Options]))
  {
    var r := RedactedOptions(py, name, o).value;
    EverySignatureRedacted(py, name, o, hops);
    TrailIsReach(name, o, hops);
    TrailIsReach(name, r, hops);
    if Trail(o, hops).Some? {
      var found, found' := Reach(name, o, hops).value, Reach(name, r, hops).value;
      AnsweredUnder(py, found.name, found.sig, found'.sig);
    }
  }

  lemma AnsweredUnder(py: Python, name: Json, sig: map<Key, Json>, sig': map<Key, Json>)
    requires IsRedacted(py, name, sig, sig')
    ensures ArgumentsRedacted(py, NameOf(name, sig), sig, sig')
  {
    var args, kwargs := ArgsOf(py, sig).value, KwargsOf(py, sig).value;
    AnswerIs(py, name, sig, args, kwargs);
  }

  /** The redactor raises for the signature there, or its arguments cannot be handed over. */
  ghost predicate RaisesThere(py: Python, name: Json, o: Json, hops: seq<Hop>) {
    && hops != [] && Trail(o, hops).Some? && |Trail(o, hops).value| == |hops|
    && var trail := Trail(o, hops).value;
       forall args, kwargs :: HandsOver(py, trail[|hops| - 1], args, kwargs) ==>
         py.redact(NearestName(name, trail), args, kwargs).None?
  }

  lemma RaisesThereIsRaisesAt(py: Python, name: Json, o: Json, hops: seq<Hop>)
    ensures RaisesThere(py, name, o, hops) <==> RaisesAt(py, name, o, hops)
  {
    if hops != [] {
      TrailIsReach(name, o, hops);
      if Trail(o, hops).Some? {
        var found := Reach(name, o, hops).value;
        forall args, kwargs
          ensures HandsOver(py, found.sig, args, kwargs)
                  <==> ArgsOf(py, found.sig) == Some(args) && KwargsOf(py, found.sig) == Some(kwargs)
        {
          AnswerIs(py, found.name, found.sig, args, kwargs);
        }
        if ArgsOf(py, found.sig).Some? && KwargsOf(py, found.sig).Some? {
          AnswerIs(py, found.name, found.sig, ArgsOf(py, found.sig).value, KwargsOf(py, found.sig).value);
        }
      }
    }
  }

  /** What is shown: the options unredacted if there is no redactor or something raises at some
      place, and otherwise the options redacted everywhere. */
  lemma {:induction false} ShownUnredactedIff(py: Python, name: Json, o: Json)
    requires o.Object?
    ensures RedactedOptions(py, name, o).None? <==> exists hops :: RaisesThere(py, name, o, hops)
    ensures Shown(None, name, o) == o
    ensures (exists hops :: RaisesThere(py, name, o, hops)) ==> Shown(Some(py), name, o) == o
    ensures (forall hops :: !RaisesThere(py, name, o, hops))
            ==> Some(Shown(Some(py), name, o)) == RedactedOptions(py, name, o)
  {
    UnredactedIffSomeRaises(py, name, o);
    forall hops ensures RaisesThere(py, name, o, hops) <==> RaisesAt(py, name, o, hops) {
      RaisesThereIsRaisesAt(py, name, o, hops);
    }
  }
}
