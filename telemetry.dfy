/**
 * Telemetry normalisation of the v16 client: `_get_val`, which reads one
 * headline value out of a list of `{id, value}` records, and
 * `_parse_response`, which turns the controller payload into a snapshot.
 */
module Telemetry {
  import opened Wrappers
  import opened Numbers
  import opened Json

  /** What `_get_val` hands back: `None`, a float, or the original string. */
  datatype Reading = Absent | Number(x: real) | Text(s: string)

  /** The values `val not in [None, "N/A", ""]` rules out. */
  predicate IsSentinel(v: Json)
  {
    v == Null || v == Str("N/A") || v == Str("")
  }

  /**
   * The conversion applied to a matched value: sentinels give `None`, `float()`
   * is tried on everything else, and a string it rejects with ValueError comes
   * back unchanged. `float()` of a list or dict raises TypeError, which is not
   * caught.
   */
  function Coerce(v: Json): (r: Result<Reading, Fault>)
    ensures r == Success(Absent) <==> IsSentinel(v)
    ensures r.Failure? <==> v.List? || v.Object?
    ensures r.Failure? ==> r.error == TypeError
    ensures r.Success? && r.value.Text? ==> v == Str(r.value.s) && Parse(v.s) == None
    ensures r.Success? && r.value.Number? && v.Str? ==> Parse(v.s) == Some(r.value.x)
    ensures r.Success? && r.value.Number? && !v.Str? ==> r.value.x == NumberOf(v)
  {
    match v
    case Null => Success(Absent)
    case Str(s) =>
      if s == "N/A" || s == "" then Success(Absent)
      else (match Parse(s)
            case Some(x) => Success(Number(x))
            case None => Success(Text(s)))
    case Bool(b) => Success(Number(if b then 1.0 else 0.0))
    case Int(i) => Success(Number(i as real))
    case Float(x, _) => Success(Number(x))
    case List(_) => Failure(TypeError)
    case Object(_) => Failure(TypeError)
  }

  /** `str(item.get("id")) == str(item_id)` for a record that is a dict. */
  predicate IdIs(fields: map<string, Json>, itemId: string)
  {
    StrEquals(Get(fields, "id", Null), itemId)
  }

  /** The body of `_get_val`'s loop over a list: stop at the first dict whose id matches. */
  function Scan(records: seq<Json>, itemId: string): (r: Result<Reading, Fault>)
    requires !BracketLed(itemId)
    ensures r.Failure? ==> r.error == AttributeError || r.error == TypeError
    ensures r.Success? && r.value != Absent ==>
      exists k :: 0 <= k < |records| && records[k].Object? && IdIs(records[k].fields, itemId)
    decreases |records|
  {
    if records == [] then Success(Absent)
    else match records[0]
      case Object(f) =>
        if IdIs(f, itemId) then Coerce(Get(f, "value", Null)) else Scan(records[1..], itemId)
      case _ => Failure(AttributeError)  // `.get` on a record that is not a dict
  }

  /**
   * `_get_val(data_list, item_id)`. Iterating a dict yields its keys and iterating
   * a string its characters; both are strings, which have no `.get`, so only an
   * empty one gets through. Anything else is not iterable.
   */
  function GetVal(dataList: Json, itemId: string): (r: Result<Reading, Fault>)
    requires !BracketLed(itemId)
    ensures EmptyIterable(dataList) ==> r == Success(Absent)
    ensures !dataList.List? && !EmptyIterable(dataList) ==> r.Failure?
    ensures r.Failure? ==> r.error == AttributeError || r.error == TypeError
  {
    match dataList
    case List(items) => Scan(items, itemId)
    case Object(f) => if f == map[] then Success(Absent) else Failure(AttributeError)
    case Str(s) => if s == "" then Success(Absent) else Failure(AttributeError)
    case _ => Failure(TypeError)
  }

  /** `_get_val` as the source writes it: a loop over the list with an early return. */
  method LookupLoop(dataList: Json, itemId: string) returns (r: Result<Reading, Fault>)
    requires !BracketLed(itemId)
    ensures r == GetVal(dataList, itemId)
  {
    match dataList
    case List(items) =>
      var i := 0;
      while i < |items|
        invariant 0 <= i <= |items|
        invariant Scan(items[i..], itemId) == Scan(items, itemId)
      {
        var item := items[i];
        if !item.Object? {
          return Failure(AttributeError);
        }
        if IdIs(item.fields, itemId) {
          return Coerce(Get(item.fields, "value", Null));
        }
        assert items[i..][1..] == items[i + 1..];
        i := i + 1;
      }
      r := Success(Absent);
    case Object(f) =>
      r := if f == map[] then Success(Absent) else Failure(AttributeError);
    case Str(s) =>
      r := if s == "" then Success(Absent) else Failure(AttributeError);
    case _ =>
      r := Failure(TypeError);
  }

  /** `record` is a dict whose id does not match, so the scan moves past it. */
  predicate Passes(record: Json, itemId: string)
  {
    record.Object? && !IdIs(record.fields, itemId)
  }

  /** The scan moves past every record before index `k`. */
  ghost predicate PassesBefore(records: seq<Json>, itemId: string, k: int)
  {
    forall j :: 0 <= j < k && j < |records| ==> Passes(records[j], itemId)
  }

  /** The first record whose id matches decides the result; later ones are never consulted. */
  lemma {:induction false} ScanFirstMatch(records: seq<Json>, itemId: string, k: nat)
    requires !BracketLed(itemId)
    requires k < |records| && PassesBefore(records, itemId, k)
    requires records[k].Object? && IdIs(records[k].fields, itemId)
    ensures Scan(records, itemId) == Coerce(Get(records[k].fields, "value", Null))
  {
    if k > 0 {
      assert Passes(records[0], itemId);
      ScanFirstMatch(records[1..], itemId, k - 1);
    }
  }

  /** With no matching record, including an empty list, the result is `None`. */
  lemma {:induction false} ScanNoMatch(records: seq<Json>, itemId: string)
    requires !BracketLed(itemId)
    requires PassesBefore(records, itemId, |records|)
    ensures Scan(records, itemId) == Success(Absent)
  {
    if records != [] {
      assert Passes(records[0], itemId);
      ScanNoMatch(records[1..], itemId);
    }
  }

  /** A record that is not a dict, reached before any match, raises AttributeError. */
  lemma {:induction false} ScanNonRecord(records: seq<Json>, itemId: string, k: nat)
    requires !BracketLed(itemId)
    requires k < |records| && PassesBefore(records, itemId, k) && !records[k].Object?
    ensures Scan(records, itemId) == Failure(AttributeError)
  {
    if k > 0 {
      assert Passes(records[0], itemId);
      ScanNonRecord(records[1..], itemId, k - 1);
    }
  }

  /** Records after a deciding one never change the result. */
  lemma {:induction false} ScanIgnoresLater(records: seq<Json>, rest: seq<Json>, itemId: string)
    requires !BracketLed(itemId)
    requires exists k :: 0 <= k < |records| && !Passes(records[k], itemId)
    ensures Scan(records + rest, itemId) == Scan(records, itemId)
  {
    assert records != [];
    if Passes(records[0], itemId) {
      var k :| 0 <= k < |records| && !Passes(records[k], itemId);
      assert k > 0 && !Passes(records[1..][k - 1], itemId);
      assert (records + rest)[1..] == records[1..] + rest;
      ScanIgnoresLater(records[1..], rest, itemId);
    }
  }

  /** A matched sentinel gives `None`, never zero and never an error. */
  lemma ScanSentinel(records: seq<Json>, itemId: string, k: nat)
    requires !BracketLed(itemId)
    requires k < |records| && PassesBefore(records, itemId, k)
    requires records[k].Object? && IdIs(records[k].fields, itemId)
    requires IsSentinel(Get(records[k].fields, "value", Null))
    ensures Scan(records, itemId) == Success(Absent)
  {
    ScanFirstMatch(records, itemId, k);
  }

  /** A matched string `float()` rejects comes back as the very same string. */
  lemma ScanVerbatim(records: seq<Json>, itemId: string, k: nat, s: string)
    requires !BracketLed(itemId)
    requires k < |records| && PassesBefore(records, itemId, k)
    requires records[k].Object? && IdIs(records[k].fields, itemId)
    requires Get(records[k].fields, "value", Null) == Str(s) && s != "N/A" && s != ""
    requires Parse(s) == None
    ensures Scan(records, itemId) == Success(Text(s))
  {
    ScanFirstMatch(records, itemId, k);
  }

  // ---------------------------------------------------------------------------
  // The id -> value sections of `_parse_response`
  // ---------------------------------------------------------------------------

  /** A record `item['id']` and `item['value']` can be read from, with a hashable id. */
  predicate IsRecord(j: Json)
  {
    j.Object? && "id" in j.fields && "value" in j.fields && KeyOf(j.fields["id"]).Some?
  }

  predicate AllRecords(items: seq<Json>)
  {
    forall i :: 0 <= i < |items| ==> IsRecord(items[i])
  }

  function RecordKey(j: Json): Key
    requires IsRecord(j)
  {
    KeyOf(j.fields["id"]).value
  }

  /**
   * One step of `{item['id']: item['value'] for item in ...}`: the key is read
   * first, then the value, and the key is hashed last.
   */
  function Entry(j: Json): (r: Result<(Key, Json), Fault>)
    ensures r.Success? <==> IsRecord(j)
    ensures r.Success? ==> r.value == (RecordKey(j), j.fields["value"])
    ensures j.Object? && !("id" in j.fields && "value" in j.fields) ==> r == Failure(KeyError)
    ensures j.Object? && "id" in j.fields && "value" in j.fields && KeyOf(j.fields["id"]).None? ==>
      r == Failure(TypeError)
    ensures !j.Object? ==> r == Failure(TypeError)
  {
    match j
    case Object(f) =>
      if "id" !in f || "value" !in f then Failure(KeyError)
      else (match KeyOf(f["id"])
            case Some(k) => Success((k, f["value"]))
            case None => Failure(TypeError))
    case _ => Failure(TypeError)
  }

  /** The comprehension over a list, inserting into `acc` from left to right. */
  function Insert(acc: map<Key, Json>, items: seq<Json>): (r: Result<map<Key, Json>, Fault>)
    ensures r.Success? ==> acc.Keys <= r.value.Keys
    ensures r.Failure? ==> r.error == KeyError || r.error == TypeError
    decreases |items|
  {
    if items == [] then Success(acc)
    else
      var e :- Entry(items[0]);
      Insert(acc[e.0 := e.1], items[1..])
  }

  /** The comprehension over whatever `data.get(key, [])` returned. */
  function SectionMap(section: Json): (r: Result<map<Key, Json>, Fault>)
    ensures EmptyIterable(section) ==> r == Success(map[])
    ensures !section.List? && !EmptyIterable(section) ==> r.Failure?
    ensures r.Failure? ==> r.error == KeyError || r.error == TypeError
  {
    match section
    case List(items) => Insert(map[], items)
    case Object(f) => if f == map[] then Success(map[]) else Failure(TypeError)
    case Str(s) => if s == "" then Success(map[]) else Failure(TypeError)
    case _ => Failure(TypeError)
  }

  /** The ids of a list of records, as dict keys. */
  function IdSet(items: seq<Json>): set<Key>
    requires AllRecords(items)
  {
    set i | 0 <= i < |items| :: RecordKey(items[i])
  }

  /** No record after index `i` has the same key as record `i`. */
  ghost predicate LastWithKey(items: seq<Json>, i: int)
    requires AllRecords(items) && 0 <= i < |items|
  {
    forall j :: i < j < |items| ==> RecordKey(items[j]) != RecordKey(items[i])
  }

  /** `m` is the id -> value map of `items`: key set the ids, each id bound to its last value. */
  ghost predicate IsIdMapOf(m: map<Key, Json>, items: seq<Json>)
  {
    && AllRecords(items)
    && m.Keys == IdSet(items)
    && forall i :: 0 <= i < |items| && LastWithKey(items, i) ==> m[RecordKey(items[i])] == items[i].fields["value"]
  }

  lemma {:induction false} InsertSucceeds(acc: map<Key, Json>, items: seq<Json>)
    ensures Insert(acc, items).Success? <==> AllRecords(items)
    decreases |items|
  {
    if items != [] {
      if IsRecord(items[0]) {
        InsertSucceeds(acc[RecordKey(items[0]) := items[0].fields["value"]], items[1..]);
      }
    }
  }

  /** The first record that is not one decides the exception raised. */
  lemma {:induction false} InsertFirstFault(acc: map<Key, Json>, items: seq<Json>, k: nat)
    requires k < |items| && (forall j :: 0 <= j < k ==> IsRecord(items[j])) && !IsRecord(items[k])
    ensures Insert(acc, items) == Failure(Entry(items[k]).error)
    decreases |items|
  {
    if k > 0 {
      InsertFirstFault(acc[RecordKey(items[0]) := items[0].fields["value"]], items[1..], k - 1);
    }
  }

  lemma {:induction false} InsertMap(acc: map<Key, Json>, items: seq<Json>)
    requires AllRecords(items)
    ensures Insert(acc, items).Success?
    ensures Insert(acc, items).value.Keys == acc.Keys + IdSet(items)
    ensures forall k :: k in acc && k !in IdSet(items) ==> Insert(acc, items).value[k] == acc[k]
    ensures forall i :: 0 <= i < |items| && LastWithKey(items, i) ==>
      Insert(acc, items).value[RecordKey(items[i])] == items[i].fields["value"]
    decreases |items|
  {
    if items != [] {
      var tail := items[1..];
      assert AllRecords(tail) by {
        forall i | 0 <= i < |tail| ensures IsRecord(tail[i]) { assert tail[i] == items[i + 1]; }
      }
      var k0, v0 := RecordKey(items[0]), items[0].fields["value"];
      var acc' := acc[k0 := v0];
      InsertMap(acc', tail);
      var m := Insert(acc, items).value;
      assert m == Insert(acc', tail).value;
      assert IdSet(items) == {k0} + IdSet(tail) by {
        forall x | x in IdSet(items) ensures x in {k0} + IdSet(tail) {
          var i :| 0 <= i < |items| && RecordKey(items[i]) == x;
          if i > 0 { assert RecordKey(tail[i - 1]) == x; }
        }
        forall x | x in IdSet(tail) ensures x in IdSet(items) {
          var i :| 0 <= i < |tail| && RecordKey(tail[i]) == x;
          assert RecordKey(items[i + 1]) == x;
        }
      }
      forall i | 0 <= i < |items| && LastWithKey(items, i)
        ensures m[RecordKey(items[i])] == items[i].fields["value"]
      {
        if i == 0 {
          assert RecordKey(items[0]) !in IdSet(tail);
        } else {
          assert tail[i - 1] == items[i];
          assert LastWithKey(tail, i - 1) by {
            forall j | i - 1 < j < |tail| ensures RecordKey(tail[j]) != RecordKey(tail[i - 1]) {
              assert tail[j] == items[j + 1];
            }
          }
        }
      }
    }
  }

  /** The empty-or-iterable shapes that yield an empty section without raising. */
  predicate EmptyIterable(j: Json)
  {
    j == List([]) || j == Object(map[]) || j == Str("")
  }

  /**
   * A section normalises exactly when it is a list of records (or an empty
   * iterable), and the result is then the id -> value map of that list.
   */
  lemma SectionMapSpec(section: Json)
    ensures SectionMap(section).Success? <==> (section.List? && AllRecords(section.items)) || EmptyIterable(section)
    ensures section.List? && AllRecords(section.items) ==> IsIdMapOf(SectionMap(section).value, section.items)
    ensures EmptyIterable(section) ==> SectionMap(section) == Success(map[])
  {
    if section.List? {
      InsertSucceeds(map[], section.items);
      if AllRecords(section.items) {
        InsertMap(map[], section.items);
      }
    }
  }

  // ---------------------------------------------------------------------------
  // The snapshot
  // ---------------------------------------------------------------------------

  /** `all_attributes` of the snapshot. */
  datatype Attributes = Attributes(
    boiler: map<Key, Json>,
    hopper: map<Key, Json>,
    dhw: map<Key, Json>,
    front: map<Key, Json>,
    misc: Json,
    weathercomp: Json,
    serial: Json)

  /** The dict `_parse_response` returns. */
  datatype Snapshot = Snapshot(
    boilerTemp: Reading,
    targetTemp: Reading,
    state: Json,
    attributes: Attributes)

  /** `misc.get("state", {}).get("value", "Unknown")`. */
  function StateOf(misc: Json): (r: Result<Json, Fault>)
    ensures r.Success? <==> misc.Object? && Get(misc.fields, "state", Object(map[])).Object?
  {
    if !misc.Object? then Failure(AttributeError)
    else
      var st := Get(misc.fields, "state", Object(map[]));
      if !st.Object? then Failure(AttributeError)
      else Success(Get(st.fields, "value", Str("Unknown")))
  }

  /** `_parse_response(data)`, in the order Python evaluates the dict literal. */
  function ParseResponse(data: map<string, Json>): (r: Result<Snapshot, Fault>)
    ensures r.Failure? ==> r.error in {TypeError, AttributeError, KeyError}
    ensures r.Success? && "frontdata" !in data ==> r.value.boilerTemp == Absent && r.value.targetTemp == Absent
  {
    var front := Get(data, "frontdata", List([]));
    var misc := Get(data, "miscdata", Object(map[]));
    var boilerTemp :- GetVal(front, "boilertemp");
    var targetTemp :- GetVal(front, "-wantedboilertemp");
    var state :- StateOf(misc);
    var boiler :- SectionMap(Get(data, "boilerdata", List([])));
    var hopper :- SectionMap(Get(data, "hopperdata", List([])));
    var dhw :- SectionMap(Get(data, "dhwdata", List([])));
    var frontMap :- SectionMap(Get(data, "frontdata", List([])));
    Success(Snapshot(boilerTemp, targetTemp, state,
      Attributes(boiler, hopper, dhw, frontMap, misc,
        Get(data, "weathercomp", Object(map[])), Get(data, "serial", Null))))
  }

  /** Section `m` is what the comprehension makes of `data[key]`, or empty when `key` is absent. */
  ghost predicate NormalisedFrom(m: map<Key, Json>, data: map<string, Json>, key: string)
  {
    if key !in data then m == map[]
    else (data[key].List? && IsIdMapOf(m, data[key].items)) || (EmptyIterable(data[key]) && m == map[])
  }

  /** Each of the four list-shaped sections of a parsed snapshot is the id -> value map of its list. */
  lemma ParseResponseSections(data: map<string, Json>)
    requires ParseResponse(data).Success?
    ensures var a := ParseResponse(data).value.attributes;
      && NormalisedFrom(a.boiler, data, "boilerdata")
      && NormalisedFrom(a.hopper, data, "hopperdata")
      && NormalisedFrom(a.dhw, data, "dhwdata")
      && NormalisedFrom(a.front, data, "frontdata")
  {
    SectionMapSpec(Get(data, "boilerdata", List([])));
    SectionMapSpec(Get(data, "hopperdata", List([])));
    SectionMapSpec(Get(data, "dhwdata", List([])));
    SectionMapSpec(Get(data, "frontdata", List([])));
  }

  /** The state defaults to "Unknown"; misc and weathercomp pass through; serial is None when absent. */
  lemma ParseResponseState(data: map<string, Json>)
    requires ParseResponse(data).Success?
    ensures var snap := ParseResponse(data).value;
      && (if "miscdata" in data && "state" in data["miscdata"].fields
             && "value" in data["miscdata"].fields["state"].fields
          then snap.state == data["miscdata"].fields["state"].fields["value"]
          else snap.state == Str("Unknown"))
      && snap.attributes.misc == (if "miscdata" in data then data["miscdata"] else Object(map[]))
      && snap.attributes.weathercomp == (if "weathercomp" in data then data["weathercomp"] else Object(map[]))
      && snap.attributes.serial == (if "serial" in data then data["serial"] else Null)
  {
  }

  /** A record value `float()` can be applied to without raising. */
  predicate ScalarValued(record: Json)
  {
    record.Object? && !Get(record.fields, "value", Null).List? && !Get(record.fields, "value", Null).Object?
  }

  /** Over dicts with scalar values the scan never raises. */
  lemma {:induction false} ScanTotal(records: seq<Json>, itemId: string)
    requires !BracketLed(itemId)
    requires forall i :: 0 <= i < |records| ==> ScalarValued(records[i])
    ensures Scan(records, itemId).Success?
  {
    if records != [] && !IdIs(records[0].fields, itemId) {
      ScanTotal(records[1..], itemId);
    }
  }

  /** Absent, or a list of records. */
  predicate WellShaped(data: map<string, Json>, key: string)
  {
    key !in data || (data[key].List? && AllRecords(data[key].items))
  }

  /**
   * A payload whose sections are absent or lists of records, whose front-panel
   * values are scalars and whose `miscdata`/`state` are dicts when present is
   * parsed without raising.
   */
  lemma ParseResponseSucceeds(data: map<string, Json>)
    requires WellShaped(data, "boilerdata") && WellShaped(data, "hopperdata")
    requires WellShaped(data, "dhwdata") && WellShaped(data, "frontdata")
    requires "frontdata" in data ==> forall i :: 0 <= i < |data["frontdata"].items| ==> ScalarValued(data["frontdata"].items[i])
    requires "miscdata" in data ==> data["miscdata"].Object?
    requires "miscdata" in data && "state" in data["miscdata"].fields ==> data["miscdata"].fields["state"].Object?
    ensures ParseResponse(data).Success?
  {
    var front := Get(data, "frontdata", List([]));
    if "frontdata" in data {
      ScanTotal(front.items, "boilertemp");
      ScanTotal(front.items, "-wantedboilertemp");
      assert forall i :: 0 <= i < |front.items| ==> IsRecord(front.items[i]);
      InsertSucceeds(map[], front.items);
    }
    if "boilerdata" in data { InsertSucceeds(map[], data["boilerdata"].items); }
    if "hopperdata" in data { InsertSucceeds(map[], data["hopperdata"].items); }
    if "dhwdata" in data { InsertSucceeds(map[], data["dhwdata"].items); }
  }

  /**
   * A payload reporting the boiler temperature with a decimal comma: the value
   * is kept as the string "62,3", not converted, and the state is read from
   * `miscdata`.
   */
  lemma ParseResponseCommaScenario()
    ensures var record := Object(map["id" := Str("boilertemp"), "value" := Str("62,3")]);
      var misc := Object(map["state" := Object(map["value" := Str("Heating")])]);
      var data := map["frontdata" := List([record]), "miscdata" := misc];
      ParseResponse(data) == Success(Snapshot(Text("62,3"), Absent, Str("Heating"),
        Attributes(map[], map[], map[], map[StrKey("boilertemp") := Str("62,3")], misc, Object(map[]), Null)))
  {
    var record := Object(map["id" := Str("boilertemp"), "value" := Str("62,3")]);
    var misc := Object(map["state" := Object(map["value" := Str("Heating")])]);
    var data := map["frontdata" := List([record]), "miscdata" := misc];
    ParseCommaExample();
    assert !BracketLed("boilertemp") && !BracketLed("-wantedboilertemp");
    assert [record][1..] == [];
    assert GetVal(List([record]), "boilertemp") == Success(Text("62,3")) by {
      assert IdIs(record.fields, "boilertemp");
      assert Coerce(Str("62,3")) == Success(Text("62,3"));
    }
    assert GetVal(List([record]), "-wantedboilertemp") == Success(Absent) by {
      assert "boilertemp"[0] != "-wantedboilertemp"[0];
      assert !IdIs(record.fields, "-wantedboilertemp");
      assert Scan([record], "-wantedboilertemp") == Scan([record][1..], "-wantedboilertemp");
      assert Scan([], "-wantedboilertemp") == Success(Absent);
    }
    assert StateOf(misc) == Success(Str("Heating"));
    assert SectionMap(List([])) == Success(map[]);
    assert SectionMap(List([record])) == Success(map[StrKey("boilertemp") := Str("62,3")]) by {
      assert Entry(record) == Success((StrKey("boilertemp"), Str("62,3")));
      assert Insert(map[], [record]) == Insert(map[StrKey("boilertemp") := Str("62,3")], [record][1..]);
      assert Insert(map[StrKey("boilertemp") := Str("62,3")], []) == Success(map[StrKey("boilertemp") := Str("62,3")]);
    }
    assert Get(data, "frontdata", List([])) == List([record]);
    assert Get(data, "miscdata", Object(map[])) == misc;
    assert Get(data, "boilerdata", List([])) == List([]);
    assert Get(data, "hopperdata", List([])) == List([]);
    assert Get(data, "dhwdata", List([])) == List([]);
    assert Get(data, "weathercomp", Object(map[])) == Object(map[]);
    assert Get(data, "serial", Null) == Null;
  }
}
