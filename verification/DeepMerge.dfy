/**
  _deep_merge and the merge-json mode (file_update.py). Reading and printing JSON text are not
  modelled.
*/
module DeepMerge {
  import opened Wrappers

  datatype Json =
    | Null
    | Bool(truth: bool)
    | Number(number: real)
    | Text(text: string)
    | Array(items: seq<Json>)
    | Object(fields: map<string, Json>)

  function Merge(base: Json, over: Json): Json
    decreases over, 1
  {
    if base.Object? && over.Object? then
      Object(map k | k in base.fields.Keys + over.fields.Keys :: Entry(base, over, k))
    else over
  }

  function Entry(base: Json, over: Json, k: string): Json
    requires base.Object? && over.Object? && (k in base.fields || k in over.fields)
    decreases over, 0
  {
    if k !in over.fields then base.fields[k]
    else if k in base.fields then Merge(base.fields[k], over.fields[k])
    else over.fields[k]
  }

  lemma EntriesAreMerge(base: Json, over: Json, fields: map<string, Json>)
    requires base.Object? && over.Object?
    requires fields.Keys == base.fields.Keys + over.fields.Keys
    requires forall k :: k in over.fields ==> fields[k] == Entry(base, over, k)
    requires forall k :: k in base.fields && k !in over.fields ==> fields[k] == base.fields[k]
    ensures Object(fields) == Merge(base, over)
  {
    assert fields == Merge(base, over).fields;
  }

  method DeepMerge(base: Json, over: Json) returns (merged: Json)
    ensures merged == Merge(base, over)
    decreases over
  {
    if !base.Object? || !over.Object? {
      return over;
    }
    var fields := base.fields;
    var left := over.fields.Keys;
    while left != {}
      invariant left <= over.fields.Keys
      invariant fields.Keys == base.fields.Keys + (over.fields.Keys - left)
      invariant forall k :: k in over.fields && k !in left ==> fields[k] == Entry(base, over, k)
      invariant forall k :: k in base.fields && (k !in over.fields || k in left) ==> fields[k] == base.fields[k]
      decreases |left|
    {
      var k :| k in left;
      var value := over.fields[k];
      if k in base.fields {
        value := DeepMerge(base.fields[k], over.fields[k]);
      }
      fields := fields[k := value];
      left := left - {k};
    }
    EntriesAreMerge(base, over, fields);
    merged := Object(fields);
  }

  // ---------------------------------------------------------------------------
  // A value seen through its paths: what is found by following keys from the top, a scalar, an
  // array or just "an object".
  // ---------------------------------------------------------------------------

  type Keys = seq<string>

  function Head(j: Json): Json {
    if j.Object? then Object(map[]) else j
  }

  function FoundAt(j: Json, p: Keys): Option<Json>
    decreases |p|
  {
    if p == [] then Some(Head(j))
    else if j.Object? && p[0] in j.fields then FoundAt(j.fields[p[0]], p[1..])
    else None
  }

  // Following p meets something that is not an object before p ends.
  predicate Blocked(j: Json, p: Keys)
    decreases |p|
  {
    p != [] && (!j.Object? || (p[0] in j.fields && Blocked(j.fields[p[0]], p[1..])))
  }

  lemma FoundBelow(j: Json, k: string, p: Keys)
    requires j.Object?
    ensures FoundAt(j, [k] + p) == if k in j.fields then FoundAt(j.fields[k], p) else None
  {
    assert ([k] + p)[1..] == p;
  }

  // Paths tell values apart.
  lemma {:induction false} PathsDecide(a: Json, b: Json)
    requires forall p :: FoundAt(a, p) == FoundAt(b, p)
    ensures a == b
    decreases a
  {
    assert FoundAt(a, []) == FoundAt(b, []);
    if a.Object? {
      forall k ensures k in a.fields <==> k in b.fields {
        FoundBelow(a, k, []);
        FoundBelow(b, k, []);
      }
      forall k | k in a.fields ensures a.fields[k] == b.fields[k] {
        forall p ensures FoundAt(a.fields[k], p) == FoundAt(b.fields[k], p) {
          FoundBelow(a, k, p);
          FoundBelow(b, k, p);
        }
        PathsDecide(a.fields[k], b.fields[k]);
      }
      assert a.fields == b.fields;
    }
  }

  // The whole of merging, path by path: the override wins wherever it has something, hides what
  // lies behind its scalars and arrays, and leaves every other path of the base.
  lemma {:induction false} MergeByPaths(base: Json, over: Json, p: Keys)
    ensures FoundAt(Merge(base, over), p) ==
            if FoundAt(over, p).Some? then FoundAt(over, p)
            else if Blocked(over, p) then None
            else FoundAt(base, p)
    decreases |p|
  {
    if p == [] {
    } else if base.Object? && over.Object? {
      var k := p[0];
      if k in base.fields && k in over.fields {
        MergeByPaths(base.fields[k], over.fields[k], p[1..]);
      }
      assert k in Merge(base, over).fields <==> k in base.fields || k in over.fields;
    }
  }

  ghost predicate HasAllOf(j: Json, over: Json) {
    forall p :: FoundAt(over, p).Some? ==> FoundAt(j, p) == FoundAt(over, p)
  }

  lemma {:induction false} BlockedToo(j: Json, over: Json, p: Keys)
    requires HasAllOf(j, over) && Blocked(over, p)
    ensures FoundAt(j, p) == None
    decreases |p|
  {
    assert FoundAt(over, []) == FoundAt(j, []);
    if over.Object? {
      var k := p[0];
      assert FoundAt(over, [k]).Some? by { FoundBelow(over, k, []); }
      FoundBelow(j, k, []);
      forall q | FoundAt(over.fields[k], q).Some? ensures FoundAt(j.fields[k], q) == FoundAt(over.fields[k], q) {
        FoundBelow(over, k, q);
        FoundBelow(j, k, q);
      }
      BlockedToo(j.fields[k], over.fields[k], p[1..]);
    }
  }

  // An update changes nothing exactly when all of it is there already.
  lemma NoChange(base: Json, over: Json)
    ensures Merge(base, over) == base <==> HasAllOf(base, over)
  {
    if Merge(base, over) == base {
      forall p | FoundAt(over, p).Some? ensures FoundAt(base, p) == FoundAt(over, p) {
        MergeByPaths(base, over, p);
      }
    }
    if HasAllOf(base, over) {
      forall p ensures FoundAt(Merge(base, over), p) == FoundAt(base, p) {
        MergeByPaths(base, over, p);
        if Blocked(over, p) && FoundAt(over, p).None? {
          BlockedToo(base, over, p);
        }
      }
      PathsDecide(Merge(base, over), base);
    }
  }

  // Merging twice is merging once.
  lemma MergeTwice(base: Json, over: Json)
    ensures Merge(Merge(base, over), over) == Merge(base, over)
  {
    forall p | FoundAt(over, p).Some? ensures FoundAt(Merge(base, over), p) == FoundAt(over, p) {
      MergeByPaths(base, over, p);
    }
    NoChange(Merge(base, over), over);
  }

  lemma MergeSelf(j: Json)
    ensures Merge(j, j) == j
  {
    NoChange(j, j);
  }

  // The empty object is the identity on objects, on the right and on the left, and on the right on
  // nothing else: it replaces a scalar or an array.
  lemma EmptyUpdate(j: Json)
    ensures Merge(j, Object(map[])) == j <==> j.Object?
    ensures j.Object? ==> Merge(Object(map[]), j) == j
  {
    if j.Object? {
      assert Merge(j, Object(map[])).fields == j.fields;
      assert Merge(Object(map[]), j).fields == j.fields;
    }
  }

  // Merging is not associative: a scalar in the middle hides the first value for good on one side
  // and is itself replaced on the other.
  lemma NotAssociative() returns (a: Json, b: Json, c: Json)
    ensures Merge(Merge(a, b), c) != Merge(a, Merge(b, c))
  {
    var inA, inC := Object(map["y" := Null]), Object(map["z" := Null]);
    a, b, c := Object(map["x" := inA]), Object(map["x" := Null]), Object(map["x" := inC]);
    assert Merge(Null, inC) == inC && Merge(inA, Null) == Null;
    assert Entry(b, c, "x") == inC;
    assert Merge(a, b).fields["x"] == Null;
    assert Entry(Merge(a, b), c, "x") == inC;
    assert Merge(a, Merge(b, c)).fields["x"] == Merge(inA, inC);
    assert "y" in Merge(inA, inC).fields;
  }

  // ---------------------------------------------------------------------------
  // The merge-json mode.
  // ---------------------------------------------------------------------------

  // The file as it is read: blank, not JSON, or a value.
  datatype Existing = Blank | NotJson | Parsed(json: Json)

  datatype UpdateError = UpdatesNotObject | ExistingNotJson

  // Values that count as absent.
  predicate Falsy(j: Json) {
    match j
    case Null => true
    case Bool(b) => !b
    case Number(n) => n == 0.0
    case Text(t) => t == ""
    case Array(items) => items == []
    case Object(fields) => fields == map[]
  }

  function MergedFile(existing: Existing, updates: Json): Result<Json, UpdateError> {
    if !Falsy(updates) && !updates.Object? then Err(UpdatesNotObject)
    else if existing.NotJson? then Err(ExistingNotJson)
    else Ok(Merge(if existing.Parsed? then existing.json else Object(map[]),
                  if Falsy(updates) then Object(map[]) else updates))
  }

  method MergeJson(existing: Existing, updates: Json) returns (r: Result<Json, UpdateError>)
    ensures r == MergedFile(existing, updates)
  {
    var over := if Falsy(updates) then Object(map[]) else updates;
    if !over.Object? {
      return Err(UpdatesNotObject);
    }
    if existing.NotJson? {
      return Err(ExistingNotJson);
    }
    var base := if existing.Parsed? then existing.json else Object(map[]);
    var merged := DeepMerge(base, over);
    return Ok(merged);
  }

  // An accepted update leaves an object in the file, applying it again changes nothing, and it is
  // found there whole.
  lemma UpdateSettles(existing: Existing, updates: Json)
    requires MergedFile(existing, updates).Ok?
    ensures var r := MergedFile(existing, updates);
            && r.value.Object?
            && MergedFile(Parsed(r.value), updates) == r
            && (updates.Object? ==> HasAllOf(r.value, updates))
  {
    var base := if existing.Parsed? then existing.json else Object(map[]);
    var over := if Falsy(updates) then Object(map[]) else updates;
    MergeTwice(base, over);
    NoChange(Merge(base, over), over);
  }
}
