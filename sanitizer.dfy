/** The payload sanitizer `Client.sanitize_json`: one pass over a dict that
    deletes every key whose value is None or falsy and recurses into the
    values it keeps. The falsy test comes before the recursion, so a nested
    dict that the recursion empties stays behind as `{}`. */
module Sanitizer {
  import opened JsonModel

  /** What one pass leaves of a value that the pass keeps: scalars untouched,
      every element of a list sanitized in place, a nested dict sanitized. */
  function SanitizeValue(v: Json): (r: Json)
    decreases v, 1
    ensures !v.JArr? && !v.JObj? ==> r == v
    ensures v.JArr? ==> r.JArr? && |r.items| == |v.items|
    ensures v.JObj? ==> r.JObj? && r.fields.Keys <= v.fields.Keys
    ensures !Falsy(v) && Falsy(r) ==> v.JObj? && r == JObj(map[])
  {
    match v
    case JArr(items) => JArr(seq(|items|, i requires 0 <= i < |items| => SanitizeValue(items[i])))
    case JObj(fields) => JObj(SanitizeObject(fields))
    case _ => v
  }

  /** One pass of `sanitize_json` over a dict. */
  function SanitizeObject(m: map<string, Json>): (r: map<string, Json>)
    decreases JObj(m), 0
    ensures forall k :: k in r <==> k in m && !Falsy(m[k])
    ensures forall k :: k in r ==> r[k] == SanitizeValue(m[k])
  {
    map k | k in m && !Falsy(m[k]) :: SanitizeValue(m[k])
  }

  /** The inputs on which `sanitize_json` does not raise: it calls `.items()`
      on every element of every list it recurses into, so those must be dicts. */
  predicate Shaped(v: Json)
    decreases v, 1
  {
    match v
    case JArr(items) => forall i | 0 <= i < |items| :: items[i].JObj? && Shaped(items[i])
    case JObj(fields) => ShapedFields(fields)
    case _ => true
  }

  predicate ShapedFields(m: map<string, Json>)
    decreases JObj(m), 0
  {
    forall k | k in m :: Shaped(m[k])
  }

  /** `sanitize_json(json_obj)`: walks a snapshot of the keys (Python 2's
      `items()` is a copy), deleting or sanitizing each, and returns the dict. */
  method SanitizeJson(obj: map<string, Json>) returns (r: map<string, Json>)
    requires ShapedFields(obj)
    ensures r == SanitizeObject(obj)
    decreases JObj(obj), 1
  {
    r := obj;
    var pending := obj.Keys;
    while pending != {}
      invariant pending <= obj.Keys
      invariant forall k :: k in r <==> k in obj && (k in pending || !Falsy(obj[k]))
      invariant forall k :: k in r ==> r[k] == if k in pending then obj[k] else SanitizeValue(obj[k])
      decreases pending
    {
      var k :| k in pending;
      var v := obj[k];
      if v.JNull? {
        r := r - {k};
      } else if Falsy(v) {
        r := r - {k};
      } else if v.JArr? {
        var items := SanitizeEach(v.items);
        r := r[k := JArr(items)];
      } else if v.JObj? {
        var inner := SanitizeJson(v.fields);
        r := r[k := JObj(inner)];
      }
      pending := pending - {k};
    }
  }

  /** `for list_value in v: self.sanitize_json(list_value)`. */
  method SanitizeEach(items: seq<Json>) returns (r: seq<Json>)
    requires forall i | 0 <= i < |items| :: items[i].JObj? && Shaped(items[i])
    ensures |r| == |items|
    ensures forall i | 0 <= i < |items| :: r[i] == SanitizeValue(items[i])
    decreases JArr(items), 0
  {
    r := [];
    for i := 0 to |items|
      invariant |r| == i
      invariant forall j | 0 <= j < i :: r[j] == SanitizeValue(items[j])
    {
      var inner := SanitizeJson(items[i].fields);
      r := r + [JObj(inner)];
    }
  }

  /** No key anywhere in the tree holds a None or falsy value. */
  predicate NoFalsyField(v: Json)
    decreases v, 1
  {
    match v
    case JArr(items) => forall i | 0 <= i < |items| :: NoFalsyField(items[i])
    case JObj(fields) => NoFalsyFields(fields)
    case _ => true
  }

  predicate NoFalsyFields(m: map<string, Json>)
    decreases JObj(m), 0
  {
    forall k | k in m :: !Falsy(m[k]) && NoFalsyField(m[k])
  }

  /** A pass changes nothing exactly when no key anywhere holds a falsy value. */
  lemma {:induction false} SanitizeFixedPoint(v: Json)
    ensures SanitizeValue(v) == v <==> NoFalsyField(v)
    decreases v, 1
  {
    match v
    case JArr(items) =>
      forall i | 0 <= i < |items| {
        SanitizeFixedPoint(items[i]);
      }
      if SanitizeValue(v) == v {
        forall i | 0 <= i < |items| ensures NoFalsyField(items[i]) {
          assert SanitizeValue(v).items[i] == SanitizeValue(items[i]);
        }
      } else {
        var s := seq(|items|, i requires 0 <= i < |items| => SanitizeValue(items[i]));
        assert s != items;
        var i :| 0 <= i < |items| && s[i] != items[i];
        assert !NoFalsyField(items[i]);
      }
    case JObj(fields) =>
      SanitizeObjectFixedPoint(fields);
    case _ =>
  }

  lemma {:induction false} SanitizeObjectFixedPoint(m: map<string, Json>)
    ensures SanitizeObject(m) == m <==> NoFalsyFields(m)
    decreases JObj(m), 0
  {
    forall k | k in m {
      SanitizeFixedPoint(m[k]);
    }
    if SanitizeObject(m) == m {
      forall k | k in m ensures !Falsy(m[k]) && NoFalsyField(m[k]) {
        assert k in SanitizeObject(m);
      }
    }
  }

  /** What one pass can leave behind: every field holds a truthy value or a
      dict that the pass itself emptied. Nothing else falsy survives. */
  predicate OnePassResidue(v: Json)
    decreases v, 1
  {
    match v
    case JArr(items) => forall i | 0 <= i < |items| :: OnePassResidue(items[i])
    case JObj(fields) => OnePassResidueFields(fields)
    case _ => true
  }

  predicate OnePassResidueFields(m: map<string, Json>)
    decreases JObj(m), 0
  {
    forall k | k in m :: (!Falsy(m[k]) || m[k] == JObj(map[])) && OnePassResidue(m[k])
  }

  lemma {:induction false} SanitizeLeavesOnlyEmptiedDicts(v: Json)
    ensures OnePassResidue(SanitizeValue(v))
    decreases v, 1
  {
    match v
    case JArr(items) =>
      forall i | 0 <= i < |items| ensures OnePassResidue(SanitizeValue(v).items[i]) {
        SanitizeLeavesOnlyEmptiedDicts(items[i]);
      }
    case JObj(fields) =>
      SanitizeObjectLeavesOnlyEmptiedDicts(fields);
    case _ =>
  }

  lemma {:induction false} SanitizeObjectLeavesOnlyEmptiedDicts(m: map<string, Json>)
    ensures OnePassResidueFields(SanitizeObject(m))
    decreases JObj(m), 0
  {
    forall k | k in SanitizeObject(m)
      ensures OnePassResidue(SanitizeObject(m)[k])
    {
      SanitizeLeavesOnlyEmptiedDicts(m[k]);
    }
  }

  /** `{"a": {"b": None}}` becomes `{"a": {}}`: the inner dict was truthy when
      tested, so it is kept; a second pass then removes it. The sanitizer is
      therefore not idempotent. */
  lemma EmptiedDictKept()
    ensures SanitizeObject(map["a" := JObj(map["b" := JNull])]) == map["a" := JObj(map[])]
    ensures SanitizeObject(SanitizeObject(map["a" := JObj(map["b" := JNull])])) == map[]
  {
    var inner := map["b" := JNull];
    var p := map["a" := JObj(inner)];
    assert SanitizeObject(inner) == map[];
    assert SanitizeValue(JObj(inner)) == JObj(map[]);
    assert "b" in inner && !Falsy(JObj(inner));
    assert SanitizeObject(p).Keys == {"a"};
    assert SanitizeObject(p) == map["a" := JObj(map[])];
    assert Falsy(JObj(map[]));
    assert SanitizeObject(map["a" := JObj(map[])]).Keys == {};
  }
}
