/**
 * Plain-object operations shared by the sanitizers: `Object.entries`, the
 * copy loop that keeps every entry whose key is not on a deny list, and what
 * Mongoose's `findOneAndUpdate`/`findByIdAndUpdate` make of the update
 * document they are handed.
 */
module Objects {
  import opened Strings
  import opened Js

  /** Decimal index keys are distinct for distinct indices. */
  lemma IndexKeysDistinct()
    ensures forall i: nat, j: nat :: NatToString(i) == NatToString(j) ==> i == j
  {
    forall i: nat, j: nat | NatToString(i) == NatToString(j)
      ensures i == j
    {
      NatToStringValue(i);
      NatToStringValue(j);
    }
  }

  /** `Object.entries(v)` for a value that is not `null`/`undefined`: an
      object's own properties; an array's or a string's elements under their
      decimal index; nothing for a boolean or a number. */
  function Entries(v: JsValue): (m: map<string, JsValue>)
    ensures v.Obj? ==> m == v.fields
    ensures v.Bool? || v.Num? || IsNullish(v) ==> m == map[]
    ensures v.Arr? ==> forall i :: 0 <= i < |v.items| ==> NatToString(i) in m && m[NatToString(i)] == v.items[i]
  {
    IndexKeysDistinct();
    match v
    case Obj(f) => f
    case Arr(items) => map i | 0 <= i < |items| :: NatToString(i) := items[i]
    case Str(s) => map i | 0 <= i < |s| :: NatToString(i) := Str([s[i]])
    case _ => map[]
  }

  /** What a sanitizer keeps: exactly the entries whose key is not denied, with
      their values unchanged. */
  function Allowed(entries: map<string, JsValue>, denied: set<string>): (safe: map<string, JsValue>)
    ensures safe.Keys == entries.Keys - denied
    ensures forall k :: k in safe ==> safe[k] == entries[k]
  {
    map k | k in entries && k !in denied :: entries[k]
  }

  /** The sanitizers' copy loop: walk the entries, skip a denied key, copy any other. */
  method CopyAllowed(entries: map<string, JsValue>, denied: set<string>) returns (safe: map<string, JsValue>)
    ensures safe == Allowed(entries, denied)
  {
    safe := map[];
    var todo := entries.Keys;
    while todo != {}
      invariant todo <= entries.Keys
      invariant safe.Keys == (entries.Keys - todo) - denied
      invariant forall k :: k in safe ==> safe[k] == entries[k]
      decreases todo
    {
      var k :| k in todo;
      todo := todo - {k};
      if k in denied {
        continue;
      }
      safe := safe[k := entries[k]];
    }
  }

  /** Sanitizing twice with the same deny list is the same as sanitizing once. */
  lemma AllowedIdempotent(entries: map<string, JsValue>, denied: set<string>)
    ensures Allowed(Allowed(entries, denied), denied) == Allowed(entries, denied)
  {
  }

  // ---------------------------------------------------------------- update documents

  /** A key that an update document reads as a plain top-level path: not an
      update operator (a leading `$`) and not a dotted path into a sub-document. */
  predicate PlainKey(k: string) {
    (|k| == 0 || k[0] != '$') && '.' !in k
  }

  /** The entries of `m` whose keys are plain paths. */
  function PlainPart(m: map<string, JsValue>): (p: map<string, JsValue>)
    ensures forall k :: k in p <==> k in m && PlainKey(k)
    ensures forall k :: k in p ==> p[k] == m[k]
  {
    map k | k in m && PlainKey(k) :: m[k]
  }

  /** The paths an update document sets: the plain paths of its `$set`
      operand, then its plain top-level keys, which Mongoose folds into
      `$set` over them. */
  function SetPaths(u: map<string, JsValue>): map<string, JsValue> {
    var operand := if "$set" in u && u["$set"].Obj? then PlainPart(u["$set"].fields) else map[];
    operand + PlainPart(u)
  }

  /** The plain paths named by an update document's `$unset` operand. */
  function UnsetPaths(u: map<string, JsValue>): set<string> {
    if "$unset" in u && u["$unset"].Obj? then set k | k in u["$unset"].fields && PlainKey(k) else {}
  }

  /** The document the database holds after `findOneAndUpdate(filter, u)`:
      the `$unset` paths removed, every set path written, the rest kept. */
  function ApplyUpdate(current: map<string, JsValue>, u: map<string, JsValue>): (d: map<string, JsValue>)
    ensures forall k :: k in d <==> k in SetPaths(u) || (k in current && k !in UnsetPaths(u))
    ensures forall k :: k in SetPaths(u) ==> d[k] == SetPaths(u)[k]
    ensures forall k :: k in d && k !in SetPaths(u) ==> d[k] == current[k]
  {
    (current - UnsetPaths(u)) + SetPaths(u)
  }

  /** An update of plain paths only is a merge: the stored document takes the
      update's keys over its own, exactly as a spread would. */
  lemma PlainUpdateIsMerge(current: map<string, JsValue>, u: map<string, JsValue>)
    requires forall k :: k in u ==> PlainKey(k)
    ensures ApplyUpdate(current, u) == current + u
  {
    assert !PlainKey("$set") && !PlainKey("$unset");
    assert PlainPart(u) == u;
    assert SetPaths(u) == u && UnsetPaths(u) == {};
  }

  /** A deny list of top-level keys does not guard a field: an update body
      `{ $set: { key: value } }` passes every list that does not name `$set`,
      and the database then writes `value` to `key`, denied or not. */
  lemma DenyListMissesOperators(current: map<string, JsValue>, denied: set<string>, key: string, value: JsValue)
    requires "$set" !in denied && PlainKey(key)
    ensures var d := ApplyUpdate(current, Allowed(Entries(Obj(map["$set" := Obj(map[key := value])])), denied));
            key in d && d[key] == value
  {
    var u := Allowed(Entries(Obj(map["$set" := Obj(map[key := value])])), denied);
    assert u == map["$set" := Obj(map[key := value])];
    assert !PlainKey("$set");
    assert PlainPart(map[key := value]) == map[key := value];
    assert PlainPart(u) == map[];
    assert SetPaths(u) == map[key := value];
  }

  /** Plain keys laid over an update document are set over its other paths
      and change nothing it removes. */
  lemma PlainOverlay(u: map<string, JsValue>, plain: map<string, JsValue>)
    requires forall k :: k in plain ==> PlainKey(k)
    ensures SetPaths(u + plain) == SetPaths(u) + plain
    ensures UnsetPaths(u + plain) == UnsetPaths(u)
  {
    assert !PlainKey("$set") && !PlainKey("$unset");
    assert PlainPart(u + plain) == PlainPart(u) + plain;
  }

  /** `{ $set: { key: value } }` with plain keys other than `key` beside it
      writes `value` to `key`. */
  lemma SetOperandWrites(current: map<string, JsValue>, key: string, value: JsValue, plain: map<string, JsValue>)
    requires PlainKey(key) && key !in plain && forall k :: k in plain ==> PlainKey(k)
    ensures var d := ApplyUpdate(current, map["$set" := Obj(map[key := value])] + plain);
            key in d && d[key] == value
  {
    var u := map["$set" := Obj(map[key := value])] + plain;
    assert !PlainKey("$set");
    assert u["$set"] == Obj(map[key := value]);
    assert PlainPart(map[key := value]) == map[key := value];
    assert key !in PlainPart(u);
    assert SetPaths(u)[key] == value;
  }

  /** `{ $set: { key: value } }` on its own writes `value` to `key` and
      changes nothing else. */
  lemma SetOperandApplied(current: map<string, JsValue>, key: string, value: JsValue)
    requires PlainKey(key)
    ensures ApplyUpdate(current, map["$set" := Obj(map[key := value])]) == current[key := value]
  {
    var u := map["$set" := Obj(map[key := value])];
    assert !PlainKey("$set") && !PlainKey("$unset");
    assert PlainPart(map[key := value]) == map[key := value];
    assert PlainPart(u) == map[];
    assert SetPaths(u) == map[key := value] && UnsetPaths(u) == {};
  }

  /** The sanitizer with operator and dotted keys refused as well as denied
      ones: what is left is a set of plain paths no deny-listed key is among. */
  function Sanitized(entries: map<string, JsValue>, denied: set<string>): (safe: map<string, JsValue>)
    ensures forall k :: k in safe <==> k in entries && k !in denied && PlainKey(k)
    ensures forall k :: k in safe ==> safe[k] == entries[k]
  {
    PlainPart(Allowed(entries, denied))
  }

  /** A decimal index key is a plain path. */
  lemma DigitsArePlain(s: string)
    requires IsDigits(s)
    ensures PlainKey(s)
  {
    assert IsDigit(s[0]);
  }

  /** Every key `Object.entries` gives for a value that is not an object is
      a plain path: an index of an array or a string. */
  lemma EntryKeysArePlain(v: JsValue)
    requires !v.Obj?
    ensures forall k :: k in Entries(v) ==> PlainKey(k)
  {
    forall k | k in Entries(v)
      ensures PlainKey(k)
    {
      var i: nat :| k == NatToString(i);
      DigitsArePlain(NatToString(i));
    }
  }

  /** An update body with its operator and dotted keys dropped; any other
      value as it is. This is what a sanitizer that refuses those keys hands on. */
  function PlainBody(v: JsValue): (p: JsValue)
    ensures Truthy(p) == Truthy(v) && p.Null? == v.Null?
    ensures forall k :: k in Entries(p) ==> PlainKey(k)
  {
    if v.Obj? then Obj(PlainPart(v.fields)) else EntryKeysArePlain(v); v
  }

  /** The deny-list filter over the plain body is the corrected sanitizer. */
  lemma PlainBodySanitized(v: JsValue, denied: set<string>)
    ensures Allowed(Entries(PlainBody(v)), denied) == Sanitized(Entries(v), denied)
  {
    if !v.Obj? {
      EntryKeysArePlain(v);
    }
  }

  /** Written to the database, a sanitized update leaves every denied field
      as it was: never written, never removed. */
  lemma SanitizedKeepsDenied(current: map<string, JsValue>, entries: map<string, JsValue>, denied: set<string>, k: string)
    requires k in denied
    ensures var d := ApplyUpdate(current, Sanitized(entries, denied));
            (k in d <==> k in current) && (k in current ==> d[k] == current[k])
  {
    PlainUpdateIsMerge(current, Sanitized(entries, denied));
  }
}
