/** workers/lib/server/lib/queryUtils.js: renaming the fields of a Mongo-style filter, and the check
    that rejects unknown operators. */
module QueryFilter {
  import opened Wrappers

  /** JSON as the filters use it; an object lists its fields in insertion order. */
  datatype Json = Null | Scalar(text: string) | Arr(items: Items) | Obj(fields: Fields)
  datatype Items = NoItems | Item(head: Json, tail: Items)
  datatype Fields = NoFields | Field(key: string, value: Json, rest: Fields)

  const INVALID_FILTER: string := "ERR_INVALID_FILTER"

  predicate IsLogical(key: string) {
    key in {"$and", "$or", "$nor", "$not", "$elemMatch"}
  }

  predicate IsMongo(key: string) {
    key in {"$gt", "$gte", "$lt", "$lte", "$eq", "$ne", "$in", "$nin", "$regex", "$options", "$exists",
            "$elemMatch", "$not", "$type", "$size"}
  }

  predicate IsDangerous(key: string) {
    key in {"$where", "$expr", "$function", "$accumulator", "$jsonSchema", "$text", "$code", "$javascript"}
  }

  predicate IsOperator(key: string) {
    |key| > 0 && key[0] == '$'
  }

  predicate SafeKey(key: string) {
    !IsDangerous(key) && (IsOperator(key) ==> IsLogical(key) || IsMongo(key))
  }

  /** assertSafeMongoQuery does not throw. */
  predicate Safe(v: Json) {
    match v
    case Null => true
    case Scalar(_) => true
    case Arr(items) => SafeItems(items)
    case Obj(fields) => SafeFields(fields)
  }

  predicate SafeItems(items: Items) {
    match items
    case NoItems => true
    case Item(head, tail) => Safe(head) && SafeItems(tail)
  }

  predicate SafeFields(fields: Fields) {
    match fields
    case NoFields => true
    case Field(key, value, rest) => SafeKey(key) && Safe(value) && SafeFields(rest)
  }

  // ---------- mapFilterFields ----------

  /** fieldMap[key] || key. */
  function MappedKey(key: string, fieldMap: map<string, string>): string {
    if key in fieldMap && fieldMap[key] != "" then fieldMap[key] else key
  }

  predicate Has(fields: Fields, key: string) {
    fields.Field? && (fields.key == key || Has(fields.rest, key))
  }

  function Lookup(fields: Fields, key: string): Json
    requires Has(fields, key)
  {
    if fields.key == key then fields.value else Lookup(fields.rest, key)
  }

  function Dropped(fields: Fields, key: string): Fields {
    match fields
    case NoFields => NoFields
    case Field(k, value, rest) => if k == key then rest else Field(k, value, Dropped(rest, key))
  }

  /** Assigning `key` before the assignments that built `rest`: a later one overwrites the value but
      keeps the earlier place. */
  function Assigned(key: string, value: Json, rest: Fields): Fields {
    if Has(rest, key) then Field(key, Lookup(rest, key), Dropped(rest, key)) else Field(key, value, rest)
  }

  function MapFilter(filter: Json, fieldMap: map<string, string>): Result<Json, string>
    decreases filter, 0
  {
    match filter
    case Null => Ok(filter)
    case Scalar(_) => Ok(filter)
    case Arr(items) =>
      (match MapItems(items, fieldMap)
       case Ok(mapped) => Ok(Arr(mapped))
       case Err(e) => Err(e))
    case Obj(fields) =>
      if !Safe(filter) then Err(INVALID_FILTER)
      else match MapFields(fields, fieldMap)
           case Ok(mapped) => Ok(Obj(mapped))
           case Err(e) => Err(e)
  }

  function MapItems(items: Items, fieldMap: map<string, string>): Result<Items, string> {
    match items
    case NoItems => Ok(NoItems)
    case Item(head, tail) =>
      match MapFilter(head, fieldMap)
      case Err(e) => Err(e)
      case Ok(h) =>
        match MapItems(tail, fieldMap)
        case Err(e) => Err(e)
        case Ok(t) => Ok(Item(h, t))
  }

  /** One field of an object: its new key and value. */
  function MapField(key: string, value: Json, fieldMap: map<string, string>): Result<(string, Json), string>
    decreases value, 1
  {
    if key in {"$and", "$or", "$nor"} then
      if value.Arr? then
        match MapItems(value.items, fieldMap)
        case Ok(mapped) => Ok((key, Arr(mapped)))
        case Err(e) => Err(e)
      else Ok((key, value))
    else if key in {"$elemMatch", "$not"} then
      match MapFilter(value, fieldMap)
      case Ok(mapped) => Ok((key, mapped))
      case Err(e) => Err(e)
    else if IsMongo(key) then Ok((key, value))
    else if IsOperator(key) then Err(INVALID_FILTER)
    else if value.Obj? && !Safe(value) then Err(INVALID_FILTER)
    else Ok((MappedKey(key, fieldMap), value))
  }

  function MapFields(fields: Fields, fieldMap: map<string, string>): Result<Fields, string> {
    match fields
    case NoFields => Ok(NoFields)
    case Field(key, value, rest) =>
      match MapField(key, value, fieldMap)
      case Err(e) => Err(e)
      case Ok(kv) =>
        match MapFields(rest, fieldMap)
        case Err(e) => Err(e)
        case Ok(r) => Ok(Assigned(kv.0, kv.1, r))
  }

  /** A field named in the map gets its path, any other keeps its name, and the condition stays as it is. */
  lemma FieldGetsItsPath(key: string, value: Json, fieldMap: map<string, string>)
    requires !IsOperator(key) && Safe(value)
    ensures var path := if key in fieldMap && fieldMap[key] != "" then fieldMap[key] else key;
            MapFilter(Obj(Field(key, value, NoFields)), fieldMap) == Ok(Obj(Field(path, value, NoFields)))
  {
    var path := if key in fieldMap && fieldMap[key] != "" then fieldMap[key] else key;
    assert SafeKey(key) && !IsMongo(key) && key !in {"$and", "$or", "$nor", "$elemMatch", "$not"};
    assert SafeFields(NoFields) && SafeFields(Field(key, value, NoFields));
    assert MapField(key, value, fieldMap) == Ok((path, value));
    assert MapFields(NoFields, fieldMap) == Ok(NoFields);
    assert MapFields(Field(key, value, NoFields), fieldMap) == Ok(Assigned(path, value, NoFields));
  }

  // ---------- what a filter means ----------

  /** Reading a document: what it has at a path, and how a condition or a bare operator judges it. */
  datatype Reading<!D> = Reading(at: string -> D, holds: (D, Json) -> bool, bare: (string, Json) -> bool)

  /** Evaluates a filter whose field names are first renamed by `rename`. */
  predicate Eval<D>(filter: Json, r: Reading<D>, rename: string -> string)
    decreases filter, 0
  {
    match filter
    case Obj(fields) => EvalFields(fields, r, rename)
    case _ => true
  }

  predicate EvalFields<D>(fields: Fields, r: Reading<D>, rename: string -> string) {
    match fields
    case NoFields => true
    case Field(key, value, rest) => EvalField(key, value, r, rename) && EvalFields(rest, r, rename)
  }

  predicate EvalField<D>(key: string, value: Json, r: Reading<D>, rename: string -> string)
    decreases value, 1
  {
    if key == "$and" && value.Arr? then EvalAll(value.items, r, rename)
    else if key == "$or" && value.Arr? then EvalAny(value.items, r, rename)
    else if key == "$nor" && value.Arr? then !EvalAny(value.items, r, rename)
    else if key == "$not" then !Eval(value, r, rename)
    else if IsOperator(key) then r.bare(key, value)
    else r.holds(r.at(rename(key)), value)
  }

  predicate EvalAll<D>(items: Items, r: Reading<D>, rename: string -> string) {
    match items
    case NoItems => true
    case Item(head, tail) => Eval(head, r, rename) && EvalAll(tail, r, rename)
  }

  predicate EvalAny<D>(items: Items, r: Reading<D>, rename: string -> string) {
    match items
    case NoItems => false
    case Item(head, tail) => Eval(head, r, rename) || EvalAny(tail, r, rename)
  }

  function Renaming(fieldMap: map<string, string>): string -> string {
    key => MappedKey(key, fieldMap)
  }

  function AsIs(): string -> string {
    key => key
  }

  // ---------- hypotheses ----------

  /** Internal paths are not operators. */
  ghost predicate PathsOnly(fieldMap: map<string, string>) {
    forall k :: k in fieldMap ==> !IsOperator(fieldMap[k])
  }

  /** A field's key after renaming; operators keep theirs. */
  function FinalKey(key: string, fieldMap: map<string, string>): string {
    if IsOperator(key) then key else MappedKey(key, fieldMap)
  }

  predicate Collides(key: string, fields: Fields, fieldMap: map<string, string>) {
    fields.Field? && (FinalKey(fields.key, fieldMap) == FinalKey(key, fieldMap) || Collides(key, fields.rest, fieldMap))
  }

  /** At every level reached by the renaming, no two keys of an object end up the same, and there is
      no top-level $elemMatch. */
  predicate Plain(v: Json, fieldMap: map<string, string>) {
    match v
    case Null => true
    case Scalar(_) => true
    case Arr(items) => PlainItems(items, fieldMap)
    case Obj(fields) => PlainFields(fields, fieldMap)
  }

  predicate PlainItems(items: Items, fieldMap: map<string, string>) {
    match items
    case NoItems => true
    case Item(head, tail) => Plain(head, fieldMap) && PlainItems(tail, fieldMap)
  }

  predicate PlainFields(fields: Fields, fieldMap: map<string, string>) {
    match fields
    case NoFields => true
    case Field(key, value, rest) =>
      && key != "$elemMatch" && !Collides(key, rest, fieldMap)
      && (key in {"$and", "$or", "$nor", "$not"} ==> Plain(value, fieldMap))
      && PlainFields(rest, fieldMap)
  }

  // ---------- a safe filter maps to a safe filter ----------

  lemma {:induction false} MapSafe(v: Json, m: map<string, string>)
    requires PathsOnly(m) && Safe(v)
    ensures MapFilter(v, m).Ok? && Safe(MapFilter(v, m).value)
    decreases v, 0
  {
    match v
    case Null =>
    case Scalar(_) =>
    case Arr(items) => MapSafeItems(items, m);
    case Obj(fields) => MapSafeFields(fields, m);
  }

  lemma {:induction false} MapSafeItems(items: Items, m: map<string, string>)
    requires PathsOnly(m) && SafeItems(items)
    ensures MapItems(items, m).Ok? && SafeItems(MapItems(items, m).value)
    decreases items
  {
    if items.Item? {
      MapSafe(items.head, m);
      MapSafeItems(items.tail, m);
    }
  }

  lemma {:induction false} MapSafeField(key: string, value: Json, m: map<string, string>)
    requires PathsOnly(m) && SafeKey(key) && Safe(value)
    ensures MapField(key, value, m).Ok?
    ensures SafeKey(MapField(key, value, m).value.0) && Safe(MapField(key, value, m).value.1)
    decreases value, 1
  {
    if key in {"$and", "$or", "$nor"} {
      if value.Arr? { MapSafeItems(value.items, m); }
    } else if key in {"$elemMatch", "$not"} {
      MapSafe(value, m);
    }
  }

  lemma {:induction false} MapSafeFields(fields: Fields, m: map<string, string>)
    requires PathsOnly(m) && SafeFields(fields)
    ensures MapFields(fields, m).Ok? && SafeFields(MapFields(fields, m).value)
    decreases fields
  {
    if fields.Field? {
      MapSafeField(fields.key, fields.value, m);
      MapSafeFields(fields.rest, m);
      var kv := MapField(fields.key, fields.value, m).value;
      AssignSafe(kv.0, kv.1, MapFields(fields.rest, m).value);
    }
  }

  lemma {:induction false} DropSafe(fields: Fields, key: string)
    requires SafeFields(fields)
    ensures SafeFields(Dropped(fields, key))
    ensures Has(fields, key) ==> Safe(Lookup(fields, key))
  {
    if fields.Field? { DropSafe(fields.rest, key); }
  }

  lemma AssignSafe(key: string, value: Json, rest: Fields)
    requires SafeKey(key) && Safe(value) && SafeFields(rest)
    ensures SafeFields(Assigned(key, value, rest))
  {
    DropSafe(rest, key);
  }

  // ---------- renaming preserves meaning ----------

  /** Keys of a mapped object come from keys of the object. */
  lemma {:induction false} MappedKeys(fields: Fields, m: map<string, string>, key: string)
    requires MapFields(fields, m).Ok? && PlainFields(fields, m)
    ensures Has(MapFields(fields, m).value, FinalKey(key, m)) ==> Collides(key, fields, m)
    decreases fields
  {
    if fields.Field? {
      MappedKeys(fields.rest, m, fields.key);
      MappedKeys(fields.rest, m, key);
    }
  }

  lemma {:induction false} EvalMapped<D>(v: Json, m: map<string, string>, r: Reading<D>)
    requires PathsOnly(m) && Plain(v, m) && MapFilter(v, m).Ok?
    ensures Eval(MapFilter(v, m).value, r, AsIs()) == Eval(v, r, Renaming(m))
    decreases v, 0
  {
    if v.Obj? { EvalMappedFields(v.fields, m, r); }
  }

  lemma {:induction false} EvalMappedItems<D>(items: Items, m: map<string, string>, r: Reading<D>)
    requires PathsOnly(m) && PlainItems(items, m) && MapItems(items, m).Ok?
    ensures EvalAll(MapItems(items, m).value, r, AsIs()) == EvalAll(items, r, Renaming(m))
    ensures EvalAny(MapItems(items, m).value, r, AsIs()) == EvalAny(items, r, Renaming(m))
    decreases items
  {
    if items.Item? {
      EvalMapped(items.head, m, r);
      EvalMappedItems(items.tail, m, r);
    }
  }

  lemma {:induction false} EvalMappedField<D>(key: string, value: Json, m: map<string, string>, r: Reading<D>)
    requires PathsOnly(m) && key != "$elemMatch" && MapField(key, value, m).Ok?
    requires key in {"$and", "$or", "$nor", "$not"} ==> Plain(value, m)
    ensures var kv := MapField(key, value, m).value;
            kv.0 == FinalKey(key, m) && EvalField(kv.0, kv.1, r, AsIs()) == EvalField(key, value, r, Renaming(m))
    decreases value, 1
  {
    if key in {"$and", "$or", "$nor"} {
      if value.Arr? { EvalMappedItems(value.items, m, r); }
    } else if key == "$not" {
      EvalMapped(value, m, r);
    }
  }

  lemma {:induction false} EvalMappedFields<D>(fields: Fields, m: map<string, string>, r: Reading<D>)
    requires PathsOnly(m) && PlainFields(fields, m) && MapFields(fields, m).Ok?
    ensures EvalFields(MapFields(fields, m).value, r, AsIs()) == EvalFields(fields, r, Renaming(m))
    decreases fields
  {
    if fields.Field? {
      EvalMappedField(fields.key, fields.value, m, r);
      EvalMappedFields(fields.rest, m, r);
      MappedKeys(fields.rest, m, fields.key);
    }
  }

  /** For any document and any nesting of $and, $or, $nor and $not, an accepted filter maps to one that
      is still accepted and means the original with every field read at its internal path. */
  lemma RenamingPreservesMeaning<D>(filter: Json, fieldMap: map<string, string>, r: Reading<D>)
    requires PathsOnly(fieldMap) && Plain(filter, fieldMap) && Safe(filter)
    ensures MapFilter(filter, fieldMap).Ok? && Safe(MapFilter(filter, fieldMap).value)
    ensures Eval(MapFilter(filter, fieldMap).value, r, AsIs()) == Eval(filter, r, Renaming(fieldMap))
  {
    MapSafe(filter, fieldMap);
    EvalMapped(filter, fieldMap, r);
  }

  /** An object that assertSafeMongoQuery rejects is rejected, and only such a one. */
  lemma RejectedExactly(fields: Fields, fieldMap: map<string, string>)
    requires PathsOnly(fieldMap)
    ensures MapFilter(Obj(fields), fieldMap).Err? <==> !Safe(Obj(fields))
  {
    if Safe(Obj(fields)) { MapSafe(Obj(fields), fieldMap); }
  }

  // ---------- which fields are lost ----------

  function Count(fields: Fields): nat {
    if fields.NoFields? then 0 else 1 + Count(fields.rest)
  }

  /** No two keys of the object get the same key. */
  predicate KeysApart(fields: Fields, m: map<string, string>) {
    fields.Field? ==> !Collides(fields.key, fields.rest, m) && KeysApart(fields.rest, m)
  }

  lemma {:induction false} HasDropped(fields: Fields, key: string, other: string)
    ensures Has(fields, key) ==> Count(Dropped(fields, key)) == Count(fields) - 1
    ensures other != key ==> (Has(Dropped(fields, key), other) <==> Has(fields, other))
  {
    if fields.Field? { HasDropped(fields.rest, key, other); }
  }

  lemma CountAssigned(key: string, value: Json, rest: Fields, other: string)
    ensures Count(Assigned(key, value, rest)) == Count(rest) + if Has(rest, key) then 0 else 1
    ensures Has(Assigned(key, value, rest), other) <==> other == key || Has(rest, other)
  {
    HasDropped(rest, key, other);
  }

  /** The mapped object has exactly the final keys of the object. */
  lemma {:induction false} MappedHas(fields: Fields, m: map<string, string>, key: string)
    requires PathsOnly(m) && MapFields(fields, m).Ok?
    ensures Has(MapFields(fields, m).value, FinalKey(key, m)) <==> Collides(key, fields, m)
  {
    if fields.Field? {
      var kv := MapField(fields.key, fields.value, m).value;
      FinalKeyMapped(fields.key, fields.value, m);
      MappedHas(fields.rest, m, key);
      CountAssigned(kv.0, kv.1, MapFields(fields.rest, m).value, FinalKey(key, m));
    }
  }

  lemma FinalKeyMapped(key: string, value: Json, m: map<string, string>)
    requires MapField(key, value, m).Ok?
    ensures MapField(key, value, m).value.0 == FinalKey(key, m)
  {
  }

  lemma {:induction false} MappedCount(fields: Fields, m: map<string, string>)
    requires PathsOnly(m) && MapFields(fields, m).Ok?
    ensures Count(MapFields(fields, m).value) <= Count(fields)
    ensures Count(MapFields(fields, m).value) == Count(fields) <==> KeysApart(fields, m)
  {
    if fields.Field? {
      var kv := MapField(fields.key, fields.value, m).value;
      FinalKeyMapped(fields.key, fields.value, m);
      MappedCount(fields.rest, m);
      MappedHas(fields.rest, m, fields.key);
      CountAssigned(kv.0, kv.1, MapFields(fields.rest, m).value, kv.0);
    }
  }

  /** An accepted object keeps all its fields exactly when no two of its keys get the same key. */
  lemma FieldsLostExactly(fields: Fields, m: map<string, string>)
    requires PathsOnly(m) && Safe(Obj(fields))
    ensures MapFilter(Obj(fields), m).Ok? && MapFilter(Obj(fields), m).value.Obj?
    ensures Count(MapFilter(Obj(fields), m).value.fields) == Count(fields) <==> KeysApart(fields, m)
  {
    MapSafe(Obj(fields), m);
    MappedCount(fields, m);
  }

  /** Two names of one path collide: of { poolConfig: a, poolConfigId: b } only b is left. */
  lemma CollidingNamesLoseOne(a: Json, b: Json)
    requires !a.Obj? && !b.Obj? && Safe(a) && Safe(b)
    ensures var m := map["poolConfig" := "info.poolConfig", "poolConfigId" := "info.poolConfig"];
            MapFilter(Obj(Field("poolConfig", a, Field("poolConfigId", b, NoFields))), m) ==
            Ok(Obj(Field("info.poolConfig", b, NoFields)))
  {
    var m := map["poolConfig" := "info.poolConfig", "poolConfigId" := "info.poolConfig"];
    assert MapField("poolConfig", a, m) == Ok(("info.poolConfig", a));
    assert MapField("poolConfigId", b, m) == Ok(("info.poolConfig", b));
    var rest := Field("info.poolConfig", b, NoFields);
    assert MapFields(Field("poolConfigId", b, NoFields), m) == Ok(rest);
    assert Assigned("info.poolConfig", a, rest) == rest;
    assert MapFields(Field("poolConfig", a, Field("poolConfigId", b, NoFields)), m) == Ok(rest);
    assert "poolConfig"[0] == 'p' && SafeKey("poolConfig") && SafeKey("poolConfigId");
    assert SafeFields(Field("poolConfigId", b, NoFields));
    assert SafeFields(Field("poolConfig", a, Field("poolConfigId", b, NoFields)));
  }
}
