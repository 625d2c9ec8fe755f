/**
 The recursive schema validator of the session manager, and an independent
 declarative reading of it: a value is accepted exactly when every pair (value
 node, schema node) that can be reached along a common path passes the purely
 local check of its schema node.
 */
module SchemaValidation {
  import opened Wrappers
  import opened JsonValues

  /** Unanchored regular-expression search: value, then pattern. */
  type Matcher = (string, string) -> bool

  /** `Malformed` stands for a schema keyword that has the wrong JSON type. */
  datatype Verdict = Ok | Violation | Malformed

  function Check(good: bool): Verdict {
    if good then Ok else Violation
  }

  // ----- the validator, branch for branch -----

  function ValidateNode(matches: Matcher, value: Json, schema: Json): Verdict
    decreases schema, 0
  {
    if !schema.Object? || !Has(schema.fields, "type") then Ok
    else
      var kw := schema.fields;
      var kind := At(kw, "type");
      if !kind.String? then Malformed
      else if kind.s == "string" then
        if !value.String? then Violation else ValidatePattern(matches, value.s, kw)
      else if kind.s == "array" then
        if !value.Array? then Violation
        else
          var bounds := ValidateBounds(|value.items|, kw);
          if bounds != Ok then bounds
          else if Has(kw, "items") then ValidateItems(matches, value.items, kw[Find(kw, "items")].value)
          else Ok
      else if kind.s == "object" then
        if !value.Object? then Violation
        else
          var shape := ValidateShape(value.fields, kw);
          if shape != Ok then shape
          else if !Has(kw, "properties") then Ok
          else if !At(kw, "properties").Object? then Malformed
          else ValidateProperties(matches, value.fields, kw[Find(kw, "properties")].value.fields)
      else if kind.s == "number" then Check(value.Integer? || value.Float?)
      else if kind.s == "integer" then Check(value.Integer?)
      else if kind.s == "boolean" then Check(value.Bool?)
      else Ok
  }

  function ValidatePattern(matches: Matcher, text: string, kw: seq<Field>): Verdict {
    if !Has(kw, "pattern") then Ok
    else if !At(kw, "pattern").String? then Malformed
    else Check(matches(text, At(kw, "pattern").s))
  }

  /**
   Reading a number keyword as a 32-bit int, as the library does: integers wrap,
   other numbers are truncated toward zero, booleans count as 0 and 1, and anything
   else is refused. A non-integer number too large for an int is undefined in the source.
   */
  function AsInt(v: Json): Option<int> {
    match v
    case Integer(n) => Some((n + 0x8000_0000) % 0x1_0000_0000 - 0x8000_0000)
    case Float(r) =>
      var whole := if r >= 0.0 then r.Floor else -(-r).Floor;
      if -0x8000_0000 <= whole < 0x8000_0000 then Some(whole) else None
    case Bool(b) => Some(if b then 1 else 0)
    case _ => None
  }

  function ValidateBounds(size: nat, kw: seq<Field>): Verdict {
    if Has(kw, "minItems") && AsInt(At(kw, "minItems")).None? then Malformed
    else if Has(kw, "minItems") && size < AsInt(At(kw, "minItems")).value then Violation
    else if Has(kw, "maxItems") && AsInt(At(kw, "maxItems")).None? then Malformed
    else if Has(kw, "maxItems") && size > AsInt(At(kw, "maxItems")).value then Violation
    else Ok
  }

  function ValidateItems(matches: Matcher, items: seq<Json>, schema: Json): Verdict
    decreases schema, 1 + |items|
  {
    if items == [] then Ok
    else
      var first := ValidateNode(matches, items[0], schema);
      if first != Ok then first else ValidateItems(matches, items[1..], schema)
  }

  function Values(fields: seq<Field>): seq<Json> {
    if fields == [] then [] else [fields[0].value] + Values(fields[1..])
  }

  /** What a range-based loop visits: elements, member values, nothing for null, and a lone scalar once. */
  function Elements(v: Json): seq<Json> {
    match v
    case Array(items) => items
    case Object(fields) => Values(fields)
    case Null => []
    case _ => [v]
  }

  /** The required-fields loop, then the additional-properties loop. */
  function ValidateShape(fields: seq<Field>, kw: seq<Field>): Verdict {
    var required :=
      if !Has(kw, "required") then Ok
      else ValidateRequired(fields, Elements(At(kw, "required")));
    if required != Ok then required
    else if !Has(kw, "additionalProperties") then Ok
    else if !At(kw, "additionalProperties").Bool? then Malformed
    else if At(kw, "additionalProperties").b then Ok
    else ValidateNoExtras(fields, kw)
  }

  function ValidateRequired(fields: seq<Field>, names: seq<Json>): Verdict {
    if names == [] then Ok
    else if !names[0].String? then Malformed
    else if !Has(fields, names[0].s) then Violation
    else ValidateRequired(fields, names[1..])
  }

  predicate Declared(kw: seq<Field>, key: string) {
    && Has(kw, "properties")
    && At(kw, "properties").Object?
    && Has(At(kw, "properties").fields, key)
  }

  function ValidateNoExtras(fields: seq<Field>, kw: seq<Field>): Verdict {
    if fields == [] then Ok
    else if !Declared(kw, fields[0].key) then Violation
    else ValidateNoExtras(fields[1..], kw)
  }

  function ValidateProperties(matches: Matcher, fields: seq<Field>, props: seq<Field>): Verdict
    decreases props, 0
  {
    if props == [] then Ok
    else if !Has(fields, props[0].key) then ValidateProperties(matches, fields, props[1..])
    else
      var first := ValidateNode(matches, At(fields, props[0].key), props[0].value);
      if first != Ok then first else ValidateProperties(matches, fields, props[1..])
  }

  // ----- what keywords say -----

  /** The 32-bit int a number keyword stands for. */
  predicate ReadsAs(v: Json, n: int) {
    && -0x8000_0000 <= n < 0x8000_0000
    && match v
       case Integer(k) => (k - n) % 0x1_0000_0000 == 0
       case Float(r) => (r >= 0.0 ==> n as real <= r < n as real + 1.0) && (r < 0.0 ==> n as real - 1.0 < r <= n as real)
       case Bool(b) => n == if b then 1 else 0
       case _ => false
  }

  lemma AsIntIff(v: Json, n: int)
    ensures AsInt(v) == Some(n) <==> ReadsAs(v, n)
  {
    match v
    case Integer(k) =>
      var wrapped := (k + 0x8000_0000) % 0x1_0000_0000 - 0x8000_0000;
      SameResidue(k, wrapped, n);
    case Float(r) =>
      if r >= 0.0 { FloorIs(r, n); } else { FloorIs(-r, -n); }
    case _ =>
  }

  /** Only one 32-bit int is congruent to `k`. */
  lemma SameResidue(k: int, a: int, b: int)
    requires a == (k + 0x8000_0000) % 0x1_0000_0000 - 0x8000_0000
    ensures (k - a) % 0x1_0000_0000 == 0
    ensures -0x8000_0000 <= b < 0x8000_0000 && (k - b) % 0x1_0000_0000 == 0 ==> a == b
  {
  }

  lemma FloorIs(r: real, n: int)
    ensures r.Floor == n <==> n as real <= r < n as real + 1.0
  {
  }

  /** A `required` keyword names `r`: as an element, as a member's value, or by being it. */
  ghost predicate Lists(v: Json, r: Json) {
    match v
    case Array(items) => exists i | 0 <= i < |items| :: items[i] == r
    case Object(fields) => exists i | 0 <= i < |fields| :: fields[i].value == r
    case Null => false
    case _ => v == r
  }

  lemma ElementsIff(v: Json, r: Json)
    ensures r in Elements(v) <==> Lists(v, r)
  {
    if v.Object? {
      ValuesIff(v.fields, r);
    }
  }

  lemma {:induction false} ValuesIff(fields: seq<Field>, r: Json)
    ensures r in Values(fields) <==> exists i | 0 <= i < |fields| :: fields[i].value == r
  {
    if fields == [] {
    } else {
      ValuesIff(fields[1..], r);
      assert fields == [fields[0]] + fields[1..];
    }
  }

  // ----- declarative conformance -----

  datatype Hop = Index(i: nat) | Key(k: string)

  predicate Typed(schema: Json, kind: string) {
    && schema.Object?
    && Has(schema.fields, "type")
    && At(schema.fields, "type") == String(kind)
  }

  /** One hop taken by a value and by its schema together. */
  function Child(value: Json, schema: Json, hop: Hop): Option<(Json, Json)> {
    match hop
    case Index(i) =>
      if Typed(schema, "array") && value.Array? && i < |value.items| && Has(schema.fields, "items")
      then Some((value.items[i], At(schema.fields, "items")))
      else None
    case Key(k) =>
      if Typed(schema, "object") && value.Object? && Has(value.fields, k) && Declared(schema.fields, k)
      then Some((At(value.fields, k), At(At(schema.fields, "properties").fields, k)))
      else None
  }

  function PairAt(value: Json, schema: Json, path: seq<Hop>): Option<(Json, Json)>
    decreases |path|
  {
    if path == [] then Some((value, schema))
    else
      match Child(value, schema, path[0])
      case None => None
      case Some(pair) => PairAt(pair.0, pair.1, path[1..])
  }

  /** What a schema node demands of a value node, children aside; a keyword it cannot read it demands in vain. */
  ghost predicate LocalOk(matches: Matcher, value: Json, schema: Json) {
    schema.Object? && Has(schema.fields, "type") ==>
      var kw := schema.fields;
      && At(kw, "type").String?
      && match At(kw, "type").s
         case "string" =>
           && value.String?
           && (Has(kw, "pattern") ==> At(kw, "pattern").String? && matches(value.s, At(kw, "pattern").s))
         case "array" =>
           && value.Array?
           && (Has(kw, "minItems") ==> exists n :: ReadsAs(At(kw, "minItems"), n) && n <= |value.items|)
           && (Has(kw, "maxItems") ==> exists n :: ReadsAs(At(kw, "maxItems"), n) && |value.items| <= n)
         case "object" =>
           && value.Object?
           && (Has(kw, "required") ==>
                 forall r :: Lists(At(kw, "required"), r) ==> r.String? && Has(value.fields, r.s))
           && (Has(kw, "additionalProperties") ==>
                 && At(kw, "additionalProperties").Bool?
                 && (!At(kw, "additionalProperties").b ==>
                       forall i | 0 <= i < |value.fields| :: Declared(kw, value.fields[i].key)))
           && (Has(kw, "properties") ==> At(kw, "properties").Object?)
         case "number" => value.Integer? || value.Float?
         case "integer" => value.Integer?
         case "boolean" => value.Bool?
         case _ => true
  }

  ghost predicate Conforms(matches: Matcher, value: Json, schema: Json) {
    forall path: seq<Hop> :: PairOk(matches, PairAt(value, schema, path))
  }

  ghost predicate PairOk(matches: Matcher, pair: Option<(Json, Json)>) {
    pair.Some? ==> LocalOk(matches, pair.value.0, pair.value.1)
  }

  // ----- the validator decides conformance -----

  lemma ConformsUnfolds(matches: Matcher, value: Json, schema: Json)
    ensures Conforms(matches, value, schema)
            <==> LocalOk(matches, value, schema)
                 && forall hop :: ChildConforms(matches, Child(value, schema, hop))
  {
    if Conforms(matches, value, schema) {
      assert PairOk(matches, PairAt(value, schema, []));
      forall hop ensures ChildConforms(matches, Child(value, schema, hop)) {
        var child := Child(value, schema, hop);
        if child.Some? {
          forall path: seq<Hop> ensures PairOk(matches, PairAt(child.value.0, child.value.1, path)) {
            assert ([hop] + path)[1..] == path;
            assert PairOk(matches, PairAt(value, schema, [hop] + path));
          }
        }
      }
    } else {
      var path: seq<Hop> :| !PairOk(matches, PairAt(value, schema, path));
      if path != [] {
        assert !ChildConforms(matches, Child(value, schema, path[0])) by {
          var child := Child(value, schema, path[0]);
          assert !PairOk(matches, PairAt(child.value.0, child.value.1, path[1..]));
        }
      }
    }
  }

  ghost predicate ChildConforms(matches: Matcher, child: Option<(Json, Json)>) {
    child.Some? ==> Conforms(matches, child.value.0, child.value.1)
  }

  /** The main result: for every schema and every value, acceptance is conformance. */
  lemma {:induction false} ValidateIffConforms(matches: Matcher, value: Json, schema: Json)
    requires WellFormedValue(schema)
    ensures ValidateNode(matches, value, schema) == Ok <==> Conforms(matches, value, schema)
    decreases schema
  {
    ConformsUnfolds(matches, value, schema);
    if Typed(schema, "array") && value.Array? {
      ArrayIff(matches, value, schema);
    } else if Typed(schema, "object") && value.Object? {
      ObjectIff(matches, value, schema);
    } else {
      assert forall hop :: Child(value, schema, hop).None?;
    }
  }

  lemma {:induction false} ArrayIff(matches: Matcher, value: Json, schema: Json)
    requires WellFormedValue(schema) && Typed(schema, "array") && value.Array?
    ensures ValidateNode(matches, value, schema) == Ok
            <==> LocalOk(matches, value, schema)
                 && forall hop :: ChildConforms(matches, Child(value, schema, hop))
    decreases schema, 0
  {
    var kw := schema.fields;
    BoundsIff(matches, value, schema);
    if Has(kw, "items") {
      var inner := kw[Find(kw, "items")].value;
      ItemsIff(matches, value.items, inner);
      forall i: nat | i < |value.items|
        ensures ValidateNode(matches, value.items[i], inner) == Ok <==> Conforms(matches, value.items[i], inner)
      {
        ValidateIffConforms(matches, value.items[i], inner);
      }
      forall i: nat | i < |value.items|
        ensures ChildConforms(matches, Child(value, schema, Index(i))) <==> Conforms(matches, value.items[i], inner)
      {
      }
    } else {
      assert forall hop :: Child(value, schema, hop).None?;
    }
  }

  lemma BoundsIff(matches: Matcher, value: Json, schema: Json)
    requires Typed(schema, "array") && value.Array?
    ensures ValidateBounds(|value.items|, schema.fields) == Ok <==> LocalOk(matches, value, schema)
  {
    hide AsInt, ReadsAs;
    var kw := schema.fields;
    forall n ensures Has(kw, "minItems") ==> (AsInt(At(kw, "minItems")) == Some(n) <==> ReadsAs(At(kw, "minItems"), n))
             ensures Has(kw, "maxItems") ==> (AsInt(At(kw, "maxItems")) == Some(n) <==> ReadsAs(At(kw, "maxItems"), n))
    {
      if Has(kw, "minItems") { AsIntIff(At(kw, "minItems"), n); }
      if Has(kw, "maxItems") { AsIntIff(At(kw, "maxItems"), n); }
    }
  }

  lemma {:induction false} ItemsIff(matches: Matcher, items: seq<Json>, schema: Json)
    ensures ValidateItems(matches, items, schema) == Ok
            <==> forall i | 0 <= i < |items| :: ValidateNode(matches, items[i], schema) == Ok
    ensures ValidateItems(matches, items, schema) == Malformed
            ==> exists i :: 0 <= i < |items| && ValidateNode(matches, items[i], schema) == Malformed
  {
    if items == [] {
    } else {
      ItemsIff(matches, items[1..], schema);
      assert items == [items[0]] + items[1..];
    }
  }

  lemma {:induction false} ObjectIff(matches: Matcher, value: Json, schema: Json)
    requires WellFormedValue(schema) && Typed(schema, "object") && value.Object?
    ensures ValidateNode(matches, value, schema) == Ok
            <==> LocalOk(matches, value, schema)
                 && forall hop :: ChildConforms(matches, Child(value, schema, hop))
    decreases schema, 1
  {
    hide LocalOk, ValidateShape, ValidateProperties, ChildConforms, WellFormedValue;
    ShapeIff(matches, value, schema);
    if Has(schema.fields, "properties") && At(schema.fields, "properties").Object? {
      MembersIff(matches, value, schema);
    } else {
      forall hop ensures ChildConforms(matches, Child(value, schema, hop)) {
        NoChild(matches, Child(value, schema, hop));
      }
    }
  }

  lemma NoChild(matches: Matcher, child: Option<(Json, Json)>)
    requires child.None?
    ensures ChildConforms(matches, child)
  {
  }

  lemma {:induction false} MembersIff(matches: Matcher, value: Json, schema: Json)
    requires WellFormedValue(schema) && Typed(schema, "object") && value.Object?
    requires Has(schema.fields, "properties") && At(schema.fields, "properties").Object?
    ensures ValidateProperties(matches, value.fields, At(schema.fields, "properties").fields) == Ok
            <==> forall hop :: ChildConforms(matches, Child(value, schema, hop))
    decreases schema, 0
  {
    hide ValidateNode, ValidateProperties, Conforms;
    var kw := schema.fields;
    var props := kw[Find(kw, "properties")].value.fields;
    assert WellFormedValue(kw[Find(kw, "properties")].value);
    PropertiesIff(matches, value.fields, props);
    forall j: nat | j < |props| && Has(value.fields, props[j].key)
      ensures var v := At(value.fields, props[j].key);
              ValidateNode(matches, v, props[j].value) == Ok
              <==> ChildConforms(matches, Child(value, schema, Key(props[j].key)))
    {
      FindOwnKey(props, j);
      ValidateIffConforms(matches, At(value.fields, props[j].key), props[j].value);
    }
    forall hop | Child(value, schema, hop).Some?
      ensures exists j: nat :: j < |props| && Has(value.fields, props[j].key) && hop == Key(props[j].key)
    {
      assert props[Find(props, hop.k)].key == hop.k;
    }
  }

  lemma ShapeIff(matches: Matcher, value: Json, schema: Json)
    requires Typed(schema, "object") && value.Object?
    ensures ValidateShape(value.fields, schema.fields) == Ok
            && (Has(schema.fields, "properties") ==> At(schema.fields, "properties").Object?)
            <==> LocalOk(matches, value, schema)
  {
    hide Elements, Lists;
    var kw := schema.fields;
    if Has(kw, "required") {
      RequiredIff(value.fields, Elements(At(kw, "required")));
      forall r ensures r in Elements(At(kw, "required")) <==> Lists(At(kw, "required"), r) {
        ElementsIff(At(kw, "required"), r);
      }
    }
    NoExtrasIff(value.fields, kw);
  }

  lemma {:induction false} RequiredIff(fields: seq<Field>, names: seq<Json>)
    ensures ValidateRequired(fields, names) == Ok <==> forall r | r in names :: r.String? && Has(fields, r.s)
    ensures ValidateRequired(fields, names) == Malformed ==> exists r :: r in names && !r.String?
  {
    if names == [] {
    } else {
      assert names == [names[0]] + names[1..];
      RequiredIff(fields, names[1..]);
    }
  }

  lemma {:induction false} NoExtrasIff(fields: seq<Field>, kw: seq<Field>)
    ensures ValidateNoExtras(fields, kw) != Malformed
    ensures ValidateNoExtras(fields, kw) == Ok
            <==> forall i | 0 <= i < |fields| :: Declared(kw, fields[i].key)
  {
    if fields == [] {
    } else {
      NoExtrasIff(fields[1..], kw);
      assert fields == [fields[0]] + fields[1..];
    }
  }

  lemma {:induction false} PropertiesIff(matches: Matcher, fields: seq<Field>, props: seq<Field>)
    ensures ValidateProperties(matches, fields, props) == Ok
            <==> forall j | 0 <= j < |props| && Has(fields, props[j].key) ::
                   ValidateNode(matches, At(fields, props[j].key), props[j].value) == Ok
    ensures ValidateProperties(matches, fields, props) == Malformed
            ==> exists j :: 0 <= j < |props| && Has(fields, props[j].key)
                            && ValidateNode(matches, At(fields, props[j].key), props[j].value) == Malformed
  {
    if props == [] {
    } else {
      PropertiesIff(matches, fields, props[1..]);
      assert props == [props[0]] + props[1..];
    }
  }

  // ----- schemas the validator can read -----

  /** Keywords the validator reads have a JSON type it can read, at every level it reads. */
  ghost predicate WellFormedSchema(schema: Json) {
    schema.Object? && Has(schema.fields, "type") ==>
      var kw := schema.fields;
      && At(kw, "type").String?
      && match At(kw, "type").s
         case "string" => Has(kw, "pattern") ==> At(kw, "pattern").String?
         case "array" =>
           && (Has(kw, "minItems") ==> exists n :: ReadsAs(At(kw, "minItems"), n))
           && (Has(kw, "maxItems") ==> exists n :: ReadsAs(At(kw, "maxItems"), n))
           && (Has(kw, "items") ==> WellFormedSchema(kw[Find(kw, "items")].value))
         case "object" =>
           && (Has(kw, "required") ==> forall r :: Lists(At(kw, "required"), r) ==> r.String?)
           && (Has(kw, "additionalProperties") ==> At(kw, "additionalProperties").Bool?)
           && (Has(kw, "properties") ==>
                 && At(kw, "properties").Object?
                 && var props := kw[Find(kw, "properties")].value.fields;
                    forall i | 0 <= i < |props| :: WellFormedSchema(props[i].value))
         case _ => true
  }

  /** Such a schema is never found malformed, whatever the value. */
  lemma {:induction false} ReadableSchemasNeverThrow(matches: Matcher, value: Json, schema: Json)
    requires WellFormedSchema(schema)
    ensures ValidateNode(matches, value, schema) != Malformed
    decreases schema
  {
    if Typed(schema, "array") && value.Array? {
      var kw := schema.fields;
      BoundsReadable(|value.items|, schema);
      if Has(kw, "items") {
        var inner := kw[Find(kw, "items")].value;
        ItemsIff(matches, value.items, inner);
        forall i: nat | i < |value.items| ensures ValidateNode(matches, value.items[i], inner) != Malformed {
          ReadableSchemasNeverThrow(matches, value.items[i], inner);
        }
      }
    } else if Typed(schema, "object") && value.Object? {
      var kw := schema.fields;
      ShapeReadable(value.fields, schema);
      if Has(kw, "properties") {
        var props := kw[Find(kw, "properties")].value.fields;
        PropertiesIff(matches, value.fields, props);
        forall j: nat | j < |props| && Has(value.fields, props[j].key)
          ensures ValidateNode(matches, At(value.fields, props[j].key), props[j].value) != Malformed
        {
          ReadableSchemasNeverThrow(matches, At(value.fields, props[j].key), props[j].value);
        }
      }
    }
  }

  lemma BoundsReadable(size: nat, schema: Json)
    requires WellFormedSchema(schema) && Typed(schema, "array")
    ensures ValidateBounds(size, schema.fields) != Malformed
  {
    hide AsInt, ReadsAs;
    var kw := schema.fields;
    if Has(kw, "minItems") {
      var n :| ReadsAs(At(kw, "minItems"), n);
      AsIntIff(At(kw, "minItems"), n);
    }
    if Has(kw, "maxItems") {
      var n :| ReadsAs(At(kw, "maxItems"), n);
      AsIntIff(At(kw, "maxItems"), n);
    }
  }

  lemma ShapeReadable(fields: seq<Field>, schema: Json)
    requires WellFormedSchema(schema) && Typed(schema, "object")
    ensures ValidateShape(fields, schema.fields) != Malformed
  {
    hide Elements, Lists;
    var kw := schema.fields;
    if Has(kw, "required") {
      var v := At(kw, "required");
      RequiredIff(fields, Elements(v));
      forall r ensures r in Elements(v) <==> Lists(v, r) {
        ElementsIff(v, r);
      }
    }
    NoExtrasIff(fields, kw);
  }

  // ----- three keywords, said on their own -----

  lemma TwoKeywords(kind: Json, name: string, v: Json, key: string)
    requires name != "type"
    ensures var kw := [Field("type", kind), Field(name, v)];
            && Has(kw, "type") && At(kw, "type") == kind && Has(kw, name) && At(kw, name) == v
            && (key != "type" && key != name ==> !Has(kw, key))
  {
    var kw := [Field("type", kind), Field(name, v)];
    assert kw[0].key == "type" && kw[1].key == name;
    assert key != "type" && key != name ==> Find(kw, key) != 0 && Find(kw, key) != 1;
  }

  /** Every name in a list of required names is enforced, and nothing else is. */
  lemma RequiredNamesIff(matches: Matcher, fields: seq<Field>, names: seq<Json>)
    ensures ValidateNode(matches, Object(fields), Object([Field("type", String("object")), Field("required", Array(names))])) == Ok
            <==> forall i | 0 <= i < |names| ::
                   names[i].String? && exists j | 0 <= j < |fields| :: fields[j].key == names[i].s
  {
    hide Find, Elements;
    var kw := [Field("type", String("object")), Field("required", Array(names))];
    TwoKeywords(String("object"), "required", Array(names), "additionalProperties");
    TwoKeywords(String("object"), "required", Array(names), "properties");
    assert ValidateNode(matches, Object(fields), Object(kw)) == ValidateRequired(fields, Elements(Array(names)));
    RequiredIff(fields, Elements(Array(names)));
    forall r ensures r in Elements(Array(names)) <==> r in names {
      ElementsIff(Array(names), r);
    }
    forall i | 0 <= i < |names| && names[i].String?
      ensures Has(fields, names[i].s) <==> exists j | 0 <= j < |fields| :: fields[j].key == names[i].s
    {
      HasIff(fields, names[i].s);
    }
    assert forall i | 0 <= i < |names| :: names[i] in names;
  }

  /** A 31-bit bound on the number of items is the number it says, inclusive. */
  lemma ItemBoundsIff(matches: Matcher, items: seq<Json>, n: int)
    requires 0 <= n < 0x8000_0000
    ensures ValidateNode(matches, Array(items), Object([Field("type", String("array")), Field("minItems", Integer(n))])) == Ok
            <==> n <= |items|
    ensures ValidateNode(matches, Array(items), Object([Field("type", String("array")), Field("maxItems", Integer(n))])) == Ok
            <==> |items| <= n
  {
    hide Find, AsInt;
    AsIntIff(Integer(n), n);
    TwoKeywords(String("array"), "minItems", Integer(n), "maxItems");
    TwoKeywords(String("array"), "minItems", Integer(n), "items");
    TwoKeywords(String("array"), "maxItems", Integer(n), "minItems");
    TwoKeywords(String("array"), "maxItems", Integer(n), "items");
  }
}
