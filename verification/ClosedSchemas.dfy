/**
 Schemas that are closed at every level (known type, `items` present,
 `additionalProperties` false) bound the values they accept: no value path
 leaves the schema, and no value is deeper than the schema.
 */
module ClosedSchemas {
  import opened Wrappers
  import opened JsonValues
  import opened SchemaValidation

  const SCALAR_TYPES: set<string> := {"string", "number", "integer", "boolean"}

  predicate ClosedSchema(schema: Json) {
    && schema.Object?
    && Has(schema.fields, "type")
    && At(schema.fields, "type").String?
    && var kw := schema.fields;
       match At(kw, "type").s
       case "array" => Has(kw, "items") && ClosedSchema(kw[Find(kw, "items")].value)
       case "object" =>
         && Has(kw, "additionalProperties")
         && At(kw, "additionalProperties") == Bool(false)
         && (Has(kw, "properties") ==>
               && At(kw, "properties").Object?
               && var props := kw[Find(kw, "properties")].value.fields;
                  forall i | 0 <= i < |props| :: ClosedSchema(props[i].value))
       case kind => kind in SCALAR_TYPES
  }

  function ValueAt(value: Json, path: seq<Hop>): Option<Json>
    decreases |path|
  {
    if path == [] then Some(value)
    else match path[0]
      case Index(i) => if value.Array? && i < |value.items| then ValueAt(value.items[i], path[1..]) else None
      case Key(k) =>
        if value.Object? && Has(value.fields, k) then ValueAt(At(value.fields, k), path[1..]) else None
  }

  function Max(a: nat, b: nat): nat { if a < b then b else a }

  function Depth(value: Json): nat
    decreases value, 0
  {
    match value
    case Array(items) => 1 + ItemsDepth(items)
    case Object(fields) => 1 + FieldsDepth(fields)
    case _ => 1
  }

  function ItemsDepth(items: seq<Json>): nat
    decreases items, 0
  {
    if items == [] then 0 else Max(Depth(items[0]), ItemsDepth(items[1..]))
  }

  function FieldsDepth(fields: seq<Field>): nat
    decreases fields, 0
  {
    if fields == [] then 0 else Max(Depth(fields[0].value), FieldsDepth(fields[1..]))
  }

  /** Number of levels a schema describes. */
  function SchemaDepth(schema: Json): nat
    decreases schema, 0
  {
    if Typed(schema, "array") && Has(schema.fields, "items") then
      1 + SchemaDepth(schema.fields[Find(schema.fields, "items")].value)
    else if Typed(schema, "object") && Has(schema.fields, "properties") && At(schema.fields, "properties").Object? then
      1 + PropertiesDepth(schema.fields[Find(schema.fields, "properties")].value.fields)
    else 1
  }

  function PropertiesDepth(props: seq<Field>): nat
    decreases props, 0
  {
    if props == [] then 0 else Max(SchemaDepth(props[0].value), PropertiesDepth(props[1..]))
  }

  /** A child reached by the value alone is reached by the schema too, and the pair is again accepted. */
  lemma ClosedChild(matches: Matcher, value: Json, schema: Json, hop: Hop)
    requires WellFormedValue(schema) && ClosedSchema(schema)
    requires Conforms(matches, value, schema)
    requires ValueAt(value, [hop]).Some?
    ensures Child(value, schema, hop).Some?
    ensures var pair := Child(value, schema, hop).value;
            && pair.0 == ValueAt(value, [hop]).value
            && WellFormedValue(pair.1) && ClosedSchema(pair.1) && Conforms(matches, pair.0, pair.1)
  {
    ConformsUnfolds(matches, value, schema);
    if hop.Key? {
      var at := Find(value.fields, hop.k);
      assert Declared(schema.fields, value.fields[at].key);
    }
    assert ChildConforms(matches, Child(value, schema, hop));
  }

  /** Every path of an accepted value is a path of the closed schema. */
  lemma {:induction false} AcceptedPathsAreDeclared(matches: Matcher, value: Json, schema: Json, path: seq<Hop>)
    requires WellFormedValue(schema) && ClosedSchema(schema)
    requires ValidateNode(matches, value, schema) == Ok
    requires ValueAt(value, path).Some?
    ensures PairAt(value, schema, path).Some?
    ensures PairAt(value, schema, path).value.0 == ValueAt(value, path).value
    decreases |path|
  {
    if path == [] {
    } else {
      ValidateIffConforms(matches, value, schema);
      assert [path[0]][1..] == [];
      ClosedChild(matches, value, schema, path[0]);
      var pair := Child(value, schema, path[0]).value;
      ValidateIffConforms(matches, pair.0, pair.1);
      AcceptedPathsAreDeclared(matches, pair.0, pair.1, path[1..]);
    }
  }

  /** An accepted value is no deeper than its closed schema. */
  lemma {:induction false} AcceptedDepthIsBounded(matches: Matcher, value: Json, schema: Json)
    requires WellFormedValue(value)
    requires WellFormedValue(schema) && ClosedSchema(schema)
    requires ValidateNode(matches, value, schema) == Ok
    ensures Depth(value) <= SchemaDepth(schema)
    decreases value
  {
    hide ValidateNode, ClosedSchema, SchemaDepth;
    SchemaDepthIsPositive(schema);
    match value
    case Array(items) =>
      forall i: nat | i < |items| ensures Depth(items[i]) < SchemaDepth(schema) {
        var inner := AcceptedChild(matches, value, schema, Index(i));
        AcceptedDepthIsBounded(matches, items[i], inner);
      }
      ItemsDepthBound(items, SchemaDepth(schema) - 1);
    case Object(fields) =>
      forall i: nat | i < |fields| ensures Depth(fields[i].value) < SchemaDepth(schema) {
        FindOwnKey(fields, i);
        var inner := AcceptedChild(matches, value, schema, Key(fields[i].key));
        AcceptedDepthIsBounded(matches, fields[i].value, inner);
      }
      FieldsDepthBound(fields, SchemaDepth(schema) - 1);
    case _ =>
  }

  /** The schema of an accepted value's child: closed again, one level shallower, accepting the child. */
  lemma AcceptedChild(matches: Matcher, value: Json, schema: Json, hop: Hop) returns (inner: Json)
    requires WellFormedValue(schema) && ClosedSchema(schema)
    requires ValidateNode(matches, value, schema) == Ok
    requires ValueAt(value, [hop]).Some?
    ensures WellFormedValue(inner) && ClosedSchema(inner)
    ensures ValidateNode(matches, ValueAt(value, [hop]).value, inner) == Ok
    ensures SchemaDepth(inner) < SchemaDepth(schema)
  {
    hide WellFormedValue, ClosedSchema, ValidateNode, Conforms, ValueAt, LocalOk;
    ValidateIffConforms(matches, value, schema);
    ClosedChild(matches, value, schema, hop);
    var pair := Child(value, schema, hop).value;
    inner := pair.1;
    ValidateIffConforms(matches, pair.0, inner);
    ChildIsShallower(value, schema, hop);
  }

  lemma SchemaDepthIsPositive(schema: Json)
    ensures SchemaDepth(schema) >= 1
  {
  }

  lemma ChildIsShallower(value: Json, schema: Json, hop: Hop)
    requires Child(value, schema, hop).Some?
    ensures SchemaDepth(Child(value, schema, hop).value.1) < SchemaDepth(schema)
  {
    if hop.Key? {
      var props := At(schema.fields, "properties").fields;
      PropertyDepth(props, Find(props, hop.k));
    }
  }

  lemma {:induction false} ItemsDepthBound(items: seq<Json>, bound: nat)
    requires forall i | 0 <= i < |items| :: Depth(items[i]) <= bound
    ensures ItemsDepth(items) <= bound
  {
    if items == [] {
    } else {
      assert forall i | 0 <= i < |items[1..]| :: items[1..][i] == items[i + 1];
      ItemsDepthBound(items[1..], bound);
    }
  }

  lemma {:induction false} FieldsDepthBound(fields: seq<Field>, bound: nat)
    requires forall i | 0 <= i < |fields| :: Depth(fields[i].value) <= bound
    ensures FieldsDepth(fields) <= bound
  {
    if fields == [] {
    } else {
      assert forall i | 0 <= i < |fields[1..]| :: fields[1..][i] == fields[i + 1];
      FieldsDepthBound(fields[1..], bound);
    }
  }

  lemma {:induction false} PropertyDepth(props: seq<Field>, j: nat)
    requires j < |props|
    ensures SchemaDepth(props[j].value) <= PropertiesDepth(props)
  {
    if j != 0 {
      PropertyDepth(props[1..], j - 1);
    }
  }
}
