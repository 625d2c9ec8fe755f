/**
 JSON values as the server's JSON library holds them: an object is an ordered
 list of members with distinct keys (see `UniqueKeys`), and integers are told
 apart from other numbers.
 */
module JsonValues {

  datatype Json =
    | Null
    | Bool(b: bool)
    | Integer(n: int)
    | Float(r: real)
    | String(s: string)
    | Array(items: seq<Json>)
    | Object(fields: seq<Field>)

  datatype Field = Field(key: string, value: Json)

  /** Position of the first member named `key`, or `|fields|` when there is none. */
  function Find(fields: seq<Field>, key: string): (i: nat)
    ensures i <= |fields|
    ensures i < |fields| ==> fields[i].key == key
    ensures forall j | 0 <= j < i :: fields[j].key != key
  {
    if fields == [] then 0
    else if fields[0].key == key then 0
    else 1 + Find(fields[1..], key)
  }

  predicate Has(fields: seq<Field>, key: string) {
    Find(fields, key) < |fields|
  }

  function At(fields: seq<Field>, key: string): Json
    requires Has(fields, key)
  {
    fields[Find(fields, key)].value
  }

  lemma HasIff(fields: seq<Field>, key: string)
    ensures Has(fields, key) <==> exists j | 0 <= j < |fields| :: fields[j].key == key
  {
  }

  predicate UniqueKeys(fields: seq<Field>) {
    forall i, j | 0 <= i < j < |fields| :: fields[i].key != fields[j].key
  }

  /** With distinct keys, looking a member's own key up finds that member. */
  lemma FindOwnKey(fields: seq<Field>, i: nat)
    requires UniqueKeys(fields) && i < |fields|
    ensures Find(fields, fields[i].key) == i
  {
    var k := Find(fields, fields[i].key);
    assert k <= i;
  }

  /** Every object at every depth has distinct keys, as the library guarantees. */
  predicate WellFormedValue(v: Json) {
    match v
    case Array(items) => forall i | 0 <= i < |items| :: WellFormedValue(items[i])
    case Object(fields) =>
      && UniqueKeys(fields)
      && forall i | 0 <= i < |fields| :: WellFormedValue(fields[i].value)
    case _ => true
  }
}
