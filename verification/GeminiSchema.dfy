/** The schema rewrite for Gemini function declarations. */
module GeminiSchema {
  import opened JsonValues

  const CLOSED := "additionalProperties"

  /** Keywords whose value is an object of named subschemas. */
  predicate NamesSchemas(key: string) {
    key == "properties" || key == "$defs" || key == "defs" || key == "definitions"
  }

  /** Keywords whose value is one subschema; only an object is descended into. */
  predicate HoldsSchema(key: string) {
    key == "items" || key == "not"
  }

  /** Keywords whose value is an array of subschemas. */
  predicate ListsSchemas(key: string) {
    key == "prefixItems" || key == "anyOf" || key == "oneOf" || key == "allOf"
  }

  /** The schema without the keyword at every schema position that is reached. */
  function Rewrite(schema: Json): (r: Json)
    decreases schema, 1
  {
    if !schema.Obj? then schema
    else Obj(map k | k in schema.fields && k != CLOSED :: RewriteAt(k, schema.fields[k]))
  }

  /** The value of one keyword, rewritten. */
  function RewriteAt(key: string, value: Json): Json
    decreases value, 2
  {
    if NamesSchemas(key) && value.Obj? then Obj(map k | k in value.fields :: Rewrite(value.fields[k]))
    else if HoldsSchema(key) && value.Obj? then Rewrite(value)
    else if ListsSchemas(key) && value.Arr? then
      Arr(seq(|value.items|, i requires 0 <= i < |value.items| => Rewrite(value.items[i])))
    else value
  }

  /** The ten keywords that are descended into, in the order of the three loops. */
  const ORDER := ["properties", "$defs", "defs", "definitions", "items", "not",
                  "prefixItems", "anyOf", "oneOf", "allOf"]

  lemma OrderAt(n: nat)
    requires n < 10
    ensures ORDER[n] !in ORDER[..n] && ORDER[n] != CLOSED
    ensures NamesSchemas(ORDER[n]) <==> n < 4
    ensures HoldsSchema(ORDER[n]) <==> 4 <= n < 6
    ensures ListsSchemas(ORDER[n]) <==> 6 <= n
  {
    if n < 4 {
      assert n == 0 || n == 1 || n == 2 || n == 3;
    } else if n < 6 {
      assert n == 4 || n == 5;
    } else {
      assert n == 6 || n == 7 || n == 8 || n == 9;
    }
  }

  /** The copied fields, with the first n keywords of the order already rewritten. */
  ghost predicate Partly(before: map<string, Json>, n: nat, after: map<string, Json>)
    requires n <= 10
  {
    && after.Keys == before.Keys - {CLOSED}
    && forall k :: k in after ==> after[k] == if k in ORDER[..n] then RewriteAt(k, before[k]) else before[k]
  }

  lemma NotAnObject(schema: Json)
    requires !schema.Obj?
    ensures Rewrite(schema) == schema
  {
  }

  lemma NothingDone(before: map<string, Json>)
    ensures Partly(before, 0, before - {CLOSED})
  {
  }

  /** What one more round of the loops has to do. */
  lemma OneMoreKey(before: map<string, Json>, n: nat, fields: map<string, Json>)
    requires n < 10 && Partly(before, n, fields)
    ensures var key := ORDER[n];
            && (n < 4 ==> NamesSchemas(key))
            && (6 <= n ==> ListsSchemas(key))
            && (key in fields ==> key in before && fields[key] == before[key])
            && (key in fields && 4 <= n < 6 && before[key].Obj? ==> Rewrite(before[key]) == RewriteAt(key, before[key]))
            && (key in fields ==> Partly(before, n + 1, fields[key := RewriteAt(key, before[key])]))
            && (key !in fields || !(if n < 6 then before[key].Obj? else before[key].Arr?) ==>
                  Partly(before, n + 1, fields))
  {
    OrderAt(n);
    assert ORDER[..n + 1] == ORDER[..n] + [ORDER[n]];
  }

  lemma AllKeysDone(before: map<string, Json>, after: map<string, Json>)
    requires Partly(before, 10, after)
    ensures Obj(after) == Rewrite(Obj(before))
  {
    assert ORDER[..10] == ORDER;
    assert forall k :: NamesSchemas(k) || HoldsSchema(k) || ListsSchemas(k) <==> k in ORDER;
    assert after == map k | k in before && k != CLOSED :: RewriteAt(k, before[k]);
  }

  /** The rewrite, keyword by keyword: what is descended into, what goes, and what stays as it is. */
  lemma RewriteExactly(schema: Json, k: string)
    ensures !schema.Obj? ==> Rewrite(schema) == schema
    ensures schema.Obj? ==> Rewrite(schema).Obj?
    ensures schema.Obj? ==>
              (k in Rewrite(schema).fields <==> k in schema.fields && k != "additionalProperties")
    ensures schema.Obj? && k in schema.fields && k != "additionalProperties" ==>
              var before, after := schema.fields[k], Rewrite(schema).fields[k];
              if k in {"properties", "$defs", "defs", "definitions"} && before.Obj? then
                && after.Obj? && after.fields.Keys == before.fields.Keys
                && forall name :: name in before.fields ==> after.fields[name] == Rewrite(before.fields[name])
              else if k in {"items", "not"} && before.Obj? then after == Rewrite(before)
              else if k in {"prefixItems", "anyOf", "oneOf", "allOf"} && before.Arr? then
                && after.Arr? && |after.items| == |before.items|
                && forall i :: 0 <= i < |before.items| ==> after.items[i] == Rewrite(before.items[i])
              else after == before
  {
  }

  /** The rewrite as it is carried out: on a copy, keyword by keyword and child by child. */
  method GeminiFunctionSchema(schema: Json) returns (result: Json)
    ensures result == Rewrite(schema)
    decreases schema
  {
    hide Rewrite, RewriteAt, NamesSchemas, HoldsSchema, ListsSchemas, Partly;
    if !schema.Obj? {
      NotAnObject(schema);
      return schema;
    }
    var fields := schema.fields - {CLOSED};
    NothingDone(schema.fields);
    for n := 0 to 4
      invariant Partly(schema.fields, n, fields)
    {
      var key := ORDER[n];
      OneMoreKey(schema.fields, n, fields);
      if key in fields && fields[key].Obj? {
        var child := RewriteNamed(schema, key);
        fields := fields[key := child];
      }
    }
    for n := 4 to 6
      invariant Partly(schema.fields, n, fields)
    {
      var key := ORDER[n];
      OneMoreKey(schema.fields, n, fields);
      if key in fields && fields[key].Obj? {
        var child := GeminiFunctionSchema(schema.fields[key]);
        fields := fields[key := child];
      }
    }
    for n := 6 to 10
      invariant Partly(schema.fields, n, fields)
    {
      var key := ORDER[n];
      OneMoreKey(schema.fields, n, fields);
      if key in fields && fields[key].Arr? {
        var child := RewriteListed(schema, key);
        fields := fields[key := child];
      }
    }
    AllKeysDone(schema.fields, fields);
    return Obj(fields);
  }

  /** The loop over an object of named subschemas. */
  method RewriteNamed(schema: Json, key: string) returns (result: Json)
    requires schema.Obj? && key in schema.fields && schema.fields[key].Obj? && NamesSchemas(key)
    ensures result == RewriteAt(key, schema.fields[key])
    decreases schema, 0
  {
    var before := schema.fields[key].fields;
    var after := before;
    var todo := before.Keys;
    while todo != {}
      invariant todo <= before.Keys == after.Keys
      invariant forall k :: k in before ==> after[k] == if k in todo then before[k] else Rewrite(before[k])
      decreases |todo|
    {
      var name :| name in todo;
      var child := GeminiFunctionSchema(before[name]);
      after := after[name := child];
      todo := todo - {name};
    }
    assert after == map k | k in before :: Rewrite(before[k]);
    return Obj(after);
  }

  /** The loop over an array of subschemas. */
  method RewriteListed(schema: Json, key: string) returns (result: Json)
    requires schema.Obj? && key in schema.fields && schema.fields[key].Arr? && ListsSchemas(key)
    ensures result == RewriteAt(key, schema.fields[key])
    decreases schema, 0
  {
    var before := schema.fields[key].items;
    var after := before;
    for i := 0 to |before|
      invariant |after| == |before|
      invariant forall j :: 0 <= j < |before| ==> after[j] == if j < i then Rewrite(before[j]) else before[j]
    {
      var child := GeminiFunctionSchema(before[i]);
      after := after[i := child];
    }
    assert after == seq(|before|, i requires 0 <= i < |before| => Rewrite(before[i]));
    return Arr(after);
  }
}
