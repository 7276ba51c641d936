/**
 * What the Gemini rewrite does to the meaning of a schema (sections 10.2 and 10.3 of JSON Schema
 * Core draft 2020-12). Every keyword the rewrite does not descend into is an arbitrary test on the
 * instance and on the other such keywords; references and unevaluated keywords are excluded below.
 */
module SchemaMeaning {
  import opened JsonValues
  import opened Options
  import opened GeminiSchema

  // ---- positions ----

  /** One move from a schema to a subschema that the rewrite descends into. */
  datatype Step = Named(key: string, name: string) | Held(key: string) | Listed(key: string, index: nat)

  function Child(schema: Json, step: Step): Option<Json> {
    if !schema.Obj? || step.key !in schema.fields then None
    else
      var value := schema.fields[step.key];
      match step
      case Named(key, name) =>
        if NamesSchemas(key) && value.Obj? && name in value.fields then Some(value.fields[name]) else None
      case Held(key) =>
        if HoldsSchema(key) && value.Obj? then Some(value) else None
      case Listed(key, i) =>
        if ListsSchemas(key) && value.Arr? && i < |value.items| then Some(value.items[i]) else None
  }

  function At(schema: Json, path: seq<Step>): Option<Json>
    decreases |path|
  {
    if path == [] then Some(schema)
    else match Child(schema, path[0])
      case None => None
      case Some(child) => At(child, path[1..])
  }

  function Rewritten(schema: Option<Json>): Option<Json> {
    match schema
    case None => None
    case Some(s) => Some(Rewrite(s))
  }

  /** The rewrite keeps every position, and acts on each position as on a schema of its own. */
  lemma {:induction false} RewriteAtEveryPosition(schema: Json, path: seq<Step>)
    ensures At(Rewrite(schema), path) == Rewritten(At(schema, path))
    decreases |path|
  {
    if path == [] {
    } else {
      var step := path[0];
      assert Child(Rewrite(schema), step) == Rewritten(Child(schema, step));
      if Child(schema, step).Some? {
        RewriteAtEveryPosition(Child(schema, step).value, path[1..]);
      }
    }
  }

  lemma KeysOfRewrite(schema: Json)
    requires schema.Obj?
    ensures var after := Rewrite(schema);
            && after.Obj?
            && after.fields.Keys == schema.fields.Keys - {CLOSED}
            && forall k :: NamesSchemas(k) && k in schema.fields && schema.fields[k].Obj? ==>
                 after.fields[k].Obj? && after.fields[k].fields.Keys == schema.fields[k].fields.Keys
  {
  }

  /**
   * At every position that exists before, exactly the one keyword is gone afterwards, and the
   * properties keep their names, also one that is itself named like the keyword.
   */
  lemma OnlyTheKeywordIsGone(schema: Json, path: seq<Step>)
    requires At(schema, path).Some? && At(schema, path).value.Obj?
    ensures var before := At(schema, path).value;
            && At(Rewrite(schema), path).Some?
            && var after := At(Rewrite(schema), path).value;
            && after.Obj?
            && after.fields.Keys == before.fields.Keys - {CLOSED}
            && forall k :: NamesSchemas(k) && k in before.fields && before.fields[k].Obj? ==>
                 after.fields[k].Obj? && after.fields[k].fields.Keys == before.fields[k].fields.Keys
  {
    hide At, Rewrite;
    RewriteAtEveryPosition(schema, path);
    KeysOfRewrite(At(schema, path).value);
  }

  // ---- schemas the rewrite leaves alone ----

  /** No reached position carries the keyword. */
  ghost predicate Clean(schema: Json) {
    forall path :: At(schema, path).Some? && At(schema, path).value.Obj? ==> CLOSED !in At(schema, path).value.fields
  }

  lemma RewriteIsClean(schema: Json)
    ensures Clean(Rewrite(schema))
  {
    forall path | At(Rewrite(schema), path).Some? && At(Rewrite(schema), path).value.Obj?
      ensures CLOSED !in At(Rewrite(schema), path).value.fields
    {
      RewriteAtEveryPosition(schema, path);
    }
  }

  lemma CleanChild(schema: Json, step: Step)
    requires Clean(schema) && Child(schema, step).Some?
    ensures Clean(Child(schema, step).value)
  {
    var child := Child(schema, step).value;
    forall path | At(child, path).Some? && At(child, path).value.Obj?
      ensures CLOSED !in At(child, path).value.fields
    {
      assert ([step] + path)[1..] == path;
      assert At(schema, [step] + path) == At(child, path);
    }
  }

  lemma {:induction false} CleanIsKept(schema: Json)
    requires Clean(schema)
    ensures Rewrite(schema) == schema
    decreases schema
  {
    if schema.Obj? {
      var f := schema.fields;
      assert At(schema, []) == Some(schema);
      forall k | k in f ensures RewriteAt(k, f[k]) == f[k] {
        if NamesSchemas(k) && f[k].Obj? {
          forall name | name in f[k].fields ensures Rewrite(f[k].fields[name]) == f[k].fields[name] {
            CleanChild(schema, Named(k, name));
            assert Child(schema, Named(k, name)) == Some(f[k].fields[name]);
            CleanIsKept(f[k].fields[name]);
          }
        } else if HoldsSchema(k) && f[k].Obj? {
          assert Child(schema, Held(k)) == Some(f[k]);
          CleanChild(schema, Held(k));
          CleanIsKept(f[k]);
        } else if ListsSchemas(k) && f[k].Arr? {
          forall i | 0 <= i < |f[k].items| ensures Rewrite(f[k].items[i]) == f[k].items[i] {
            assert Child(schema, Listed(k, i)) == Some(f[k].items[i]);
            CleanChild(schema, Listed(k, i));
            CleanIsKept(f[k].items[i]);
          }
        }
      }
      assert (map k | k in f && k != CLOSED :: RewriteAt(k, f[k])) == f;
    }
  }

  /** The rewrite changes nothing exactly on clean schemas; in particular a second time. */
  lemma UnchangedExactlyWhenClean(schema: Json)
    ensures Rewrite(schema) == schema <==> Clean(schema)
    ensures Rewrite(Rewrite(schema)) == Rewrite(schema)
  {
    RewriteIsClean(schema);
    CleanIsKept(Rewrite(schema));
    if Clean(schema) { CleanIsKept(schema); }
  }

  // ---- meaning ----

  /** Keywords the rewrite leaves alone, whether they hold subschemas or not. */
  predicate LeftAlone(key: string) {
    !NamesSchemas(key) && !HoldsSchema(key) && !ListsSchemas(key) && key != CLOSED
  }

  /** The keywords of a schema that are left alone, with their values. */
  function Beside(schema: Json): map<string, Json>
    requires schema.Obj?
  {
    map k | k in schema.fields && LeftAlone(k) :: schema.fields[k]
  }

  /**
   * The keywords that are left alone, in any dialect: `test` decides one of them, given its value
   * and all of them (so `then` may depend on `if`, and `minContains` on `contains`), and `matches`
   * says which names the value of `patternProperties` covers.
   */
  datatype Leaf = Leaf(test: (string, Json, map<string, Json>, Json) -> bool,
                       matches: (Json, string) -> bool)

  function PrefixLength(schema: Json): nat
    requires schema.Obj?
  {
    if "prefixItems" in schema.fields && schema.fields["prefixItems"].Arr?
    then |schema.fields["prefixItems"].items| else 0
  }

  predicate Declares(schema: Json, name: string)
    requires schema.Obj?
  {
    "properties" in schema.fields && schema.fields["properties"].Obj? && name in schema.fields["properties"].fields
  }

  predicate Covers(leaf: Leaf, schema: Json, name: string)
    requires schema.Obj?
  {
    "patternProperties" in schema.fields && leaf.matches(schema.fields["patternProperties"], name)
  }

  predicate OnlyOne(verdicts: seq<bool>) {
    exists i | 0 <= i < |verdicts| :: verdicts[i] && forall j | 0 <= j < |verdicts| && verdicts[j] :: j == i
  }

  /** The instance satisfies the schema; `leaf` decides the keywords that are left alone. */
  ghost predicate Valid(leaf: Leaf, schema: Json, instance: Json)
    decreases schema, 1
  {
    match schema
    case Bool(b) => b
    case Obj(fields) => forall k :: k in fields ==> Holds(leaf, schema, k, instance)
    case _ => leaf.test("", schema, map[], instance)
  }

  /** The instance satisfies one keyword of a schema. */
  ghost predicate Holds(leaf: Leaf, schema: Json, key: string, instance: Json)
    requires schema.Obj? && key in schema.fields
    decreases schema, 0
  {
    var value := schema.fields[key];
    if key == "properties" && value.Obj? then
      instance.Obj? ==> forall name :: name in value.fields && name in instance.fields ==>
        Valid(leaf, value.fields[name], instance.fields[name])
    else if NamesSchemas(key) && value.Obj? then true
    else if key == "items" then
      instance.Arr? ==> forall i :: PrefixLength(schema) <= i < |instance.items| ==>
        Valid(leaf, value, instance.items[i])
    else if key == "not" then !Valid(leaf, value, instance)
    else if key == "prefixItems" && value.Arr? then
      instance.Arr? ==> forall i :: 0 <= i < |value.items| && i < |instance.items| ==>
        Valid(leaf, value.items[i], instance.items[i])
    else if key == "allOf" && value.Arr? then
      forall i :: 0 <= i < |value.items| ==> Valid(leaf, value.items[i], instance)
    else if key == "anyOf" && value.Arr? then
      exists i :: 0 <= i < |value.items| && Valid(leaf, value.items[i], instance)
    else if key == "oneOf" && value.Arr? then
      OnlyOne(seq(|value.items|, i requires 0 <= i < |value.items| => Valid(leaf, value.items[i], instance)))
    else if key == CLOSED then
      instance.Obj? ==> forall name ::
        name in instance.fields && !Declares(schema, name) && !Covers(leaf, schema, name) ==>
          Valid(leaf, value, instance.fields[name])
    else leaf.test(key, value, Beside(schema), instance)
  }

  lemma BesideKept(schema: Json)
    requires schema.Obj?
    ensures Beside(Rewrite(schema)) == Beside(schema)
  {
    forall k | k in schema.fields && LeftAlone(k) ensures Rewrite(schema).fields[k] == schema.fields[k] {
      assert RewriteAt(k, schema.fields[k]) == schema.fields[k];
    }
  }

  lemma PrefixLengthKept(schema: Json)
    requires schema.Obj?
    ensures PrefixLength(Rewrite(schema)) == PrefixLength(schema)
  {
    var key := "prefixItems";
    assert ListsSchemas(key) && key != CLOSED;
    if key in schema.fields { assert Rewrite(schema).fields[key] == RewriteAt(key, schema.fields[key]); }
  }

  /** Keywords whose meaning depends on other places of the schema document. */
  predicate Contextual(key: string) {
    key in {"$ref", "$dynamicRef", "unevaluatedItems", "unevaluatedProperties"}
  }

  /**
   * Schemas on which the rewrite works in one direction only: with `up` it never rejects what was
   * accepted, otherwise it never accepts what was rejected. A negation turns the direction around;
   * an exclusive choice needs both at once; downwards the keyword itself must be absent.
   */
  ghost predicate Directed(schema: Json, up: bool)
    decreases schema, 1
  {
    schema.Obj? ==> forall k :: k in schema.fields ==> DirectedAt(schema, k, up)
  }

  ghost predicate DirectedAt(schema: Json, key: string, up: bool)
    requires schema.Obj? && key in schema.fields
    decreases schema, 0
  {
    var value := schema.fields[key];
    if key == "properties" && value.Obj? then
      forall name :: name in value.fields ==> Directed(value.fields[name], up)
    else if key == "items" then Directed(value, up)
    else if key in {"prefixItems", "allOf", "anyOf"} && value.Arr? then
      forall i :: 0 <= i < |value.items| ==> Directed(value.items[i], up)
    else if key == "not" then Clean(value) || Directed(value, !up)
    else if key == "oneOf" && value.Arr? then
      forall i :: 0 <= i < |value.items| ==>
        Clean(value.items[i]) || (Directed(value.items[i], true) && Directed(value.items[i], false))
    else if key == CLOSED then up
    else !Contextual(key)
  }

  /** The schema before or after the rewrite, whichever accepts less in this direction. */
  function Lesser(schema: Json, up: bool): Json {
    if up then schema else Rewrite(schema)
  }

  function Greater(schema: Json, up: bool): Json {
    Lesser(schema, !up)
  }

  /** What is accepted on the one side is accepted on the other. */
  lemma {:induction false} RewriteIsDirected(leaf: Leaf, schema: Json, instance: Json, up: bool)
    requires Directed(schema, up) && Valid(leaf, Lesser(schema, up), instance)
    ensures Valid(leaf, Greater(schema, up), instance)
    decreases schema, 1
  {
    if schema.Obj? {
      var lesser, greater := Lesser(schema, up), Greater(schema, up);
      forall k | k in greater.fields ensures Holds(leaf, greater, k, instance) {
        assert DirectedAt(schema, k, up);
        assert k != CLOSED && k in lesser.fields && Holds(leaf, lesser, k, instance);
        KeywordIsDirected(leaf, schema, k, instance, up);
      }
    }
  }

  /** Every instance that was accepted is still accepted. */
  lemma RewriteAcceptsNoLess(leaf: Leaf, schema: Json, instance: Json)
    requires Directed(schema, true) && Valid(leaf, schema, instance)
    ensures Valid(leaf, Rewrite(schema), instance)
  {
    RewriteIsDirected(leaf, schema, instance, true);
  }

  /** On schemas that are directed both ways the rewrite changes no verdict at all. */
  lemma RewriteKeepsMeaning(leaf: Leaf, schema: Json, instance: Json)
    requires Clean(schema) || (Directed(schema, true) && Directed(schema, false))
    ensures Valid(leaf, Rewrite(schema), instance) <==> Valid(leaf, schema, instance)
    decreases schema, 2
  {
    if Clean(schema) {
      CleanIsKept(schema);
    } else {
      if Valid(leaf, schema, instance) { RewriteIsDirected(leaf, schema, instance, true); }
      if Valid(leaf, Rewrite(schema), instance) { RewriteIsDirected(leaf, schema, instance, false); }
    }
  }

  /** A keyword the rewrite leaves alone, or whose value it leaves alone, keeps its verdict. */
  lemma OtherKeywordIsKept(leaf: Leaf, schema: Json, key: string, instance: Json)
    requires schema.Obj? && key in schema.fields && key != CLOSED && !HoldsSchema(key)
    requires NamesSchemas(key) ==> key != "properties" || !schema.fields[key].Obj?
    requires ListsSchemas(key) ==> !schema.fields[key].Arr?
    ensures Holds(leaf, Rewrite(schema), key, instance) <==> Holds(leaf, schema, key, instance)
  {
    BesideKept(schema);
    assert Rewrite(schema).fields[key] == RewriteAt(key, schema.fields[key]);
  }

  lemma {:induction false} KeywordIsDirected(leaf: Leaf, schema: Json, key: string, instance: Json, up: bool)
    requires schema.Obj? && key in schema.fields && key != CLOSED && DirectedAt(schema, key, up)
    requires Holds(leaf, Lesser(schema, up), key, instance)
    ensures Holds(leaf, Greater(schema, up), key, instance)
    decreases schema, 0
  {
    var value := schema.fields[key];
    if key == "properties" && value.Obj? {
      PropertiesAreDirected(leaf, schema, instance, up);
    } else if key == "items" {
      ItemsAreDirected(leaf, schema, instance, up);
    } else if key in {"prefixItems", "allOf", "anyOf"} && value.Arr? {
      ListIsDirected(leaf, schema, key, instance, up);
    } else if key == "not" {
      NegationIsDirected(leaf, schema, instance, up);
    } else if key == "oneOf" && value.Arr? {
      ChoiceIsKept(leaf, schema, instance);
    } else {
      OtherKeywordIsKept(leaf, schema, key, instance);
    }
  }

  lemma {:induction false} ItemsAreDirected(leaf: Leaf, schema: Json, instance: Json, up: bool)
    requires schema.Obj? && "items" in schema.fields
    requires DirectedAt(schema, "items", up) && Holds(leaf, Lesser(schema, up), "items", instance)
    ensures Holds(leaf, Greater(schema, up), "items", instance)
    decreases schema, 0, 0
  {
    var value := schema.fields["items"];
    assert Rewrite(schema).fields["items"] == RewriteAt("items", value);
    PrefixLengthKept(schema);
    if instance.Arr? {
      forall i | PrefixLength(schema) <= i < |instance.items|
        ensures Valid(leaf, Greater(value, up), instance.items[i])
      {
        RewriteIsDirected(leaf, value, instance.items[i], up);
      }
    }
  }

  lemma {:induction false} NegationIsDirected(leaf: Leaf, schema: Json, instance: Json, up: bool)
    requires schema.Obj? && "not" in schema.fields
    requires DirectedAt(schema, "not", up) && Holds(leaf, Lesser(schema, up), "not", instance)
    ensures Holds(leaf, Greater(schema, up), "not", instance)
    decreases schema, 0, 0
  {
    var value := schema.fields["not"];
    assert Rewrite(schema).fields["not"] == RewriteAt("not", value);
    if Clean(value) {
      CleanIsKept(value);
    } else if Valid(leaf, Greater(value, up), instance) {
      RewriteIsDirected(leaf, value, instance, !up);
    }
  }

  lemma {:induction false} PropertiesAreDirected(leaf: Leaf, schema: Json, instance: Json, up: bool)
    requires schema.Obj? && "properties" in schema.fields && schema.fields["properties"].Obj?
    requires DirectedAt(schema, "properties", up) && Holds(leaf, Lesser(schema, up), "properties", instance)
    ensures Holds(leaf, Greater(schema, up), "properties", instance)
    decreases schema, 0, 0
  {
    var value := schema.fields["properties"];
    assert Rewrite(schema).fields["properties"] == RewriteAt("properties", value);
    if instance.Obj? {
      forall name | name in value.fields && name in instance.fields
        ensures Valid(leaf, Greater(value.fields[name], up), instance.fields[name])
      {
        RewriteIsDirected(leaf, value.fields[name], instance.fields[name], up);
      }
    }
  }

  lemma {:induction false} ListIsDirected(leaf: Leaf, schema: Json, key: string, instance: Json, up: bool)
    requires schema.Obj? && key in {"prefixItems", "allOf", "anyOf"} && key in schema.fields
    requires schema.fields[key].Arr? && DirectedAt(schema, key, up) && Holds(leaf, Lesser(schema, up), key, instance)
    ensures Holds(leaf, Greater(schema, up), key, instance)
    decreases schema, 0, 0
  {
    var value := schema.fields[key];
    assert Rewrite(schema).fields[key] == RewriteAt(key, value);
    var lesser, greater := Lesser(schema, up).fields[key].items, Greater(schema, up).fields[key].items;
    assert forall i :: 0 <= i < |value.items| ==>
        lesser[i] == Lesser(value.items[i], up) && greater[i] == Greater(value.items[i], up);
    forall i, x | 0 <= i < |value.items| && Valid(leaf, lesser[i], x) ensures Valid(leaf, greater[i], x) {
      RewriteIsDirected(leaf, value.items[i], x, up);
    }
  }

  lemma RewrittenChoice(schema: Json)
    requires schema.Obj? && "oneOf" in schema.fields && schema.fields["oneOf"].Arr?
    ensures var after := Rewrite(schema);
            && after.Obj? && "oneOf" in after.fields && after.fields["oneOf"].Arr?
            && |after.fields["oneOf"].items| == |schema.fields["oneOf"].items|
            && forall i :: 0 <= i < |schema.fields["oneOf"].items| ==>
                 after.fields["oneOf"].items[i] == Rewrite(schema.fields["oneOf"].items[i])
  {
    assert Rewrite(schema).fields["oneOf"] == RewriteAt("oneOf", schema.fields["oneOf"]);
  }

  lemma {:induction false} ChoiceIsKept(leaf: Leaf, schema: Json, instance: Json)
    requires schema.Obj? && "oneOf" in schema.fields && schema.fields["oneOf"].Arr?
    requires DirectedAt(schema, "oneOf", true)
    ensures Holds(leaf, Rewrite(schema), "oneOf", instance) <==> Holds(leaf, schema, "oneOf", instance)
    decreases schema, 0, 0
  {
    hide Valid, OnlyOne, Directed, Clean, Rewrite;
    var before := schema.fields["oneOf"].items;
    RewrittenChoice(schema);
    var after := Rewrite(schema).fields["oneOf"].items;
    forall i | 0 <= i < |before| ensures Valid(leaf, after[i], instance) == Valid(leaf, before[i], instance) {
      RewriteKeepsMeaning(leaf, before[i], instance);
    }
    assert seq(|before|, i requires 0 <= i < |before| => Valid(leaf, before[i], instance))
        == seq(|after|, i requires 0 <= i < |after| => Valid(leaf, after[i], instance));
  }

  /** Under two negations the rewrite widens again. */
  lemma DoubleNegationWidens(leaf: Leaf, schema: Json, instance: Json)
    requires Directed(schema, true)
    requires Valid(leaf, Obj(map["not" := Obj(map["not" := schema])]), instance)
    ensures Valid(leaf, Rewrite(Obj(map["not" := Obj(map["not" := schema])])), instance)
  {
    var inner := Obj(map["not" := schema]);
    assert DirectedAt(inner, "not", false);
    assert DirectedAt(Obj(map["not" := inner]), "not", true);
    RewriteAcceptsNoLess(leaf, Obj(map["not" := inner]), instance);
  }

  lemma NegationMeaning(leaf: Leaf, schema: Json, instance: Json)
    ensures Valid(leaf, Obj(map["not" := schema]), instance) == !Valid(leaf, schema, instance)
  {
    var negation := Obj(map["not" := schema]);
    assert Holds(leaf, negation, "not", instance) == !Valid(leaf, schema, instance);
  }

  lemma RewriteOfNegation(schema: Json)
    ensures Rewrite(Obj(map["not" := schema])) == Obj(map["not" := Rewrite(schema)])
  {
    assert HoldsSchema("not") && RewriteAt("not", schema) == Rewrite(schema);
  }

  /** A negation rejects what it accepted exactly where the schema under it accepts what it rejected. */
  lemma NegationNarrowsExactly(leaf: Leaf, schema: Json, instance: Json)
    ensures var negation := Obj(map["not" := schema]);
            Valid(leaf, negation, instance) && !Valid(leaf, Rewrite(negation), instance) <==>
            !Valid(leaf, schema, instance) && Valid(leaf, Rewrite(schema), instance)
  {
    hide Valid, Rewrite;
    NegationMeaning(leaf, schema, instance);
    NegationMeaning(leaf, Rewrite(schema), instance);
    RewriteOfNegation(schema);
  }

  /** So there are schemas on which the rewrite narrows: the condition on `not` cannot be dropped. */
  lemma NegationCanNarrow(leaf: Leaf)
    ensures var schema := Obj(map["not" := Obj(map[CLOSED := Bool(false)])]);
            var instance := Obj(map["extra" := Null]);
            Valid(leaf, schema, instance) && !Valid(leaf, Rewrite(schema), instance)
  {
    var closed := Obj(map[CLOSED := Bool(false)]);
    var instance := Obj(map["extra" := Null]);
    NegationNarrowsExactly(leaf, closed, instance);
    assert !Valid(leaf, Bool(false), instance.fields["extra"]);
    assert !Holds(leaf, closed, CLOSED, instance);
    assert Rewrite(closed) == Obj(map[]);
  }
}
