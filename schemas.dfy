/**
 * The argument schemas of the five note tools, as validate-and-default
 * functions. An object schema keeps only its own keys (unknown keys are
 * stripped), fills in defaults for absent keys, and refuses the whole input
 * when any field is wrong.
 */
module Schemas {
  import opened Wrappers
  import opened Json

  /** The constraint on one key. */
  datatype Rule =
    | Text                                  // required string
    | OptionalText                          // optional string
    | OptionalTextList                      // optional array of strings
    | IntIn(lo: int, hi: int, intDefault: int) // integer in lo..hi, default when absent
    | Flag(flagDefault: bool)               // boolean, default when absent

  datatype Field = Field(key: string, rule: Rule)

  /** What a rule makes of a key's value: keep a value, omit the key, or refuse. */
  datatype FieldOutcome = Keep(v: Value) | Omit | Bad

  datatype ParseError =
    | NotAnObject                      // the arguments are missing or not a JSON object
    | InvalidFields(keys: seq<string>) // the keys whose values break their rule, in schema order

  predicate AllText(items: seq<Value>)
  {
    forall i :: 0 <= i < |items| ==> items[i].Str?
  }

  function Lookup(m: map<string, Value>, key: string): Option<Value>
  {
    if key in m then Some(m[key]) else None
  }

  /** One rule applied to the value found under its key (`None` when absent). */
  function Check(rule: Rule, found: Option<Value>): (o: FieldOutcome)
    ensures found.Some? && o.Keep? ==> o.v == found.value
    ensures found.None? ==> (o.Keep? <==> rule.IntIn? || rule.Flag?)
  {
    match rule
    case Text =>
      if found.Some? && found.value.Str? then Keep(found.value) else Bad
    case OptionalText =>
      if found.None? then Omit else if found.value.Str? then Keep(found.value) else Bad
    case OptionalTextList =>
      if found.None? then Omit
      else if found.value.Arr? && AllText(found.value.items) then Keep(found.value)
      else Bad
    case IntIn(lo, hi, fallback) =>
      if found.None? then Keep(Num(fallback as real))
      else if found.value.Num? && IsInteger(found.value.n) && lo as real <= found.value.n <= hi as real
      then Keep(found.value)
      else Bad
    case Flag(fallback) =>
      if found.None? then Keep(Bool(fallback))
      else if found.value.Bool? then Keep(found.value)
      else Bad
  }

  function KeysOf(schema: seq<Field>): set<string>
  {
    set i | 0 <= i < |schema| :: schema[i].key
  }

  predicate DistinctKeys(schema: seq<Field>)
  {
    forall i, j :: 0 <= i < j < |schema| ==> schema[i].key != schema[j].key
  }

  /** The output object: every kept field under its key, nothing else. */
  function Output(schema: seq<Field>, input: map<string, Value>): (out: map<string, Value>)
    requires DistinctKeys(schema)
    ensures out.Keys <= KeysOf(schema)
    ensures forall i :: 0 <= i < |schema| ==>
      var o := Check(schema[i].rule, Lookup(input, schema[i].key));
      (o.Keep? ==> schema[i].key in out && out[schema[i].key] == o.v)
      && (!o.Keep? ==> schema[i].key !in out)
  {
    if schema == [] then map[]
    else
      var rest := Output(schema[1..], input);
      assert forall i :: 1 <= i < |schema| ==> schema[i] == schema[1..][i - 1];
      assert KeysOf(schema) == {schema[0].key} + KeysOf(schema[1..]);
      match Check(schema[0].rule, Lookup(input, schema[0].key))
      case Keep(v) => rest[schema[0].key := v]
      case _ => rest
  }

  /** The keys whose values break their rule, in schema order. */
  function BadKeys(schema: seq<Field>, input: map<string, Value>): (bad: seq<string>)
    ensures bad == [] <==> forall i :: 0 <= i < |schema| ==> !Check(schema[i].rule, Lookup(input, schema[i].key)).Bad?
  {
    if schema == [] then []
    else
      var rest := BadKeys(schema[1..], input);
      assert forall i :: 1 <= i < |schema| ==> schema[i] == schema[1..][i - 1];
      if Check(schema[0].rule, Lookup(input, schema[0].key)).Bad? then [schema[0].key] + rest else rest
  }

  /** `schema.parse(args)`. */
  function Parse(schema: seq<Field>, args: Option<Value>): (r: Result<map<string, Value>, ParseError>)
    requires DistinctKeys(schema)
    ensures r.Success? <==>
      && args.Some? && args.value.Obj?
      && forall i :: 0 <= i < |schema| ==> !Check(schema[i].rule, Lookup(args.value.fields, schema[i].key)).Bad?
    ensures r.Success? ==> r.value == Output(schema, args.value.fields)
    ensures (args.None? || !args.value.Obj?) ==> r == Failure(NotAnObject)
  {
    if args.None? || !args.value.Obj? then Failure(NotAnObject)
    else
      var bad := BadKeys(schema, args.value.fields);
      if bad != [] then Failure(InvalidFields(bad)) else Success(Output(schema, args.value.fields))
  }

  const CreateNoteSchema: seq<Field> := [
    Field("title", Text), Field("content", OptionalText),
    Field("parentId", OptionalText), Field("tags", OptionalTextList)]

  const SearchSchema: seq<Field> := [
    Field("query", Text), Field("limit", IntIn(1, 100, 20)), Field("includeContent", Flag(false))]

  const ReadNoteSchema: seq<Field> := [
    Field("remId", Text), Field("depth", IntIn(0, 10, 3))]

  const UpdateNoteSchema: seq<Field> := [
    Field("remId", Text), Field("title", OptionalText), Field("appendContent", OptionalText),
    Field("addTags", OptionalTextList), Field("removeTags", OptionalTextList)]

  const AppendJournalSchema: seq<Field> := [
    Field("content", Text), Field("timestamp", Flag(true))]

  lemma SchemasHaveDistinctKeys()
    ensures DistinctKeys(CreateNoteSchema) && DistinctKeys(SearchSchema) && DistinctKeys(ReadNoteSchema)
    ensures DistinctKeys(UpdateNoteSchema) && DistinctKeys(AppendJournalSchema)
  {
  }

  /**
   * A supplied value that passes its rule is never replaced: whatever key of
   * the schema the input carries comes out with the same value.
   */
  lemma SuppliedValuesKept(schema: seq<Field>, args: Option<Value>, i: nat)
    requires DistinctKeys(schema) && i < |schema|
    requires Parse(schema, args).Success?
    requires schema[i].key in args.value.fields
    ensures schema[i].key in Parse(schema, args).value
    ensures Parse(schema, args).value[schema[i].key] == args.value.fields[schema[i].key]
  {
    assert !Check(schema[i].rule, Lookup(args.value.fields, schema[i].key)).Bad?;
  }

  /** Keys outside the schema never reach the output. */
  lemma UnknownKeysStripped(schema: seq<Field>, args: Option<Value>, key: string)
    requires DistinctKeys(schema) && Parse(schema, args).Success?
    requires key !in KeysOf(schema)
    ensures key !in Parse(schema, args).value
  {
  }

  /** CreateNote needs a string title; content, parentId and tags are optional. */
  lemma CreateNoteRules(m: map<string, Value>)
    ensures Parse(CreateNoteSchema, Some(Obj(m))).Success? <==>
      && "title" in m && m["title"].Str?
      && ("content" in m ==> m["content"].Str?)
      && ("parentId" in m ==> m["parentId"].Str?)
      && ("tags" in m ==> m["tags"].Arr? && AllText(m["tags"].items))
  {
    var s := CreateNoteSchema;
    assert s[0].key == "title" && s[1].key == "content" && s[2].key == "parentId" && s[3].key == "tags";
  }

  /** Search: limit defaults to 20 and is an integer in 1..100; includeContent defaults to false. */
  lemma SearchRules(m: map<string, Value>)
    requires Parse(SearchSchema, Some(Obj(m))).Success?
    ensures var out := Parse(SearchSchema, Some(Obj(m))).value;
      && out.Keys == {"query", "limit", "includeContent"}
      && out["query"] == m["query"] && out["query"].Str?
      && out["limit"].Num? && IsInteger(out["limit"].n) && 1.0 <= out["limit"].n <= 100.0
      && ("limit" !in m ==> out["limit"] == Num(20.0))
      && out["includeContent"].Bool?
      && ("includeContent" !in m ==> out["includeContent"] == Bool(false))
  {
    var s := SearchSchema;
    assert s[0].key == "query" && s[1].key == "limit" && s[2].key == "includeContent";
    assert KeysOf(s) == {"query", "limit", "includeContent"};
  }

  /** A search limit outside 1..100, or not an integer, is refused. */
  lemma SearchLimitRange(m: map<string, Value>, n: real)
    requires "limit" in m && m["limit"] == Num(n)
    requires !IsInteger(n) || n < 1.0 || n > 100.0
    ensures Parse(SearchSchema, Some(Obj(m))).Failure?
  {
    assert SearchSchema[1] == Field("limit", IntIn(1, 100, 20));
    assert Check(SearchSchema[1].rule, Lookup(m, "limit")).Bad?;
  }

  /** ReadNote: depth defaults to 3 and is an integer in 0..10. */
  lemma ReadNoteRules(m: map<string, Value>)
    requires Parse(ReadNoteSchema, Some(Obj(m))).Success?
    ensures var out := Parse(ReadNoteSchema, Some(Obj(m))).value;
      && out.Keys == {"remId", "depth"}
      && out["remId"] == m["remId"] && out["remId"].Str?
      && out["depth"].Num? && IsInteger(out["depth"].n) && 0.0 <= out["depth"].n <= 10.0
      && ("depth" !in m ==> out["depth"] == Num(3.0))
  {
    var s := ReadNoteSchema;
    assert s[0].key == "remId" && s[1].key == "depth";
    assert KeysOf(s) == {"remId", "depth"};
  }

  /** A read depth outside 0..10, or not an integer, is refused. */
  lemma ReadNoteDepthRange(m: map<string, Value>, n: real)
    requires "depth" in m && m["depth"] == Num(n)
    requires !IsInteger(n) || n < 0.0 || n > 10.0
    ensures Parse(ReadNoteSchema, Some(Obj(m))).Failure?
  {
    assert ReadNoteSchema[1] == Field("depth", IntIn(0, 10, 3));
    assert Check(ReadNoteSchema[1].rule, Lookup(m, "depth")).Bad?;
  }

  /** A schema without defaults returns a valid input that has no foreign keys unchanged. */
  lemma ParseIdentity(schema: seq<Field>, m: map<string, Value>)
    requires DistinctKeys(schema) && Parse(schema, Some(Obj(m))).Success?
    requires m.Keys <= KeysOf(schema)
    requires forall i :: 0 <= i < |schema| ==> !schema[i].rule.IntIn? && !schema[i].rule.Flag?
    ensures Parse(schema, Some(Obj(m))).value == m
  {
    var out := Parse(schema, Some(Obj(m))).value;
    forall k | k in m ensures k in out && out[k] == m[k] {
      var i :| 0 <= i < |schema| && schema[i].key == k;
      SuppliedValuesKept(schema, Some(Obj(m)), i);
    }
    forall k | k in out ensures k in m {
      var i :| 0 <= i < |schema| && schema[i].key == k;
      assert Check(schema[i].rule, Lookup(m, k)).Keep?;
    }
  }

  /** UpdateNote needs only remId, and a valid input with no foreign keys comes back unchanged. */
  lemma UpdateNoteUnchanged(m: map<string, Value>)
    requires Parse(UpdateNoteSchema, Some(Obj(m))).Success?
    requires m.Keys <= KeysOf(UpdateNoteSchema)
    ensures Parse(UpdateNoteSchema, Some(Obj(m))).value == m
  {
    var s := UpdateNoteSchema;
    assert s[0].rule == Text && s[1].rule == OptionalText && s[2].rule == OptionalText;
    assert s[3].rule == OptionalTextList && s[4].rule == OptionalTextList;
    assert forall i :: 0 <= i < |s| ==> !s[i].rule.IntIn? && !s[i].rule.Flag?;
    ParseIdentity(s, m);
  }

  /** An UpdateNote input holding only a string remId is accepted. */
  lemma UpdateNoteOnlyRemId(remId: string)
    ensures Parse(UpdateNoteSchema, Some(Obj(map["remId" := Str(remId)]))) == Success(map["remId" := Str(remId)])
  {
    var m := map["remId" := Str(remId)];
    var s := UpdateNoteSchema;
    assert s[0].key == "remId" && s[1].key == "title" && s[2].key == "appendContent";
    assert s[3].key == "addTags" && s[4].key == "removeTags";
    assert Parse(s, Some(Obj(m))).Success?;
    assert m.Keys <= KeysOf(s);
    UpdateNoteUnchanged(m);
  }

  /** AppendJournal: timestamp defaults to true and must be a boolean; a supplied one is kept. */
  lemma AppendJournalRules(m: map<string, Value>)
    ensures "timestamp" in m && !m["timestamp"].Bool? ==> Parse(AppendJournalSchema, Some(Obj(m))).Failure?
    ensures Parse(AppendJournalSchema, Some(Obj(m))).Success? ==>
      var out := Parse(AppendJournalSchema, Some(Obj(m))).value;
      && out.Keys == {"content", "timestamp"}
      && out["timestamp"] == (if "timestamp" in m then m["timestamp"] else Bool(true))
  {
    var s := AppendJournalSchema;
    assert s[0].key == "content" && s[1].key == "timestamp";
    assert KeysOf(s) == {"content", "timestamp"};
    if "timestamp" in m && !m["timestamp"].Bool? {
      assert Check(s[1].rule, Lookup(m, "timestamp")).Bad?;
    }
  }
}
