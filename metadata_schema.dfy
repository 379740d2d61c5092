/**
  The metadata record the indexer asks the generation service for, and the
  zod schema (`zodMetadataSchema`) that validates the parsed JSON response.
  zod's default object mode drops keys outside the schema; every schema key
  must be present, `nullable` admits `null` but not a missing key.
*/
module MetadataSchema {
  import opened Wrappers

  /** A value produced by `JSON.parse`; object keys are unique after parsing. */
  datatype Json =
    | JNull
    | JBool(b: bool)
    | JNumber(n: real)
    | JString(s: string)
    | JArray(items: seq<Json>)
    | JObject(fields: map<string, Json>)

  datatype Metadata = Metadata(
    title: string,
    agency: Option<string>,
    year: Option<real>,
    topics: seq<string>)

  /** Why `zodMetadataSchema.parse` throws: not an object, or the schema keys whose values are invalid. */
  datatype SchemaError = ExpectedObject | InvalidFields(fields: set<string>)

  const SchemaKeys: set<string> := {"title", "agency", "year", "topics"}

  /** `z.array(z.string())` on the items of an array. */
  function Strings(items: seq<Json>): (r: Option<seq<string>>)
    ensures r.Some? <==> forall i :: 0 <= i < |items| ==> items[i].JString?
    ensures r.Some? ==> |r.value| == |items| && forall i :: 0 <= i < |items| ==> r.value[i] == items[i].s
  {
    if items == [] then Some([])
    else if !items[0].JString? then None
    else match Strings(items[1..])
      case None => None
      case Some(rest) => Some([items[0].s] + rest)
  }

  predicate TitleValid(fields: map<string, Json>)
  {
    "title" in fields && fields["title"].JString?
  }

  predicate AgencyValid(fields: map<string, Json>)
  {
    "agency" in fields && (fields["agency"].JString? || fields["agency"].JNull?)
  }

  predicate YearValid(fields: map<string, Json>)
  {
    "year" in fields && (fields["year"].JNumber? || fields["year"].JNull?)
  }

  predicate TopicsValid(fields: map<string, Json>)
  {
    "topics" in fields && fields["topics"].JArray? && Strings(fields["topics"].items).Some?
  }

  /** The schema keys whose values fail their field schema. */
  function InvalidKeys(fields: map<string, Json>): (bad: set<string>)
    ensures bad <= SchemaKeys
    ensures ("title" in bad <==> !TitleValid(fields)) && ("agency" in bad <==> !AgencyValid(fields))
      && ("year" in bad <==> !YearValid(fields)) && ("topics" in bad <==> !TopicsValid(fields))
  {
    (if TitleValid(fields) then {} else {"title"})
    + (if AgencyValid(fields) then {} else {"agency"})
    + (if YearValid(fields) then {} else {"year"})
    + (if TopicsValid(fields) then {} else {"topics"})
  }

  /** `zodMetadataSchema.parse(value)` */
  function ParseMetadata(value: Json): (r: Result<Metadata, SchemaError>)
    ensures r.Success? <==>
      value.JObject? && TitleValid(value.fields) && AgencyValid(value.fields)
      && YearValid(value.fields) && TopicsValid(value.fields)
    ensures r.Success? ==> var f := value.fields;
      && r.value.title == f["title"].s
      && r.value.agency == (if f["agency"].JNull? then None else Some(f["agency"].s))
      && r.value.year == (if f["year"].JNull? then None else Some(f["year"].n))
      && |r.value.topics| == |f["topics"].items|
      && (forall i :: 0 <= i < |r.value.topics| ==> f["topics"].items[i] == JString(r.value.topics[i]))
    ensures r.Failure? && !value.JObject? ==> r.error == ExpectedObject
    ensures r.Failure? && value.JObject? ==> r.error.InvalidFields? && r.error.fields != {}
    ensures r.Failure? && value.JObject? ==>
      && ("title" in r.error.fields <==> !TitleValid(value.fields))
      && ("agency" in r.error.fields <==> !AgencyValid(value.fields))
      && ("year" in r.error.fields <==> !YearValid(value.fields))
      && ("topics" in r.error.fields <==> !TopicsValid(value.fields))
  {
    if !value.JObject? then Failure(ExpectedObject)
    else
      var f := value.fields;
      var bad := InvalidKeys(f);
      if bad != {} then Failure(InvalidFields(bad))
      else
        Success(Metadata(
          f["title"].s,
          if f["agency"].JNull? then None else Some(f["agency"].s),
          if f["year"].JNull? then None else Some(f["year"].n),
          Strings(f["topics"].items).value))
  }

  /** The JSON object the generation service is asked to produce for a record. */
  function ToJson(m: Metadata): Json
  {
    JObject(map[
      "title" := JString(m.title),
      "agency" := (match m.agency case None => JNull case Some(a) => JString(a)),
      "year" := (match m.year case None => JNull case Some(y) => JNumber(y)),
      "topics" := JArray(seq(|m.topics|, i requires 0 <= i < |m.topics| => JString(m.topics[i])))])
  }

  /** Every record survives validation of its own JSON form unchanged. */
  lemma ParseToJson(m: Metadata)
    ensures ParseMetadata(ToJson(m)) == Success(m)
  {
    var f := ToJson(m).fields;
    var topics := Strings(f["topics"].items).value;
    assert topics == m.topics;
  }

  /** Keys outside the schema are stripped: they never change the outcome. */
  lemma UnknownKeysIgnored(fields: map<string, Json>, extra: map<string, Json>)
    requires extra.Keys !! SchemaKeys
    ensures ParseMetadata(JObject(fields + extra)) == ParseMetadata(JObject(fields))
  {
    var g := fields + extra;
    forall k | k in SchemaKeys
      ensures (k in g <==> k in fields) && (k in g ==> g[k] == fields[k])
    {
    }
    assert TitleValid(g) == TitleValid(fields);
    assert AgencyValid(g) == AgencyValid(fields);
    assert YearValid(g) == YearValid(fields);
    assert TopicsValid(g) == TopicsValid(fields);
  }

  /** A `topics` string is not coerced into a one-element list: validation throws. */
  lemma TopicsStringRejected(fields: map<string, Json>)
    requires "topics" in fields && fields["topics"].JString?
    ensures var r := ParseMetadata(JObject(fields));
      r.Failure? && r.error.InvalidFields? && "topics" in r.error.fields
  {
  }

  /**
    A response without `agency` and `year` is rejected rather than completed
    with nulls: both keys are reported.
  */
  lemma MissingNullableKeysRejected()
    ensures ParseMetadata(JObject(map["title" := JString("Q3 Report"), "topics" := JArray([JString("finance")])]))
      == Failure(InvalidFields({"agency", "year"}))
  {
    var f := map["title" := JString("Q3 Report"), "topics" := JArray([JString("finance")])];
    assert "agency" !in f && "year" !in f;
    assert Strings([JString("finance")]).Some?;
    assert InvalidKeys(f) == {"agency", "year"};
  }
}
