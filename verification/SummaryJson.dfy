/** Validation of model output and the JSON form in which a summary is stored. */
module SummaryJson {
  import opened Prelude

  /** A JSON value. Objects are maps because a JSON column does not keep the order of its keys. */
  datatype Json =
    | JNull
    | JBool(truth: bool)
    | JNumber(number: int)
    | JString(text: string)
    | JArray(items: seq<Json>)
    | JObject(fields: map<string, Json>)

  /** A string slice; a nil slice and an empty one are different values once they are serialised. */
  datatype Slice = Nil | Slice(elems: seq<string>)

  datatype Summary = Summary(summary: string, keyPoints: Slice, todos: Slice)

  datatype ParseError =
    | TopLevelNull | WrongType | UnknownField | Missing(field: string) | EmptySummary | EmptyElement(field: string)

  const SUMMARY := "summary"
  const KEY_POINTS := "key_points"
  const TODOS := "todos"

  /** What the domain calls a valid summary. */
  predicate Valid(s: Summary) {
    && s.summary != ""
    && s.keyPoints.Slice? && "" !in s.keyPoints.elems
    && s.todos.Slice? && "" !in s.todos.elems
  }

  function EncodeSlice(s: Slice): Json {
    match s
    case Nil => JNull
    case Slice(elems) => JArray(seq(|elems|, i requires 0 <= i < |elems| => JString(elems[i])))
  }

  /** The stored form written by CompleteTask. */
  function Encode(s: Summary): Json {
    JObject(map[SUMMARY := JString(s.summary),
                KEY_POINTS := EncodeSlice(s.keyPoints),
                TODOS := EncodeSlice(s.todos)])
  }

  /** Decoding an optional string field: null leaves it absent. */
  function DecodeString(o: map<string, Json>, field: string): Result<Option<string>, ParseError> {
    if field !in o || o[field].JNull? then Ok(None)
    else if o[field].JString? then Ok(Some(o[field].text))
    else Err(WrongType)
  }

  /** Decoding an array into []string: a null element leaves the empty string behind. */
  function DecodeItems(items: seq<Json>): Result<seq<string>, ParseError> {
    if forall i :: 0 <= i < |items| ==> items[i].JString? || items[i].JNull? then
      Ok(seq(|items|, i requires 0 <= i < |items| => if items[i].JString? then items[i].text else ""))
    else Err(WrongType)
  }

  function DecodeStrings(o: map<string, Json>, field: string): Result<Option<seq<string>>, ParseError> {
    if field !in o || o[field].JNull? then Ok(None)
    else if o[field].JArray? then
      match DecodeItems(o[field].items)
      case Ok(elems) => Ok(Some(elems))
      case Err(e) => Err(e)
    else Err(WrongType)
  }

  /** checkNonEmptyElements: a scan that stops at the first empty string. */
  method CheckNonEmptyElements(items: seq<string>) returns (ok: bool)
    ensures ok <==> "" !in items
  {
    for i := 0 to |items|
      invariant "" !in items[..i]
    {
      if items[i] == "" {
        return false;
      }
    }
    return true;
  }

  /** ParseSummary on JSON values: decode with unknown fields refused, then presence, then content. */
  function Parse(j: Json): Result<Summary, ParseError> {
    if j.JNull? then Err(TopLevelNull)
    else if !j.JObject? then Err(WrongType)
    else if !(j.fields.Keys <= {SUMMARY, KEY_POINTS, TODOS}) then Err(UnknownField)
    else
      match (DecodeString(j.fields, SUMMARY), DecodeStrings(j.fields, KEY_POINTS), DecodeStrings(j.fields, TODOS))
      case (Ok(summary), Ok(keyPoints), Ok(todos)) =>
        if summary.None? then Err(Missing(SUMMARY))
        else if keyPoints.None? then Err(Missing(KEY_POINTS))
        else if todos.None? then Err(Missing(TODOS))
        else if summary.value == "" then Err(EmptySummary)
        else if "" in keyPoints.value then Err(EmptyElement(KEY_POINTS))
        else if "" in todos.value then Err(EmptyElement(TODOS))
        else Ok(Summary(summary.value, Slice(keyPoints.value), Slice(todos.value)))
      case _ => Err(WrongType)
  }

  /** The document of a list of strings, a nil list being null. */
  predicate WritesList(s: Slice, j: Json) {
    if s.Nil? then j.JNull?
    else j.JArray? && |j.items| == |s.elems| && forall i :: 0 <= i < |j.items| ==> j.items[i] == JString(s.elems[i])
  }

  /** The document of a summary: three fields under the names of the interface, each holding its own part. */
  predicate Writes(s: Summary, j: Json) {
    && j.JObject? && j.fields.Keys == {"summary", "key_points", "todos"}
    && j.fields["summary"] == JString(s.summary)
    && WritesList(s.keyPoints, j.fields["key_points"])
    && WritesList(s.todos, j.fields["todos"])
  }

  lemma EncodeWrites(s: Summary)
    ensures Writes(s, Encode(s))
  {
    FieldNamesDiffer();
  }

  /** What is read from a document is what its fields say. */
  lemma ParseReads(j: Json)
    requires Parse(j).Ok?
    ensures Writes(Parse(j).value, j)
  {
    ParseAccepts(j);
    EncodeWrites(Parse(j).value);
  }

  lemma FieldNamesDiffer()
    ensures SUMMARY != KEY_POINTS && KEY_POINTS != TODOS && SUMMARY != TODOS
  {
    assert SUMMARY[0] == 's' && KEY_POINTS[0] == 'k' && TODOS[0] == 't';
  }

  lemma DecodeOfEncodedSlice(s: Slice)
    ensures s.Slice? ==> DecodeItems(EncodeSlice(s).items) == Ok(s.elems)
  {
    if s.Slice? {
      var items := EncodeSlice(s).items;
      assert forall i :: 0 <= i < |items| ==> items[i].JString?;
      assert DecodeItems(items).value == s.elems;
    }
  }

  /** What is stored parses back to the same summary exactly when the summary was valid;
      in particular a nil slice is stored as null and can no longer be read. */
  lemma RoundTrip(s: Summary)
    ensures Parse(Encode(s)) == Ok(s) <==> Valid(s)
    ensures Parse(Encode(s)).Ok? <==> Valid(s)
  {
    FieldNamesDiffer();
    DecodeOfEncodedSlice(s.keyPoints);
    DecodeOfEncodedSlice(s.todos);
  }

  predicate StringArray(j: Json) {
    j.JArray? && forall i :: 0 <= i < |j.items| ==> j.items[i].JString? && j.items[i].text != ""
  }

  /** Exactly the documents the strict validation is documented to accept. */
  predicate WellFormed(j: Json) {
    && j.JObject?
    && j.fields.Keys == {SUMMARY, KEY_POINTS, TODOS}
    && j.fields[SUMMARY].JString? && j.fields[SUMMARY].text != ""
    && StringArray(j.fields[KEY_POINTS])
    && StringArray(j.fields[TODOS])
  }

  lemma ItemsDecode(j: Json)
    requires j.JArray?
    ensures StringArray(j) <==> DecodeItems(j.items).Ok? && "" !in DecodeItems(j.items).value
    ensures StringArray(j) ==> EncodeSlice(Slice(DecodeItems(j.items).value)) == j
  {
    var d := DecodeItems(j.items);
    if d.Ok? {
      assert |d.value| == |j.items|;
      if "" !in d.value {
        forall i | 0 <= i < |j.items| ensures j.items[i].JString? && j.items[i].text != "" {
          assert d.value[i] in d.value;
        }
      }
      if StringArray(j) {
        assert EncodeSlice(Slice(d.value)).items == j.items;
      }
    }
  }

  /** Acceptance is decided by the shape alone, every accepted value is valid, and storing it
      again gives the very document that was read. */
  lemma ParseAccepts(j: Json)
    ensures Parse(j).Ok? <==> WellFormed(j)
    ensures Parse(j).Ok? ==> Valid(Parse(j).value) && Encode(Parse(j).value) == j
  {
    FieldNamesDiffer();
    if j.JObject? && j.fields.Keys <= {SUMMARY, KEY_POINTS, TODOS} {
      if KEY_POINTS in j.fields && j.fields[KEY_POINTS].JArray? { ItemsDecode(j.fields[KEY_POINTS]); }
      if TODOS in j.fields && j.fields[TODOS].JArray? { ItemsDecode(j.fields[TODOS]); }
      if Parse(j).Ok? {
        assert SUMMARY in j.fields && KEY_POINTS in j.fields && TODOS in j.fields;
        assert j.fields.Keys == {SUMMARY, KEY_POINTS, TODOS};
        var e := Encode(Parse(j).value);
        assert e.fields.Keys == j.fields.Keys;
        assert e.fields == j.fields;
      }
    }
  }

  predicate Absent(o: map<string, Json>, field: string) {
    field !in o || o[field].JNull?
  }

  predicate StringsOrNulls(j: Json) {
    j.JArray? && forall i :: 0 <= i < |j.items| ==> j.items[i].JString? || j.items[i].JNull?
  }

  /** In a document whose present fields have the right types, a missing field is told apart from an empty list,
      and the first one that is missing is named. */
  lemma MissingIsNamed(j: Json)
    requires j.JObject? && j.fields.Keys <= {"summary", "key_points", "todos"}
    requires Absent(j.fields, "summary") || j.fields["summary"].JString?
    requires Absent(j.fields, "key_points") || StringsOrNulls(j.fields["key_points"])
    requires Absent(j.fields, "todos") || StringsOrNulls(j.fields["todos"])
    ensures Parse(j) == Err(Missing("summary")) <==> Absent(j.fields, "summary")
    ensures Parse(j) == Err(Missing("key_points")) <==>
        !Absent(j.fields, "summary") && Absent(j.fields, "key_points")
    ensures Parse(j) == Err(Missing("todos")) <==>
        !Absent(j.fields, "summary") && !Absent(j.fields, "key_points") && Absent(j.fields, "todos")
    ensures Parse(j).Ok? || Parse(j).error.Missing? || Parse(j).error.EmptySummary? || Parse(j).error.EmptyElement?
  {
    FieldNamesDiffer();
  }
}
