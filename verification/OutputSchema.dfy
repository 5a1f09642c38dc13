/**
 A JSON schema made acceptable for structured outputs: every object closed, and
 the keywords that are refused moved into the description.
 */
module OutputSchema {
  import opened Json

  const FORMATS := {"date-time", "time", "date", "duration", "email", "hostname", "uri", "ipv4", "ipv6", "uuid"}

  const BOUNDS := {"minimum", "maximum", "exclusiveMinimum", "exclusiveMaximum", "multipleOf",
                   "minLength", "maxLength", "maxItems", "uniqueItems"}

  /** Maps of subschemas, keyed by name, not keywords. */
  const NAMED := {"properties", "$defs", "definitions"}

  type Fields = map<string, Value>

  /** How an object is written out as text. */
  type Writer = Fields -> string

  predicate Moves(k: string, v: Value) {
    || k in BOUNDS
    || (k == "format" && !(v.Str? && v.s in FORMATS))
    || (k == "minItems" && IsU64(v) && v.n > 1)
  }

  /** Neither dropped nor moved. */
  predicate Stays(k: string, v: Value) {
    k != "$schema" && !Moves(k, v)
  }

  predicate IsObjectSchema(m: Fields) {
    || "properties" in m
    || ("type" in m && (m["type"] == Str("object") || (m["type"].Arr? && Str("object") in m["type"].items)))
  }

  function Moved(m: Fields): Fields {
    map k | k in m && k != "$schema" && Moves(k, m[k]) :: m[k]
  }

  function Closed(out: Fields): Fields {
    if IsObjectSchema(out) then out["additionalProperties" := Bool(false)] else out
  }

  /** The keywords moved, told in the description. */
  function Noted(out: Fields, moved: Fields, write: Writer): Fields {
    if moved == map[] then out
    else if "description" in out && out["description"].Str? then
      out["description" := Str(out["description"].s + " " + write(moved))]
    else out["description" := Str(write(moved))]
  }

  function Convert(v: Value, write: Writer): Value
    decreases v, 1
  {
    match v
    case Obj(m) => Obj(Noted(Closed(ConvertKept(v, write)), Moved(m), write))
    case Arr(items) => Arr(seq(|items|, i requires 0 <= i < |items| => Convert(items[i], write)))
    case _ => v
  }

  /** The keywords that stay, each with its value converted. */
  function ConvertKept(v: Value, write: Writer): Fields
    requires v.Obj?
    decreases v, 0
  {
    map k | k in v.fields && Stays(k, v.fields[k]) :: ConvertField(k, v.fields[k], write)
  }

  function ConvertField(k: string, v: Value, write: Writer): Value
    decreases v, 2
  {
    if k !in NAMED then Convert(v, write)
    else if v.Obj? then Obj(ConvertNames(v, write))
    else Obj(map[])
  }

  function ConvertNames(v: Value, write: Writer): Fields
    requires v.Obj?
    decreases v, 0
  {
    map name | name in v.fields :: Convert(v.fields[name], write)
  }

  /** `output_schema`. */
  method OutputSchemaOf(schema: Value, write: Writer) returns (r: Value)
    ensures r == Convert(schema, write)
    decreases schema, 1
  {
    match schema {
      case Obj(m) =>
        var out, moved := SplitKeywords(schema, write);
        if IsObjectSchema(out) {
          out := out["additionalProperties" := Bool(false)];
        }
        if moved != map[] {
          var note := write(moved);
          var described := "description" in out && out["description"].Str?;
          var description := if described then out["description"].s + " " + note else note;
          out := out["description" := Str(description)];
        }
        r := Obj(out);
      case Arr(items) =>
        var done: seq<Value> := [];
        for i := 0 to |items|
          invariant |done| == i && forall j | 0 <= j < i :: done[j] == Convert(items[j], write)
        {
          var item := OutputSchemaOf(items[i], write);
          done := done + [item];
        }
        r := Arr(done);
      case _ =>
        r := schema;
    }
  }

  /** Field by field: what stays, converted, and what moves. */
  method SplitKeywords(schema: Value, write: Writer) returns (out: Fields, moved: Fields)
    requires schema.Obj?
    ensures out == ConvertKept(schema, write) && moved == Moved(schema.fields)
    decreases schema, 0
  {
    var m := schema.fields;
    out, moved := map[], map[];
    var todo := m.Keys;
    while todo != {}
      invariant todo <= m.Keys
      invariant out == map k | k in m && k !in todo && Stays(k, m[k]) :: ConvertField(k, m[k], write)
      invariant moved == map k | k in m && k !in todo && k != "$schema" && Moves(k, m[k]) :: m[k]
      decreases todo
    {
      var k :| k in todo;
      todo := todo - {k};
      if k != "$schema" {
        if Moves(k, m[k]) {
          moved := moved[k := m[k]];
        } else {
          var converted := ConvertOne(k, m[k], write);
          out := out[k := converted];
        }
      }
    }
  }

  method ConvertOne(k: string, v: Value, write: Writer) returns (r: Value)
    ensures r == ConvertField(k, v, write)
    decreases v, 2
  {
    if k in NAMED {
      var inner: Fields := map[];
      if v.Obj? {
        inner := ConvertEach(v, write);
      }
      r := Obj(inner);
    } else {
      r := OutputSchemaOf(v, write);
    }
  }

  method ConvertEach(v: Value, write: Writer) returns (inner: Fields)
    requires v.Obj?
    ensures inner == ConvertNames(v, write)
    decreases v, 0
  {
    var m := v.fields;
    inner := map[];
    var todo := m.Keys;
    while todo != {}
      invariant todo <= m.Keys
      invariant inner == map name | name in m && name !in todo :: Convert(m[name], write)
      decreases todo
    {
      var name :| name in todo;
      var converted := OutputSchemaOf(m[name], write);
      inner := inner[name := converted];
      todo := todo - {name};
    }
  }

  // -- what structured outputs accept ---------------------------------------------

  /** A keyword the API takes: no schema version, no bounds on numbers, lengths
      or items but at least one, and only the formats it knows. */
  predicate Taken(k: string, v: Value) {
    && k !in {"$schema", "minimum", "maximum", "exclusiveMinimum", "exclusiveMaximum", "multipleOf", "minLength",
              "maxLength", "maxItems", "uniqueItems"}
    && (k == "format" ==>
          v.Str? && v.s in {"date-time", "time", "date", "duration", "email", "hostname", "uri", "ipv4", "ipv6",
                            "uuid"})
    && (k == "minItems" ==> !(v.Num? && 1 < v.n < 0x1_0000_0000_0000_0000))
  }

  lemma StaysExactly(k: string, v: Value)
    ensures Stays(k, v) <==> Taken(k, v)
  {
    assert "format" !in BOUNDS && "minItems" !in BOUNDS && "$schema" !in BOUNDS;
  }

  /** It describes objects: by its properties, its type, or one of its types. */
  predicate OfObjects(m: Fields) {
    || "properties" in m
    || ("type" in m
        && (m["type"] == Str("object")
            || (m["type"].Arr? && exists t :: t in m["type"].items && t == Str("object"))))
  }

  /** No keyword the API refuses, and every object schema closed, at every
      depth; the names in a map of subschemas are not keywords. */
  ghost predicate Accepted(v: Value)
    decreases v, 1
  {
    match v
    case Obj(m) =>
      && (forall k | k in m :: Taken(k, m[k]) && AcceptedField(k, m[k]))
      && (OfObjects(m) ==> "additionalProperties" in m && m["additionalProperties"] == Bool(false))
    case Arr(items) => forall i | 0 <= i < |items| :: Accepted(items[i])
    case _ => true
  }

  ghost predicate AcceptedField(k: string, v: Value)
    decreases v, 2
  {
    if k in {"properties", "$defs", "definitions"} then
      v.Obj? && forall name | name in v.fields :: Accepted(v.fields[name])
    else Accepted(v)
  }

  /** Closing and noting write two keywords, and neither is refused. */
  lemma WrittenKeywordsStay(note: string)
    ensures Stays("additionalProperties", Bool(false)) && AcceptedField("additionalProperties", Bool(false))
    ensures Stays("description", Str(note)) && AcceptedField("description", Str(note))
  {
    assert |"additionalProperties"| == 20 && |"description"| == 11;
    assert forall k | k in BOUNDS + NAMED :: |k| != 20 && (|k| == 11 ==> k[0] == 'd' ==> k[2] == 'f');
    assert "description"[2] == 's';
  }

  /** What closing and noting do to the keywords that stayed. */
  lemma FinishedFields(kept: Fields, moved: Fields, write: Writer)
    ensures
      var out := Noted(Closed(kept), moved, write);
      && (forall k | k in kept && k != "additionalProperties" && k != "description" :: k in out && out[k] == kept[k])
      && (forall k | k in out ::
            || k in kept || (k == "additionalProperties" && IsObjectSchema(kept))
            || (k == "description" && moved != map[]))
      && (IsObjectSchema(out) <==> IsObjectSchema(kept))
      && (if IsObjectSchema(kept) then "additionalProperties" in out && out["additionalProperties"] == Bool(false)
          else "additionalProperties" in kept ==>
            "additionalProperties" in out && out["additionalProperties"] == kept["additionalProperties"])
      && (if moved == map[] then
            "description" in kept ==> "description" in out && out["description"] == kept["description"]
          else "description" in out && out["description"] == Str(
            (if "description" in kept && kept["description"].Str? then kept["description"].s + " " else "")
              + write(moved)))
  {
    assert "additionalProperties"[0] != "description"[0];
    assert "" + write(moved) == write(moved);
  }

  lemma FinishedIsAccepted(kept: Fields, moved: Fields, write: Writer)
    requires forall k | k in kept :: Stays(k, kept[k]) && AcceptedField(k, kept[k])
    ensures Accepted(Obj(Noted(Closed(kept), moved, write)))
  {
    var out := Noted(Closed(kept), moved, write);
    FinishedFields(kept, moved, write);
    forall k | k in out ensures Taken(k, out[k]) && AcceptedField(k, out[k]) {
      StaysExactly(k, out[k]);
      if k == "additionalProperties" && IsObjectSchema(kept) {
        WrittenKeywordsStay("");
      } else if k == "description" && moved != map[] {
        WrittenKeywordsStay(out[k].s);
      } else {
        assert k in kept && out[k] == kept[k];
      }
    }
  }

  lemma {:induction false} ConvertIsAccepted(v: Value, write: Writer)
    ensures Accepted(Convert(v, write))
    decreases v, 1
  {
    match v {
      case Obj(m) =>
        var kept := ConvertKept(v, write);
        forall k | k in kept ensures Stays(k, kept[k]) && AcceptedField(k, kept[k]) {
          FieldIsAccepted(k, m[k], write);
        }
        FinishedIsAccepted(kept, Moved(m), write);
      case Arr(items) =>
        forall i | 0 <= i < |items| ensures Accepted(Convert(items[i], write)) {
          ConvertIsAccepted(items[i], write);
        }
      case _ =>
    }
  }

  lemma {:induction false} FieldIsAccepted(k: string, v: Value, write: Writer)
    requires Stays(k, v)
    ensures Stays(k, ConvertField(k, v, write)) && AcceptedField(k, ConvertField(k, v, write))
    decreases v, 2
  {
    if k !in NAMED {
      ConvertIsAccepted(v, write);
    } else if v.Obj? {
      forall name | name in v.fields ensures Accepted(Convert(v.fields[name], write)) {
        ConvertIsAccepted(v.fields[name], write);
      }
    }
  }

  /** What is accepted already is left alone. */
  lemma {:induction false} AcceptedIsUnchanged(v: Value, write: Writer)
    requires Accepted(v)
    ensures Convert(v, write) == v
    decreases v, 1
  {
    match v {
      case Obj(m) =>
        forall k | k in m ensures ConvertField(k, m[k], write) == m[k] && Stays(k, m[k]) {
          FieldIsUnchanged(k, m[k], write);
          StaysExactly(k, m[k]);
        }
        assert ConvertKept(v, write) == m;
        assert Moved(m) == map[];
      case Arr(items) =>
        forall i | 0 <= i < |items| ensures Convert(items[i], write) == items[i] {
          AcceptedIsUnchanged(items[i], write);
        }
      case _ =>
    }
  }

  lemma {:induction false} FieldIsUnchanged(k: string, v: Value, write: Writer)
    requires AcceptedField(k, v)
    ensures ConvertField(k, v, write) == v
    decreases v, 2
  {
    if k !in NAMED {
      AcceptedIsUnchanged(v, write);
    } else {
      forall name | name in v.fields ensures Convert(v.fields[name], write) == v.fields[name] {
        AcceptedIsUnchanged(v.fields[name], write);
      }
      assert ConvertNames(v, write) == v.fields;
    }
  }

  /** The fixed points are exactly the schemas the API accepts, and one pass
      reaches one: converting twice is converting once. */
  lemma ConvertFixesExactlyTheAccepted(v: Value, write: Writer)
    ensures Convert(v, write) == v <==> Accepted(v)
    ensures Convert(Convert(v, write), write) == Convert(v, write)
  {
    ConvertIsAccepted(v, write);
    AcceptedIsUnchanged(Convert(v, write), write);
    if Accepted(v) {
      AcceptedIsUnchanged(v, write);
    }
  }

  /** Nothing is lost: each keyword stays with its value converted, or is told
      in the description behind what it said before. Only the closing keyword
      and the description are written over. */
  lemma ConvertKeepsKeywords(m: Fields, write: Writer)
    ensures
      var out := Convert(Obj(m), write).fields;
      && (forall k | k in m && Stays(k, m[k]) && k != "additionalProperties" && k != "description" ::
            k in out && out[k] == ConvertField(k, m[k], write))
      && (forall k | k in out :: (k in m && Stays(k, m[k])) || k == "additionalProperties" || k == "description")
  {
    var kept := ConvertKept(Obj(m), write);
    FinishedFields(kept, Moved(m), write);
    assert forall k | k in kept :: k in m && Stays(k, m[k]);
  }

  /** The description: what it was, then the keywords moved, if any were. */
  lemma ConvertTellsWhatMoved(m: Fields, write: Writer)
    requires Moved(m) != map[]
    ensures
      var out := Convert(Obj(m), write).fields;
      "description" in out && out["description"] == Str(
        (if "description" in m && m["description"].Str? then m["description"].s + " " else "") + write(Moved(m)))
  {
    var kept := ConvertKept(Obj(m), write);
    FinishedFields(kept, Moved(m), write);
    DescriptionConverts(m, write);
  }

  lemma DescriptionConverts(m: Fields, write: Writer)
    ensures "description" in ConvertKept(Obj(m), write) <==> "description" in m
    ensures "description" in m ==> ConvertKept(Obj(m), write)["description"] == Convert(m["description"], write)
  {
    WrittenKeywordsStay("");
    assert "description" !in NAMED;
  }

  /** Keywords whose values are data, not schemas. */
  const DATA := {"const", "enum", "default", "examples"}

  lemma DataStays(k: string, v: Value)
    requires k in DATA
    ensures Stays(k, v) && k !in NAMED && k != "additionalProperties" && k != "description"
  {
    assert 0 < |k| <= 8 && (k[0] == 'c' || k[0] == 'd' || k[0] == 'e');
    OtherwiseNamed(k);
  }

  lemma OtherwiseNamed(k: string)
    requires 0 < |k| <= 8 && (k[0] == 'c' || k[0] == 'd' || k[0] == 'e')
    ensures k !in BOUNDS && k !in NAMED
    ensures k !in {"$schema", "format", "minItems", "additionalProperties", "description"}
  {
    assert forall b | b in BOUNDS + NAMED :: |b| > 8 || b[0] == 'm' || b[0] == 'u' || b[0] == '$';
  }

  /** Data is converted as a schema is, so it is kept exactly when it could be
      one that is accepted. */
  lemma DataIsKeptExactly(m: Fields, k: string, write: Writer)
    requires k in DATA && k in m
    ensures
      var out := Convert(Obj(m), write).fields;
      k in out && (out[k] == m[k] <==> Accepted(m[k]))
  {
    DataStays(k, m[k]);
    ConvertKeepsKeywords(m, write);
    ConvertFixesExactlyTheAccepted(m[k], write);
  }

  /** It need not be: this constant comes to be another. */
  lemma ConstIsChanged(write: Writer)
    ensures
      var data := map["type" := Str("object")];
      var out := Convert(Obj(map["const" := Obj(data)]), write).fields;
      "const" in out && out["const"] == Obj(data["additionalProperties" := Bool(false)])
  {
    var data := map["type" := Str("object")];
    var m := map["const" := Obj(data)];
    DataStays("const", m["const"]);
    ConvertKeepsKeywords(m, write);
    TypeIsKept(data, write);
  }

  lemma TypeIsKept(data: Fields, write: Writer)
    requires data == map["type" := Str("object")]
    ensures Convert(Obj(data), write) == Obj(data["additionalProperties" := Bool(false)])
  {
    assert forall b | b in BOUNDS + NAMED :: b[0] != 't';
    assert ConvertKept(Obj(data), write) == data;
    assert Moved(data) == map[];
  }

  /** A map of subschemas keeps every name, each with its schema converted. */
  lemma ConvertKeepsNames(m: Fields, k: string, write: Writer)
    requires k in m && k in NAMED && m[k].Obj? && Stays(k, m[k])
    ensures
      var out := Convert(Obj(m), write).fields;
      && k in out && out[k].Obj? && out[k].fields.Keys == m[k].fields.Keys
      && forall name | name in m[k].fields :: out[k].fields[name] == Convert(m[k].fields[name], write)
  {
    WrittenKeywordsStay("");
    ConvertKeepsKeywords(m, write);
    assert "additionalProperties" !in NAMED && "description" !in NAMED;
    assert ConvertField(k, m[k], write) == Obj(ConvertNames(m[k], write));
    assert ConvertNames(m[k], write).Keys == m[k].fields.Keys;
  }
}
