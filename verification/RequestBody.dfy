/**
 Validation of request bodies, headers and query parameters: the validators
 read a JSON value field by field, build a typed body and re-encode it.
 */
module RequestBody {
  import opened Common
  import opened Json

  const MAX_ROWS: nat := 100
  const MAX_KEY: nat := 200
  const MAX_VALUE: nat := 8192
  const MAX_FILE_NAME: nat := 255
  const MAX_CONTENT_TYPE: nat := 200
  const MAX_CONTENT_BYTES: nat := 0x10_0000

  // ------------------------------------------------------------- stored shapes

  datatype KeyValueRow = KeyValueRow(key: string, value: string, enabled: bool)

  datatype MultipartRow =
    | TextRow(key: string, value: string, enabled: bool)
    | FileRow(key: string, fileName: string, enabled: bool)

  datatype Body =
    | NoBody
    | RawBody(contentType: string, content: string)
    | FormBody(rows: seq<KeyValueRow>)
    | MultipartBody(parts: seq<MultipartRow>)

  function EncodeRow(r: KeyValueRow): Value {
    Obj(map["key" := Str(r.key), "value" := Str(r.value), "enabled" := Bool(r.enabled)])
  }

  function EncodePart(r: MultipartRow): Value {
    match r
    case TextRow(key, value, enabled) =>
      Obj(map["key" := Str(key), "kind" := Str("text"), "value" := Str(value), "enabled" := Bool(enabled)])
    case FileRow(key, fileName, enabled) =>
      Obj(map["key" := Str(key), "kind" := Str("file"), "file_name" := Str(fileName), "enabled" := Bool(enabled)])
  }

  function EncodeAll<R>(rows: seq<R>, encode: R -> Value): Value {
    Arr(seq(|rows|, i requires 0 <= i < |rows| => encode(rows[i])))
  }

  function Encode(b: Body): Value {
    match b
    case NoBody => Obj(map["type" := Str("none")])
    case RawBody(contentType, content) =>
      Obj(map["type" := Str("raw"), "content_type" := Str(contentType), "content" := Str(content)])
    case FormBody(rows) => Obj(map["type" := Str("form"), "fields" := EncodeAll(rows, EncodeRow)])
    case MultipartBody(parts) => Obj(map["type" := Str("multipart"), "fields" := EncodeAll(parts, EncodePart)])
  }

  // ------------------------------------------------------- what is acceptable

  predicate KeyOk(key: string) {
    |key| <= 200 && !AllSpace(key)
  }

  predicate RowOk(r: KeyValueRow) {
    KeyOk(r.key) && |r.value| <= 8192
  }

  predicate PartOk(r: MultipartRow) {
    KeyOk(r.key) && (if r.TextRow? then |r.value| <= 8192 else |r.fileName| <= 255)
  }

  predicate BodyOk(b: Body) {
    match b
    case NoBody => true
    case RawBody(contentType, content) =>
      |contentType| <= 200 && !AllSpace(contentType) && Utf8Length(content) <= 1_048_576
    case FormBody(rows) => |rows| <= 100 && forall i :: 0 <= i < |rows| ==> RowOk(rows[i])
    case MultipartBody(parts) => |parts| <= 100 && forall i :: 0 <= i < |parts| ==> PartOk(parts[i])
  }

  // ------------------------------------------------------------------ parsing

  /** A key: checked trimmed, kept as given. */
  function ParseKey(fields: Fields): Result<string, Problem> {
    match RowString(fields, "key", MAX_KEY)
    case Err(p) => Err(p)
    case Ok(key) => if TrimSpace(key) == [] then Err(Required("key")) else Ok(key)
  }

  /** `parseKeyValueRow`. */
  function ParseRow(v: Value): Result<KeyValueRow, Problem> {
    if !v.Obj? then Err(NotAnObject)
    else if v.fields.Keys - {"key", "value", "enabled"} != {} then
      Err(UnknownFields(v.fields.Keys - {"key", "value", "enabled"}))
    else
      match ParseKey(v.fields)
      case Err(p) => Err(p)
      case Ok(key) =>
        match RowString(v.fields, "value", MAX_VALUE)
        case Err(p) => Err(p)
        case Ok(value) =>
          match RowBool(v.fields, "enabled")
          case Err(p) => Err(p)
          case Ok(enabled) => Ok(KeyValueRow(key, value, enabled))
  }

  /** `multipartRowFields`. */
  function PartFields(kind: string): set<string> {
    if kind == "text" then {"key", "kind", "value", "enabled"} else {"key", "kind", "file_name", "enabled"}
  }

  /** `parseMultipartRow`. */
  function ParsePart(v: Value): Result<MultipartRow, Problem> {
    if !v.Obj? then Err(NotAnObject)
    else
      match OneOf(v.fields, "kind", {"text", "file"})
      case Err(p) => Err(p)
      case Ok(kind) =>
        if v.fields.Keys - PartFields(kind) != {} then Err(UnknownFields(v.fields.Keys - PartFields(kind)))
        else
          match ParseKey(v.fields)
          case Err(p) => Err(p)
          case Ok(key) =>
            match RowBool(v.fields, "enabled")
            case Err(p) => Err(p)
            case Ok(enabled) =>
              if kind == "file" then
                match RowString(v.fields, "file_name", MAX_FILE_NAME)
                case Err(p) => Err(p)
                case Ok(fileName) => Ok(FileRow(key, fileName, enabled))
              else
                match RowString(v.fields, "value", MAX_VALUE)
                case Err(p) => Err(p)
                case Ok(value) => Ok(TextRow(key, value, enabled))
  }

  /** Row by row; the first bad row decides. */
  function ParseAll<R>(items: seq<Value>, parse: Value -> Result<R, Problem>): Result<seq<R>, Problem> {
    if items == [] then Ok([])
    else
      var n := |items| - 1;
      match ParseAll(items[..n], parse)
      case Err(p) => Err(p)
      case Ok(rows) =>
        match parse(items[n])
        case Err(p) => Err(InRow(n, p))
        case Ok(row) => Ok(rows + [row])
  }

  function ParseArray<R>(v: Value, parse: Value -> Result<R, Problem>): Result<seq<R>, Problem> {
    if !v.Arr? then Err(NotAnArray)
    else if |v.items| > MAX_ROWS then Err(TooManyRows)
    else ParseAll(v.items, parse)
  }

  lemma {:induction false} FirstErrorStays<R>(items: seq<Value>, parse: Value -> Result<R, Problem>, n: nat)
    requires n <= |items| && ParseAll(items[..n], parse).Err?
    ensures ParseAll(items, parse) == ParseAll(items[..n], parse)
    decreases |items|
  {
    if n < |items| {
      assert items[..|items| - 1][..n] == items[..n];
      FirstErrorStays(items[..|items| - 1], parse, n);
    } else {
      assert items[..n] == items;
    }
  }

  /** The row loop of `parseKeyValueRows` and `parseMultipartRows`. */
  method ParseRowLoop<R>(items: seq<Value>, parse: Value -> Result<R, Problem>) returns (r: Result<seq<R>, Problem>)
    ensures r == ParseAll(items, parse)
  {
    var rows: seq<R> := [];
    for i := 0 to |items|
      invariant ParseAll(items[..i], parse) == Ok(rows)
    {
      assert items[..i + 1][..i] == items[..i];
      var row := parse(items[i]);
      if row.Err? {
        FirstErrorStays(items, parse, i + 1);
        return Err(InRow(i, row.error));
      }
      rows := rows + [row.value];
    }
    assert items[..|items|] == items;
    return Ok(rows);
  }

  /** `bodyFields`. */
  function BodyFields(kind: string): set<string> {
    if kind == "none" then {"type"}
    else if kind == "raw" then {"type", "content_type", "content"}
    else {"type", "fields"}
  }

  function ParseRaw(fields: Fields): Result<Body, Problem> {
    match RowString(fields, "content_type", MAX_CONTENT_TYPE)
    case Err(p) => Err(p)
    case Ok(contentType) =>
      if TrimSpace(contentType) == [] then Err(Required("content_type"))
      else if "content" !in fields then Err(Required("content"))
      else if !fields["content"].Str? then Err(WrongType("content"))
      else if Utf8Length(fields["content"].s) > MAX_CONTENT_BYTES then Err(TooLong("content"))
      else Ok(RawBody(contentType, fields["content"].s))
  }

  function ParseForm(fields: Fields): Result<Body, Problem> {
    if "fields" !in fields then Err(Required("fields"))
    else
      match ParseArray(fields["fields"], ParseRow)
      case Err(p) => Err(p)
      case Ok(rows) => Ok(FormBody(rows))
  }

  function ParseMultipart(fields: Fields): Result<Body, Problem> {
    if "fields" !in fields then Err(Required("fields"))
    else
      match ParseArray(fields["fields"], ParsePart)
      case Err(p) => Err(p)
      case Ok(parts) => Ok(MultipartBody(parts))
  }

  function ParseBody(v: Value): Result<Body, Problem> {
    if !v.Obj? then Err(NotAnObject)
    else
      match OneOf(v.fields, "type", {"none", "raw", "form", "multipart"})
      case Err(p) => Err(p)
      case Ok(kind) =>
        if v.fields.Keys - BodyFields(kind) != {} then Err(UnknownFields(v.fields.Keys - BodyFields(kind)))
        else if kind == "none" then Ok(NoBody)
        else if kind == "raw" then ParseRaw(v.fields)
        else if kind == "form" then ParseForm(v.fields)
        else ParseMultipart(v.fields)
  }

  /** `parseRequestBody`: absent or null keeps the stored body. */
  function ParseRequestBody(raw: Option<Value>): Result<Option<Value>, Problem> {
    if raw == None || raw == Some(Null) then Ok(None)
    else
      match ParseBody(raw.value)
      case Err(p) => Err(p)
      case Ok(b) => Ok(Some(Encode(b)))
  }

  /** `parseKeyValueRows` on headers or query parameters. */
  function ParseKeyValueRows(raw: Option<Value>): Result<Option<Value>, Problem> {
    if raw == None || raw == Some(Null) then Ok(None)
    else
      match ParseArray(raw.value, ParseRow)
      case Err(p) => Err(p)
      case Ok(rows) => Ok(Some(EncodeAll(rows, EncodeRow)))
  }

  // ---------------------------------------------------- decoding inverts coding

  lemma KeyDecoded(fields: Fields, key: string)
    ensures ParseKey(fields) == Ok(key) <==> "key" in fields && fields["key"] == Str(key) && KeyOk(key)
  {
    TrimSpaceEmpty(key);
    if "key" in fields && fields["key"].Str? {
      TrimSpaceEmpty(fields["key"].s);
    }
  }

  lemma RowDecoded(v: Value, r: KeyValueRow)
    ensures ParseRow(v) == Ok(r) <==> RowOk(r) && v == EncodeRow(r)
  {
    var names := {"key", "value", "enabled"};
    if ParseRow(v) == Ok(r) {
      KeyDecoded(v.fields, r.key);
      assert v.fields.Keys <= names;
      assert v.fields == EncodeRow(r).fields;
    }
    if RowOk(r) && v == EncodeRow(r) {
      KeyDecoded(v.fields, r.key);
      assert v.fields.Keys == names;
    }
  }

  lemma PartDecoded(v: Value, r: MultipartRow)
    requires ParsePart(v) == Ok(r)
    ensures PartOk(r) && v == EncodePart(r)
  {
    KeyDecoded(v.fields, r.key);
    var kind := v.fields["kind"].s;
    assert v.fields.Keys <= PartFields(kind);
    assert v.fields == EncodePart(r).fields;
  }

  lemma PartCoded(r: MultipartRow)
    requires PartOk(r)
    ensures ParsePart(EncodePart(r)) == Ok(r)
  {
    var v := EncodePart(r);
    KeyDecoded(v.fields, r.key);
    assert v.fields.Keys == PartFields(v.fields["kind"].s);
  }

  lemma {:induction false} AllDecoded<R>(items: seq<Value>, parse: Value -> Result<R, Problem>, rows: seq<R>)
    ensures ParseAll(items, parse) == Ok(rows) <==>
            |rows| == |items| && forall i :: 0 <= i < |items| ==> parse(items[i]) == Ok(rows[i])
    decreases |items|
  {
    if items != [] {
      var n := |items| - 1;
      if rows != [] {
        AllDecoded(items[..n], parse, rows[..|rows| - 1]);
        assert rows == rows[..|rows| - 1] + [rows[|rows| - 1]];
      }
    }
  }

  lemma FormRowsDecoded(v: Value, rows: seq<KeyValueRow>)
    ensures ParseArray(v, ParseRow) == Ok(rows) <==> BodyOk(FormBody(rows)) && v == EncodeAll(rows, EncodeRow)
  {
    if v.Arr? {
      AllDecoded(v.items, ParseRow, rows);
    }
    var coded := EncodeAll(rows, EncodeRow);
    if ParseArray(v, ParseRow) == Ok(rows) {
      forall i | 0 <= i < |rows| ensures RowOk(rows[i]) && v.items[i] == EncodeRow(rows[i]) {
        RowDecoded(v.items[i], rows[i]);
      }
      assert v.items == coded.items;
    }
    if BodyOk(FormBody(rows)) && v == coded {
      forall i | 0 <= i < |rows| ensures ParseRow(v.items[i]) == Ok(rows[i]) {
        RowDecoded(v.items[i], rows[i]);
      }
    }
  }

  lemma PartsDecoded(v: Value, parts: seq<MultipartRow>)
    ensures ParseArray(v, ParsePart) == Ok(parts) <==> BodyOk(MultipartBody(parts)) && v == EncodeAll(parts, EncodePart)
  {
    if v.Arr? {
      AllDecoded(v.items, ParsePart, parts);
    }
    var coded := EncodeAll(parts, EncodePart);
    if ParseArray(v, ParsePart) == Ok(parts) {
      forall i | 0 <= i < |parts| ensures PartOk(parts[i]) && v.items[i] == EncodePart(parts[i]) {
        PartDecoded(v.items[i], parts[i]);
      }
      assert v.items == coded.items;
    }
    if BodyOk(MultipartBody(parts)) && v == coded {
      forall i | 0 <= i < |parts| ensures ParsePart(v.items[i]) == Ok(parts[i]) {
        PartCoded(parts[i]);
      }
    }
  }

  lemma RawDecoded(v: Value, b: Body)
    requires v.Obj? && v.fields.Keys <= BodyFields("raw") && ParseRaw(v.fields) == Ok(b)
    requires "type" in v.fields && v.fields["type"] == Str("raw")
    ensures BodyOk(b) && v == Encode(b)
  {
    TrimSpaceEmpty(b.contentType);
    assert v.fields == Encode(b).fields;
  }

  lemma FormDecoded(v: Value, b: Body)
    requires v.Obj? && v.fields.Keys <= BodyFields("form") && ParseForm(v.fields) == Ok(b)
    requires "type" in v.fields && v.fields["type"] == Str("form")
    ensures BodyOk(b) && v == Encode(b)
  {
    FormRowsDecoded(v.fields["fields"], b.rows);
    assert v.fields == Encode(b).fields;
  }

  lemma MultipartDecoded(v: Value, b: Body)
    requires v.Obj? && v.fields.Keys <= BodyFields("multipart") && ParseMultipart(v.fields) == Ok(b)
    requires "type" in v.fields && v.fields["type"] == Str("multipart")
    ensures BodyOk(b) && v == Encode(b)
  {
    PartsDecoded(v.fields["fields"], b.parts);
    assert v.fields == Encode(b).fields;
  }

  lemma BodyDecoded(v: Value, b: Body)
    requires ParseBody(v) == Ok(b)
    ensures BodyOk(b) && v == Encode(b)
  {
    var kind := v.fields["type"].s;
    assert v.fields.Keys <= BodyFields(kind);
    match b
    case NoBody => assert v.fields == Encode(b).fields;
    case RawBody(_, _) => RawDecoded(v, b);
    case FormBody(_) => FormDecoded(v, b);
    case MultipartBody(_) => MultipartDecoded(v, b);
  }

  /** Every acceptable body, encoded, is read back as itself. */
  lemma BodyRoundTrip(b: Body)
    requires BodyOk(b)
    ensures ParseBody(Encode(b)) == Ok(b)
  {
    var v := Encode(b);
    assert v.fields.Keys == BodyFields(v.fields["type"].s);
    match b
    case NoBody =>
    case RawBody(contentType, _) => TrimSpaceEmpty(contentType);
    case FormBody(rows) => FormRowsDecoded(v.fields["fields"], rows);
    case MultipartBody(parts) => PartsDecoded(v.fields["fields"], parts);
  }

  // -------------------------------------------------------------- main theorems

  /**
   Over all JSON values: a body is accepted exactly when it is the encoding of
   an acceptable one, and the value to store is the value that came.
   */
  lemma BodyExact(v: Value)
    requires v != Null
    ensures ParseRequestBody(Some(v)).Ok? <==> exists b :: BodyOk(b) && v == Encode(b)
    ensures ParseRequestBody(Some(v)).Ok? ==> ParseRequestBody(Some(v)) == Ok(Some(v))
  {
    if ParseBody(v).Ok? {
      BodyDecoded(v, ParseBody(v).value);
    }
    if b :| BodyOk(b) && v == Encode(b) {
      BodyRoundTrip(b);
    }
  }

  /** The same for a list of headers or query parameters: order and duplicate keys are kept. */
  lemma RowsExact(v: Value)
    requires v != Null
    ensures ParseKeyValueRows(Some(v)).Ok? <==>
            exists rows :: BodyOk(FormBody(rows)) && v == EncodeAll(rows, EncodeRow)
    ensures ParseKeyValueRows(Some(v)).Ok? ==> ParseKeyValueRows(Some(v)) == Ok(Some(v))
  {
    if ParseArray(v, ParseRow).Ok? {
      FormRowsDecoded(v, ParseArray(v, ParseRow).value);
    }
    if rows :| BodyOk(FormBody(rows)) && v == EncodeAll(rows, EncodeRow) {
      FormRowsDecoded(v, rows);
    }
  }

  /** Absent and null leave what is stored alone; nothing else does. */
  lemma NullKeeps(raw: Option<Value>)
    ensures ParseRequestBody(raw) == Ok(None) <==> raw == None || raw == Some(Null)
    ensures ParseKeyValueRows(raw) == Ok(None) <==> raw == None || raw == Some(Null)
  {
  }

  /** Validating what was stored changes nothing. */
  lemma ValidationIsIdempotent(raw: Option<Value>, stored: Value)
    requires ParseRequestBody(raw) == Ok(Some(stored))
    ensures raw == Some(stored) && ParseRequestBody(Some(stored)) == Ok(Some(stored))
  {
    BodyExact(raw.value);
  }

  // ------------------------------------------------------ refusals tell the truth

  ghost predicate LongText(fields: Fields, name: string, max: nat) {
    name in fields && fields[name].Str? && |fields[name].s| > max
  }

  ghost predicate Blank(fields: Fields, name: string) {
    name in fields && fields[name].Str? && AllSpace(fields[name].s)
  }

  /** What each problem reported for an object with these fields says about it. */
  ghost predicate FieldsAtFault(fields: Fields, allowed: set<string>, p: Problem) {
    match p
    case UnknownFields(names) => names != {} && forall n :: n in names <==> n in fields && n !in allowed
    case Required(n) => n in allowed && (n !in fields || (n in {"key", "content_type"} && Blank(fields, n)))
    case WrongType(n) =>
      n in allowed && n in fields && if n == "enabled" then !fields[n].Bool? else !fields[n].Str?
    case TooLong(n) =>
      || (n in {"key", "content_type"} && LongText(fields, n, 200))
      || (n == "value" && LongText(fields, n, 8192))
      || (n == "file_name" && LongText(fields, n, 255))
      || (n == "content" && n in fields && fields[n].Str? && Utf8Length(fields[n].s) > 1_048_576)
    case NotAllowed(n) =>
      n in fields && fields[n].Str? &&
      (if n == "kind" then fields[n].s !in {"text", "file"}
       else n == "type" && fields[n].s !in {"none", "raw", "form", "multipart"})
    case _ => false
  }

  ghost predicate RowAtFault(v: Value, p: Problem) {
    if !v.Obj? then p == NotAnObject else FieldsAtFault(v.fields, {"key", "value", "enabled"}, p)
  }

  ghost predicate PartAtFault(v: Value, p: Problem) {
    if !v.Obj? then p == NotAnObject
    else if "kind" in v.fields && v.fields["kind"] == Str("file") then
      FieldsAtFault(v.fields, {"key", "kind", "file_name", "enabled"}, p)
    else FieldsAtFault(v.fields, {"key", "kind", "value", "enabled"}, p)
  }

  /** The array is none, or too long, or its first bad row is the one named. */
  ghost predicate ArrayAtFault<R>(v: Value, parse: Value -> Result<R, Problem>, p: Problem) {
    match p
    case NotAnArray => !v.Arr?
    case TooManyRows => v.Arr? && |v.items| > 100
    case InRow(i, q) =>
      v.Arr? && i < |v.items| && parse(v.items[i]) == Err(q) && forall k :: 0 <= k < i ==> parse(v.items[k]).Ok?
    case _ => false
  }

  lemma RowRefused(v: Value, p: Problem)
    requires ParseRow(v) == Err(p)
    ensures RowAtFault(v, p)
  {
    if v.Obj? && "key" in v.fields && v.fields["key"].Str? {
      TrimSpaceEmpty(v.fields["key"].s);
    }
  }

  lemma PartRefused(v: Value, p: Problem)
    requires ParsePart(v) == Err(p)
    ensures PartAtFault(v, p)
  {
    if v.Obj? && "key" in v.fields && v.fields["key"].Str? {
      TrimSpaceEmpty(v.fields["key"].s);
    }
  }

  lemma {:induction false} AllRefused<R>(items: seq<Value>, parse: Value -> Result<R, Problem>)
    ensures match ParseAll(items, parse)
            case Ok(_) => forall k :: 0 <= k < |items| ==> parse(items[k]).Ok?
            case Err(p) =>
              && p.InRow? && p.index < |items| && parse(items[p.index]) == Err(p.problem)
              && forall k :: 0 <= k < p.index ==> parse(items[k]).Ok?
    decreases |items|
  {
    if items != [] {
      AllRefused(items[..|items| - 1], parse);
    }
  }

  lemma ArrayRefused<R>(v: Value, parse: Value -> Result<R, Problem>, p: Problem)
    requires ParseArray(v, parse) == Err(p)
    ensures ArrayAtFault(v, parse, p)
  {
    if v.Arr? {
      AllRefused(v.items, parse);
    }
  }

  /** Every refusal of a body names a fault the body has; for a row, the first bad one and its fault. */
  lemma BodyRefused(v: Value, p: Problem)
    requires ParseBody(v) == Err(p)
    ensures if !v.Obj? then p == NotAnObject
            else if "type" !in v.fields || !v.fields["type"].Str? then FieldsAtFault(v.fields, {"type"}, p)
            else
              match v.fields["type"].s
              case "raw" => FieldsAtFault(v.fields, {"type", "content_type", "content"}, p)
              case "form" =>
                || FieldsAtFault(v.fields, {"type", "fields"}, p)
                || ("fields" in v.fields && ArrayAtFault(v.fields["fields"], ParseRow, p))
              case "multipart" =>
                || FieldsAtFault(v.fields, {"type", "fields"}, p)
                || ("fields" in v.fields && ArrayAtFault(v.fields["fields"], ParsePart, p))
              case _ => FieldsAtFault(v.fields, {"type"}, p)
  {
    if v.Obj? {
      if "content_type" in v.fields && v.fields["content_type"].Str? {
        TrimSpaceEmpty(v.fields["content_type"].s);
      }
      if "fields" in v.fields {
        if ParseArray(v.fields["fields"], ParseRow).Err? {
          ArrayRefused(v.fields["fields"], ParseRow, ParseArray(v.fields["fields"], ParseRow).error);
        }
        if ParseArray(v.fields["fields"], ParsePart).Err? {
          ArrayRefused(v.fields["fields"], ParsePart, ParseArray(v.fields["fields"], ParsePart).error);
        }
      }
    }
  }
}
