/**
 * The part of the Zod schema library the news pipeline uses: optional
 * string, coerced-number and enum fields of an object schema, parsed with
 * every failing field reported (not only the first), unknown keys dropped.
 */
module Zod {
  import opened Wrappers
  import opened Js

  /** One step of the path from the parsed value to the offending field. */
  datatype PathElem = Key(name: string) | Index(i: nat)

  datatype IssueCode =
    | InvalidType(expected: string, received: string)
    | TooSmall(origin: string, minimum: int)
    | TooBig(origin: string, maximum: int)
    | InvalidEnumValue(received: string, options: seq<string>)
    | InvalidString(validation: string)

  datatype Issue = Issue(path: seq<PathElem>, code: IssueCode)

  /**
   * `z.string().min(..).max(..)`, `z.coerce.number().min(..).max(..)` and
   * `z.enum([...])`, each bound present or not.
   */
  datatype FieldSchema =
    | StringSchema(minLength: Option<nat>, maxLength: Option<nat>)
    | CoercedNumberSchema(minimum: Option<int>, maximum: Option<int>)
    | EnumSchema(options: seq<string>)

  /** An `.optional()` entry of a `z.object({...})` shape. */
  datatype Field = Field(key: string, schema: FieldSchema)

  /**
   * Zod's built-in string formats (`.url()`, `.datetime()`), which the model
   * treats as given predicates.
   */
  datatype Formats = Formats(isUrl: string -> bool, isDateTime: string -> bool)

  /** `n < bound` in JavaScript, for a number that is not NaN. */
  predicate Below(n: JsNumber, bound: int)
    requires !n.NaN?
  {
    match n
    case Finite(x) => x < bound as real
    case PosInfinity => false
    case NegInfinity => true
  }

  /** `n > bound` in JavaScript, for a number that is not NaN. */
  predicate Above(n: JsNumber, bound: int)
    requires !n.NaN?
  {
    match n
    case Finite(x) => x > bound as real
    case PosInfinity => true
    case NegInfinity => false
  }

  /** What a field schema admits, stated on the raw query string. */
  predicate Admits(schema: FieldSchema, raw: string) {
    match schema
    case StringSchema(lo, hi) =>
      (lo.None? || Utf16Length(raw) >= lo.value) && (hi.None? || Utf16Length(raw) <= hi.value)
    case CoercedNumberSchema(lo, hi) =>
      var n := ToNumber(raw);
      !n.NaN? && (lo.None? || !Below(n, lo.value)) && (hi.None? || !Above(n, hi.value))
    case EnumSchema(options) => raw in options
  }

  /** The issues of every failing check of a coerced number, in check order. */
  function NumberChecks(n: JsNumber, lo: Option<int>, hi: Option<int>): seq<IssueCode> {
    if n.NaN? then [InvalidType("number", "nan")]
    else
      (if lo.Some? && Below(n, lo.value) then [TooSmall("number", lo.value)] else [])
      + (if hi.Some? && Above(n, hi.value) then [TooBig("number", hi.value)] else [])
  }

  /** The issues of every failing length check of a string, in check order. */
  function StringChecks(s: string, lo: Option<nat>, hi: Option<nat>): seq<IssueCode> {
    (if lo.Some? && Utf16Length(s) < lo.value then [TooSmall("string", lo.value)] else [])
    + (if hi.Some? && Utf16Length(s) > hi.value then [TooBig("string", hi.value)] else [])
  }

  /** The length checks report a broken bound, with that bound, and nothing else. */
  lemma StringChecksReport(s: string, lo: Option<nat>, hi: Option<nat>)
    ensures StringChecks(s, lo, hi) == [] <==>
      (lo.None? || Utf16Length(s) >= lo.value) && (hi.None? || Utf16Length(s) <= hi.value)
    ensures lo.Some? && Utf16Length(s) < lo.value ==> TooSmall("string", lo.value) in StringChecks(s, lo, hi)
    ensures hi.Some? && Utf16Length(s) > hi.value ==> TooBig("string", hi.value) in StringChecks(s, lo, hi)
  {
  }

  /** NaN is one type issue; otherwise each broken bound is reported with that bound. */
  lemma NumberChecksReport(n: JsNumber, lo: Option<int>, hi: Option<int>)
    ensures NumberChecks(n, lo, hi) == [] <==>
      !n.NaN? && (lo.None? || !Below(n, lo.value)) && (hi.None? || !Above(n, hi.value))
    ensures n.NaN? ==> NumberChecks(n, lo, hi) == [InvalidType("number", "nan")]
    ensures !n.NaN? && lo.Some? && Below(n, lo.value) ==> TooSmall("number", lo.value) in NumberChecks(n, lo, hi)
    ensures !n.NaN? && hi.Some? && Above(n, hi.value) ==> TooBig("number", hi.value) in NumberChecks(n, lo, hi)
  {
  }

  /** Parse one present query value: the typed value, or the issues of every failing check. */
  function ParseField(schema: FieldSchema, raw: string): (r: Result<Value, seq<IssueCode>>)
    ensures r.Success? <==> Admits(schema, raw)
    ensures r.Failure? ==> r.error != []
    ensures r.Success? && schema.CoercedNumberSchema? ==> r.value == Number(ToNumber(raw))
    ensures r.Success? && !schema.CoercedNumberSchema? ==> r.value == Text(raw)
  {
    match schema
    case StringSchema(lo, hi) =>
      var issues := StringChecks(raw, lo, hi);
      if issues == [] then Success(Text(raw)) else Failure(issues)
    case CoercedNumberSchema(lo, hi) =>
      var n := ToNumber(raw);
      var issues := NumberChecks(n, lo, hi);
      if issues == [] then Success(Number(n)) else Failure(issues)
    case EnumSchema(options) =>
      if raw in options then Success(Text(raw)) else Failure([InvalidEnumValue(raw, options)])
  }

  /**
   * The codes a failed parse reports: the enum's options for a value not
   * among them, `nan` for text that does not coerce to a number, and the
   * broken bound for a number or a string out of range.
   */
  lemma ParseFieldCodes(schema: FieldSchema, raw: string)
    ensures var r := ParseField(schema, raw);
      r.Failure? && schema.EnumSchema? ==> r.error == [InvalidEnumValue(raw, schema.options)]
    ensures schema.CoercedNumberSchema? && ToNumber(raw).NaN? ==>
      ParseField(schema, raw) == Failure([InvalidType("number", "nan")])
    ensures var r := ParseField(schema, raw);
      schema.CoercedNumberSchema? && schema.minimum.Some? && !ToNumber(raw).NaN?
      && Below(ToNumber(raw), schema.minimum.value)
      ==> r.Failure? && TooSmall("number", schema.minimum.value) in r.error
    ensures var r := ParseField(schema, raw);
      schema.CoercedNumberSchema? && schema.maximum.Some? && !ToNumber(raw).NaN?
      && Above(ToNumber(raw), schema.maximum.value)
      ==> r.Failure? && TooBig("number", schema.maximum.value) in r.error
    ensures var r := ParseField(schema, raw);
      schema.StringSchema? && schema.minLength.Some? && Utf16Length(raw) < schema.minLength.value
      ==> r.Failure? && TooSmall("string", schema.minLength.value) in r.error
    ensures var r := ParseField(schema, raw);
      schema.StringSchema? && schema.maxLength.Some? && Utf16Length(raw) > schema.maxLength.value
      ==> r.Failure? && TooBig("string", schema.maxLength.value) in r.error
  {
    match schema
    case StringSchema(lo, hi) => StringChecksReport(raw, lo, hi);
    case CoercedNumberSchema(lo, hi) => NumberChecksReport(ToNumber(raw), lo, hi);
    case EnumSchema(_) =>
  }

  /** The keys an object shape declares. */
  function Keys(fields: seq<Field>): set<string> {
    set i | 0 <= i < |fields| :: fields[i].key
  }

  /** A JavaScript object literal declares each key once. */
  predicate DistinctKeys(fields: seq<Field>) {
    forall i, j :: 0 <= i < j < |fields| ==> fields[i].key != fields[j].key
  }

  /** A declared field whose key the query carries and whose schema rejects its value. */
  predicate Rejects(fields: seq<Field>, query: map<string, string>, i: int) {
    0 <= i < |fields| && fields[i].key in query && !Admits(fields[i].schema, query[fields[i].key])
  }

  /** No declared field rejects the value the query carries for it. */
  predicate AdmitsAll(fields: seq<Field>, query: map<string, string>) {
    forall i :: 0 <= i < |fields| ==> !Rejects(fields, query, i)
  }

  lemma AdmitsAllCons(fields: seq<Field>, query: map<string, string>)
    requires fields != []
    ensures AdmitsAll(fields, query) <==> !Rejects(fields, query, 0) && AdmitsAll(fields[1..], query)
  {
    assert forall i :: 1 <= i < |fields| ==> fields[i] == fields[1..][i - 1];
    if AdmitsAll(fields[1..], query) && !Rejects(fields, query, 0) {
      forall i | 1 <= i < |fields| ensures !Rejects(fields, query, i) {
        assert !Rejects(fields[1..], query, i - 1);
      }
    }
    if AdmitsAll(fields, query) {
      forall i | 0 <= i < |fields| - 1 ensures !Rejects(fields[1..], query, i) {
        assert !Rejects(fields, query, i + 1);
      }
    }
  }

  /** The concatenation of `parts`, in order. */
  function Flatten(parts: seq<seq<Issue>>): (r: seq<Issue>)
    ensures r == [] <==> forall i :: 0 <= i < |parts| ==> parts[i] == []
  {
    if parts == [] then []
    else
      assert forall i :: 1 <= i < |parts| ==> parts[i] == parts[1..][i - 1];
      parts[0] + Flatten(parts[1..])
  }

  /** Each element of a concatenation comes from some part. */
  lemma {:induction false} FlattenIndex(parts: seq<seq<Issue>>, j: int) returns (i: int, m: int)
    requires 0 <= j < |Flatten(parts)|
    ensures 0 <= i < |parts| && 0 <= m < |parts[i]| && Flatten(parts)[j] == parts[i][m]
  {
    assert Flatten(parts) == parts[0] + Flatten(parts[1..]);
    if j < |parts[0]| {
      i, m := 0, j;
    } else {
      var k;
      k, m := FlattenIndex(parts[1..], j - |parts[0]|);
      i := k + 1;
    }
  }

  /** The first element of each non-empty part is in the concatenation. */
  lemma {:induction false} FlattenFirst(parts: seq<seq<Issue>>, i: int) returns (j: int)
    requires 0 <= i < |parts| && parts[i] != []
    ensures 0 <= j < |Flatten(parts)| && Flatten(parts)[j] == parts[i][0]
  {
    assert Flatten(parts) == parts[0] + Flatten(parts[1..]);
    if i == 0 {
      j := 0;
    } else {
      assert parts[1..][i - 1] == parts[i];
      var k := FlattenFirst(parts[1..], i - 1);
      j := |parts[0]| + k;
    }
  }

  /** The issues of each declared field, in shape order. */
  function IssuesByField(fields: seq<Field>, query: map<string, string>): (r: seq<seq<Issue>>)
    ensures |r| == |fields| && forall i :: 0 <= i < |fields| ==> r[i] == FieldIssues(fields[i], query)
  {
    seq(|fields|, i requires 0 <= i < |fields| => FieldIssues(fields[i], query))
  }

  /**
   * The issues of a whole object: each declared field's issues, in shape
   * order; none iff every field admits its value.
   */
  function ObjectIssues(fields: seq<Field>, query: map<string, string>): (r: seq<Issue>)
    ensures r == [] <==> AdmitsAll(fields, query)
  {
    var parts := IssuesByField(fields, query);
    assert forall i :: 0 <= i < |fields| ==> (parts[i] == [] <==> !Rejects(fields, query, i));
    Flatten(parts)
  }

  /** The parsed values of an object every field of which admits its value. */
  function ObjectValues(fields: seq<Field>, query: map<string, string>): (r: map<string, Value>)
    requires DistinctKeys(fields) && AdmitsAll(fields, query)
    ensures r.Keys == Keys(fields) * query.Keys
    ensures forall i :: 0 <= i < |fields| && fields[i].key in query ==>
              ParseField(fields[i].schema, query[fields[i].key]) == Success(r[fields[i].key])
  {
    if fields == [] then map[]
    else
      var f := fields[0];
      AdmitsAllCons(fields, query);
      DistinctKeysTail(fields);
      var rest := ObjectValues(fields[1..], query);
      assert forall i :: 1 <= i < |fields| ==> fields[i] == fields[1..][i - 1];
      assert Keys(fields) == {f.key} + Keys(fields[1..]);
      if f.key !in query then rest
      else
        assert f.key !in rest by {
          assert forall i :: 0 <= i < |fields[1..]| ==> fields[1..][i].key != f.key;
        }
        assert !Rejects(fields, query, 0);
        rest[f.key := ParseField(f.schema, query[f.key]).value]
  }

  /**
   * `z.object(shape).parse(query)` with every field optional: keys the shape
   * does not declare are dropped, absent keys stay absent, and a failure
   * carries the issues of every rejected field, in shape order.
   */
  function ParseObject(fields: seq<Field>, query: map<string, string>): (r: Result<map<string, Value>, seq<Issue>>)
    requires DistinctKeys(fields)
    ensures r.Success? <==> AdmitsAll(fields, query)
    ensures r.Success? ==> r.value.Keys == Keys(fields) * query.Keys
    ensures r.Success? ==> forall i :: 0 <= i < |fields| && fields[i].key in query ==>
              ParseField(fields[i].schema, query[fields[i].key]) == Success(r.value[fields[i].key])
    ensures r.Failure? ==> r.error != [] && r.error == ObjectIssues(fields, query)
  {
    var issues := ObjectIssues(fields, query);
    if issues == [] then Success(ObjectValues(fields, query)) else Failure(issues)
  }

  /** The issues one field of the shape contributes, each at the path of its key. */
  function FieldIssues(f: Field, query: map<string, string>): (r: seq<Issue>)
    ensures r == [] <==> f.key !in query || Admits(f.schema, query[f.key])
    ensures forall k :: 0 <= k < |r| ==> r[k].path == [Key(f.key)]
  {
    if f.key !in query then []
    else match ParseField(f.schema, query[f.key])
      case Success(_) => []
      case Failure(codes) => seq(|codes|, k requires 0 <= k < |codes| => Issue([Key(f.key)], codes[k]))
  }

  /** The issues of a field carry the codes of its failed parse, in order. */
  lemma FieldIssuesCodes(f: Field, query: map<string, string>)
    ensures var r := FieldIssues(f, query);
      r != [] ==> (ParseField(f.schema, query[f.key]).Failure?
        && |r| == |ParseField(f.schema, query[f.key]).error|
        && forall k :: 0 <= k < |r| ==> r[k].code == ParseField(f.schema, query[f.key]).error[k])
  {
  }

  lemma DistinctKeysTail(fields: seq<Field>)
    requires fields != [] && DistinctKeys(fields)
    ensures DistinctKeys(fields[1..])
  {
    forall i, j | 0 <= i < j < |fields| - 1 ensures fields[1..][i].key != fields[1..][j].key {
      assert fields[1..][i] == fields[i + 1] && fields[1..][j] == fields[j + 1];
    }
  }

  /** Every issue of a failed parse names a field that rejects its value. */
  lemma IssueNamesRejectedField(fields: seq<Field>, query: map<string, string>, j: int) returns (i: int)
    requires 0 <= j < |ObjectIssues(fields, query)|
    ensures Rejects(fields, query, i) && ObjectIssues(fields, query)[j].path == [Key(fields[i].key)]
  {
    var parts := IssuesByField(fields, query);
    var m;
    i, m := FlattenIndex(parts, j);
    assert parts[i] == FieldIssues(fields[i], query);
  }

  /**
   * Issues are aggregated, not fail-fast: every field that rejects its value
   * has an issue in the failure, not only the first such field.
   */
  lemma EveryRejectedFieldReported(fields: seq<Field>, query: map<string, string>, i: int)
    returns (j: int)
    requires Rejects(fields, query, i)
    ensures 0 <= j < |ObjectIssues(fields, query)|
    ensures ObjectIssues(fields, query)[j].path == [Key(fields[i].key)]
    ensures ObjectIssues(fields, query)[j].code == ParseField(fields[i].schema, query[fields[i].key]).error[0]
  {
    var parts := IssuesByField(fields, query);
    assert parts[i] == FieldIssues(fields[i], query) != [];
    j := FlattenFirst(parts, i);
    FieldIssuesCodes(fields[i], query);
  }
}
