/**
 * The validation pipeline. A schema is modelled as the function its `parse`
 * computes: it returns the parsed (coerced, defaulted) value, or throws — a
 * schema-library error carrying its ordered issues, or anything else.
 */
module Validation {
  import opened Wrappers
  import opened Json
  import opened Strings
  import opened ErrorTypes
  import opened ApiErrors
  import opened Zod
  import opened Exceptions

  datatype ParseResult = Parsed(value: Value) | Threw(error: Thrown)

  type Schema = Value -> ParseResult

  /** The schema per request section; an absent schema skips its section. */
  datatype ValidationOptions = ValidationOptions(
    body: Option<Schema>, query: Option<Schema>, params: Option<Schema>, headers: Option<Schema>)

  /** The four request sections the pipeline reads and, except for headers, replaces. */
  class Request {
    var body: Value
    var query: Value
    var params: Value
    var headers: Value

    constructor (body: Value, query: Value, params: Value, headers: Value)
      ensures this.body == body && this.query == query && this.params == params && this.headers == headers
    {
      this.body := body;
      this.query := query;
      this.params := params;
      this.headers := headers;
    }
  }

  /** `formatZodErrors(error, source)`: one field issue per schema issue, named `source.path`. */
  function FormatZodErrors(issues: seq<ZodIssue>, source: string): (ds: seq<ErrorDetails>)
    ensures |ds| == |issues|
    ensures forall i :: 0 <= i < |issues| ==>
      ds[i] == IssueDetail(source + "." + JoinPath(issues[i].path), issues[i])
  {
    seq(|issues|, i requires 0 <= i < |issues| => IssueDetail(source + "." + JoinPath(issues[i].path), issues[i]))
  }

  /** A section's field issues differ from the bare ones only by the `source.` prefix. */
  lemma PrefixedFields(issues: seq<ZodIssue>, source: string, i: nat)
    requires i < |issues|
    ensures FormatZodErrors(issues, source)[i].field == Some(source + "." + ZodDetails(issues)[i].field.value)
    ensures FormatZodErrors(issues, source)[i].message == ZodDetails(issues)[i].message
  {
  }

  /** The issues a section's schema reported: those of a schema-library failure, else none. */
  function SchemaIssues(schema: Option<Schema>, raw: Value): seq<ZodIssue> {
    if schema.Some? && schema.value(raw).Threw? && schema.value(raw).error.ThrownZodError? then
      schema.value(raw).error.issues
    else []
  }

  /** What one section contributes to the request's issues. */
  function SectionIssues(schema: Option<Schema>, raw: Value, source: string): seq<ErrorDetails> {
    FormatZodErrors(SchemaIssues(schema, raw), source)
  }

  /** The value a section holds afterwards: the parsed one, or the raw one when the parse threw. */
  function SectionValue(schema: Option<Schema>, raw: Value): (v: Value)
    ensures schema.None? ==> v == raw
    ensures schema.Some? && schema.value(raw).Threw? ==> v == raw
    ensures schema.Some? && schema.value(raw).Parsed? ==> v == schema.value(raw).value
  {
    if schema.Some? && schema.value(raw).Parsed? then schema.value(raw).value else raw
  }

  /** All issues of one request, section by section in the order body, query, params, headers. */
  function RequestIssues(schemas: ValidationOptions, body: Value, query: Value, params: Value, headers: Value): seq<ErrorDetails>
  {
    SectionIssues(schemas.body, body, "body") + SectionIssues(schemas.query, query, "query")
    + SectionIssues(schemas.params, params, "params") + SectionIssues(schemas.headers, headers, "headers")
  }

  /** The position of a field's section in the checking order; 4 for a field from no section. */
  function SectionRank(field: Option<string>): nat {
    if field.None? then 4
    else if StartsWith(field.value, "body.") then 0
    else if StartsWith(field.value, "query.") then 1
    else if StartsWith(field.value, "params.") then 2
    else if StartsWith(field.value, "headers.") then 3
    else 4
  }

  /** Every field of `ds` belongs to the section of the given rank. */
  predicate AllOfRank(ds: seq<ErrorDetails>, rank: nat) {
    forall i :: 0 <= i < |ds| ==> SectionRank(ds[i].field) == rank
  }

  /** The fields of `ds` appear in nondecreasing section order, none from outside the four sections. */
  predicate InSectionOrder(ds: seq<ErrorDetails>) {
    && (forall i :: 0 <= i < |ds| ==> SectionRank(ds[i].field) < 4)
    && (forall i, j :: 0 <= i <= j < |ds| ==> SectionRank(ds[i].field) <= SectionRank(ds[j].field))
  }

  lemma RankOfSection(schema: Option<Schema>, raw: Value, source: string, rank: nat)
    requires rank < 4 && source == ["body", "query", "params", "headers"][rank]
    ensures AllOfRank(SectionIssues(schema, raw, source), rank)
  {
    var issues := SchemaIssues(schema, raw);
    var ds := SectionIssues(schema, raw, source);
    forall i | 0 <= i < |ds|
      ensures SectionRank(ds[i].field) == rank
    {
      var f := source + "." + JoinPath(issues[i].path);
      assert ds[i].field == Some(f);
      assert f[..|source| + 1] == source + ".";
      assert f[0] == source[0];
    }
  }

  lemma AppendInOrder(a: seq<ErrorDetails>, b: seq<ErrorDetails>, rank: nat)
    requires rank < 4 && InSectionOrder(a) && AllOfRank(b, rank)
    requires forall i :: 0 <= i < |a| ==> SectionRank(a[i].field) <= rank
    ensures InSectionOrder(a + b)
    ensures forall i :: 0 <= i < |a + b| ==> SectionRank((a + b)[i].field) <= rank
  {
    var ab := a + b;
    forall i | 0 <= i < |ab|
      ensures SectionRank(ab[i].field) <= rank
      ensures SectionRank(ab[i].field) == if i < |a| then SectionRank(a[i].field) else rank
    {
      if i < |a| { assert ab[i] == a[i]; } else { assert ab[i] == b[i - |a|]; }
    }
  }

  /**
   * Every field of a request's issues is prefixed with its section, the
   * sections appear in checking order, and no section stops the others: the
   * count is the sum of what every section's schema reported.
   */
  lemma RequestIssuesOrdered(schemas: ValidationOptions, body: Value, query: Value, params: Value, headers: Value)
    ensures InSectionOrder(RequestIssues(schemas, body, query, params, headers))
    ensures |RequestIssues(schemas, body, query, params, headers)| ==
      |SchemaIssues(schemas.body, body)| + |SchemaIssues(schemas.query, query)|
      + |SchemaIssues(schemas.params, params)| + |SchemaIssues(schemas.headers, headers)|
  {
    var b := SectionIssues(schemas.body, body, "body");
    var q := SectionIssues(schemas.query, query, "query");
    var p := SectionIssues(schemas.params, params, "params");
    var h := SectionIssues(schemas.headers, headers, "headers");
    RankOfSection(schemas.body, body, "body", 0);
    RankOfSection(schemas.query, query, "query", 1);
    RankOfSection(schemas.params, params, "params", 2);
    RankOfSection(schemas.headers, headers, "headers", 3);
    AppendInOrder([], b, 0);
    assert [] + b == b;
    AppendInOrder(b, q, 1);
    AppendInOrder(b + q, p, 2);
    AppendInOrder(b + q + p, h, 3);
  }

  /** What the middleware leads to: `next()`, or the error it throws. */
  datatype Outcome = CallNext | Raise(error: Thrown)

  /**
   * One section of `validate`: run its schema, if any, on the raw value; a
   * successful parse yields the value to store, a schema-library failure its
   * issues under the section's name, and any other exception nothing at all.
   */
  method CheckSection(schema: Option<Schema>, raw: Value, source: string)
    returns (parsed: Option<Value>, issues: seq<ErrorDetails>)
    ensures parsed.Some? <==> schema.Some? && schema.value(raw).Parsed?
    ensures parsed.Some? ==> parsed.value == SectionValue(schema, raw)
    ensures issues == SectionIssues(schema, raw, source)
    ensures parsed.Some? ==> issues == []
  {
    parsed, issues := None, [];
    if schema.Some? {
      var r := schema.value(raw);
      if r.Parsed? {
        parsed := Some(r.value);
      } else if r.error.ThrownZodError? {
        issues := FormatZodErrors(r.error.issues, source);
      }
    }
  }

  /**
   * `validate(schemas)` applied to one request: every present section is
   * parsed, issues accumulate without stopping, parsed body, query and params
   * replace the raw ones, and one ValidationError is thrown when any issue was
   * found. A non-schema-library exception from a parser is swallowed. The
   * headers are checked but never replaced.
   */
  method Validate(schemas: ValidationOptions, req: Request, now: string) returns (outcome: Outcome)
    modifies req
    ensures req.body == SectionValue(schemas.body, old(req.body))
    ensures req.query == SectionValue(schemas.query, old(req.query))
    ensures req.params == SectionValue(schemas.params, old(req.params))
    ensures req.headers == old(req.headers)
    ensures var issues := RequestIssues(schemas, old(req.body), old(req.query), old(req.params), old(req.headers));
      outcome == if |issues| > 0
        then Raise(ThrownApiError(ApiErrors.ValidationError(Some("Request validation failed"), Some(issues), now), None))
        else CallNext
  {
    var errors: seq<ErrorDetails> := [];
    ghost var expected := RequestIssues(schemas, req.body, req.query, req.params, req.headers);

    var parsed, issues := CheckSection(schemas.body, req.body, "body");
    if parsed.Some? {
      req.body := parsed.value;
    }
    assert [] + issues == issues;
    errors := errors + issues;

    parsed, issues := CheckSection(schemas.query, req.query, "query");
    if parsed.Some? {
      req.query := parsed.value;
    }
    errors := errors + issues;

    parsed, issues := CheckSection(schemas.params, req.params, "params");
    if parsed.Some? {
      req.params := parsed.value;
    }
    errors := errors + issues;

    parsed, issues := CheckSection(schemas.headers, req.headers, "headers");
    errors := errors + issues;
    assert errors == expected;

    if |errors| > 0 {
      outcome := Raise(ThrownApiError(ApiErrors.ValidationError(Some("Request validation failed"), Some(errors), now), None));
    } else {
      outcome := CallNext;
    }
  }

  /** `validateValue(schema, value)`: the parsed value, a ValidationError with bare field names, or the foreign error rethrown. */
  function ValidateValue(schema: Schema, value: Value, now: string): (r: Result<Value, Thrown>)
    ensures schema(value).Parsed? ==> r == Ok(schema(value).value)
    ensures schema(value).Threw? && schema(value).error.ThrownZodError? ==>
      r.Err? && r.error.ThrownApiError?
      && r.error.apiError == ApiErrors.ValidationError(Some("Validation failed"), Some(ZodDetails(schema(value).error.issues)), now)
    ensures schema(value).Threw? && !schema(value).error.ThrownZodError? ==> r == Err(schema(value).error)
  {
    match schema(value)
    case Parsed(v) => Ok(v)
    case Threw(e) =>
      if e.ThrownZodError? then
        Err(ThrownApiError(ApiErrors.ValidationError(Some("Validation failed"), Some(ZodDetails(e.issues)), now), None))
      else Err(e)
  }

  datatype SafeResult = SafeSuccess(data: Value) | SafeFailure(errors: seq<ErrorDetails>)

  const UNKNOWN_VALIDATION_ERROR := ErrorDetails(None, "Unknown validation error", None, None)

  /** `safeValidate(schema, value)`: never throws; a foreign failure becomes one fixed issue. */
  function SafeValidate(schema: Schema, value: Value): (r: SafeResult)
    ensures schema(value).Parsed? ==> r == SafeSuccess(schema(value).value)
    ensures schema(value).Threw? && schema(value).error.ThrownZodError? ==>
      r == SafeFailure(ZodDetails(schema(value).error.issues))
    ensures schema(value).Threw? && !schema(value).error.ThrownZodError? ==>
      r == SafeFailure([UNKNOWN_VALIDATION_ERROR])
    ensures r.SafeFailure? ==> |r.errors| > 0 || (schema(value).Threw? && schema(value).error.ThrownZodError?)
  {
    match schema(value)
    case Parsed(v) => SafeSuccess(v)
    case Threw(e) =>
      if e.ThrownZodError? then SafeFailure(ZodDetails(e.issues)) else SafeFailure([UNKNOWN_VALIDATION_ERROR])
  }

  /**
   * The two single-value variants agree: same success and value, and on a
   * schema-library failure the safe variant's issues are the thrown error's details.
   */
  lemma SafeAgreesWithValidateValue(schema: Schema, value: Value, now: string)
    ensures SafeValidate(schema, value).SafeSuccess? <==> ValidateValue(schema, value, now).Ok?
    ensures SafeValidate(schema, value).SafeSuccess? ==>
      SafeValidate(schema, value).data == ValidateValue(schema, value, now).value
    ensures var r := ValidateValue(schema, value, now);
      r.Err? && r.error.ThrownApiError? && !schema(value).error.ThrownApiError? ==>
      Some(SafeValidate(schema, value).errors) == r.error.apiError.details
  {
  }
}
