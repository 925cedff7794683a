/**
 * The record validator of `create_complaint`: a fixed schema of ten fields,
 * walked in declaration order; the first field that is missing or has the
 * wrong type decides the outcome.
 */
module Validation {
  import opened Wrappers
  import opened Values

  /** The two Python types the schema names: `str` and `int`. */
  datatype FieldType = StrType | IntType

  datatype Field = Field(name: string, kind: FieldType)

  /** `ValueError("Missing required field: ...")` and `TypeError("Invalid type for ...")`. */
  datatype FieldError = MissingField(name: string) | WrongType(name: string, expected: FieldType)

  /** The required fields, in the order the dictionary literal declares them. */
  const Schema: seq<Field> := [
    Field("resident_name", StrType),
    Field("block", StrType),
    Field("description", StrType),
    Field("category", StrType),
    Field("sentiment", StrType),
    Field("severity_level", StrType),
    Field("urgency_score", IntType),
    Field("llm_summary", StrType),
    Field("action_recommendation", StrType),
    Field("status", StrType)
  ]

  /** `isinstance(v, t)`: a `bool` is an instance of `int`. */
  predicate HasType(v: Value, t: FieldType) {
    match t
    case StrType => v.Str?
    case IntType => v.Int? || v.Bool?
  }

  /** The field is present in the record with its declared type. */
  predicate Conforms(record: Record, f: Field) {
    f.name in record && HasType(record[f.name], f.kind)
  }

  /** The error a non-conforming field raises: a missing field before a type check. */
  function ErrorFor(record: Record, f: Field): FieldError
    requires !Conforms(record, f)
  {
    if f.name !in record then MissingField(f.name) else WrongType(f.name, f.kind)
  }

  /** The outcome of checking `fields` in order: the first failure, or None when all conform. */
  function FirstError(record: Record, fields: seq<Field>): Option<FieldError> {
    if fields == [] then None
    else if !Conforms(record, fields[0]) then Some(ErrorFor(record, fields[0]))
    else FirstError(record, fields[1..])
  }

  /** The validation loop of `create_complaint`. */
  method Validate(record: Record) returns (failure: Option<FieldError>)
    ensures failure == FirstError(record, Schema)
    ensures failure == None <==> forall i :: 0 <= i < |Schema| ==> Conforms(record, Schema[i])
  {
    FirstErrorNoneIff(record, Schema);
    var i := 0;
    while i < |Schema|
      invariant 0 <= i <= |Schema|
      invariant FirstError(record, Schema[i..]) == FirstError(record, Schema)
    {
      var f := Schema[i];
      assert Schema[i..][0] == f && Schema[i..][1..] == Schema[i + 1..];
      if f.name !in record {
        return Some(MissingField(f.name));
      }
      if !HasType(record[f.name], f.kind) {
        return Some(WrongType(f.name, f.kind));
      }
      i := i + 1;
    }
    return None;
  }

  /** Validation passes exactly when every field conforms. */
  lemma {:induction false} FirstErrorNoneIff(record: Record, fields: seq<Field>)
    ensures FirstError(record, fields) == None <==>
            forall i :: 0 <= i < |fields| ==> Conforms(record, fields[i])
  {
    if fields != [] {
      FirstErrorNoneIff(record, fields[1..]);
      assert forall i :: 1 <= i < |fields| ==> fields[i] == fields[1..][i - 1];
    }
  }

  /** When every field before `k` conforms and field `k` does not, field `k` decides the outcome. */
  lemma {:induction false} FirstErrorAt(record: Record, fields: seq<Field>, k: nat)
    requires k < |fields|
    requires forall i :: 0 <= i < k ==> Conforms(record, fields[i])
    requires !Conforms(record, fields[k])
    ensures FirstError(record, fields) == Some(ErrorFor(record, fields[k]))
  {
    if k > 0 {
      assert Conforms(record, fields[0]);
      FirstErrorAt(record, fields[1..], k - 1);
    }
  }

  /** Conversely, a failure always comes from the first non-conforming field. */
  lemma {:induction false} FirstErrorLocated(record: Record, fields: seq<Field>) returns (k: nat)
    requires FirstError(record, fields) != None
    ensures k < |fields|
    ensures forall i :: 0 <= i < k ==> Conforms(record, fields[i])
    ensures !Conforms(record, fields[k])
    ensures FirstError(record, fields) == Some(ErrorFor(record, fields[k]))
  {
    if Conforms(record, fields[0]) {
      var j := FirstErrorLocated(record, fields[1..]);
      k := j + 1;
      assert forall i :: 1 <= i < k ==> fields[i] == fields[1..][i - 1];
    } else {
      k := 0;
    }
  }

  /** Two records that agree on the checked fields get the same outcome. */
  lemma {:induction false} FirstErrorIgnoresOtherKeys(r1: Record, r2: Record, fields: seq<Field>)
    requires forall i :: 0 <= i < |fields| ==>
               (fields[i].name in r1 <==> fields[i].name in r2) &&
               (fields[i].name in r1 ==> r1[fields[i].name] == r2[fields[i].name])
    ensures FirstError(r1, fields) == FirstError(r2, fields)
  {
    if fields != [] {
      assert forall i :: 1 <= i < |fields| ==> fields[i] == fields[1..][i - 1];
      FirstErrorIgnoresOtherKeys(r1, r2, fields[1..]);
    }
  }

  /** The names the schema checks. */
  function SchemaNames(): set<string> {
    set i | 0 <= i < |Schema| :: Schema[i].name
  }

  /** Keys outside the schema never change the outcome, so they never cause a rejection. */
  lemma ExtraKeysNeverReject(record: Record, extra: Record)
    requires extra.Keys !! SchemaNames()
    ensures FirstError(record + extra, Schema) == FirstError(record, Schema)
  {
    FirstErrorIgnoresOtherKeys(record + extra, record, Schema);
  }

  predicate IsText(record: Record, name: string) {
    name in record && record[name].Str?
  }

  predicate IsInteger(record: Record, name: string) {
    name in record && (record[name].Int? || record[name].Bool?)
  }

  /** The schema spelled out: nine text fields and one integer field, a boolean counting as an integer. */
  lemma SchemaAcceptsExactly(record: Record)
    ensures FirstError(record, Schema) == None <==>
            && IsText(record, "resident_name")
            && IsText(record, "block")
            && IsText(record, "description")
            && IsText(record, "category")
            && IsText(record, "sentiment")
            && IsText(record, "severity_level")
            && IsInteger(record, "urgency_score")
            && IsText(record, "llm_summary")
            && IsText(record, "action_recommendation")
            && IsText(record, "status")
  {
    FirstErrorNoneIff(record, Schema);
    if FirstError(record, Schema) == None {
      assert Conforms(record, Schema[0]) && Conforms(record, Schema[1]) && Conforms(record, Schema[2]);
      assert Conforms(record, Schema[3]) && Conforms(record, Schema[4]) && Conforms(record, Schema[5]);
      assert Conforms(record, Schema[6]) && Conforms(record, Schema[7]) && Conforms(record, Schema[8]);
      assert Conforms(record, Schema[9]);
    }
  }

  /** A record whose only fault is at field `k` is rejected with the error for field `k`. */
  lemma SoleFaultReported(record: Record, k: nat)
    requires k < |Schema|
    requires !Conforms(record, Schema[k])
    requires forall i :: 0 <= i < |Schema| && i != k ==> Conforms(record, Schema[i])
    ensures FirstError(record, Schema) ==
            Some(if Schema[k].name !in record then MissingField(Schema[k].name)
                 else WrongType(Schema[k].name, Schema[k].kind))
  {
    FirstErrorAt(record, Schema, k);
  }

  /** The complaint the module's example block submits. */
  const SampleComplaint: Record := map[
    "resident_name" := Str("John Doe"),
    "block" := Str("B-123"),
    "description" := Str("Water leakage in kitchen pipeline causing dampness in walls"),
    "category" := Str("Water"),
    "sentiment" := Str("negative"),
    "severity_level" := Str("high"),
    "urgency_score" := Int(8),
    "llm_summary" := Str("Urgent water leakage issue in kitchen requiring immediate plumbing intervention"),
    "action_recommendation" := Str("Dispatch plumbing team for immediate inspection and repair"),
    "status" := Str("open")
  ]

  lemma SampleComplaintAccepted()
    ensures FirstError(SampleComplaint, Schema) == None
  {
    SchemaAcceptsExactly(SampleComplaint);
  }
}
