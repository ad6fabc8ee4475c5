/**
 * `ClinicalNoteJSON` (src/json_schema.py): a record of four required string
 * fields, and what constructing it from a dict accepts.
 */
module Schema {
  import opened Wrappers
  import opened Json

  datatype ClinicalNote = ClinicalNote(
    chiefComplaint: string,
    diagnosis: string,
    plan: string,
    followUpInstructions: string)

  /** The field names, in declaration order. */
  const NoteFields: seq<string> := ["chief_complaint", "diagnosis", "plan", "follow_up_instructions"]

  /** One entry of a `ValidationError`'s list of errors. */
  datatype FieldError = Missing(field: string) | NotAString(field: string)

  /** The note as a dict with the four field names as keys. */
  function ToDict(n: ClinicalNote): (d: Dict)
    ensures d.Keys == set f | f in NoteFields
  {
    map["chief_complaint" := Str(n.chiefComplaint),
        "diagnosis" := Str(n.diagnosis),
        "plan" := Str(n.plan),
        "follow_up_instructions" := Str(n.followUpInstructions)]
  }

  /** The error one field contributes: none when it is present and a string. */
  function FieldProblem(d: Dict, f: string): seq<FieldError> {
    if f !in d then [Missing(f)]
    else if !d[f].Str? then [NotAString(f)]
    else []
  }

  function FieldProblems(d: Dict, fields: seq<string>): (errs: seq<FieldError>)
    ensures errs == [] <==> forall i :: 0 <= i < |fields| ==> fields[i] in d && d[fields[i]].Str?
    ensures forall e :: e in errs ==> e.field in fields
  {
    if fields == [] then [] else FieldProblem(d, fields[0]) + FieldProblems(d, fields[1..])
  }

  /** Every field of the note present and a string. */
  predicate Conforms(d: Dict) {
    forall f :: f in NoteFields ==> f in d && d[f].Str?
  }

  /** `ClinicalNoteJSON(**d)`: every field is required (`Field(...)` has no
      default), is typed `str` with no length bound, and keys that are not
      fields are ignored. On failure the errors name the offending fields in
      declaration order. */
  function Validate(d: Dict): (r: Result<ClinicalNote, seq<FieldError>>)
    ensures r.Ok? <==> Conforms(d)
    ensures r.Ok? ==> forall f :: f in NoteFields ==> ToDict(r.value)[f] == d[f]
    ensures r.Err? ==> r.error != [] && forall e :: e in r.error ==> e.field in NoteFields
  {
    var errs := FieldProblems(d, NoteFields);
    if errs == [] then
      assert NoteFields[1] == "diagnosis" && NoteFields[2] == "plan" && NoteFields[3] == "follow_up_instructions";
      Ok(ClinicalNote(d["chief_complaint"].s, d["diagnosis"].s, d["plan"].s, d["follow_up_instructions"].s))
    else
      Err(errs)
  }

  /** A note converted to a dict validates back to the same note. */
  lemma RoundTrip(n: ClinicalNote)
    ensures Validate(ToDict(n)) == Ok(n)
  {
  }

  /** Without a length constraint, empty strings are valid values. */
  lemma EmptyStringsAccepted()
    ensures Validate(ToDict(ClinicalNote("", "", "", ""))).Ok?
  {
  }

  /** A missing field is reported as missing, a non-string one as wrongly typed. */
  lemma MissingFieldRejected(d: Dict, f: string)
    requires f in NoteFields
    ensures f !in d ==> Validate(d).Err? && Missing(f) in Validate(d).error
    ensures f in d && !d[f].Str? ==> Validate(d).Err? && NotAString(f) in Validate(d).error
  {
    if f !in d || !d[f].Str? {
      ProblemListed(d, NoteFields, f);
    }
  }

  lemma {:induction false} ProblemListed(d: Dict, fields: seq<string>, f: string)
    requires f in fields
    ensures forall e :: e in FieldProblem(d, f) ==> e in FieldProblems(d, fields)
  {
    if fields[0] != f {
      ProblemListed(d, fields[1..], f);
    }
  }

  /** Keys other than the four fields do not affect validation. */
  lemma ExtraKeysIgnored(d: Dict, k: string, v: Value)
    requires k !in NoteFields
    ensures Validate(d[k := v]) == Validate(d)
  {
    ExtraKeyProblems(d, NoteFields, k, v);
  }

  lemma {:induction false} ExtraKeyProblems(d: Dict, fields: seq<string>, k: string, v: Value)
    requires k !in fields
    ensures FieldProblems(d[k := v], fields) == FieldProblems(d, fields)
  {
    if fields != [] {
      ExtraKeyProblems(d, fields[1..], k, v);
    }
  }
}
