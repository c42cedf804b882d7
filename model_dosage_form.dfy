/** `Dosage` of models/dosage_form.go and its rule set. */
module DosageModel {
  import opened Base
  import opened Validation

  datatype Dosage = Dosage(id: int, code: string, name: string)

  /** The fields in declaration order; `ID` is tagged `omitempty` alone. */
  function Fields(m: Dosage): seq<Field> {
    [ Field("ID", true, [], Int(m.id)),
      Field("Code", false, [Required, Max(50)], Str(m.code)),
      Field("Name", false, [Required, Max(100)], Str(m.name)) ]
  }

  lemma FieldsPass(m: Dosage)
    ensures Passes(Fields(m)[0])
    ensures Passes(Fields(m)[1]) <==> m.code != "" && |m.code| <= 50
    ensures Passes(Fields(m)[2]) <==> m.name != "" && |m.name| <= 100
  {
    OmitEmptyOnly("ID", Int(m.id));
    RequiredMax("Code", 50, m.code);
    RequiredMax("Name", 100, m.name);
  }

  /** What a valid dosage form is: a non-empty code of at most 50 characters and a
      non-empty name of at most 100; any id. */
  predicate Acceptable(m: Dosage) {
    m.code != "" && |m.code| <= 50 && m.name != "" && |m.name| <= 100
  }

  /** `(*Dosage).Validate`. */
  function Validate(m: Dosage): Option<ValidationError> {
    Struct(Fields(m))
  }

  lemma ValidateAccepts(m: Dosage)
    ensures Validate(m).None? <==> Acceptable(m)
  {
    FieldsPass(m);
  }

  /** The id is never looked at. */
  lemma IdUnconstrained(m: Dosage, id: int)
    ensures Validate(m.(id := id)) == Validate(m)
  {
    SameOutcome(Fields(m), Fields(m.(id := id)));
  }

  lemma Messages()
    ensures "Code" + " is invalid" == "Code is invalid"
  {
  }

  /** Code is declared first, so a bad Code is the one reported whatever the
      Name. */
  lemma CodeReportedBeforeName(m: Dosage)
    requires m.code == "" || |m.code| > 50
    ensures FirstError(Validate(m)) == ("Code is invalid", false)
  {
    FieldsPass(m);
    FirstFailureReported(Fields(m), 1);
    Messages();
  }
}
