/** `StrengthUnit` of models/strength_unit.go and its rule set. */
module StrengthUnitModel {
  import opened Base
  import opened Validation
  import Text
  import Uuid

  datatype StrengthUnit = StrengthUnit(
    id: string,
    code: string,
    name: string,
    createdAt: Option<Time>,
    updatedAt: Option<Time>)

  /** The tagged fields in declaration order; the timestamps carry no tag. */
  function Fields(u: StrengthUnit): seq<Field> {
    [ Field("ID", true, [Uuid4], Str(u.id)),
      Field("Code", false, [Required, NotBlank, Max(32)], Str(u.code)),
      Field("Name", false, [Required, NotBlank, Max(120)], Str(u.name)) ]
  }

  lemma FieldsPass(u: StrengthUnit)
    ensures Passes(Fields(u)[0]) <==> u.id == "" || Uuid.IsUuid4(u.id)
    ensures Passes(Fields(u)[1]) <==> !Text.AllSpace(u.code) && |u.code| <= 32
    ensures Passes(Fields(u)[2]) <==> !Text.AllSpace(u.name) && |u.name| <= 120
  {
    OptionalUuid4("ID", u.id);
    NotBlankMax("Code", 32, u.code);
    NotBlankMax("Name", 120, u.name);
  }

  /** `(*StrengthUnit).Validate`, with `notblank` evaluated as intended. */
  function Validate(u: StrengthUnit): Option<ValidationError> {
    Struct(Fields(u))
  }

  /** An empty id or a UUID, a code of at most 32 and a name of at most 120
      characters, neither blank. */
  predicate Acceptable(u: StrengthUnit) {
    (u.id == "" || Uuid.IsUuid4(u.id))
    && !Text.AllSpace(u.code) && |u.code| <= 32
    && !Text.AllSpace(u.name) && |u.name| <= 120
  }

  lemma ValidateAccepts(u: StrengthUnit)
    ensures Validate(u).None? <==> Acceptable(u)
  {
    FieldsPass(u);
  }

  lemma Messages()
    ensures "Code" + " is invalid" == "Code is invalid"
  {
  }

  /** A bad Code is reported whatever the Name. */
  lemma CodeReportedBeforeName(u: StrengthUnit)
    requires u.id == "" || Uuid.IsUuid4(u.id)
    requires Text.AllSpace(u.code) || |u.code| > 32
    ensures FirstError(Validate(u)) == ("Code is invalid", false)
  {
    var fs := Fields(u);
    FieldsPass(u);
    FirstFailureReported(fs, 1);
    Messages();
  }

  /** As written, `notblank` is unregistered and validating any StrengthUnit
      panics. */
  lemma ValidateAsWrittenPanics(u: StrengthUnit)
    ensures StructAsWritten(Fields(u)).Panic?
  {
    assert Fields(u)[1].rules[1] == NotBlank;
    NotBlankPanics(Fields(u), 1, 1);
  }
}
