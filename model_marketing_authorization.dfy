/** `Marketing` of models/marketing_authorization.go and its rule set. */
module MarketingModel {
  import opened Base
  import opened Validation

  datatype Marketing = Marketing(id: int, name: string, country: string)

  /** The fields in declaration order; `ID` is tagged `omitempty` alone. */
  function Fields(m: Marketing): seq<Field> {
    [ Field("ID", true, [], Int(m.id)),
      Field("Name", false, [Required, Max(150)], Str(m.name)),
      Field("Country", false, [Required, Max(100)], Str(m.country)) ]
  }

  lemma FieldsPass(m: Marketing)
    ensures Passes(Fields(m)[0])
    ensures Passes(Fields(m)[1]) <==> m.name != "" && |m.name| <= 150
    ensures Passes(Fields(m)[2]) <==> m.country != "" && |m.country| <= 100
  {
    OmitEmptyOnly("ID", Int(m.id));
    RequiredMax("Name", 150, m.name);
    RequiredMax("Country", 100, m.country);
  }

  /** What a valid marketing organisation is: a non-empty name of at most 150 characters and a
      non-empty country of at most 100; any id. */
  predicate Acceptable(m: Marketing) {
    m.name != "" && |m.name| <= 150 && m.country != "" && |m.country| <= 100
  }

  /** `(*Marketing).Validate`. */
  function Validate(m: Marketing): Option<ValidationError> {
    Struct(Fields(m))
  }

  lemma ValidateAccepts(m: Marketing)
    ensures Validate(m).None? <==> Acceptable(m)
  {
    FieldsPass(m);
  }

  /** The id is never looked at. */
  lemma IdUnconstrained(m: Marketing, id: int)
    ensures Validate(m.(id := id)) == Validate(m)
  {
    SameOutcome(Fields(m), Fields(m.(id := id)));
  }

  lemma Messages()
    ensures "Name" + " is invalid" == "Name is invalid"
  {
  }

  /** Name is declared first, so a bad Name is the one reported whatever the
      Country. */
  lemma NameReportedBeforeCountry(m: Marketing)
    requires m.name == "" || |m.name| > 150
    ensures FirstError(Validate(m)) == ("Name is invalid", false)
  {
    FieldsPass(m);
    FirstFailureReported(Fields(m), 1);
    Messages();
  }
}
