/** `AuthorityHolder` of models/auth_holder.go and its rule set. */
module AuthorityHolderModel {
  import opened Base
  import opened Validation

  datatype AuthorityHolder = AuthorityHolder(id: int, name: string, country: string)

  /** The fields in declaration order; `ID` is tagged `omitempty` alone. */
  function Fields(m: AuthorityHolder): seq<Field> {
    [ Field("ID", true, [], Int(m.id)),
      Field("Name", false, [Required, Max(150)], Str(m.name)),
      Field("Country", false, [Required, Max(100)], Str(m.country)) ]
  }

  lemma FieldsPass(m: AuthorityHolder)
    ensures Passes(Fields(m)[0])
    ensures Passes(Fields(m)[1]) <==> m.name != "" && |m.name| <= 150
    ensures Passes(Fields(m)[2]) <==> m.country != "" && |m.country| <= 100
  {
    OmitEmptyOnly("ID", Int(m.id));
    RequiredMax("Name", 150, m.name);
    RequiredMax("Country", 100, m.country);
  }

  /** What a valid authority holder is: a non-empty name of at most 150 characters and a
      non-empty country of at most 100; any id. */
  predicate Acceptable(m: AuthorityHolder) {
    m.name != "" && |m.name| <= 150 && m.country != "" && |m.country| <= 100
  }

  /** `(*AuthorityHolder).Validate`. */
  function Validate(m: AuthorityHolder): Option<ValidationError> {
    Struct(Fields(m))
  }

  lemma ValidateAccepts(m: AuthorityHolder)
    ensures Validate(m).None? <==> Acceptable(m)
  {
    FieldsPass(m);
  }

  /** The id is never looked at. */
  lemma IdUnconstrained(m: AuthorityHolder, id: int)
    ensures Validate(m.(id := id)) == Validate(m)
  {
    SameOutcome(Fields(m), Fields(m.(id := id)));
  }

  lemma Messages()
    ensures "Name" + " is invalid" == "Name is invalid"
  {
  }

  /** Name is declared first, so a bad Name is the one reported whatever the
      Country. */
  lemma NameReportedBeforeCountry(m: AuthorityHolder)
    requires m.name == "" || |m.name| > 150
    ensures FirstError(Validate(m)) == ("Name is invalid", false)
  {
    FieldsPass(m);
    FirstFailureReported(Fields(m), 1);
    Messages();
  }
}
