/** `RouteOfAdmin` of models/route_of_admin.go and its value-receiver
    `Validate`. */
module RouteOfAdminModel {
  import opened Base
  import opened Validation
  import Text

  datatype RouteOfAdmin = RouteOfAdmin(code: string, name: string)

  function Fields(r: RouteOfAdmin): seq<Field> {
    [ Field("Code", false, [Required, Uppercase, Alphanum, Max(16)], Str(r.code)),
      Field("Name", false, [Required, Min(2), Max(80)], Str(r.name)) ]
  }

  lemma FieldsPass(r: RouteOfAdmin)
    ensures Passes(Fields(r)[0]) <==> r.code != "" && NoLower(r.code) && AllAlnum(r.code) && |r.code| <= 16
    ensures Passes(Fields(r)[1]) <==> 2 <= |r.name| <= 80
  {
    RequiredUpperAlnumMax("Code", 16, r.code);
    RequiredLength("Name", 2, 80, r.name);
  }

  /** A code of 1 to 16 ASCII letters and digits that upper-casing leaves
      alone, and a name of 2 to 80 characters. */
  predicate Acceptable(r: RouteOfAdmin) {
    r.code != "" && r.code == Text.ToUpper(r.code) && AllAlnum(r.code) && |r.code| <= 16
    && 2 <= |r.name| <= 80
  }

  /** `RouteOfAdmin.Validate`. */
  function Validate(r: RouteOfAdmin): (string, bool) {
    FirstError(Struct(Fields(r)))
  }

  lemma ValidateAccepts(r: RouteOfAdmin)
    ensures Validate(r).1 <==> Acceptable(r)
    ensures Validate(r).1 ==> Validate(r).0 == ""
  {
    FieldsPass(r);
    NoLowerIsUpperFixpoint(r.code);
  }
}
