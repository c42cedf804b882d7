/** internal/services/route_of_admin.go: `AddRoute`. The code is trimmed
    and upper-cased and the name trimmed, the result is validated with the
    rule set of models/route_of_admin.go, inserted without any error
    mapping, and returned as normalised (the database sends nothing
    back). */
module RouteService {
  import opened Base
  import Text
  import Validation
  import RouteOfAdminModel

  /** The value `AddRoute` validates and stores. */
  function Normalise(t: RouteOfAdminModel.RouteOfAdmin): (r: RouteOfAdminModel.RouteOfAdmin)
    ensures Text.Trimmed(r.code) && Text.Trimmed(r.name)
    ensures r.code == Text.ToUpper(r.code)
  {
    Validation.NoLowerIsUpperFixpoint(Text.NormaliseCode(t.code));
    RouteOfAdminModel.RouteOfAdmin(Text.NormaliseCode(t.code), Text.TrimSpace(t.name))
  }

  lemma NormaliseIdempotent(t: RouteOfAdminModel.RouteOfAdmin)
    ensures Normalise(Normalise(t)) == Normalise(t)
  {
    Text.NormaliseCodeIdempotent(t.code);
    Text.TrimSpaceIdempotent(t.name);
  }

  /** `AddRoute`; `exec` is the INSERT's outcome, nil or an error. */
  function AddRoute(t: RouteOfAdminModel.RouteOfAdmin, exec: RouteOfAdminModel.RouteOfAdmin -> Option<Error>): (r: Result<RouteOfAdminModel.RouteOfAdmin>)
    ensures !RouteOfAdminModel.Acceptable(Normalise(t))
            ==> r == Err(New(RouteOfAdminModel.Validate(Normalise(t)).0)) && r.error.text != ""
    ensures RouteOfAdminModel.Acceptable(Normalise(t)) && exec(Normalise(t)).Some? ==> r == Err(exec(Normalise(t)).value)
    ensures RouteOfAdminModel.Acceptable(Normalise(t)) && exec(Normalise(t)).None? ==> r == Ok(Normalise(t))
  {
    var p := Normalise(t);
    RouteOfAdminModel.ValidateAccepts(p);
    var (msg, ok) := RouteOfAdminModel.Validate(p);
    if !ok then Err(New(msg))
    else match exec(p)
      case Some(e) => Err(e)
      case None => Ok(p)
  }

  /** After normalisation the `uppercase` rule cannot fail: a route is
      accepted exactly when its trimmed code is 1 to 16 ASCII letters and
      digits and its trimmed name has 2 to 80 characters. */
  lemma AddRouteAccepts(t: RouteOfAdminModel.RouteOfAdmin)
    ensures RouteOfAdminModel.Acceptable(Normalise(t))
            <==> && Text.TrimSpace(t.code) != "" && |Text.TrimSpace(t.code)| <= 16
                 && Validation.AllAlnum(Text.ToUpper(Text.TrimSpace(t.code)))
                 && 2 <= |Text.TrimSpace(t.name)| <= 80
  {
  }

  /** Adding a route is adding its normalised form. */
  lemma AddRouteNormalises(t: RouteOfAdminModel.RouteOfAdmin, exec: RouteOfAdminModel.RouteOfAdmin -> Option<Error>)
    ensures AddRoute(Normalise(t), exec) == AddRoute(t, exec)
  {
    NormaliseIdempotent(t);
  }
}
