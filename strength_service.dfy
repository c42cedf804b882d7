/** internal/services/strengh_unit.go: `AddStrength`. The code is trimmed
    and upper-cased and the name trimmed, the result is validated with the
    rule set of models/strength_unit.go (the caller's id included, since
    none is assigned), inserted on (code, name) without any error mapping,
    and returned as normalised. */
module StrengthService {
  import opened Base
  import Text
  import Validation
  import Uuid
  import StrengthUnitModel
  import ServicesCatalog

  /** The value `AddStrength` validates: code and name normalised as in
      `AddStrengthUnit`, the caller's id and timestamps kept. */
  function Normalise(u: StrengthUnitModel.StrengthUnit): (r: StrengthUnitModel.StrengthUnit)
    ensures r == ServicesCatalog.PrepareStrengthUnit(u, u.id)
    ensures r.id == u.id
  {
    u.(code := Text.NormaliseCode(u.code), name := Text.TrimSpace(u.name))
  }

  /** `AddStrength`; `exec` is the INSERT's outcome. The model's `Validate`
      returns an error, which is read here through `FirstError`. */
  function AddStrength(u: StrengthUnitModel.StrengthUnit, exec: ((string, string)) -> Option<Error>): (r: Result<StrengthUnitModel.StrengthUnit>)
    ensures !StrengthUnitModel.Acceptable(Normalise(u))
            ==> r == Err(New(Validation.FirstError(StrengthUnitModel.Validate(Normalise(u))).0)) && r.error.text != ""
    ensures StrengthUnitModel.Acceptable(Normalise(u)) && exec((Normalise(u).code, Normalise(u).name)).Some?
            ==> r == Err(exec((Normalise(u).code, Normalise(u).name)).value)
    ensures StrengthUnitModel.Acceptable(Normalise(u)) && exec((Normalise(u).code, Normalise(u).name)).None?
            ==> r == Ok(Normalise(u))
  {
    var p := Normalise(u);
    StrengthUnitModel.ValidateAccepts(p);
    var (msg, ok) := Validation.FirstError(StrengthUnitModel.Validate(p));
    if !ok then Err(New(msg))
    else match exec((p.code, p.name))
      case Some(e) => Err(e)
      case None => Ok(p)
  }

  /** A strength unit is accepted exactly when the caller's id is empty or
      a UUID and the code and name are not blank and, once normalised, at
      most 32 and 120 characters. */
  lemma AddStrengthAccepts(u: StrengthUnitModel.StrengthUnit)
    ensures StrengthUnitModel.Acceptable(Normalise(u))
            <==> && (u.id == "" || Uuid.IsUuid4(u.id))
                 && !Text.AllSpace(u.code) && |Text.NormaliseCode(u.code)| <= 32
                 && !Text.AllSpace(u.name) && |Text.TrimSpace(u.name)| <= 120
  {
    Text.TrimmedBlankIsEmpty(Text.NormaliseCode(u.code));
    Text.TrimmedBlankIsEmpty(Text.TrimSpace(u.name));
  }

  /** Adding a strength unit is adding its normalised form. */
  lemma AddStrengthNormalises(u: StrengthUnitModel.StrengthUnit, exec: ((string, string)) -> Option<Error>)
    ensures AddStrength(Normalise(u), exec) == AddStrength(u, exec)
  {
    ServicesCatalog.PrepareStrengthUnitIdempotent(u, u.id);
  }
}
