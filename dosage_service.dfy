/** internal/services/dosage_form.go: `AddDosage`. The code is trimmed and
    upper-cased and the name trimmed, the result is validated by the
    input's `Validate` (a message and a flag), inserted on (code, name)
    without any error mapping, and returned as normalised. */
module DosageService {
  import opened Base
  import ServicesCatalog

  /** The value `AddDosage` validates: code and name normalised as in
      `AddDosageForm`, the caller's id kept. */
  function Normalise(f: ServicesCatalog.DosageForm): ServicesCatalog.DosageForm {
    ServicesCatalog.PrepareDosageForm(f, f.id)
  }

  /** `AddDosage`. `models.DosageForm` is not declared in the models
      package, so its `Validate` is the parameter `validate`; `exec` is the
      INSERT's outcome. */
  function AddDosage(f: ServicesCatalog.DosageForm, validate: ServicesCatalog.DosageForm -> (string, bool),
                     exec: ((string, string)) -> Option<Error>): (r: Result<ServicesCatalog.DosageForm>)
    ensures !validate(Normalise(f)).1 ==> r == Err(New(validate(Normalise(f)).0))
    ensures validate(Normalise(f)).1 && exec((Normalise(f).code, Normalise(f).name)).Some?
            ==> r == Err(exec((Normalise(f).code, Normalise(f).name)).value)
    ensures validate(Normalise(f)).1 && exec((Normalise(f).code, Normalise(f).name)).None?
            ==> r == Ok(Normalise(f))
  {
    var p := Normalise(f);
    var (msg, ok) := validate(p);
    if !ok then Err(New(msg))
    else match exec((p.code, p.name))
      case Some(e) => Err(e)
      case None => Ok(p)
  }

  /** Adding a dosage form is adding its normalised form. */
  lemma AddDosageNormalises(f: ServicesCatalog.DosageForm, validate: ServicesCatalog.DosageForm -> (string, bool),
                            exec: ((string, string)) -> Option<Error>)
    ensures AddDosage(Normalise(f), validate, exec) == AddDosage(f, validate, exec)
  {
    ServicesCatalog.PrepareDosageFormIdempotent(f, f.id);
  }
}
