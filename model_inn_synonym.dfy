/** `INNSynonym` of models/inn_synonym.go and its value-receiver
    `Validate`. */
module InnSynonymModel {
  import opened Base
  import opened Validation
  import Uuid

  datatype InnSynonym = InnSynonym(innId: string, synonym: string)

  function Fields(s: InnSynonym): seq<Field> {
    [ Field("INNID", false, [Required, Uuid4], Str(s.innId)),
      Field("Synonym", false, [Required, Min(1), Max(120)], Str(s.synonym)) ]
  }

  lemma FieldsPass(s: InnSynonym)
    ensures Passes(Fields(s)[0]) <==> Uuid.IsUuid4(s.innId)
    ensures Passes(Fields(s)[1]) <==> 1 <= |s.synonym| <= 120
  {
    RequiredUuid4("INNID", s.innId);
    RequiredLength("Synonym", 1, 120, s.synonym);
  }

  predicate Acceptable(s: InnSynonym) {
    Uuid.IsUuid4(s.innId) && 1 <= |s.synonym| <= 120
  }

  /** `INNSynonym.Validate`. */
  function Validate(s: InnSynonym): (string, bool) {
    FirstError(Struct(Fields(s)))
  }

  lemma ValidateAccepts(s: InnSynonym)
    ensures Validate(s).1 <==> Acceptable(s)
    ensures Validate(s).1 ==> Validate(s).0 == ""
  {
    FieldsPass(s);
  }

  lemma Messages()
    ensures "INNID" + " is invalid" == "INNID is invalid"
  {
  }

  /** A bad INNID is reported whatever the synonym. */
  lemma InnIdReportedBeforeSynonym(s: InnSynonym)
    requires !Uuid.IsUuid4(s.innId)
    ensures Validate(s) == ("INNID is invalid", false)
  {
    FieldsPass(s);
    FirstFailureReported(Fields(s), 0);
    Messages();
  }
}
