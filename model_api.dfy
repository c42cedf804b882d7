/** `API` (an active pharmaceutical ingredient) of models/api.go and its
    rule set. */
module ApiModel {
  import opened Base
  import opened Validation
  import Text
  import Uuid
  import Types

  /** The values the `oneof` of `Status` lists. */
  const StatusValues: seq<string> := ["active", "inactive", "withdrawn", "banned"]

  datatype Api = Api(
    id: string,
    name: string,
    status: string,
    createdAt: Option<Time>,
    updatedAt: Option<Time>)

  /** The tagged fields in declaration order; the timestamps carry no tag. */
  function Fields(a: Api): seq<Field> {
    [ Field("ID", true, [Uuid4], Str(a.id)),
      Field("Name", false, [Required, NotBlank, Max(200)], Str(a.name)),
      Field("Status", false, [Required, OneOf(StatusValues)], Str(a.status)) ]
  }

  lemma FieldsPass(a: Api)
    ensures Passes(Fields(a)[0]) <==> a.id == "" || Uuid.IsUuid4(a.id)
    ensures Passes(Fields(a)[1]) <==> !Text.AllSpace(a.name) && |a.name| <= 200
    ensures Passes(Fields(a)[2]) <==> a.status in StatusValues
  {
    OptionalUuid4("ID", a.id);
    NotBlankMax("Name", 200, a.name);
    RequiredOneOf("Status", StatusValues, a.status);
  }

  /** `(*API).Validate`, with `notblank` evaluated as intended. */
  function Validate(a: Api): Option<ValidationError> {
    Struct(Fields(a))
  }

  /** An empty id or a UUID, a name that is not blank and has at most 200
      characters, and one of the four statuses. */
  predicate Acceptable(a: Api) {
    (a.id == "" || Uuid.IsUuid4(a.id))
    && !Text.AllSpace(a.name) && |a.name| <= 200
    && a.status in StatusValues
  }

  lemma ValidateAccepts(a: Api)
    ensures Validate(a).None? <==> Acceptable(a)
  {
    FieldsPass(a);
  }

  /** The `oneof` list is exactly the set of `APIStatus` constants. */
  lemma StatusValuesAreApiStatus(s: string)
    ensures s in StatusValues <==> Types.ParseApiStatus(s).Some?
  {
  }

  /** The timestamps are not validated. */
  lemma TimestampsUnconstrained(a: Api, c: Option<Time>, u: Option<Time>)
    ensures Validate(a.(createdAt := c, updatedAt := u)) == Validate(a)
  {
  }

  /** As written, `notblank` is unregistered and validating any API panics. */
  lemma ValidateAsWrittenPanics(a: Api)
    ensures StructAsWritten(Fields(a)).Panic?
  {
    assert Fields(a)[1].rules[1] == NotBlank;
    NotBlankPanics(Fields(a), 1, 1);
  }
}
