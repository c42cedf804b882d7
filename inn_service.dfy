/** internal/services/inn.go: `AddINN`. The id is assigned by the server
    before validation, the name is stored as given, a storage error is
    returned as it is, and a stored INN comes back with the timestamps the
    database assigned. */
module InnService {
  import opened Base
  import Uuid
  import InnModel

  /** `AddINN`; `insert` is the INSERT on (id, name) returning
      (created_at, updated_at). */
  function AddInn(n: InnModel.Inn, serverId: string, insert: ((string, string)) -> Result<(Time, Time)>): (r: Result<InnModel.Inn>)
    ensures !InnModel.Acceptable(n.(id := serverId))
            ==> r == Err(New(InnModel.Validate(n.(id := serverId)).0)) && r.error.text != ""
    ensures InnModel.Acceptable(n.(id := serverId)) && insert((serverId, n.name)).Err?
            ==> r == Err(insert((serverId, n.name)).error)
    ensures r.Ok? <==> InnModel.Acceptable(n.(id := serverId)) && insert((serverId, n.name)).Ok?
    ensures r.Ok? ==> && r.value.id == serverId && r.value.name == n.name
                      && r.value.createdAt == Some(insert((serverId, n.name)).value.0)
                      && r.value.updatedAt == Some(insert((serverId, n.name)).value.1)
  {
    var p := n.(id := serverId);
    InnModel.ValidateAccepts(p);
    var (msg, ok) := InnModel.Validate(p);
    if !ok then Err(New(msg))
    else match insert((p.id, p.name))
      case Err(e) => Err(e)
      case Ok(stamps) => Ok(p.(createdAt := Some(stamps.0), updatedAt := Some(stamps.1)))
  }

  /** With a server id from `uuid.NewString` the required-uuid4 rule on the
      id always holds, so only the name decides: 2 to 120 characters, not
      trimmed, white space counted. */
  lemma AddInnServerIdAccepted(n: InnModel.Inn, random: seq<bv8>)
    requires |random| == 16
    ensures InnModel.Acceptable(n.(id := Uuid.NewString(random))) <==> 2 <= |n.name| <= 120
  {
    Uuid.NewStringIsUuid4(random);
  }

  /** The caller's id and timestamps never matter: they are overwritten
      before anything looks at them. */
  lemma AddInnIgnoresCallerFields(n: InnModel.Inn, id: string, c: Option<Time>, u: Option<Time>, serverId: string,
                                  insert: ((string, string)) -> Result<(Time, Time)>)
    ensures AddInn(n.(id := id, createdAt := c, updatedAt := u), serverId, insert) == AddInn(n, serverId, insert)
  {
    InnModel.TimestampsUnconstrained(n.(id := serverId), c, u);
    assert n.(id := id, createdAt := c, updatedAt := u).(id := serverId)
        == n.(id := serverId).(createdAt := c, updatedAt := u);
  }
}
