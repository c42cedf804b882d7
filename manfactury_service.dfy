/** internal/services/manfactury_service.go: add (trim, validate, insert),
    list by name and collapse-patch update for the three organisation
    tables authority_holder, manufacturing_site and marketing. The three
    share their code line for line; a unique violation (23505) becomes
    "name already exists" on every path. */
module ManufactoryService {
  import opened Base
  import Text
  import Sql
  import Sorting
  import Validation
  import AuthorityHolderModel
  import ManufacturingSiteModel
  import MarketingModel

  const NameTaken: string := "name already exists"

  // ------------------------------------------------------------ authority holder

  /** The input after the trimming of name and country. */
  function NormaliseAuthorityHolder(m: AuthorityHolderModel.AuthorityHolder): (r: AuthorityHolderModel.AuthorityHolder)
    ensures Text.Trimmed(r.name) && Text.Trimmed(r.country) && r.id == m.id
  {
    m.(name := Text.TrimSpace(m.name), country := Text.TrimSpace(m.country))
  }

  /** `AddAuthorityHolder`: trim, validate, insert (`insert` returns the stored row or
      the storage error). */
  function AddAuthorityHolder(m: AuthorityHolderModel.AuthorityHolder, insert: AuthorityHolderModel.AuthorityHolder -> Result<AuthorityHolderModel.AuthorityHolder>): (r: Result<AuthorityHolderModel.AuthorityHolder>)
    ensures var n := NormaliseAuthorityHolder(m);
            AuthorityHolderModel.Validate(n).Some? ==> r == Err(New(Validation.FirstError(AuthorityHolderModel.Validate(n)).0))
    ensures r.Ok? <==> AuthorityHolderModel.Acceptable(NormaliseAuthorityHolder(m)) && insert(NormaliseAuthorityHolder(m)).Ok?
    ensures r.Ok? ==> r.value == insert(NormaliseAuthorityHolder(m)).value
    ensures var n := NormaliseAuthorityHolder(m);
            AuthorityHolderModel.Acceptable(n) && insert(n).Err? ==> r.error == Sql.MapError(insert(n).error, None, Some(NameTaken))
  {
    var n := NormaliseAuthorityHolder(m);
    AuthorityHolderModel.ValidateAccepts(n);
    match AuthorityHolderModel.Validate(n)
    case Some(err) => Err(New(Validation.FirstError(Some(err)).0))
    case None =>
      match insert(n)
      case Ok(row) => Ok(row)
      case Err(e) => Err(Sql.MapError(e, None, Some(NameTaken)))
  }

  /** A name of white space only is empty once trimmed, so it is rejected
      as an invalid Name, and nothing is inserted. */
  lemma AddAuthorityHolderRejectsBlankName(m: AuthorityHolderModel.AuthorityHolder, insert: AuthorityHolderModel.AuthorityHolder -> Result<AuthorityHolderModel.AuthorityHolder>)
    requires Text.AllSpace(m.name)
    ensures AddAuthorityHolder(m, insert) == Err(New("Name is invalid"))
  {
    AuthorityHolderModel.NameReportedBeforeCountry(NormaliseAuthorityHolder(m));
  }

  /** The SET list of `UpdateAuthorityHolder`: a name or country that is "" after
      trimming keeps the stored one. */
  function ApplyAuthorityHolder(row: AuthorityHolderModel.AuthorityHolder, p: AuthorityHolderModel.AuthorityHolder): (r: AuthorityHolderModel.AuthorityHolder)
    ensures r.id == row.id
    ensures r.name == (if Text.TrimSpace(p.name) == "" then row.name else Text.TrimSpace(p.name))
    ensures r.country == (if Text.TrimSpace(p.country) == "" then row.country else Text.TrimSpace(p.country))
  {
    row.(name := Sql.Collapse(Text.TrimSpace(p.name), "", row.name),
         country := Sql.Collapse(Text.TrimSpace(p.country), "", row.country))
  }

  lemma ApplyAuthorityHolderLaws(row: AuthorityHolderModel.AuthorityHolder, p: AuthorityHolderModel.AuthorityHolder)
    ensures Text.AllSpace(p.name) && Text.AllSpace(p.country) ==> ApplyAuthorityHolder(row, p) == row
    ensures ApplyAuthorityHolder(ApplyAuthorityHolder(row, p), p) == ApplyAuthorityHolder(row, p)
  {
  }

  /** No validation guards an update: a patch name longer than the 150
      characters `AddAuthorityHolder` accepts is written all the same. */
  lemma UpdateAuthorityHolderIsUnchecked(row: AuthorityHolderModel.AuthorityHolder, p: AuthorityHolderModel.AuthorityHolder)
    requires |Text.TrimSpace(p.name)| > 150
    ensures ApplyAuthorityHolder(row, p).name == Text.TrimSpace(p.name)
    ensures !AuthorityHolderModel.Acceptable(ApplyAuthorityHolder(row, p))
  {
  }

  /** `UpdateAuthorityHolder` on the table keyed by id, under the database's
      constraint verdict `check`; returns the response and the table
      afterwards. */
  function UpdateAuthorityHolder(table: map<int, AuthorityHolderModel.AuthorityHolder>, id: int, p: AuthorityHolderModel.AuthorityHolder,
                     check: AuthorityHolderModel.AuthorityHolder -> Option<Error>): (r: (Result<AuthorityHolderModel.AuthorityHolder>, map<int, AuthorityHolderModel.AuthorityHolder>))
    ensures id !in table ==> r == (Err(NoRows), table)
    ensures id in table && check(ApplyAuthorityHolder(table[id], p)).Some?
            ==> r == (Err(Sql.MapError(check(ApplyAuthorityHolder(table[id], p)).value, None, Some(NameTaken))), table)
    ensures id in table && check(ApplyAuthorityHolder(table[id], p)).None?
            ==> r == (Ok(ApplyAuthorityHolder(table[id], p)), table[id := ApplyAuthorityHolder(table[id], p)])
    ensures r.1.Keys == table.Keys
    ensures forall k :: k in table && k != id ==> r.1[k] == table[k]
  {
    var u := Sql.UpdateRow(table, id, row => ApplyAuthorityHolder(row, p), check);
    Sql.UpdateRowTouchesOnlyThatRow(table, id, row => ApplyAuthorityHolder(row, p), check);
    match u.0
    case Err(e) => (Err(Sql.MapError(e, None, Some(NameTaken))), u.1)
    case Ok(row) => (Ok(row), u.1)
  }

  /** `ORDER BY name ASC`. */
  predicate AuthorityHolderByName(a: AuthorityHolderModel.AuthorityHolder, b: AuthorityHolderModel.AuthorityHolder) {
    !Text.StrLt(b.name, a.name)
  }

  lemma AuthorityHolderByNameIsTotal()
    ensures Sorting.IsTotalPreorder(AuthorityHolderByName)
  {
    forall a: AuthorityHolderModel.AuthorityHolder, b: AuthorityHolderModel.AuthorityHolder
      ensures AuthorityHolderByName(a, b) || AuthorityHolderByName(b, a)
    {
      Text.StrNotAfterTotal(a.name, b.name);
    }
    forall a: AuthorityHolderModel.AuthorityHolder, b: AuthorityHolderModel.AuthorityHolder, c: AuthorityHolderModel.AuthorityHolder | AuthorityHolderByName(a, b) && AuthorityHolderByName(b, c)
      ensures AuthorityHolderByName(a, c)
    {
      Text.StrNotAfterTransitive(a.name, b.name, c.name);
    }
  }

  /** `GetAll...`: the table's rows by name, or the query's error. */
  function GetAllAuthorityHolders(query: Result<seq<AuthorityHolderModel.AuthorityHolder>>): (r: Result<seq<AuthorityHolderModel.AuthorityHolder>>)
    ensures r.Err? <==> query.Err?
    ensures r.Err? ==> r.error == query.error
    ensures r.Ok? ==> Sorting.SortedBy(r.value, AuthorityHolderByName)
    ensures r.Ok? ==> multiset(r.value) == multiset(query.value)
  {
    AuthorityHolderByNameIsTotal();
    match query
    case Err(e) => Err(e)
    case Ok(rows) => Ok(Sorting.Sort(rows, AuthorityHolderByName))
  }

  // ------------------------------------------------------------ manufacturing site

  /** The input after the trimming of name and country. */
  function NormaliseManufacturingSite(m: ManufacturingSiteModel.ManufacturingSite): (r: ManufacturingSiteModel.ManufacturingSite)
    ensures Text.Trimmed(r.name) && Text.Trimmed(r.country) && r.id == m.id
  {
    m.(name := Text.TrimSpace(m.name), country := Text.TrimSpace(m.country))
  }

  /** `AddManufacturingSite`: trim, validate, insert (`insert` returns the stored row or
      the storage error). */
  function AddManufacturingSite(m: ManufacturingSiteModel.ManufacturingSite, insert: ManufacturingSiteModel.ManufacturingSite -> Result<ManufacturingSiteModel.ManufacturingSite>): (r: Result<ManufacturingSiteModel.ManufacturingSite>)
    ensures var n := NormaliseManufacturingSite(m);
            ManufacturingSiteModel.Validate(n).Some? ==> r == Err(New(Validation.FirstError(ManufacturingSiteModel.Validate(n)).0))
    ensures r.Ok? <==> ManufacturingSiteModel.Acceptable(NormaliseManufacturingSite(m)) && insert(NormaliseManufacturingSite(m)).Ok?
    ensures r.Ok? ==> r.value == insert(NormaliseManufacturingSite(m)).value
    ensures var n := NormaliseManufacturingSite(m);
            ManufacturingSiteModel.Acceptable(n) && insert(n).Err? ==> r.error == Sql.MapError(insert(n).error, None, Some(NameTaken))
  {
    var n := NormaliseManufacturingSite(m);
    ManufacturingSiteModel.ValidateAccepts(n);
    match ManufacturingSiteModel.Validate(n)
    case Some(err) => Err(New(Validation.FirstError(Some(err)).0))
    case None =>
      match insert(n)
      case Ok(row) => Ok(row)
      case Err(e) => Err(Sql.MapError(e, None, Some(NameTaken)))
  }

  /** A name of white space only is empty once trimmed, so it is rejected
      as an invalid Name, and nothing is inserted. */
  lemma AddManufacturingSiteRejectsBlankName(m: ManufacturingSiteModel.ManufacturingSite, insert: ManufacturingSiteModel.ManufacturingSite -> Result<ManufacturingSiteModel.ManufacturingSite>)
    requires Text.AllSpace(m.name)
    ensures AddManufacturingSite(m, insert) == Err(New("Name is invalid"))
  {
    ManufacturingSiteModel.NameReportedBeforeCountry(NormaliseManufacturingSite(m));
  }

  /** The SET list of `UpdateManufacturingSite`: a name or country that is "" after
      trimming keeps the stored one. */
  function ApplyManufacturingSite(row: ManufacturingSiteModel.ManufacturingSite, p: ManufacturingSiteModel.ManufacturingSite): (r: ManufacturingSiteModel.ManufacturingSite)
    ensures r.id == row.id
    ensures r.name == (if Text.TrimSpace(p.name) == "" then row.name else Text.TrimSpace(p.name))
    ensures r.country == (if Text.TrimSpace(p.country) == "" then row.country else Text.TrimSpace(p.country))
  {
    row.(name := Sql.Collapse(Text.TrimSpace(p.name), "", row.name),
         country := Sql.Collapse(Text.TrimSpace(p.country), "", row.country))
  }

  lemma ApplyManufacturingSiteLaws(row: ManufacturingSiteModel.ManufacturingSite, p: ManufacturingSiteModel.ManufacturingSite)
    ensures Text.AllSpace(p.name) && Text.AllSpace(p.country) ==> ApplyManufacturingSite(row, p) == row
    ensures ApplyManufacturingSite(ApplyManufacturingSite(row, p), p) == ApplyManufacturingSite(row, p)
  {
  }

  /** No validation guards an update: a patch name longer than the 150
      characters `AddManufacturingSite` accepts is written all the same. */
  lemma UpdateManufacturingSiteIsUnchecked(row: ManufacturingSiteModel.ManufacturingSite, p: ManufacturingSiteModel.ManufacturingSite)
    requires |Text.TrimSpace(p.name)| > 150
    ensures ApplyManufacturingSite(row, p).name == Text.TrimSpace(p.name)
    ensures !ManufacturingSiteModel.Acceptable(ApplyManufacturingSite(row, p))
  {
  }

  /** `UpdateManufacturingSite` on the table keyed by id, under the database's
      constraint verdict `check`; returns the response and the table
      afterwards. */
  function UpdateManufacturingSite(table: map<int, ManufacturingSiteModel.ManufacturingSite>, id: int, p: ManufacturingSiteModel.ManufacturingSite,
                     check: ManufacturingSiteModel.ManufacturingSite -> Option<Error>): (r: (Result<ManufacturingSiteModel.ManufacturingSite>, map<int, ManufacturingSiteModel.ManufacturingSite>))
    ensures id !in table ==> r == (Err(NoRows), table)
    ensures id in table && check(ApplyManufacturingSite(table[id], p)).Some?
            ==> r == (Err(Sql.MapError(check(ApplyManufacturingSite(table[id], p)).value, None, Some(NameTaken))), table)
    ensures id in table && check(ApplyManufacturingSite(table[id], p)).None?
            ==> r == (Ok(ApplyManufacturingSite(table[id], p)), table[id := ApplyManufacturingSite(table[id], p)])
    ensures r.1.Keys == table.Keys
    ensures forall k :: k in table && k != id ==> r.1[k] == table[k]
  {
    var u := Sql.UpdateRow(table, id, row => ApplyManufacturingSite(row, p), check);
    Sql.UpdateRowTouchesOnlyThatRow(table, id, row => ApplyManufacturingSite(row, p), check);
    match u.0
    case Err(e) => (Err(Sql.MapError(e, None, Some(NameTaken))), u.1)
    case Ok(row) => (Ok(row), u.1)
  }

  /** `ORDER BY name ASC`. */
  predicate ManufacturingSiteByName(a: ManufacturingSiteModel.ManufacturingSite, b: ManufacturingSiteModel.ManufacturingSite) {
    !Text.StrLt(b.name, a.name)
  }

  lemma ManufacturingSiteByNameIsTotal()
    ensures Sorting.IsTotalPreorder(ManufacturingSiteByName)
  {
    forall a: ManufacturingSiteModel.ManufacturingSite, b: ManufacturingSiteModel.ManufacturingSite
      ensures ManufacturingSiteByName(a, b) || ManufacturingSiteByName(b, a)
    {
      Text.StrNotAfterTotal(a.name, b.name);
    }
    forall a: ManufacturingSiteModel.ManufacturingSite, b: ManufacturingSiteModel.ManufacturingSite, c: ManufacturingSiteModel.ManufacturingSite | ManufacturingSiteByName(a, b) && ManufacturingSiteByName(b, c)
      ensures ManufacturingSiteByName(a, c)
    {
      Text.StrNotAfterTransitive(a.name, b.name, c.name);
    }
  }

  /** `GetAll...`: the table's rows by name, or the query's error. */
  function GetAllManufacturingSites(query: Result<seq<ManufacturingSiteModel.ManufacturingSite>>): (r: Result<seq<ManufacturingSiteModel.ManufacturingSite>>)
    ensures r.Err? <==> query.Err?
    ensures r.Err? ==> r.error == query.error
    ensures r.Ok? ==> Sorting.SortedBy(r.value, ManufacturingSiteByName)
    ensures r.Ok? ==> multiset(r.value) == multiset(query.value)
  {
    ManufacturingSiteByNameIsTotal();
    match query
    case Err(e) => Err(e)
    case Ok(rows) => Ok(Sorting.Sort(rows, ManufacturingSiteByName))
  }

  // ------------------------------------------------------------ marketing

  /** The input after the trimming of name and country. */
  function NormaliseMarketing(m: MarketingModel.Marketing): (r: MarketingModel.Marketing)
    ensures Text.Trimmed(r.name) && Text.Trimmed(r.country) && r.id == m.id
  {
    m.(name := Text.TrimSpace(m.name), country := Text.TrimSpace(m.country))
  }

  /** `AddMarketing`: trim, validate, insert (`insert` returns the stored row or
      the storage error). */
  function AddMarketing(m: MarketingModel.Marketing, insert: MarketingModel.Marketing -> Result<MarketingModel.Marketing>): (r: Result<MarketingModel.Marketing>)
    ensures var n := NormaliseMarketing(m);
            MarketingModel.Validate(n).Some? ==> r == Err(New(Validation.FirstError(MarketingModel.Validate(n)).0))
    ensures r.Ok? <==> MarketingModel.Acceptable(NormaliseMarketing(m)) && insert(NormaliseMarketing(m)).Ok?
    ensures r.Ok? ==> r.value == insert(NormaliseMarketing(m)).value
    ensures var n := NormaliseMarketing(m);
            MarketingModel.Acceptable(n) && insert(n).Err? ==> r.error == Sql.MapError(insert(n).error, None, Some(NameTaken))
  {
    var n := NormaliseMarketing(m);
    MarketingModel.ValidateAccepts(n);
    match MarketingModel.Validate(n)
    case Some(err) => Err(New(Validation.FirstError(Some(err)).0))
    case None =>
      match insert(n)
      case Ok(row) => Ok(row)
      case Err(e) => Err(Sql.MapError(e, None, Some(NameTaken)))
  }

  /** A name of white space only is empty once trimmed, so it is rejected
      as an invalid Name, and nothing is inserted. */
  lemma AddMarketingRejectsBlankName(m: MarketingModel.Marketing, insert: MarketingModel.Marketing -> Result<MarketingModel.Marketing>)
    requires Text.AllSpace(m.name)
    ensures AddMarketing(m, insert) == Err(New("Name is invalid"))
  {
    MarketingModel.NameReportedBeforeCountry(NormaliseMarketing(m));
  }

  /** The SET list of `UpdateMarketing`: a name or country that is "" after
      trimming keeps the stored one. */
  function ApplyMarketing(row: MarketingModel.Marketing, p: MarketingModel.Marketing): (r: MarketingModel.Marketing)
    ensures r.id == row.id
    ensures r.name == (if Text.TrimSpace(p.name) == "" then row.name else Text.TrimSpace(p.name))
    ensures r.country == (if Text.TrimSpace(p.country) == "" then row.country else Text.TrimSpace(p.country))
  {
    row.(name := Sql.Collapse(Text.TrimSpace(p.name), "", row.name),
         country := Sql.Collapse(Text.TrimSpace(p.country), "", row.country))
  }

  lemma ApplyMarketingLaws(row: MarketingModel.Marketing, p: MarketingModel.Marketing)
    ensures Text.AllSpace(p.name) && Text.AllSpace(p.country) ==> ApplyMarketing(row, p) == row
    ensures ApplyMarketing(ApplyMarketing(row, p), p) == ApplyMarketing(row, p)
  {
  }

  /** No validation guards an update: a patch name longer than the 150
      characters `AddMarketing` accepts is written all the same. */
  lemma UpdateMarketingIsUnchecked(row: MarketingModel.Marketing, p: MarketingModel.Marketing)
    requires |Text.TrimSpace(p.name)| > 150
    ensures ApplyMarketing(row, p).name == Text.TrimSpace(p.name)
    ensures !MarketingModel.Acceptable(ApplyMarketing(row, p))
  {
  }

  /** `UpdateMarketing` on the table keyed by id, under the database's
      constraint verdict `check`; returns the response and the table
      afterwards. */
  function UpdateMarketing(table: map<int, MarketingModel.Marketing>, id: int, p: MarketingModel.Marketing,
                     check: MarketingModel.Marketing -> Option<Error>): (r: (Result<MarketingModel.Marketing>, map<int, MarketingModel.Marketing>))
    ensures id !in table ==> r == (Err(NoRows), table)
    ensures id in table && check(ApplyMarketing(table[id], p)).Some?
            ==> r == (Err(Sql.MapError(check(ApplyMarketing(table[id], p)).value, None, Some(NameTaken))), table)
    ensures id in table && check(ApplyMarketing(table[id], p)).None?
            ==> r == (Ok(ApplyMarketing(table[id], p)), table[id := ApplyMarketing(table[id], p)])
    ensures r.1.Keys == table.Keys
    ensures forall k :: k in table && k != id ==> r.1[k] == table[k]
  {
    var u := Sql.UpdateRow(table, id, row => ApplyMarketing(row, p), check);
    Sql.UpdateRowTouchesOnlyThatRow(table, id, row => ApplyMarketing(row, p), check);
    match u.0
    case Err(e) => (Err(Sql.MapError(e, None, Some(NameTaken))), u.1)
    case Ok(row) => (Ok(row), u.1)
  }

  /** `ORDER BY name ASC`. */
  predicate MarketingByName(a: MarketingModel.Marketing, b: MarketingModel.Marketing) {
    !Text.StrLt(b.name, a.name)
  }

  lemma MarketingByNameIsTotal()
    ensures Sorting.IsTotalPreorder(MarketingByName)
  {
    forall a: MarketingModel.Marketing, b: MarketingModel.Marketing
      ensures MarketingByName(a, b) || MarketingByName(b, a)
    {
      Text.StrNotAfterTotal(a.name, b.name);
    }
    forall a: MarketingModel.Marketing, b: MarketingModel.Marketing, c: MarketingModel.Marketing | MarketingByName(a, b) && MarketingByName(b, c)
      ensures MarketingByName(a, c)
    {
      Text.StrNotAfterTransitive(a.name, b.name, c.name);
    }
  }

  /** `GetAll...`: the table's rows by name, or the query's error. */
  function GetAllMarketing(query: Result<seq<MarketingModel.Marketing>>): (r: Result<seq<MarketingModel.Marketing>>)
    ensures r.Err? <==> query.Err?
    ensures r.Err? ==> r.error == query.error
    ensures r.Ok? ==> Sorting.SortedBy(r.value, MarketingByName)
    ensures r.Ok? ==> multiset(r.value) == multiset(query.value)
  {
    MarketingByNameIsTotal();
    match query
    case Err(e) => Err(e)
    case Ok(rows) => Ok(Sorting.Sort(rows, MarketingByName))
  }
}
