/** The user admin of custom_auth/admin.py: the import and export of the
    level and state columns through their choice labels, the boolean
    columns, the supervisor import, adding a product to a user and the
    read-only fields. The choice tables (`NIVEIS_HIERARQUIA`, `UFS`) are
    parameters. */
module CustomAuthAdmin {
  import opened Common

  // ---------------------------------------------------------------------
  // get_nivel_hierarquia_value, get_uf_value, get_*_display

  /** A choice table: (code, text) pairs. */
  type Choices = seq<(int, string)>

  predicate UniqueCodes(choices: Choices) {
    forall i, j :: 0 <= i < j < |choices| ==> choices[i].0 != choices[j].0
  }

  predicate UniqueLabels(choices: Choices) {
    forall i, j :: 0 <= i < j < |choices| ==> choices[i].1 != choices[j].1
  }

  /** `dict(choices).get(code)`: the text of the last pair with that code. */
  function LabelOf(choices: Choices, code: int): (r: Option<string>)
    ensures r.Some? ==> exists i :: 0 <= i < |choices| && choices[i] == (code, r.value)
    ensures r.None? <==> forall i :: 0 <= i < |choices| ==> choices[i].0 != code
  {
    if |choices| == 0 then None
    else
      var last := choices[|choices| - 1];
      if last.0 == code then Some(last.1) else LabelOf(choices[..|choices| - 1], code)
  }

  /** The inverted dictionary's lookup: the code of the last pair with that
      text, `None` for an unknown text. */
  function CodeOf(choices: Choices, text: string): (r: Option<int>)
    ensures r.Some? ==> exists i :: 0 <= i < |choices| && choices[i] == (r.value, text)
    ensures r.None? <==> forall i :: 0 <= i < |choices| ==> choices[i].1 != text
  {
    if |choices| == 0 then None
    else
      var last := choices[|choices| - 1];
      if last.1 == text then Some(last.0) else CodeOf(choices[..|choices| - 1], text)
  }

  /** With codes and labels unique, importing an exported text gives back
      the exported code. */
  lemma {:induction false} ExportImportRoundTrip(choices: Choices, code: int)
    requires UniqueCodes(choices) && UniqueLabels(choices)
    requires LabelOf(choices, code).Some?
    ensures CodeOf(choices, LabelOf(choices, code).value) == Some(code)
  {
    var text := LabelOf(choices, code).value;
    var i :| 0 <= i < |choices| && choices[i] == (code, text);
    var c := CodeOf(choices, text).value;
    var j :| 0 <= j < |choices| && choices[j] == (c, text);
    assert choices[i].1 == choices[j].1;
    assert i == j;
  }

  /** A spreadsheet cell of the import: absent, as typed, or converted to
      a code (`None` when the text is unknown). */
  datatype Cell = Absent | Typed(text: string) | Converted(code: Option<int>)

  datatype ImportRow = ImportRow(nivel: Cell, uf: Cell)

  /** Only a present, non-empty typed cell is rewritten. */
  function ConvertCell(c: Cell, choices: Choices): (r: Cell)
    ensures c.Typed? && c.text != "" ==> r == Converted(CodeOf(choices, c.text))
    ensures !(c.Typed? && c.text != "") ==> r == c
  {
    if c.Typed? && c.text != "" then Converted(CodeOf(choices, c.text)) else c
  }

  /** `before_import_row`: the level and state cells, each through its own
      table. */
  function BeforeImportRow(row: ImportRow, levels: Choices, ufs: Choices): (r: ImportRow)
    ensures r.nivel == ConvertCell(row.nivel, levels) && r.uf == ConvertCell(row.uf, ufs)
    ensures row.nivel.Absent? ==> r.nivel.Absent?
    ensures row.uf.Absent? ==> r.uf.Absent?
  {
    ImportRow(ConvertCell(row.nivel, levels), ConvertCell(row.uf, ufs))
  }

  /** A row exported from a user and imported again carries the user's
      level and state codes. */
  lemma ExportedRowImports(levels: Choices, ufs: Choices, nivel: int, uf: int)
    requires UniqueCodes(levels) && UniqueLabels(levels) && UniqueCodes(ufs) && UniqueLabels(ufs)
    requires LabelOf(levels, nivel).Some? && LabelOf(ufs, uf).Some?
    requires LabelOf(levels, nivel).value != "" && LabelOf(ufs, uf).value != ""
    ensures BeforeImportRow(ImportRow(Typed(LabelOf(levels, nivel).value), Typed(LabelOf(ufs, uf).value)), levels, ufs)
            == ImportRow(Converted(Some(nivel)), Converted(Some(uf)))
  {
    ExportImportRoundTrip(levels, nivel);
    ExportImportRoundTrip(ufs, uf);
  }

  // ---------------------------------------------------------------------
  // dehydrate_is_active, dehydrate_is_staff, dehydrate_representante_comercial

  function TrueFalse(b: bool): (r: string)
    ensures r == "True" <==> b
    ensures r == "False" <==> !b
  {
    if b then "True" else "False"
  }

  // ---------------------------------------------------------------------
  // import_supervisors

  /** The stored users by login: their Corban and supervisor's login. */
  datatype Profile = Profile(corban: Option<int>, supervisor: Option<string>)

  /** One row: the user's login and the supervisor's login. Either missing
      skips the row; a supervisor from another Corban is not assigned; a
      dry run saves nothing. */
  function ImportSupervisor(users: map<string, Profile>, login: string, supervisor: string, dryRun: bool)
    : (r: map<string, Profile>)
    ensures r.Keys == users.Keys
    ensures forall l :: l in users && l != login ==> r[l] == users[l]
    ensures login in users && r[login] != users[login] ==>
      supervisor in users && users[supervisor].corban == users[login].corban && !dryRun
      && r[login] == users[login].(supervisor := Some(supervisor))
    ensures dryRun ==> r == users
  {
    if login in users && supervisor in users && users[supervisor].corban == users[login].corban && !dryRun then
      users[login := users[login].(supervisor := Some(supervisor))]
    else users
  }

  function ImportSupervisors(users: map<string, Profile>, rows: seq<(string, string)>, dryRun: bool)
    : (r: map<string, Profile>)
    ensures r.Keys == users.Keys
    ensures forall l :: l in users ==> r[l].corban == users[l].corban
    ensures dryRun ==> r == users
  {
    if |rows| == 0 then users
    else ImportSupervisors(ImportSupervisor(users, rows[0].0, rows[0].1, dryRun), rows[1..], dryRun)
  }

  /** Every user in `changed` has a supervisor who is a stored user of
      the same Corban. */
  predicate SupervisorsInCorban(users: map<string, Profile>, changed: set<string>) {
    forall l :: l in changed && l in users ==>
      users[l].supervisor.Some? && users[l].supervisor.value in users
      && users[users[l].supervisor.value].corban == users[l].corban
  }

  /** Every user whose record the import changed was given a supervisor
      from the same Corban. */
  lemma {:induction false} ImportKeepsCorban(users: map<string, Profile>, rows: seq<(string, string)>, dryRun: bool)
    ensures var r := ImportSupervisors(users, rows, dryRun);
      SupervisorsInCorban(r, set l | l in users && r[l] != users[l])
  {
    if |rows| > 0 {
      var next := ImportSupervisor(users, rows[0].0, rows[0].1, dryRun);
      ImportKeepsCorban(next, rows[1..], dryRun);
      var r := ImportSupervisors(next, rows[1..], dryRun);
      forall l | l in users && r[l] != users[l]
        ensures r[l].supervisor.Some? && r[l].supervisor.value in r && r[r[l].supervisor.value].corban == r[l].corban
      {
        if r[l] == next[l] {
          assert next[l] != users[l];
          assert l == rows[0].0;
          var s := rows[0].1;
          assert next[l].supervisor == Some(s) && s in users && users[s].corban == users[l].corban;
          assert r[s].corban == users[s].corban;
        } else {
          assert l in next && r[l] != next[l];
        }
      }
    }
  }

  // ---------------------------------------------------------------------
  // adicionar_produto

  datatype Level = Success | Error

  datatype AddOutcome = AddOutcome(level: Level, message: string, products: set<int>)

  /** A user without a Corban, a product the Corban does not offer, and a
      product the user already has are refused with a message; otherwise
      the product is added. */
  function AddProduct(name: string, corbanName: Option<string>, corbanProducts: set<int>, userProducts: set<int>,
                      produto: int, success: string, notInCorban: string, alreadyHas: string): (r: AddOutcome)
    ensures r.level == Success <==> corbanName.Some? && produto in corbanProducts && produto !in userProducts
    ensures r.level == Success ==> r.products == userProducts + {produto} && r.message == name + " - " + success
    ensures r.level == Error ==> r.products == userProducts
    ensures corbanName.None? ==> r.message == name + " não possui corban"
  {
    if corbanName.None? then AddOutcome(Error, name + " não possui corban", userProducts)
    else if produto !in corbanProducts then
      AddOutcome(Error, name + " - O corban " + corbanName.value + " " + notInCorban, userProducts)
    else if produto in userProducts then AddOutcome(Error, name + " - " + alreadyHas, userProducts)
    else AddOutcome(Success, name + " - " + success, userProducts + {produto})
  }

  /** Adding the same product twice changes nothing the second time. */
  lemma AddProductIdempotent(name: string, corbanName: Option<string>, corbanProducts: set<int>, userProducts: set<int>,
                             produto: int, success: string, notInCorban: string, alreadyHas: string)
    ensures var once := AddProduct(name, corbanName, corbanProducts, userProducts, produto, success, notInCorban, alreadyHas);
      AddProduct(name, corbanName, corbanProducts, once.products, produto, success, notInCorban, alreadyHas).products
        == once.products
  {
  }

  // ---------------------------------------------------------------------
  // get_readonly_fields

  const BASE_READONLY: seq<string> :=
    ["date_joined", "last_login", "password_created_at", "password_changed_at", "representante_comercial"]
  const RESTRICTED_FIELDS: seq<string> := ["identifier", "corban", "name", "email", "phone"]
  const FULL_ACCESS_GROUPS: set<string> := {"Master", "Corban Master", "Backoffice"}

  /** The five base fields, plus the five identity fields for a user in
      none of the full-access groups. */
  function ReadonlyFields(groups: set<string>): (r: seq<string>)
    ensures |r| >= 5 && r[..5] == BASE_READONLY
    ensures |r| == 10 <==> groups * FULL_ACCESS_GROUPS == {}
    ensures |r| == 5 <==> groups * FULL_ACCESS_GROUPS != {}
    ensures |r| == 10 ==> r[5..] == RESTRICTED_FIELDS
  {
    if groups * FULL_ACCESS_GROUPS != {} then BASE_READONLY else BASE_READONLY + RESTRICTED_FIELDS
  }
}
