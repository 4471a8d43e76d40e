/** The decision part of the Serpro (SIAPE) payroll-deduction handler
    (handlers/serpro.py): which registrations the lookup returns and with
    which code, which margin rows the margin query keeps and how it labels
    them, and when a cancellation counts as done. The hub's answers and
    the configured tables (sub-órgão payroll codes, SIAPE link types,
    classifications and agreements) are inputs. */
module Serpro {
  import opened Common

  // ---------------------------------------------------------------------
  // registrations_consult

  const ERRO_CONSULTA: string := "Erro_Consulta"
  const SUBORGAO_VAZIO: string := "SubOrgao_Vazio"

  /** One registration of the hub's answer; `folha` is `None` when the
      item lacks that key. */
  datatype Registration = Registration(numeroMatricula: Option<string>, folha: Option<string>)

  /** The pair the lookup returns. */
  datatype LookupPair = LookupPair(rows: seq<Registration>, code: string)

  /** The Python values the comparison sees: an `int` never equals a `str`
      or `None`. */
  datatype PyValue = PyInt(i: int) | PyStr(s: string) | PyNone

  /** A sub-órgão's payroll code as stored: text, or null. */
  function CodeValue(code: Option<string>): (r: PyValue)
    ensures !r.PyInt?
  {
    if code.Some? then PyStr(code.value) else PyNone
  }

  /** `int(item['folha'])`: a missing key or a text that is not a number
      raises. */
  function FolhaNumber(reg: Registration): (r: Result<PyValue>)
    ensures r.Ok? ==> r.value.PyInt?
    ensures r.Ok? <==> reg.folha.Some? && ParseInt(reg.folha.value).Some?
  {
    if reg.folha.None? then Err("KeyError")
    else match ParseInt(reg.folha.value)
      case None => Err("ValueError")
      case Some(n) => Ok(PyInt(n))
  }

  /** `value in active_folha_codes`. */
  predicate InCodes(value: PyValue, codes: seq<Option<string>>) {
    exists k :: 0 <= k < |codes| && CodeValue(codes[k]) == value
  }

  /** The generator of the lookup as written: the registrations whose
      payroll number is among the codes; a failing `int` aborts it. */
  function FilterAsWritten(regs: seq<Registration>, codes: seq<Option<string>>): (r: Result<seq<Registration>>)
    ensures r.Ok? <==> forall x :: x in regs ==> FolhaNumber(x).Ok?
    ensures r.Ok? ==> forall x :: x in r.value ==> x in regs && FolhaNumber(x).Ok? && InCodes(FolhaNumber(x).value, codes)
  {
    if |regs| == 0 then Ok([])
    else
      var head := regs[0];
      assert forall x :: x in regs <==> x == head || x in regs[1..];
      match FolhaNumber(head)
      case Err(m) => Err(m)
      case Ok(v) =>
        match FilterAsWritten(regs[1..], codes)
        case Err(m) => Err(m)
        case Ok(rest) => Ok((if InCodes(v, codes) then [head] else []) + rest)
  }

  /** `registrations_consult` as written: a failed request is an
      'Erro_Consulta'; no active sub-órgão, no matching registration or a
      failing conversion is 'SubOrgao_Vazio'; the matches come back with
      'Erro_Consulta' as the second element too. */
  function RegistrationsAsWritten(status: int, codes: seq<Option<string>>, regs: seq<Registration>): (r: LookupPair)
    ensures status != 200 ==> r == LookupPair([], ERRO_CONSULTA)
    ensures status == 200 && |r.rows| == 0 ==> r.code == SUBORGAO_VAZIO
    ensures |r.rows| > 0 ==> r.code == ERRO_CONSULTA
  {
    if status != 200 then LookupPair([], ERRO_CONSULTA)
    else if |codes| == 0 then LookupPair([], SUBORGAO_VAZIO)
    else match FilterAsWritten(regs, codes)
      case Err(_) => LookupPair([], SUBORGAO_VAZIO)
      case Ok(valid) => if |valid| == 0 then LookupPair([], SUBORGAO_VAZIO) else LookupPair(valid, ERRO_CONSULTA)
  }

  /** The stored payroll codes are text, so the converted number is never
      among them: as written, the lookup returns no registration for any
      answer. */
  lemma RegistrationsAsWrittenNeverFind(status: int, codes: seq<Option<string>>, regs: seq<Registration>)
    ensures RegistrationsAsWritten(status, codes, regs).rows == []
    ensures RegistrationsAsWritten(status, codes, regs).code == (if status == 200 then SUBORGAO_VAZIO else ERRO_CONSULTA)
  {
    FilterAsWrittenEmpty(regs, codes);
  }

  lemma {:induction false} FilterAsWrittenEmpty(regs: seq<Registration>, codes: seq<Option<string>>)
    ensures FilterAsWritten(regs, codes).Ok? ==> FilterAsWritten(regs, codes).value == []
  {
    if |regs| > 0 && FolhaNumber(regs[0]).Ok? {
      FilterAsWrittenEmpty(regs[1..], codes);
      assert !InCodes(FolhaNumber(regs[0]).value, codes);
    }
  }

  /** The filter as evidently intended: the registration's payroll code
      compared as text with the stored codes, as the margin query does;
      a registration without the key still raises. */
  function Filter(regs: seq<Registration>, codes: seq<Option<string>>): (r: Result<seq<Registration>>)
    ensures r.Ok? <==> forall x :: x in regs ==> x.folha.Some?
    ensures r.Ok? ==> forall x :: x in r.value <==> x in regs && x.folha in codes
  {
    if |regs| == 0 then Ok([])
    else if regs[0].folha.None? then Err("KeyError")
    else
      assert forall i :: 1 <= i < |regs| ==> regs[i] == regs[1..][i - 1];
      match Filter(regs[1..], codes)
      case Err(m) => Err(m)
      case Ok(rest) => Ok((if regs[0].folha in codes then [regs[0]] else []) + rest)
  }

  function Registrations(status: int, codes: seq<Option<string>>, regs: seq<Registration>): (r: LookupPair)
    ensures status != 200 ==> r == LookupPair([], ERRO_CONSULTA)
    ensures |r.rows| > 0 <==>
      (status == 200 && (forall x :: x in regs ==> x.folha.Some?) && exists x :: x in regs && x.folha in codes)
    ensures forall x :: x in r.rows <==> x in regs && x.folha in codes && |r.rows| > 0
    ensures status == 200 && |r.rows| == 0 ==> r.code == SUBORGAO_VAZIO
  {
    if status != 200 then LookupPair([], ERRO_CONSULTA)
    else if |codes| == 0 then LookupPair([], SUBORGAO_VAZIO)
    else match Filter(regs, codes)
      case Err(_) => LookupPair([], SUBORGAO_VAZIO)
      case Ok(valid) =>
        if |valid| == 0 then LookupPair([], SUBORGAO_VAZIO)
        else
          assert valid[0] in valid;
          LookupPair(valid, ERRO_CONSULTA)
  }

  /** A registration on an active payroll code: missed as written, found
      by the corrected lookup. */
  lemma RegistrationFoundOnlyWhenCorrected()
    ensures var reg := Registration(Some("123"), Some("12"));
      RegistrationsAsWritten(200, [Some("12")], [reg]) == LookupPair([], SUBORGAO_VAZIO)
      && Registrations(200, [Some("12")], [reg]) == LookupPair([reg], ERRO_CONSULTA)
  {
    var reg := Registration(Some("123"), Some("12"));
    RegistrationsAsWrittenNeverFind(200, [Some("12")], [reg]);
    assert [reg][1..] == [];
    assert Filter([reg], [Some("12")]) == Ok([reg] + []);
    assert [reg] + [] == [reg];
  }

  // ---------------------------------------------------------------------
  // margins_consult

  /** One margin row of the hub's answer; an absent key is `None`. */
  datatype MarginRow = MarginRow(
    numeroMatricula: Option<string>, folha: Option<string>, verba: Option<string>, margemAtual: Option<string>,
    codTipoVinc: Option<string>, codClassificacao: Option<string>, cdConvenio: Option<string>,
    orgMatInst: Option<string>)

  /** The agreement's configuration: active sub-órgão payroll codes and
      the SIAPE link types, classifications and agreements that allow
      contracting. */
  datatype Tables = Tables(folhas: seq<Option<string>>, vinculos: seq<string>, classificacoes: seq<int>,
                           conveniosSiape: seq<int>)

  /** The margin a kept row becomes. */
  datatype Margin = Margin(nomeCliente: Option<string>, margemAtual: string, verba: Option<string>,
                           tipoMargem: Option<string>, folha: Option<string>, matricula: Option<string>,
                           convenioSiape: Option<string>, tipoVinculo: Option<string>,
                           classificacao: Option<string>, instituidor: Option<string>)

  /** The link-type code as shown: 'S' is a civil servant, 'P' a
      pensioner; any other code is kept as it is. */
  function VinculoLabel(code: Option<string>): (r: Option<string>)
    ensures code == Some("S") ==> r == Some("Servidor")
    ensures code == Some("P") ==> r == Some("Pensionista")
    ensures code != Some("S") && code != Some("P") ==> r == code
  {
    if code == Some("S") then Some("Servidor") else if code == Some("P") then Some("Pensionista") else code
  }

  /** `margem_atual or '0.00'`. */
  function MargemOrZero(m: Option<string>): (r: string)
    ensures r != ""
    ensures m.Some? && m.value != "" ==> r == m.value
    ensures m.None? || m.value == "" ==> r == "0.00"
  {
    if m.Some? && m.value != "" then m.value else "0.00"
  }

  function MarginOf(row: MarginRow, nome: Option<string>): Margin {
    Margin(nome, MargemOrZero(row.margemAtual), row.verba, row.verba, row.folha, row.numeroMatricula,
           row.cdConvenio, VinculoLabel(row.codTipoVinc), row.codClassificacao, row.orgMatInst)
  }

  /** `int(x)` on an optional text: `int(None)` raises too. */
  function IntOf(x: Option<string>): Option<int> {
    if x.Some? then ParseInt(x.value) else None
  }

  /** A requested registration number is a truthy one. */
  predicate Requested(numeroMatricula: Option<string>) {
    numeroMatricula.Some? && numeroMatricula.value != ""
  }

  /** What the loop does with one row. */
  datatype RowVerdict = Skip | Keep | Abort

  /** The row filters in the loop's order: the requested registration, an
      active payroll code, an allowed link type, then an allowed
      classification and an allowed SIAPE agreement, each converted with
      `int` (a failing conversion aborts the loop). An empty table skips
      the row. */
  function Verdict(row: MarginRow, numeroMatricula: Option<string>, t: Tables): RowVerdict {
    if Requested(numeroMatricula) && numeroMatricula != row.numeroMatricula then Skip
    else if |t.folhas| == 0 || row.folha !in t.folhas then Skip
    else if |t.vinculos| == 0 || row.codTipoVinc.None? || row.codTipoVinc.value !in t.vinculos then Skip
    else if |t.classificacoes| == 0 then Skip
    else if IntOf(row.codClassificacao).None? then Abort
    else if IntOf(row.codClassificacao).value !in t.classificacoes then Skip
    else if IntOf(row.cdConvenio).None? then Abort
    else if IntOf(row.cdConvenio).value !in t.conveniosSiape then Skip
    else Keep
  }

  /** The row passes every filter, stated as one conjunction. */
  predicate Admitted(row: MarginRow, numeroMatricula: Option<string>, t: Tables) {
    (!Requested(numeroMatricula) || numeroMatricula == row.numeroMatricula)
    && row.folha in t.folhas
    && row.codTipoVinc.Some? && row.codTipoVinc.value in t.vinculos
    && IntOf(row.codClassificacao).Some? && IntOf(row.codClassificacao).value in t.classificacoes
    && IntOf(row.cdConvenio).Some? && IntOf(row.cdConvenio).value in t.conveniosSiape
  }

  /** The loop keeps exactly the admitted rows. */
  lemma {:induction false} VerdictKeepsAdmitted(row: MarginRow, numeroMatricula: Option<string>, t: Tables)
    ensures Verdict(row, numeroMatricula, t) == Keep <==> Admitted(row, numeroMatricula, t)
    ensures Verdict(row, numeroMatricula, t) == Abort ==>
      row.folha in t.folhas && (IntOf(row.codClassificacao).None? || IntOf(row.cdConvenio).None?)
  {
    if Admitted(row, numeroMatricula, t) {
      assert IntOf(row.codClassificacao).value in t.classificacoes;
      assert |t.classificacoes| > 0;
    }
  }

  /** The loop: margins of the kept rows in order; an abort returns the
      margins collected so far. */
  function ScanMargins(rows: seq<MarginRow>, numeroMatricula: Option<string>, t: Tables, nome: Option<string>)
    : (r: seq<Margin>)
    ensures |r| <= |rows|
    ensures forall m :: m in r ==> exists row :: row in rows && Admitted(row, numeroMatricula, t) && m == MarginOf(row, nome)
    ensures (forall row :: row in rows ==> Verdict(row, numeroMatricula, t) != Abort) ==>
      forall row :: row in rows && Admitted(row, numeroMatricula, t) ==> MarginOf(row, nome) in r
  {
    if |rows| == 0 then []
    else
      VerdictKeepsAdmitted(rows[0], numeroMatricula, t);
      assert forall i :: 1 <= i < |rows| ==> rows[i] == rows[1..][i - 1];
      match Verdict(rows[0], numeroMatricula, t)
      case Abort => []
      case Skip => ScanMargins(rows[1..], numeroMatricula, t, nome)
      case Keep => [MarginOf(rows[0], nome)] + ScanMargins(rows[1..], numeroMatricula, t, nome)
  }

  /** The hub's answer to the margin query. */
  datatype MarginsResponse = MarginsResponse(descricao: Option<string>, codigoRetorno: Option<string>,
                                             nome: Option<string>, rows: seq<MarginRow>)

  datatype MarginsAnswer = ErrorDict(descricao: string, codigoRetorno: string) | Margins(margins: seq<Margin>)

  /** `margins_consult`: an answer with 'descricao' is returned as an error
      (raising when 'codigoRetorno' is missing); otherwise the scan. */
  function MarginsConsult(resp: MarginsResponse, numeroMatricula: Option<string>, t: Tables): (r: Result<MarginsAnswer>)
    ensures r.Err? <==> resp.descricao.Some? && resp.codigoRetorno.None?
    ensures r.Ok? && resp.descricao.Some? ==> r.value == ErrorDict(resp.descricao.value, resp.codigoRetorno.value)
    ensures r.Ok? && resp.descricao.None? ==> r.value.Margins?
    ensures r.Ok? && r.value.Margins? ==> forall m :: m in r.value.margins ==>
      m.nomeCliente == resp.nome && m.margemAtual != ""
      && (Requested(numeroMatricula) ==> m.matricula == numeroMatricula)
  {
    if resp.descricao.Some? then
      if resp.codigoRetorno.Some? then Ok(ErrorDict(resp.descricao.value, resp.codigoRetorno.value)) else Err("KeyError")
    else Ok(Margins(ScanMargins(resp.rows, numeroMatricula, t, resp.nome)))
  }

  /** Requesting a registration number keeps a row exactly when the
      unrestricted query keeps it and the row carries that number. */
  lemma RequestedNumberNarrows(row: MarginRow, n: string, t: Tables)
    requires n != ""
    ensures Verdict(row, Some(n), t) == Keep <==> Verdict(row, None, t) == Keep && row.numeroMatricula == Some(n)
  {
    VerdictKeepsAdmitted(row, Some(n), t);
    VerdictKeepsAdmitted(row, None, t);
  }

  // ---------------------------------------------------------------------
  // margin_reserve_cancel

  /** The cancellation record: stored with the card's reserve and whether
      the hub confirmed it, or, when the card is missing, the hub's
      description and code. */
  datatype CancelRecord = Recorded(reserva: Option<string>, cancelada: bool)
                        | Failed(descricao: Option<string>, codigoRetorno: Option<string>)

  /** `card` is the customer's card reserve (`None` for no card). */
  function CancelOutcome(answer: map<string, string>, card: Option<Option<string>>): (r: CancelRecord)
    ensures r.Recorded? <==> card.Some?
    ensures r.Recorded? ==> r.reserva == card.value
    ensures r.Recorded? ==> (r.cancelada <==> "cd_ret_code" in answer && answer["cd_ret_code"] == "0000")
    ensures r.Failed? ==> r.codigoRetorno == (if "cd_ret_code" in answer then Some(answer["cd_ret_code"]) else None)
  {
    var cancelada := "cd_ret_code" in answer && answer["cd_ret_code"] == "0000";
    if card.Some? then Recorded(card.value, cancelada)
    else Failed(if "ds_ret_code" in answer then Some(answer["ds_ret_code"]) else None,
                if "cd_ret_code" in answer then Some(answer["cd_ret_code"]) else None)
  }
}
