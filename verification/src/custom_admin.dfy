/** The decisions of the admin page script for benefit-plan insurance
    (static/admin/custom_admin.js): the client id read from the page URL,
    the request a cancellation or a collection sends, the guard on the
    cancellation reason, the message shown when the server refuses, which
    row buttons are enabled and the two columns the script adds to the
    plans table. The DOM, styling, the confirmation modal and the network
    are left out; the page URL, the radio buttons and the server's answer
    are inputs. */
module CustomAdmin {
  import opened Common

  // ---------------------------------------------------------------------
  // Client id: the regular expression /\/cliente\/(\d+)/

  const CLIENT_SEGMENT: string := "/cliente/"

  /** A match of the expression starts at `i`: the segment, then a digit. */
  predicate ClientIdAt(url: string, i: int) {
    OccursAt(url, CLIENT_SEGMENT, i) && i + |CLIENT_SEGMENT| < |url| && IsDigit(url[i + |CLIENT_SEGMENT|])
  }

  /** The longest run of digits `s` starts with (the greedy `\d+`). */
  function DigitRun(s: string): (r: string)
    ensures AllDigits(r) && StartsWith(s, r)
    ensures |r| < |s| ==> !IsDigit(s[|r|])
    ensures |s| > 0 && IsDigit(s[0]) ==> |r| > 0
  {
    if |s| == 0 || !IsDigit(s[0]) then ""
    else [s[0]] + DigitRun(s[1..])
  }

  /** A run of digits followed by a non-digit is read back. */
  lemma {:induction false} DigitRunOf(digits: string, rest: string)
    requires AllDigits(digits)
    requires |rest| == 0 || !IsDigit(rest[0])
    ensures DigitRun(digits + rest) == digits
    decreases |digits|
  {
    if |digits| == 0 {
      assert digits + rest == rest;
    } else {
      assert (digits + rest)[1..] == digits[1..] + rest;
      DigitRunOf(digits[1..], rest);
      assert digits == [digits[0]] + digits[1..];
    }
  }

  /** The leftmost match from position `k` on, as the expression scans. */
  function ClientIdFrom(url: string, k: nat): (r: Option<string>)
    requires forall j :: 0 <= j < k ==> !ClientIdAt(url, j)
    ensures r.None? ==> forall j :: 0 <= j ==> !ClientIdAt(url, j)
    ensures r.Some? ==> exists i :: ClientIdAt(url, i)
                          && (forall j :: 0 <= j < i ==> !ClientIdAt(url, j))
                          && r.value == DigitRun(url[i + |CLIENT_SEGMENT|..])
    decreases |url| - k
  {
    if k + |CLIENT_SEGMENT| >= |url| then None
    else if ClientIdAt(url, k) then Some(DigitRun(url[k + |CLIENT_SEGMENT|..]))
    else ClientIdFrom(url, k + 1)
  }

  /** The client id: the digits after the first "/cliente/" that is
      followed by a digit; none (the script's `undefined`) otherwise. */
  function ClientId(url: string): (r: Option<string>)
    ensures r.Some? ==> |r.value| > 0 && AllDigits(r.value)
    ensures r.None? <==> forall j :: 0 <= j ==> !ClientIdAt(url, j)
  {
    ClientIdFrom(url, 0)
  }

  /** An admin URL whose first "/cliente/" is followed by the client's
      number and then a non-digit gives that number back. */
  lemma ClientIdOfPath(prefix: string, digits: string, rest: string)
    requires Find(prefix + CLIENT_SEGMENT + digits + rest, CLIENT_SEGMENT) == Some(|prefix|)
    requires |digits| > 0 && AllDigits(digits)
    requires |rest| == 0 || !IsDigit(rest[0])
    ensures ClientId(prefix + CLIENT_SEGMENT + digits + rest) == Some(digits)
  {
    var url := prefix + CLIENT_SEGMENT + digits + rest;
    var n := |prefix| + |CLIENT_SEGMENT|;
    assert url[n..] == digits + rest;
    assert ClientIdAt(url, |prefix|) by { assert url[n] == digits[0]; }
    DigitRunOf(digits, rest);
  }

  // ---------------------------------------------------------------------
  // Request bodies (JSON.stringify drops an undefined member)

  /** The members of a JSON object, in the order written. */
  type Fields = seq<(string, string)>

  /** The value of the first member named `key`. */
  function Lookup(fields: Fields, key: string): Option<string>
  {
    if |fields| == 0 then None
    else if fields[0].0 == key then Some(fields[0].1)
    else Lookup(fields[1..], key)
  }

  /** A value found is one of the members under that name, and nothing is
      found exactly when no member has the name. */
  lemma {:induction false} LookupFinds(fields: Fields, key: string)
    ensures Lookup(fields, key).Some? ==> (key, Lookup(fields, key).value) in fields
    ensures Lookup(fields, key).None? <==> forall i :: 0 <= i < |fields| ==> fields[i].0 != key
  {
    if |fields| > 0 && fields[0].0 != key {
      LookupFinds(fields[1..], key);
      assert forall i :: 1 <= i < |fields| ==> fields[i] == fields[1..][i - 1];
    }
  }

  /** The client id member, present only when the URL held one. */
  function ClientField(clientId: Option<string>): (r: Fields)
    ensures |r| == if clientId.Some? then 1 else 0
  {
    match clientId
    case Some(id) => [("id_cliente", id)]
    case None => []
  }

  /** The body of a cancellation: client, reason, plan name, contract
      and benefit. */
  function CancelBody(clientId: Option<string>, reason: string, plan: string, contract: string, benefit: string)
    : (r: Fields)
    ensures |r| == |ClientField(clientId)| + 4
  {
    ClientField(clientId)
    + [("id_cancelamento", reason), ("nome_plano", plan), ("id_contrato", contract), ("id_beneficio", benefit)]
  }

  /** The body of a collection request: as a cancellation's, without a
      reason. */
  function CollectionBody(clientId: Option<string>, plan: string, contract: string, benefit: string): (r: Fields)
    ensures |r| == |ClientField(clientId)| + 3
  {
    ClientField(clientId) + [("nome_plano", plan), ("id_contrato", contract), ("id_beneficio", benefit)]
  }

  /** No two members share a name. */
  predicate DistinctNames(fields: Fields) {
    forall a, b :: 0 <= a < b < |fields| ==> fields[a].0 != fields[b].0
  }

  /** In an object without repeated names every member is read back. */
  lemma {:induction false} LookupDistinct(fields: Fields, i: nat)
    requires DistinctNames(fields) && i < |fields|
    ensures Lookup(fields, fields[i].0) == Some(fields[i].1)
    decreases i
  {
    if i > 0 {
      var tail := fields[1..];
      assert tail[i - 1] == fields[i];
      assert fields[0].0 != fields[i].0;
      assert DistinctNames(tail) by {
        forall a, b | 0 <= a < b < |tail| ensures tail[a].0 != tail[b].0 {
          assert tail[a] == fields[a + 1] && tail[b] == fields[b + 1];
        }
      }
      LookupDistinct(tail, i - 1);
    }
  }

  /** Reading back the members of an object of four distinct names. */
  lemma LookupFour(k1: string, v1: string, k2: string, v2: string, k3: string, v3: string, k4: string, v4: string)
    requires k1 != k2 && k1 != k3 && k1 != k4 && k2 != k3 && k2 != k4 && k3 != k4
    ensures var f := [(k1, v1), (k2, v2), (k3, v3), (k4, v4)];
      Lookup(f, k1) == Some(v1) && Lookup(f, k2) == Some(v2) && Lookup(f, k3) == Some(v3) && Lookup(f, k4) == Some(v4)
  {
    var f := [(k1, v1), (k2, v2), (k3, v3), (k4, v4)];
    assert DistinctNames(f);
    LookupDistinct(f, 0);
    LookupDistinct(f, 1);
    LookupDistinct(f, 2);
    LookupDistinct(f, 3);
  }

  /** Reading back the members of an object of three distinct names. */
  lemma LookupThree(k1: string, v1: string, k2: string, v2: string, k3: string, v3: string)
    requires k1 != k2 && k1 != k3 && k2 != k3
    ensures var f := [(k1, v1), (k2, v2), (k3, v3)];
      Lookup(f, k1) == Some(v1) && Lookup(f, k2) == Some(v2) && Lookup(f, k3) == Some(v3)
  {
    var f := [(k1, v1), (k2, v2), (k3, v3)];
    assert DistinctNames(f);
    LookupDistinct(f, 0);
    LookupDistinct(f, 1);
    LookupDistinct(f, 2);
  }

  /** Every value of a cancellation body is read back under its name, and
      the client id exactly when there was one. */
  lemma CancelBodyRoundTrip(clientId: Option<string>, reason: string, plan: string, contract: string, benefit: string)
    ensures var b := CancelBody(clientId, reason, plan, contract, benefit);
      && Lookup(b, "id_cliente") == clientId
      && Lookup(b, "id_cancelamento") == Some(reason)
      && Lookup(b, "nome_plano") == Some(plan)
      && Lookup(b, "id_contrato") == Some(contract)
      && Lookup(b, "id_beneficio") == Some(benefit)
  {
    var tail: Fields := [("id_cancelamento", reason), ("nome_plano", plan), ("id_contrato", contract), ("id_beneficio", benefit)];
    LookupFour("id_cancelamento", reason, "nome_plano", plan, "id_contrato", contract, "id_beneficio", benefit);
    LookupPastClient(clientId, tail, "id_cancelamento");
    LookupPastClient(clientId, tail, "nome_plano");
    LookupPastClient(clientId, tail, "id_contrato");
    LookupPastClient(clientId, tail, "id_beneficio");
    LookupPastClient(clientId, tail, "id_cliente");
  }

  /** Every value of a collection body is read back under its name, and
      no reason is sent. */
  lemma CollectionBodyRoundTrip(clientId: Option<string>, plan: string, contract: string, benefit: string)
    ensures var b := CollectionBody(clientId, plan, contract, benefit);
      && Lookup(b, "id_cliente") == clientId
      && Lookup(b, "id_cancelamento") == None
      && Lookup(b, "nome_plano") == Some(plan)
      && Lookup(b, "id_contrato") == Some(contract)
      && Lookup(b, "id_beneficio") == Some(benefit)
  {
    var tail: Fields := [("nome_plano", plan), ("id_contrato", contract), ("id_beneficio", benefit)];
    LookupThree("nome_plano", plan, "id_contrato", contract, "id_beneficio", benefit);
    LookupFinds(tail, "id_cancelamento");
    LookupPastClient(clientId, tail, "id_cancelamento");
    LookupPastClient(clientId, tail, "nome_plano");
    LookupPastClient(clientId, tail, "id_contrato");
    LookupPastClient(clientId, tail, "id_beneficio");
    LookupPastClient(clientId, tail, "id_cliente");
  }

  /** Looking past the optional client member. */
  lemma LookupPastClient(clientId: Option<string>, tail: Fields, key: string)
    ensures key != "id_cliente" ==> Lookup(ClientField(clientId) + tail, key) == Lookup(tail, key)
    ensures key == "id_cliente" && (forall i :: 0 <= i < |tail| ==> tail[i].0 != key) ==>
      Lookup(ClientField(clientId) + tail, key) == clientId
  {
    LookupFinds(tail, key);
    if clientId.Some? {
      assert (ClientField(clientId) + tail)[1..] == tail;
    } else {
      assert ClientField(clientId) + tail == tail;
    }
  }

  // ---------------------------------------------------------------------
  // cancelarContrato: the reason guard

  /** The modal's reason radios and the codes they carry. */
  const REASON_CODES: seq<string> := ["001", "002", "003", "004"]

  datatype Radio = Radio(checked: bool, value: string)

  /** The value of the first checked radio. */
  function SelectedReason(radios: seq<Radio>): (r: Option<string>)
    ensures r.None? <==> forall i :: 0 <= i < |radios| ==> !radios[i].checked
    ensures r.Some? ==> exists i :: 0 <= i < |radios| && radios[i].checked && radios[i].value == r.value
                          && forall j :: 0 <= j < i ==> !radios[j].checked
  {
    if |radios| == 0 then None
    else if radios[0].checked then Some(radios[0].value)
    else
      assert forall i :: 1 <= i < |radios| ==> radios[i] == radios[1..][i - 1];
      SelectedReason(radios[1..])
  }

  const NO_REASON_ALERT: string := "Selecione um motivo para cancelar o contrato"

  datatype CancelAction = PostCancellation(body: Fields) | Alert(text: string)

  /** A checked reason sends the cancellation with that reason; none
      alerts and sends nothing. */
  function CancelarContrato(url: string, radios: seq<Radio>, contract: string, plan: string, benefit: string)
    : (r: CancelAction)
    ensures r.PostCancellation? <==> exists i :: 0 <= i < |radios| && radios[i].checked
    ensures r.Alert? ==> r.text == NO_REASON_ALERT
    ensures r.PostCancellation? ==>
      Lookup(r.body, "id_cancelamento") == SelectedReason(radios)
      && Lookup(r.body, "id_cliente") == ClientId(url)
      && Lookup(r.body, "id_contrato") == Some(contract)
  {
    match SelectedReason(radios)
    case None => Alert(NO_REASON_ALERT)
    case Some(reason) =>
      CancelBodyRoundTrip(ClientId(url), reason, plan, contract, benefit);
      PostCancellation(CancelBody(ClientId(url), reason, plan, contract, benefit))
  }

  /** A collection request is always sent, with the URL's client id and
      the row's plan, contract and benefit. */
  function EnvioArrecadacao(url: string, contract: string, plan: string, benefit: string): (r: Fields)
    ensures Lookup(r, "id_cliente") == ClientId(url)
    ensures Lookup(r, "id_cancelamento").None?
    ensures Lookup(r, "id_contrato") == Some(contract) && Lookup(r, "nome_plano") == Some(plan)
    ensures Lookup(r, "id_beneficio") == Some(benefit)
  {
    CollectionBodyRoundTrip(ClientId(url), plan, contract, benefit);
    CollectionBody(ClientId(url), plan, contract, benefit)
  }

  /** The radios of the modal: one per reason code. */
  function ModalRadios(checked: Option<nat>): (r: seq<Radio>)
    ensures |r| == |REASON_CODES|
    ensures forall i :: 0 <= i < |r| ==> r[i].value == REASON_CODES[i] && (r[i].checked <==> checked == Some(i))
  {
    seq(|REASON_CODES|, i requires 0 <= i < |REASON_CODES| => Radio(checked == Some(i), REASON_CODES[i]))
  }

  /** From the modal, a cancellation is sent exactly when a reason was
      chosen, and the reason sent is that code, one of "001" to "004". */
  lemma ModalReasonCodes(url: string, checked: Option<nat>, contract: string, plan: string, benefit: string)
    ensures var r := CancelarContrato(url, ModalRadios(checked), contract, plan, benefit);
      && (r.PostCancellation? <==> checked.Some? && checked.value < 4)
      && (r.PostCancellation? ==> Lookup(r.body, "id_cancelamento") == Some(REASON_CODES[checked.value]))
      && (r.PostCancellation? ==> Lookup(r.body, "id_cancelamento").value in {"001", "002", "003", "004"})
  {
    var radios := ModalRadios(checked);
    if checked.Some? && checked.value < 4 {
      assert radios[checked.value].checked;
    }
  }

  // ---------------------------------------------------------------------
  // The answer to a cancellation

  /** A member of the server's JSON answer as the script sees it. */
  datatype JsValue = Undefined | Null | Bool(b: bool) | Num(n: int) | Str(s: string) | Compound(rendered: string)

  /** JavaScript truthiness: undefined, null, false, 0 and "" are false. */
  predicate Truthy(v: JsValue) {
    match v
    case Undefined => false
    case Null => false
    case Bool(b) => b
    case Num(n) => n != 0
    case Str(s) => s != ""
    case Compound(_) => true
  }

  /** A value inside a template literal. */
  function Render(v: JsValue): (r: string)
    ensures v.Str? ==> r == v.s
  {
    match v
    case Undefined => "undefined"
    case Null => "null"
    case Bool(b) => if b then "true" else "false"
    case Num(n) => IntToString(n)
    case Str(s) => s
    case Compound(text) => text
  }

  const UNKNOWN_ERROR: string := "Erro desconhecido ao cancelar contrato"
  const ERROR_PREFIX: string := "Erro ao cancelar contrato: "

  /** `a || b || c || default`: the first truthy value, else the default. */
  function FirstTruthy(values: seq<JsValue>, default: string): (r: JsValue)
    ensures r == Str(default) || exists i :: 0 <= i < |values| && r == values[i] && Truthy(values[i])
    ensures r == Str(default) || Truthy(r)
    ensures (forall i :: 0 <= i < |values| ==> !Truthy(values[i])) ==> r == Str(default)
    ensures |values| > 0 && Truthy(values[0]) ==> r == values[0]
  {
    if |values| == 0 then Str(default)
    else if Truthy(values[0]) then values[0]
    else
      assert forall i :: 1 <= i < |values| ==> values[i] == values[1..][i - 1];
      FirstTruthy(values[1..], default)
  }

  datatype Shown = ErrorMessage(text: string) | SuccessMessage(text: string)

  /** A refused cancellation shows the first truthy of the answer's
      `Erro`, `message` and `detail`, or the default; an accepted one the
      client id (rendered "undefined" when the URL held none). */
  function CancellationAnswer(ok: bool, erro: JsValue, message: JsValue, detail: JsValue, clientId: Option<string>)
    : (r: Shown)
    ensures r.ErrorMessage? <==> !ok
    ensures r.ErrorMessage? ==> StartsWith(r.text, ERROR_PREFIX)
    ensures !ok && Truthy(erro) ==> r.text == ERROR_PREFIX + Render(erro)
    ensures !ok && !Truthy(erro) && Truthy(message) ==> r.text == ERROR_PREFIX + Render(message)
    ensures !ok && !Truthy(erro) && !Truthy(message) && Truthy(detail) ==> r.text == ERROR_PREFIX + Render(detail)
    ensures !ok && !Truthy(erro) && !Truthy(message) && !Truthy(detail) ==> r.text == ERROR_PREFIX + UNKNOWN_ERROR
    ensures ok ==> r.text == "Plano Cancelado: " + (if clientId.Some? then clientId.value else "undefined")
  {
    if !ok then
      var values := [erro, message, detail];
      assert !Truthy(erro) ==> FirstTruthy(values, UNKNOWN_ERROR) == FirstTruthy([message, detail], UNKNOWN_ERROR) by {
        assert values[1..] == [message, detail];
      }
      assert !Truthy(message) ==> FirstTruthy([message, detail], UNKNOWN_ERROR) == FirstTruthy([detail], UNKNOWN_ERROR) by {
        assert [message, detail][1..] == [detail];
      }
      ErrorMessage(ERROR_PREFIX + Render(FirstTruthy(values, UNKNOWN_ERROR)))
    else SuccessMessage("Plano Cancelado: " + (if clientId.Some? then clientId.value else "undefined"))
  }

  /** An empty `Erro` string does not hide the `message`. */
  lemma EmptyErroFallsThrough(message: string, detail: JsValue)
    requires message != ""
    ensures CancellationAnswer(false, Str(""), Str(message), detail, None) == ErrorMessage(ERROR_PREFIX + message)
  {
  }

  // ---------------------------------------------------------------------
  // The plans table

  /** Plans of these operators cannot be cancelled or collected here. */
  const BLOCKED_OPERATORS: set<string> := {"Sabemi", "Tem Saúde"}

  datatype Action = ConfirmCancellation(contract: string, plan: string, benefit: string)
                  | SendCollection(contract: string, plan: string, benefit: string)

  datatype Cell = Text(text: string) | Button(caption: string, action: Option<Action>)

  /** A row of the plans inline: its cells and the texts read from them. */
  datatype Row = Row(cells: seq<Cell>, contract: string, plan: string, operator: string, benefit: string)

  datatype Table = Table(header: seq<string>, rows: seq<Row>)

  const CANCEL_HEADER: string := "Cancelar Plano"
  const COLLECTION_HEADER: string := "Enviar arrecadação"

  predicate Enabled(c: Cell) { c.Button? && c.action.Some? }

  /** The two buttons a row gains; each is enabled exactly when the
      operator is neither of the blocked ones, and then acts on the row's
      own contract, plan and benefit. */
  function RowButtons(row: Row): (r: seq<Cell>)
    ensures |r| == 2 && r[0].Button? && r[1].Button?
    ensures Enabled(r[0]) <==> row.operator !in BLOCKED_OPERATORS
    ensures Enabled(r[1]) <==> row.operator !in BLOCKED_OPERATORS
    ensures Enabled(r[0]) ==> r[0].action.value == ConfirmCancellation(row.contract, row.plan, row.benefit)
    ensures Enabled(r[1]) ==> r[1].action.value == SendCollection(row.contract, row.plan, row.benefit)
  {
    var open := row.operator != "Sabemi" && row.operator != "Tem Saúde";
    [Button("Cancelar Plano", if open then Some(ConfirmCancellation(row.contract, row.plan, row.benefit)) else None),
     Button("Enviar Arrecadação", if open then Some(SendCollection(row.contract, row.plan, row.benefit)) else None)]
  }

  /** The header gains the two columns and every row its two buttons. */
  function AddPlanColumns(t: Table): (r: Table)
    ensures r.header == t.header + [CANCEL_HEADER, COLLECTION_HEADER]
    ensures |r.rows| == |t.rows|
    ensures forall i :: 0 <= i < |t.rows| ==>
      r.rows[i] == t.rows[i].(cells := t.rows[i].cells + RowButtons(t.rows[i]))
  {
    Table(t.header + [CANCEL_HEADER, COLLECTION_HEADER],
          seq(|t.rows|, i requires 0 <= i < |t.rows| => t.rows[i].(cells := t.rows[i].cells + RowButtons(t.rows[i]))))
  }

  /** Rows as wide as the header. */
  predicate Rectangular(t: Table) {
    forall i :: 0 <= i < |t.rows| ==> |t.rows[i].cells| == |t.header|
  }

  /** Adding the columns keeps every row as wide as the header, keeps the
      old cells in place, and enables a row's buttons exactly for the
      operators that are not blocked. */
  lemma AddPlanColumnsKeepsShape(t: Table)
    requires Rectangular(t)
    ensures Rectangular(AddPlanColumns(t))
    ensures forall i :: 0 <= i < |t.rows| ==>
      AddPlanColumns(t).rows[i].cells[..|t.header|] == t.rows[i].cells
    ensures forall i :: 0 <= i < |t.rows| ==>
      (Enabled(AddPlanColumns(t).rows[i].cells[|t.header|]) <==> t.rows[i].operator !in BLOCKED_OPERATORS)
  {
    var r := AddPlanColumns(t);
    forall i | 0 <= i < |t.rows|
      ensures |r.rows[i].cells| == |r.header|
      ensures r.rows[i].cells[..|t.header|] == t.rows[i].cells
      ensures Enabled(r.rows[i].cells[|t.header|]) <==> t.rows[i].operator !in BLOCKED_OPERATORS
    {
      var buttons := RowButtons(t.rows[i]);
      assert r.rows[i].cells == t.rows[i].cells + buttons;
      assert r.rows[i].cells[|t.header|] == buttons[0];
    }
  }
}
