/** The formalization task and its helpers (core/tasks/__init__.py): the
    phone split and the file name of the insurance export, the evaluation
    of the credit-bureau rules, the statuses written after it, and the way
    the contracts of an envelope are sorted into erroring and pending ones.
    Database rows are records and the bureau answer is an input. */
module CoreTasks {
  import opened Common
  import opened Codes
  import opened Contracts
  import opened CoreUtils

  // ---------------------------------------------------------------------
  // Phone

  const PHONE_PUNCTUATION: set<char> := {'(', ')', '-', ' '}

  /** The phone with parentheses, dashes and spaces taken out. */
  function PhoneDigits(telefone: string): string {
    RemoveChars(telefone, PHONE_PUNCTUATION)
  }

  /** `format_telefone`: a three-character area code (the first two
      characters, zero-filled on the left) and a nine-character number (the
      rest, zero-filled on the right, then its last nine characters); a
      missing phone gives zeros. */
  function FormatTelefone(telefone: Option<string>): (r: (string, string))
    ensures |r.0| == 3 && |r.1| == 9
    ensures telefone.None? ==> r == ("000", "000000000")
    ensures telefone.Some? ==>
      var f := PhoneDigits(telefone.value);
      (|f| >= 2 ==> r.0 == "0" + f[..2])
      && (|f| >= 11 ==> r.1 == f[|f| - 9..])
      && (2 <= |f| <= 11 ==> r.1 == f[2..] + Repeat('0', 11 - |f|))
  {
    match telefone
    case None => ("000", "000000000")
    case Some(t) =>
      var f := PhoneDigits(t);
      var ddd := PadLeft(Prefix(f, 2), 3, '0');
      var rest := PadRight(Suffix(f, 2), 9, '0');
      var numero := Slice(rest, -9, |rest|);
      assert |f| >= 2 ==> Prefix(f, 2) == f[..2];
      assert 2 <= |f| <= 11 ==> rest == f[2..] + Repeat('0', 11 - |f|);
      (ddd, numero)
  }

  /** An eleven-digit phone is split without loss: the area code's last two
      characters followed by the number give the phone back. */
  lemma FormatTelefoneElevenDigits(t: string)
    requires |t| == 11 && AllDigits(t)
    ensures var (ddd, numero) := FormatTelefone(Some(t));
      ddd[1..] + numero == t
  {
    forall i | 0 <= i < |t| ensures t[i] !in PHONE_PUNCTUATION {
      assert IsDigit(t[i]);
    }
    RemoveCharsNone(t, PHONE_PUNCTUATION);
    assert Repeat('0', 0) == [];
    assert t[..2] + t[2..] == t;
  }

  // ---------------------------------------------------------------------
  // Export file name

  /** `generate_nome_arquivo`: `{operation}_{sequence:06}_{ddmmyyyy}.txt`. */
  function GenerateNomeArquivo(operacao: string, sequencial: nat, today: Date): (r: string)
    requires ValidDate(today) && 0 <= today.year <= 9999
    ensures StartsWith(r, operacao + "_") && EndsWith(r, ".txt")
    ensures sequencial < 1000000 ==> |r| == |operacao| + 20
  {
    assert Pow10(6) == 1000000;
    var z, date := ZeroPad(sequencial, 6), DdMmYyyy(today);
    NomeArquivoShape(operacao, z, date);
    operacao + "_" + z + "_" + date + ".txt"
  }

  /** A name laid out from its parts starts with the operation and ends
      with the extension. */
  lemma NomeArquivoShape(operacao: string, z: string, date: string)
    ensures var name := operacao + "_" + z + "_" + date + ".txt";
      && StartsWith(name, operacao + "_") && EndsWith(name, ".txt")
      && |name| == |operacao| + |z| + |date| + 6
  {
    var name := operacao + "_" + z + "_" + date + ".txt";
    assert name[..|operacao| + 1] == operacao + "_";
    assert name[|name| - 4..] == ".txt";
  }

  /** The parts a file name carries. */
  datatype ArchiveName = ArchiveName(operacao: string, sequencial: nat, day: nat, month: nat, year: nat)

  /** Reads a file name back, from its right end: `.txt`, eight date
      digits, '_', six sequence digits, '_', and the operation. */
  function ParseNomeArquivo(name: string): (r: Option<ArchiveName>)
    ensures r.Some? ==> EndsWith(name, ".txt") && |name| >= 20
  {
    var n := |name|;
    if n < 20 || name[n - 4..] != ".txt" || name[n - 13] != '_' || name[n - 20] != '_' then None
    else
      var seqDigits := name[n - 19..n - 13];
      var date := name[n - 12..n - 4];
      if !AllDigits(seqDigits) || !AllDigits(date) then None
      else Some(ArchiveName(name[..n - 20], ParseNat(seqDigits),
                            ParseNat(date[..2]), ParseNat(date[2..4]), ParseNat(date[4..])))
  }

  /** The twenty characters after the operation. */
  lemma NomeArquivoTail(z: string, date: string)
    requires |z| == 6 && |date| == 8
    ensures var t := "_" + z + "_" + date + ".txt";
      |t| == 20 && t[0] == '_' && t[7] == '_' && t[1..7] == z && t[8..16] == date && t[16..] == ".txt"
  {
  }

  /** The parser undoes the layout, whatever the digits are. */
  lemma ParseNomeArquivoLayout(operacao: string, z: string, date: string)
    requires |z| == 6 && |date| == 8 && AllDigits(z) && AllDigits(date)
    ensures ParseNomeArquivo(operacao + "_" + z + "_" + date + ".txt")
      == Some(ArchiveName(operacao, ParseNat(z), ParseNat(date[..2]), ParseNat(date[2..4]), ParseNat(date[4..])))
  {
    var t := "_" + z + "_" + date + ".txt";
    NomeArquivoTail(z, date);
    var name := operacao + t;
    assert operacao + "_" + z + "_" + date + ".txt" == name;
    var n := |name|;
    var m := |operacao|;
    assert n == m + 20;
    assert name[n - 4..] == t[16..];
    assert name[n - 12..n - 4] == t[8..16];
    assert name[n - 19..n - 13] == t[1..7];
    assert name[n - 13] == t[7] && name[n - 20] == t[0];
    assert name[..n - 20] == operacao;
  }

  /** The date's eight digits read back as day, month and year. */
  lemma DdMmYyyyParts(today: Date)
    requires ValidDate(today) && 0 <= today.year <= 9999
    ensures var date := DdMmYyyy(today);
      ParseNat(date[..2]) == today.day && ParseNat(date[2..4]) == today.month && ParseNat(date[4..]) == today.year
  {
    assert Pow10(2) == 100 && Pow10(4) == 10000;
    var dd := ZeroPad(today.day, 2);
    var mm := ZeroPad(today.month, 2);
    var yy := ZeroPad(today.year, 4);
    var date := DdMmYyyy(today);
    assert |dd| == 2 && |mm| == 2 && |yy| == 4;
    assert date == dd + mm + yy;
    assert date[..2] == dd && date[2..4] == mm && date[4..] == yy;
  }

  /** A generated name reads back to what it was made from, as long as the
      sequence fits its six digits. */
  lemma NomeArquivoRoundTrip(operacao: string, sequencial: nat, today: Date)
    requires ValidDate(today) && 0 <= today.year <= 9999
    requires sequencial < 1000000
    ensures ParseNomeArquivo(GenerateNomeArquivo(operacao, sequencial, today))
      == Some(ArchiveName(operacao, sequencial, today.day, today.month, today.year))
  {
    assert Pow10(6) == 1000000;
    var z := ZeroPad(sequencial, 6);
    assert |z| == 6;
    DdMmYyyyParts(today);
    ParseNomeArquivoLayout(operacao, z, DdMmYyyy(today));
  }

  // ---------------------------------------------------------------------
  // One bureau rule

  /** The value `process_regra_aprovada` hands back as the rule's verdict:
      a boolean, or the hub's dictionary unchanged when it held neither an
      'ocr' nor an 'endereco' list (truthy when it has keys). */
  datatype Approval = Verdict(b: bool) | RawDict(keys: nat)

  predicate Truthy(a: Approval) {
    match a
    case Verdict(b) => b
    case RawDict(keys) => keys > 0
  }

  /** The line written for one failed field comparison. */
  function FailLine(f: FieldCheck): string {
    f.campo + "-> Cliente: " + f.backoffice + ", Documento: " + f.most + "\n"
  }

  /** The lines of the failed comparisons, in order. */
  function FailLines(checks: seq<FieldCheck>): (r: string)
    ensures (forall i :: 0 <= i < |checks| ==> checks[i].aprovada) <==> r == ""
  {
    if |checks| == 0 then ""
    else (if checks[0].aprovada then "" else FailLine(checks[0])) + FailLines(checks[1..])
  }

  predicate AllApproved(checks: seq<FieldCheck>) {
    forall i :: 0 <= i < |checks| ==> checks[i].aprovada
  }

  function CountFailed(checks: seq<FieldCheck>): nat {
    if |checks| == 0 then 0 else (if checks[0].aprovada then 0 else 1) + CountFailed(checks[1..])
  }

  function CountChar(s: string, c: char): nat {
    if |s| == 0 then 0 else (if s[0] == c then 1 else 0) + CountChar(s[1..], c)
  }

  lemma {:induction false} CountCharConcat(a: string, b: string, c: char)
    ensures CountChar(a + b, c) == CountChar(a, c) + CountChar(b, c)
    decreases |a|
  {
    if |a| > 0 {
      assert (a + b)[1..] == a[1..] + b;
      CountCharConcat(a[1..], b, c);
    } else {
      assert a + b == b;
    }
  }

  predicate NoNewline(s: string) {
    forall i :: 0 <= i < |s| ==> s[i] != '\n'
  }

  lemma {:induction false} CountCharNone(s: string)
    requires NoNewline(s)
    ensures CountChar(s, '\n') == 0
    decreases |s|
  {
    if |s| > 0 {
      CountCharNone(s[1..]);
    }
  }

  predicate PlainCheck(f: FieldCheck) {
    NoNewline(f.campo) && NoNewline(f.backoffice) && NoNewline(f.most)
  }

  /** A failed comparison's line holds one line break. */
  lemma FailLineOneBreak(f: FieldCheck)
    requires PlainCheck(f)
    ensures CountChar(FailLine(f), '\n') == 1
  {
    var body := f.campo + "-> Cliente: " + f.backoffice + ", Documento: " + f.most;
    assert NoNewline(body) by {
      assert NoNewline("-> Cliente: ") && NoNewline(", Documento: ");
    }
    CountCharNone(body);
    assert FailLine(f) == body + "\n";
    CountCharConcat(body, "\n", '\n');
  }

  /** When no field text holds a line break, the message has exactly one
      line per failed comparison. */
  lemma {:induction false} FailLinesOnePerFailure(checks: seq<FieldCheck>)
    requires forall i :: 0 <= i < |checks| ==> PlainCheck(checks[i])
    ensures CountChar(FailLines(checks), '\n') == CountFailed(checks)
    decreases |checks|
  {
    if |checks| > 0 {
      var f := checks[0];
      assert forall i :: 0 <= i < |checks[1..]| ==> checks[1..][i] == checks[i + 1];
      FailLinesOnePerFailure(checks[1..]);
      var head := if f.aprovada then "" else FailLine(f);
      assert FailLines(checks) == head + FailLines(checks[1..]);
      if !f.aprovada {
        FailLineOneBreak(f);
      }
      CountCharConcat(head, FailLines(checks[1..]), '\n');
    }
  }

  /** A rule's verdict, whether it is restrictive, and its message. */
  datatype RuleVerdict = RuleVerdict(approved: Approval, restritiva: bool, msg: string)

  /** A failed NOME_MAE rule also carries the element's own message. */
  function WithMotherNameMsg(e: HubRule, approved: Approval, msg: string): string {
    if Contains(e.descricao, "NOME_MAE") && !Truthy(approved) then msg + e.msg else msg
  }

  /** `process_regra_aprovada` as written: with both an 'ocr' and an
      'endereco' list, the second lookup runs on the boolean the first loop
      left behind and raises. */
  function ProcessRegraAprovadaAsWritten(e: HubRule): (r: Result<RuleVerdict>)
    ensures r.Err? <==> e.regraAprovada.Detail? && e.regraAprovada.ocr.Some? && e.regraAprovada.endereco.Some?
    ensures r.Ok? ==> r.value == ProcessRegraAprovada(e)
  {
    match e.regraAprovada
    case Flag(b) => Ok(ProcessRegraAprovada(e))
    case Detail(ocr, endereco, _) =>
      if ocr.Some? && endereco.Some? then Err("AttributeError: 'bool' object has no attribute 'get'")
      else Ok(ProcessRegraAprovada(e))
  }

  /** `process_regra_aprovada` with both lists examined: a boolean verdict
      passes through; a dictionary with comparison lists is approved exactly
      when every comparison in them is, and the message has the failed
      comparisons' lines; a dictionary without them is returned as it is.
      A failed NOME_MAE rule appends the element's message. */
  function ProcessRegraAprovada(e: HubRule): (r: RuleVerdict)
    ensures r.restritiva == e.restritiva
    ensures e.regraAprovada.Flag? ==> r.approved == Verdict(e.regraAprovada.b)
    ensures (e.regraAprovada.Flag? && !Contains(e.descricao, "NOME_MAE")) ==> r.msg == ""
    ensures (e.regraAprovada.Detail? && e.regraAprovada.ocr.None? && e.regraAprovada.endereco.None?)
      ==> r.approved == RawDict(e.regraAprovada.otherKeys)
    ensures (e.regraAprovada.Detail? && e.regraAprovada.ocr.Some? && e.regraAprovada.endereco.None?) ==>
      (r.approved == Verdict(AllApproved(e.regraAprovada.ocr.value))
       && (!Contains(e.descricao, "NOME_MAE") ==> r.msg == FailLines(e.regraAprovada.ocr.value)))
    ensures (e.regraAprovada.Detail? && (e.regraAprovada.ocr.Some? || e.regraAprovada.endereco.Some?)) ==>
      (Truthy(r.approved) <==> AllApproved(e.regraAprovada.ocr.GetOr([])) && AllApproved(e.regraAprovada.endereco.GetOr([])))
    ensures Contains(e.descricao, "NOME_MAE") && !Truthy(r.approved) ==> EndsWith(r.msg, e.msg)
  {
    match e.regraAprovada
    case Flag(b) =>
      RuleVerdict(Verdict(b), e.restritiva, WithMotherNameMsg(e, Verdict(b), ""))
    case Detail(ocr, endereco, keys) =>
      if ocr.None? && endereco.None? then
        RuleVerdict(RawDict(keys), e.restritiva, WithMotherNameMsg(e, RawDict(keys), ""))
      else
        var checks := ocr.GetOr([]) + endereco.GetOr([]);
        var approved := Verdict(AllApproved(ocr.GetOr([])) && AllApproved(endereco.GetOr([])));
        var msg := FailLines(ocr.GetOr([])) + FailLines(endereco.GetOr([]));
        assert ocr.Some? && endereco.None? ==> msg == FailLines(ocr.value);
        RuleVerdict(approved, e.restritiva, WithMotherNameMsg(e, approved, msg))
  }

  /** A rule result with both lists: the code as written raises, the
      intended reading rejects it for the failed address field. */
  lemma ProcessRegraAsWrittenRaisesOnBothLists()
    ensures var ok := FieldCheck(true, "nome", "A", "A");
      var bad := FieldCheck(false, "cep", "1", "2");
      var e := HubRule("DOCUMENTO", Detail(Some([ok]), Some([bad]), 0), false, "");
      ProcessRegraAprovadaAsWritten(e).Err?
      && ProcessRegraAprovada(e).approved == Verdict(false)
  {
  }

  // ---------------------------------------------------------------------
  // All bureau rules of a contract

  /** The validation rows of a contract: description to (checked, hub message). */
  type Validations = map<string, (bool, string)>

  datatype RulesOutcome = RulesOutcome(error: bool, erroRestritivo: bool, validations: Validations)

  /** The rules loop over the rules left after the exclusion: every rule
      upserts its validation row; a failed restrictive rule sets
      `erro_restritivo`, a failed ordinary rule `error`. */
  function EvaluateRules(vals: Validations, rules: seq<HubRule>): (r: RulesOutcome)
    decreases |rules|
  {
    if |rules| == 0 then RulesOutcome(false, false, vals)
    else
      var v := ProcessRegraAprovada(rules[0]);
      var failed := !Truthy(v.approved);
      var rest := EvaluateRules(vals[rules[0].descricao := (Truthy(v.approved), v.msg)], rules[1..]);
      RulesOutcome(rest.error || (!v.restritiva && failed),
                   rest.erroRestritivo || (v.restritiva && failed),
                   rest.validations)
  }

  predicate RuleFails(e: HubRule) {
    !Truthy(ProcessRegraAprovada(e).approved)
  }

  /** Some rule of the given kind (restrictive or not) fails. */
  predicate SomeRuleFails(rules: seq<HubRule>, restritiva: bool) {
    exists i :: 0 <= i < |rules| && rules[i].restritiva == restritiva && RuleFails(rules[i])
  }

  /** The two flags say exactly whether some ordinary, and some restrictive,
      rule failed. */
  lemma {:induction false} EvaluateRulesFlags(vals: Validations, rules: seq<HubRule>)
    ensures EvaluateRules(vals, rules).error <==> SomeRuleFails(rules, false)
    ensures EvaluateRules(vals, rules).erroRestritivo <==> SomeRuleFails(rules, true)
    decreases |rules|
  {
    if |rules| > 0 {
      var v := ProcessRegraAprovada(rules[0]);
      EvaluateRulesFlags(vals[rules[0].descricao := (Truthy(v.approved), v.msg)], rules[1..]);
      forall i | 1 <= i < |rules| ensures rules[i] == rules[1..][i - 1] { }
    }
  }

  /** The row written for one rule. */
  function RowOf(e: HubRule): (bool, string) {
    var v := ProcessRegraAprovada(e);
    (Truthy(v.approved), v.msg)
  }

  /** A description has a row after the loop exactly when it had one
      before or some rule carries it. */
  lemma {:induction false} EvaluateRulesKey(vals: Validations, rules: seq<HubRule>, k: string)
    ensures k in EvaluateRules(vals, rules).validations <==>
      (k in vals || exists i :: 0 <= i < |rules| && rules[i].descricao == k)
    decreases |rules|
  {
    if |rules| > 0 {
      var vals' := vals[rules[0].descricao := RowOf(rules[0])];
      EvaluateRulesKey(vals', rules[1..], k);
      assert EvaluateRules(vals, rules).validations == EvaluateRules(vals', rules[1..]).validations;
      if exists i :: 0 <= i < |rules[1..]| && rules[1..][i].descricao == k {
        var i :| 0 <= i < |rules[1..]| && rules[1..][i].descricao == k;
        assert rules[i + 1].descricao == k;
      }
      if exists i :: 0 <= i < |rules| && rules[i].descricao == k {
        var i :| 0 <= i < |rules| && rules[i].descricao == k;
        if i > 0 {
          assert rules[1..][i - 1].descricao == k;
        }
      }
    }
  }

  /** A row whose description no rule carries is left alone. */
  lemma {:induction false} EvaluateRulesUntouched(vals: Validations, rules: seq<HubRule>, k: string)
    requires k in vals
    requires forall i :: 0 <= i < |rules| ==> rules[i].descricao != k
    ensures k in EvaluateRules(vals, rules).validations && EvaluateRules(vals, rules).validations[k] == vals[k]
    decreases |rules|
  {
    if |rules| > 0 {
      var vals' := vals[rules[0].descricao := RowOf(rules[0])];
      assert rules[0].descricao != k;
      assert forall i :: 0 <= i < |rules[1..]| ==> rules[1..][i] == rules[i + 1];
      EvaluateRulesUntouched(vals', rules[1..], k);
    }
  }

  /** A description's row holds the verdict of the last rule carrying it. */
  lemma {:induction false} EvaluateRulesLastWins(vals: Validations, rules: seq<HubRule>, i: nat)
    requires i < |rules|
    requires forall j :: i < j < |rules| ==> rules[j].descricao != rules[i].descricao
    ensures rules[i].descricao in EvaluateRules(vals, rules).validations
    ensures EvaluateRules(vals, rules).validations[rules[i].descricao] == RowOf(rules[i])
    decreases |rules|
  {
    var vals' := vals[rules[0].descricao := RowOf(rules[0])];
    assert EvaluateRules(vals, rules).validations == EvaluateRules(vals', rules[1..]).validations;
    assert forall j :: 0 <= j < |rules[1..]| ==> rules[1..][j] == rules[j + 1];
    if i == 0 {
      EvaluateRulesUntouched(vals', rules[1..], rules[0].descricao);
    } else {
      EvaluateRulesLastWins(vals', rules[1..], i - 1);
    }
  }

  /** `process_regras_contrato`: the check rules are excluded first, then
      every remaining rule is evaluated. */
  function ProcessRegrasContrato(vals: Validations, rules: seq<HubRule>): (r: RulesOutcome)
    ensures r.error <==> SomeRuleFails(ExcludeAllCheckRules(rules), false)
    ensures r.erroRestritivo <==> SomeRuleFails(ExcludeAllCheckRules(rules), true)
  {
    EvaluateRulesFlags(vals, ExcludeAllCheckRules(rules));
    EvaluateRules(vals, ExcludeAllCheckRules(rules))
  }

  /** After the exclusion no rule mentions NOME_MAE, so the message a
      failed NOME_MAE rule would append is never added on this path, and a
      check rule, failed or not, raises no flag. */
  lemma ProcessRegrasIgnoresCheckRules(vals: Validations, rules: seq<HubRule>)
    ensures forall i :: 0 <= i < |ExcludeAllCheckRules(rules)| ==>
      !Contains(ExcludeAllCheckRules(rules)[i].descricao, "NOME_MAE")
    ensures (forall i :: 0 <= i < |rules| ==> IsCheckRule(rules[i].descricao)) ==>
      ProcessRegrasContrato(vals, rules) == RulesOutcome(false, false, vals)
  {
    ExcludeAllCheckRulesSpec(rules);
  }

  // ---------------------------------------------------------------------
  // Status after the rules

  const RULES_NOT_MET: string := "Algumas regras nao foram atendidas"

  predicate IsPortOrFreeMargin(tipoProduto: int) {
    tipoProduto in {PRODUTO_PORTABILIDADE, PRODUTO_PORTABILIDADE_REFINANCIAMENTO, PRODUTO_MARGEM_LIVRE}
  }

  predicate IsBenefitCard(tipoProduto: int) {
    tipoProduto in {PRODUTO_CARTAO_BENEFICIO, PRODUTO_CARTAO_BENEFICIO_REPRESENTANTE, PRODUTO_CARTAO_CONSIGNADO}
  }

  /** Who is asking: the contract's product, whether it is the main
      proposal, and its Corban's desk flag (absent without a Corban). */
  datatype StatusContext = StatusContext(tipoProduto: int, isMainProposal: bool, mesaCorban: Option<bool>)

  /** The desk statuses after which an erroring main proposal does not go
      back to the Corban desk. */
  const NOT_BACK_TO_CORBAN: set<int> := {CHECAGEM_MESA_CORBAN, REPROVADA_POLITICA_INTERNA, REPROVADO}

  /** The ordinary-error half of `save_contract_status`. */
  function SaveOnError(c: ContractState, ctx: StatusContext): (r: Result<ContractState>)
    requires IsPortOrFreeMargin(ctx.tipoProduto)
    ensures r.Ok? ==> r.value.status == CONTRATO_MESA
    ensures r.Ok? && !ctx.isMainProposal ==> r.value == c.(status := CONTRATO_MESA)
    ensures r.Ok? && ctx.isMainProposal ==>
      r.value.log == c.log + [StatusRecord(r.value.productStatus, RULES_NOT_MET)]
      && (r.value.productStatus == CHECAGEM_MESA_CORBAN <==>
            (ctx.mesaCorban == Some(true) && c.LastStatus().Some? && c.LastStatus().value !in NOT_BACK_TO_CORBAN))
      && (r.value.productStatus == CHECAGEM_MESA_CORBAN || r.value.productStatus == CHECAGEM_MESA_FORMALIZACAO)
    ensures r.Err? <==> ctx.isMainProposal && (ctx.mesaCorban.None? || (ctx.mesaCorban.value && |c.log| == 0))
  {
    var mesa := c.(status := CONTRATO_MESA);
    if !ctx.isMainProposal then Ok(mesa)
    else if ctx.mesaCorban.None? then Err("AttributeError: 'NoneType' object has no attribute 'mesa_corban'")
    else if ctx.mesaCorban.value && |c.log| == 0 then Err("AttributeError: 'NoneType' object has no attribute 'nome'")
    else if ctx.mesaCorban.value && c.log[|c.log| - 1].nome !in NOT_BACK_TO_CORBAN then
      Ok(AddRecord(mesa.(productStatus := CHECAGEM_MESA_CORBAN), CHECAGEM_MESA_CORBAN, RULES_NOT_MET))
    else
      Ok(AddRecord(mesa.(productStatus := CHECAGEM_MESA_FORMALIZACAO), CHECAGEM_MESA_FORMALIZACAO, RULES_NOT_MET))
  }

  /** The reproval status a restrictive error leads to, by product. */
  function RestrictiveStatus(tipoProduto: int): int {
    if IsBenefitCard(tipoProduto) then REPROVADA_FINALIZADA else REPROVADA_POLITICA_INTERNA
  }

  /** The restrictive-error half: the reproval status is recorded once --
      only when the last record is not already it. */
  function SaveOnRestrictive(c: ContractState, tipoProduto: int): (r: Result<ContractState>)
    ensures r.Err? <==> (IsBenefitCard(tipoProduto) || IsPortOrFreeMargin(tipoProduto)) && |c.log| == 0
    ensures !IsBenefitCard(tipoProduto) && !IsPortOrFreeMargin(tipoProduto) ==> r == Ok(c)
    ensures (IsBenefitCard(tipoProduto) || IsPortOrFreeMargin(tipoProduto)) && r.Ok? ==>
      var s := RestrictiveStatus(tipoProduto);
      r.value.LastStatus() == Some(s)
      && (c.LastStatus() == Some(s) ==> r.value == c)
      && (c.LastStatus() != Some(s) ==>
            r.value == c.(status := CONTRATO_MESA, productStatus := s, log := c.log + [StatusRecord(s, "")]))
  {
    if !IsBenefitCard(tipoProduto) && !IsPortOrFreeMargin(tipoProduto) then Ok(c)
    else if |c.log| == 0 then Err("AttributeError: 'NoneType' object has no attribute 'nome'")
    else
      var s := RestrictiveStatus(tipoProduto);
      if c.log[|c.log| - 1].nome != s then
        Ok(c.(status := CONTRATO_MESA, productStatus := s, log := c.log + [StatusRecord(s, "")]))
      else Ok(c)
  }

  /** `save_contract_status`: the ordinary error is handled first (only for
      portability and free margin), then the restrictive one, which reads
      the last record again. */
  function SaveContractStatus(c: ContractState, ctx: StatusContext, error: bool, erroRestritivo: bool)
    : (r: Result<ContractState>)
    ensures !error && !erroRestritivo ==> r == Ok(c)
    ensures !erroRestritivo && !IsPortOrFreeMargin(ctx.tipoProduto) ==> r == Ok(c)
    ensures error && IsPortOrFreeMargin(ctx.tipoProduto) && !erroRestritivo ==> r == SaveOnError(c, ctx)
    ensures !error && erroRestritivo ==> r == SaveOnRestrictive(c, ctx.tipoProduto)
    ensures r.Ok? && erroRestritivo && IsBenefitCard(ctx.tipoProduto) ==>
      r.value.LastStatus() == Some(REPROVADA_FINALIZADA)
      && |r.value.log| == |c.log| + (if c.LastStatus() == Some(REPROVADA_FINALIZADA) then 0 else 1)
  {
    var afterError :=
      if error && IsPortOrFreeMargin(ctx.tipoProduto) then SaveOnError(c, ctx) else Ok(c);
    match afterError
    case Err(m) => Err(m)
    case Ok(c1) => if erroRestritivo then SaveOnRestrictive(c1, ctx.tipoProduto) else Ok(c1)
  }

  /** Saving a restrictive error twice records the reproval once. */
  lemma SaveRestrictiveIdempotent(c: ContractState, ctx: StatusContext)
    requires SaveContractStatus(c, ctx, false, true).Ok?
    ensures var once := SaveContractStatus(c, ctx, false, true).value;
      SaveContractStatus(once, ctx, false, true) == Ok(once)
  {
  }

  // ---------------------------------------------------------------------
  // Sorting the envelope's contracts

  /** The documents a product asks for. */
  datatype DocRequirements = DocRequirements(comprovanteResidencia: bool, documentoPessoal: bool)

  /** One contract of the envelope, with the answer `process_contrato`
      gave for it (absent when it swallowed an exception and returned
      nothing). */
  datatype EnvelopeContract = EnvelopeContract(
    pk: int,
    tipoProduto: int,
    reproved: bool,
    processed: Option<(bool, bool)>,
    enviadoComprovanteResidencia: bool,
    enviadoDocumentoPessoal: bool)

  /** The product whose document rules apply: a consigned card uses the
      benefit card's. */
  function ProductOf(products: map<int, DocRequirements>, tipoProduto: int): Option<DocRequirements> {
    var key := if tipoProduto == PRODUTO_CARTAO_CONSIGNADO then PRODUTO_CARTAO_BENEFICIO else tipoProduto;
    if key in products then Some(products[key]) else None
  }

  /** The products the task processes; any other is skipped. */
  predicate ProcessedFamily(tipoProduto: int) {
    IsBenefitCard(tipoProduto) || IsPortabilityFamily(tipoProduto) || tipoProduto == PRODUTO_MARGEM_LIVRE
  }

  /** Whether a required document is still missing: with both required,
      only when neither was sent. */
  predicate DocumentsPending(p: DocRequirements, sentComprovante: bool, sentDocumento: bool) {
    if p.comprovanteResidencia && p.documentoPessoal then !sentComprovante && !sentDocumento
    else if p.comprovanteResidencia then !sentComprovante
    else if p.documentoPessoal then !sentDocumento
    else false
  }

  /** Where a contract ends up. */
  datatype Placement = Skipped | WithError | Pending | Clear

  /** The placement of one contract; unpacking a missing answer, or
      reading the requirements of a missing product, raises. */
  function Place(products: map<int, DocRequirements>, k: EnvelopeContract): (r: Result<Placement>)
    ensures r == Ok(Skipped) <==> k.reproved || !ProcessedFamily(k.tipoProduto)
    ensures r == Ok(WithError) <==>
      !k.reproved && ProcessedFamily(k.tipoProduto) && k.processed.Some? && (k.processed.value.0 || k.processed.value.1)
    ensures r == Ok(Pending) ==>
      (ProductOf(products, k.tipoProduto).Some?
       && DocumentsPending(ProductOf(products, k.tipoProduto).value, k.enviadoComprovanteResidencia, k.enviadoDocumentoPessoal))
  {
    if k.reproved || !ProcessedFamily(k.tipoProduto) then Ok(Skipped)
    else if k.processed.None? then Err("TypeError: cannot unpack non-iterable NoneType object")
    else if k.processed.value.0 || k.processed.value.1 then Ok(WithError)
    else
      match ProductOf(products, k.tipoProduto)
      case None => Err("AttributeError: 'NoneType' object has no attribute 'comprovante_residencia'")
      case Some(p) =>
        if DocumentsPending(p, k.enviadoComprovanteResidencia, k.enviadoDocumentoPessoal) then Ok(Pending)
        else Ok(Clear)
  }

  /** The two lists the task reports, in envelope order. */
  datatype Classification = Classification(comErro: seq<int>, documentosPendentes: seq<int>)

  /** The classification loop of `validar_contrato_assync`. */
  function ClassifyContracts(products: map<int, DocRequirements>, cs: seq<EnvelopeContract>): (r: Result<Classification>)
    ensures r.Ok? <==> forall i :: 0 <= i < |cs| ==> Place(products, cs[i]).Ok?
    ensures r.Ok? ==> |r.value.comErro| + |r.value.documentosPendentes| <= |cs|
    decreases |cs|
  {
    if |cs| == 0 then Ok(Classification([], []))
    else
      match Place(products, cs[0])
      case Err(m) => Err(m)
      case Ok(p) =>
        match ClassifyContracts(products, cs[1..])
        case Err(m) => Err(m)
        case Ok(rest) =>
          assert forall i :: 1 <= i < |cs| ==> cs[i] == cs[1..][i - 1];
          Ok(Classification(
            (if p == WithError then [cs[0].pk] else []) + rest.comErro,
            (if p == Pending then [cs[0].pk] else []) + rest.documentosPendentes))
  }

  /** Every reported key belongs to a contract of the envelope placed in
      that list: no reproved contract is reported, and an erroring contract
      is never reported as pending. */
  lemma {:induction false} ClassifyContractsSound(products: map<int, DocRequirements>, cs: seq<EnvelopeContract>)
    requires ClassifyContracts(products, cs).Ok?
    ensures var r := ClassifyContracts(products, cs).value;
      (forall x :: x in r.comErro ==> exists i :: 0 <= i < |cs| && cs[i].pk == x && Place(products, cs[i]) == Ok(WithError))
      && (forall x :: x in r.documentosPendentes ==>
            exists i :: 0 <= i < |cs| && cs[i].pk == x && Place(products, cs[i]) == Ok(Pending))
    decreases |cs|
  {
    if |cs| > 0 {
      ClassifyContractsSound(products, cs[1..]);
      var r := ClassifyContracts(products, cs).value;
      var rest := ClassifyContracts(products, cs[1..]).value;
      forall x | x in r.comErro
        ensures exists i :: 0 <= i < |cs| && cs[i].pk == x && Place(products, cs[i]) == Ok(WithError)
      {
        if x !in rest.comErro {
          assert cs[0].pk == x && Place(products, cs[0]) == Ok(WithError);
        } else {
          var j :| 0 <= j < |cs[1..]| && cs[1..][j].pk == x && Place(products, cs[1..][j]) == Ok(WithError);
          assert cs[j + 1] == cs[1..][j];
        }
      }
      forall x | x in r.documentosPendentes
        ensures exists i :: 0 <= i < |cs| && cs[i].pk == x && Place(products, cs[i]) == Ok(Pending)
      {
        if x !in rest.documentosPendentes {
          assert cs[0].pk == x && Place(products, cs[0]) == Ok(Pending);
        } else {
          var j :| 0 <= j < |cs[1..]| && cs[1..][j].pk == x && Place(products, cs[1..][j]) == Ok(Pending);
          assert cs[j + 1] == cs[1..][j];
        }
      }
    }
  }

  /** And every erroring contract is reported. */
  lemma {:induction false} ClassifyContractsComplete(products: map<int, DocRequirements>, cs: seq<EnvelopeContract>)
    requires ClassifyContracts(products, cs).Ok?
    ensures var r := ClassifyContracts(products, cs).value;
      forall i :: 0 <= i < |cs| && Place(products, cs[i]) == Ok(WithError) ==> cs[i].pk in r.comErro
    ensures var r := ClassifyContracts(products, cs).value;
      forall i :: 0 <= i < |cs| && Place(products, cs[i]) == Ok(Pending) ==> cs[i].pk in r.documentosPendentes
    decreases |cs|
  {
    if |cs| > 0 {
      ClassifyContractsComplete(products, cs[1..]);
      forall i | 1 <= i < |cs| ensures cs[i] == cs[1..][i - 1] { }
    }
  }
}
