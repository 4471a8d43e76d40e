/** The card convenio and its products (contract/products/cartao_beneficio/models/convenio.py):
    the form validations, the minimum instalment-withdrawal total computed
    on save, the rate accessor and the display names. Amounts with two
    decimals are in cents; rates in hundredths of a percent. */
module ConvenioModel {
  import opened Common

  // ---------------------------------------------------------------------
  // Convenios

  const ERR_SIGNATURE_AGE: string := "Necessário informar idade mínima para obrigatoriedade da assinatura física."

  /** `Convenios.clean`: a convenio that requires a physical signature must
      say from which age. */
  function CleanConvenio(necessitaAssinaturaFisica: bool, idadeMinimaAssinatura: Option<int>): (r: Result<()>)
    ensures r.Err? <==> necessitaAssinaturaFisica && idadeMinimaAssinatura.None?
    ensures r.Err? ==> r.message == ERR_SIGNATURE_AGE
  {
    if necessitaAssinaturaFisica && idadeMinimaAssinatura.None? then Err(ERR_SIGNATURE_AGE) else Ok(())
  }

  /** `str()` of a primary key, `None` when the row is not saved. */
  function PkText(pk: Option<nat>): (r: string)
    ensures '-' !in r
    ensures |r| > 0
  {
    match pk
    case None => "None"
    case Some(n) => NatToStringNoDash(n)
  }

  function NatToStringNoDash(n: nat): (r: string)
    ensures AllDigits(r) && |r| > 0
    ensures '-' !in r
  {
    var r := NatToString(n);
    assert forall i :: 0 <= i < |r| ==> IsDigit(r[i]);
    r
  }

  /** `Convenios.__str__`: 'pk-nome'. */
  function ConvenioStr(pk: Option<nat>, nome: string): (r: string)
    ensures |r| > 0
  {
    PkText(pk) + "-" + nome
  }

  /** The key and the name can be read back from the display: the key is
      what precedes the first '-', the name what follows it. */
  lemma ConvenioStrSplits(pk: Option<nat>, nome: string)
    ensures var r := ConvenioStr(pk, nome);
      Find(r, "-") == Some(|PkText(pk)|)
      && r[..|PkText(pk)|] == PkText(pk)
      && r[|PkText(pk)| + 1..] == nome
  {
    var p := PkText(pk);
    var r := ConvenioStr(pk, nome);
    assert r[..|p|] == p;
    assert r[|p| + 1..] == nome;
    assert OccursAt(r, "-", |p|) by { assert r[|p|..|p| + 1] == "-"; }
    forall j | 0 <= j < |p| ensures !OccursAt(r, "-", j) {
      assert r[j] == p[j];
      assert r[j..j + 1] == [r[j]];
    }
  }

  // ---------------------------------------------------------------------
  // ProdutoConvenio

  /** The withdrawal fields of a product. `None` is an unset nullable
      column. */
  datatype WithdrawalFields = WithdrawalFields(
    permiteSaque: Option<bool>, percentualSaque: Option<int>, vrMinimoSaque: Option<int>,
    permiteSaqueParcelado: Option<bool>, saqueParcCodDock: Option<int>,
    saqueParcValMin: Option<int>, saqueParcQntMinParcelas: Option<int>)

  /** Python truthiness of a nullable boolean column. */
  predicate Truthy(b: Option<bool>) { b == Some(true) }

  const ERR_WITHDRAWAL_FIELDS: string :=
    "Os campos Percentual Saque e Valor Mínimo Saque são obrigatórios quando Permite Saque está ativado."
  const ERR_INSTALMENT_FIELDS: string :=
    "Os campos Código Dock de Lançamento do Saque Parcelado, Valor mínimo em reais da parcela e Quantidade mínima de parcelas são obrigatórios quando Permite Saque Parcelado está ativado."
  const ERR_COMPARE_NONE: string := "TypeError: '<=' not supported between instances of 'NoneType' and 'int'"

  /** The withdrawal check: the percentage is compared first, and the
      minimum only when the percentage is positive; comparing an unset
      value raises a type error. */
  function WithdrawalCheck(f: WithdrawalFields): (r: Result<()>)
    ensures !Truthy(f.permiteSaque) ==> r.Ok?
    ensures Truthy(f.permiteSaque) && f.percentualSaque.Some? && f.vrMinimoSaque.Some? ==>
      (r.Ok? <==> f.percentualSaque.value > 0 && f.vrMinimoSaque.value > 0)
  {
    if !Truthy(f.permiteSaque) then Ok(())
    else match f.percentualSaque
      case None => Err(ERR_COMPARE_NONE)
      case Some(p) =>
        if p <= 0 then Err(ERR_WITHDRAWAL_FIELDS)
        else match f.vrMinimoSaque
          case None => Err(ERR_COMPARE_NONE)
          case Some(v) => if v <= 0 then Err(ERR_WITHDRAWAL_FIELDS) else Ok(())
  }

  /** `ProdutoConvenio.clean`. */
  function CleanProduto(f: WithdrawalFields): (r: Result<()>)
    ensures r.Ok? <==>
      (Truthy(f.permiteSaque) ==>
         f.percentualSaque.Some? && f.vrMinimoSaque.Some? && f.percentualSaque.value > 0 && f.vrMinimoSaque.value > 0)
      && (Truthy(f.permiteSaqueParcelado) ==>
            f.saqueParcCodDock.Some? && f.saqueParcValMin.Some? && f.saqueParcQntMinParcelas.Some?)
    ensures WithdrawalCheck(f).Err? ==> r == WithdrawalCheck(f)
    ensures WithdrawalCheck(f).Ok? && r.Err? ==> r.message == ERR_INSTALMENT_FIELDS
  {
    var _ :- WithdrawalCheck(f);
    if Truthy(f.permiteSaqueParcelado)
       && (f.saqueParcCodDock.None? || f.saqueParcValMin.None? || f.saqueParcQntMinParcelas.None?)
    then Err(ERR_INSTALMENT_FIELDS)
    else Ok(())
  }

  /** A product that allows no withdrawal of either kind always validates. */
  lemma CleanWithoutWithdrawals(f: WithdrawalFields)
    requires !Truthy(f.permiteSaque) && !Truthy(f.permiteSaqueParcelado)
    ensures CleanProduto(f).Ok?
  {
  }

  /** `ProdutoConvenio.save`: when both the minimum instalment value and the
      minimum count are set, the minimum total becomes their product, which
      the integer column stores in whole reais, truncated toward zero;
      otherwise the stored total is kept. */
  function SaveProduto(f: WithdrawalFields, saqueParcValTotal: Option<int>): (r: Option<int>)
    ensures f.saqueParcValMin.Some? && f.saqueParcQntMinParcelas.Some? ==>
      r.Some? && TruncatedReais(f.saqueParcValMin.value * f.saqueParcQntMinParcelas.value, r.value)
    ensures f.saqueParcValMin.None? || f.saqueParcQntMinParcelas.None? ==> r == saqueParcValTotal
  {
    if f.saqueParcValMin.Some? && f.saqueParcQntMinParcelas.Some? then
      Some(CentsToWholeReais(f.saqueParcValMin.value * f.saqueParcQntMinParcelas.value))
    else saqueParcValTotal
  }

  /** `w` is `cents` in whole reais, truncated toward zero. */
  predicate TruncatedReais(cents: int, w: int) {
    if cents >= 0 then w * 100 <= cents < w * 100 + 100
    else w * 100 - 100 < cents <= w * 100
  }

  function CentsToWholeReais(cents: int): (w: int)
    ensures TruncatedReais(cents, w)
  {
    if cents >= 0 then cents / 100 else -((-cents) / 100)
  }

  /** Saving twice computes the same total: the value does not depend on
      what was stored before when both factors are set. */
  lemma SaveProdutoIdempotent(f: WithdrawalFields, stored: Option<int>)
    ensures SaveProduto(f, SaveProduto(f, stored)) == SaveProduto(f, stored)
  {
  }

  /** A whole number of reais per instalment gives an exact total. */
  lemma SaveProdutoExactOnWholeReais(reais: int, qnt: int, f: WithdrawalFields, stored: Option<int>)
    requires f.saqueParcValMin == Some(reais * 100) && f.saqueParcQntMinParcelas == Some(qnt)
    ensures SaveProduto(f, stored) == Some(reais * qnt)
  {
    var cents := reais * 100 * qnt;
    assert cents == (reais * qnt) * 100;
    var w := CentsToWholeReais(cents);
    if cents >= 0 {
      assert (reais * qnt) * 100 <= cents < (reais * qnt) * 100 + 100;
      TruncationUnique(cents, w, reais * qnt);
    } else {
      TruncationUniqueNeg(cents, w, reais * qnt);
    }
  }

  lemma TruncationUnique(cents: int, a: int, b: int)
    requires a * 100 <= cents < a * 100 + 100
    requires b * 100 <= cents < b * 100 + 100
    ensures a == b
  {
    if a < b { MultiplesApart(b, a, 100); assert false; }
    if b < a { MultiplesApart(a, b, 100); assert false; }
  }

  lemma TruncationUniqueNeg(cents: int, a: int, b: int)
    requires a * 100 - 100 < cents <= a * 100
    requires b * 100 - 100 < cents <= b * 100
    ensures a == b
  {
    if a < b { MultiplesApart(b, a, 100); assert false; }
    if b < a { MultiplesApart(a, b, 100); assert false; }
  }

  /** `valor_taxa_produto`: the rate, given in percent with two decimals
      (hundredths of a percent), as a fraction; an unset rate raises. */
  function ValorTaxaProduto(taxaProduto: Option<int>): (r: Result<real>)
    ensures r.Ok? <==> taxaProduto.Some?
    ensures r.Ok? ==> r.value * 10000.0 == taxaProduto.value as real
  {
    match taxaProduto
    case None => Err("TypeError: unsupported operand type(s) for /: 'NoneType' and 'int'")
    case Some(t) => Ok(t as real / 10000.0)
  }

  /** `ProdutoConvenio.__str__`: the product type's display name, or the
      empty text when the type has none. */
  function ProdutoStr(names: map<int, string>, produto: int): (r: string)
    ensures produto in names ==> r == names[produto]
    ensures produto !in names ==> r == ""
  {
    if produto in names then names[produto] else ""
  }
}
