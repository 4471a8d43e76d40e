/** The client record's derived values (core/models/cliente.py): the
    marital-status code, the defaults for complement and income, the bare
    CPF, the phone split, and the change tracking and unique-CPF check done
    on save. The record itself is a map from field names to values. */
module ClienteModel {
  import opened Common
  import opened CoreUtils

  // ---------------------------------------------------------------------
  // Marital status

  /** `str.upper` on the letters a Brazilian form uses: ASCII, the
      Latin-1 lowercase block (except the division sign and 'ÿ', whose
      capital lies outside the block), and the two letters outside it whose
      capital is an ASCII letter, the dotless i and the long s. */
  function UpperChar(c: char): (r: char)
    ensures 'a' <= c <= 'z' ==> r == (c as int - 32) as char
    ensures c == '\U{131}' ==> r == 'I'
    ensures c == '\U{17F}' ==> r == 'S'
    ensures !('a' <= c <= 'z') && !('à' <= c <= 'þ') && c != '\U{131}' && c != '\U{17F}' ==> r == c
  {
    if 'a' <= c <= 'z' then (c as int - 32) as char
    else if 'à' <= c <= 'þ' && c != '÷' then (c as int - 32) as char
    else if c == '\U{131}' then 'I'
    else if c == '\U{17F}' then 'S'
    else c
  }

  function Upper(s: string): (r: string)
    ensures |r| == |s| && forall i :: 0 <= i < |s| ==> r[i] == UpperChar(s[i])
  {
    if |s| == 0 then [] else [UpperChar(s[0])] + Upper(s[1..])
  }

  const MARITAL_NAMES: seq<string> := ["SOLTEIRO", "CASADO", "DESQUITADO", "DIVORCIADO", "VIÚVO"]

  /** `getEstadoCivil`: the upper-cased status looked up among the five
      names, coded 1 to 5 in that order, anything else 9; a missing status
      makes `upper` raise. */
  function GetEstadoCivil(estadoCivil: Option<string>): (r: Result<int>)
    ensures estadoCivil.None? <==> r.Err?
    ensures r.Ok? ==> (r.value == 9 || 1 <= r.value <= 5)
    ensures r.Ok? ==> forall k :: 0 <= k < 5 ==> (r.value == k + 1 <==> Upper(estadoCivil.value) == MARITAL_NAMES[k])
    ensures r.Ok? ==> (r.value == 9 <==> Upper(estadoCivil.value) !in MARITAL_NAMES)
  {
    match estadoCivil
    case None => Err("AttributeError: 'NoneType' object has no attribute 'upper'")
    case Some(e) =>
      var u := Upper(e);
      assert forall k, j :: 0 <= k < j < 5 ==> MARITAL_NAMES[k] != MARITAL_NAMES[j] by {
        assert MARITAL_NAMES[0][0] == 'S' && MARITAL_NAMES[1][0] == 'C' && MARITAL_NAMES[4][0] == 'V';
        assert MARITAL_NAMES[2][1] == 'E' && MARITAL_NAMES[3][1] == 'I';
      }
      Ok(if u == "SOLTEIRO" then 1
         else if u == "CASADO" then 2
         else if u == "DESQUITADO" then 3
         else if u == "DIVORCIADO" then 4
         else if u == "VIÚVO" then 5
         else 9)
  }

  /** The lookup ignores case: lower-case and mixed-case spellings get the
      same code as the capitals. */
  lemma EstadoCivilLowerCase()
    ensures GetEstadoCivil(Some("solteiro")) == Ok(1)
  {
    assert Upper("solteiro") == "SOLTEIRO";
  }

  /** The long s and the dotless i upper-case to plain S and I, so these
      spellings are found too. */
  lemma EstadoCivilLongS()
    ensures GetEstadoCivil(Some("\U{17F}olteiro")) == Ok(1)
  {
    UpperIs("\U{17F}olteiro", "SOLTEIRO");
  }

  lemma EstadoCivilDotlessI()
    ensures GetEstadoCivil(Some("d\U{131}vorciado")) == Ok(4)
  {
    UpperIs("d\U{131}vorciado", "DIVORCIADO");
  }

  lemma UpperIs(s: string, t: string)
    requires |s| == |t| && forall i :: 0 <= i < |s| ==> UpperChar(s[i]) == t[i]
    ensures Upper(s) == t
  {
  }

  lemma EstadoCivilMixedCase()
    ensures GetEstadoCivil(Some("Casado")) == Ok(2)
  {
    assert Upper("Casado") == "CASADO";
  }

  lemma EstadoCivilAccented()
    ensures GetEstadoCivil(Some("viúvo")) == Ok(5)
  {
    assert Upper("viúvo") == "VIÚVO";
  }

  // ---------------------------------------------------------------------
  // Defaults

  /** `endereco_complemento_` and `renda_`: a missing or empty value gives
      the default, any other value itself. */
  function EnderecoComplemento(complemento: Option<string>): (r: string)
    ensures complemento.None? ==> r == ""
    ensures complemento.Some? ==> r == complemento.value
  {
    if complemento.Some? && complemento.value != "" then complemento.value else ""
  }

  /** Income in cents. */
  function Renda(renda: Option<int>): (r: int)
    ensures renda.None? ==> r == 0
    ensures renda.Some? ==> r == renda.value
  {
    if renda.Some? && renda.value != 0 then renda.value else 0
  }

  // ---------------------------------------------------------------------
  // Bare CPF

  const CPF_PUNCTUATION: set<char> := {'-', '.'}

  /** `nu_cpf_`: every dash and dot removed, nothing else. */
  function NuCpf(nuCpf: string): (r: string)
    ensures forall i :: 0 <= i < |r| ==> r[i] != '-' && r[i] != '.'
    ensures forall i :: 0 <= i < |nuCpf| && nuCpf[i] != '-' && nuCpf[i] != '.' ==> nuCpf[i] in r
  {
    RemoveChars(nuCpf, CPF_PUNCTUATION)
  }

  lemma RemoveCharsDropOne(a: string, c: char, b: string)
    requires c in CPF_PUNCTUATION
    ensures RemoveChars(a + ([c] + b), CPF_PUNCTUATION) == RemoveChars(a, CPF_PUNCTUATION) + RemoveChars(b, CPF_PUNCTUATION)
  {
    RemoveCharsConcat(a, [c] + b, CPF_PUNCTUATION);
    RemoveCharsConcat([c], b, CPF_PUNCTUATION);
    assert RemoveChars([c], CPF_PUNCTUATION) == [];
  }

  lemma DigitsKept(x: string)
    requires AllDigits(x)
    ensures RemoveChars(x, CPF_PUNCTUATION) == x
  {
    forall i | 0 <= i < |x| ensures x[i] !in CPF_PUNCTUATION {
      assert IsDigit(x[i]);
    }
    RemoveCharsNone(x, CPF_PUNCTUATION);
  }

  /** Removing the punctuation of a CPF mask whose groups are digits
      gives the groups, joined. */
  lemma MaskRemoval(g1: string, g2: string, g3: string, g4: string)
    requires AllDigits(g1) && AllDigits(g2) && AllDigits(g3) && AllDigits(g4)
    ensures RemoveChars(g1 + ("." + (g2 + ("." + (g3 + ("-" + g4))))), CPF_PUNCTUATION) == g1 + (g2 + (g3 + g4))
  {
    DigitsKept(g1);
    DigitsKept(g2);
    DigitsKept(g3);
    DigitsKept(g4);
    var t3 := g3 + ("-" + g4);
    RemoveCharsDropOne(g3, '-', g4);
    var t2 := g2 + ("." + t3);
    RemoveCharsDropOne(g2, '.', t3);
    RemoveCharsDropOne(g1, '.', t2);
  }

  lemma DigitsSlice(s: string, a: nat, b: nat)
    requires a <= b <= |s| && AllDigits(s)
    ensures AllDigits(s[a..b])
  {
    forall i | 0 <= i < b - a ensures IsDigit(s[a..b][i]) {
      assert s[a..b][i] == s[a + i];
    }
  }

  /** A string with the CPF punctuation in place is its four groups and
      the three marks. */
  lemma MaskShape(r: string)
    requires |r| >= 12 && r[3] == '.' && r[7] == '.' && r[11] == '-'
    ensures r == r[..3] + ("." + (r[4..7] + ("." + (r[8..11] + ("-" + r[12..])))))
  {
  }

  /** The bare CPF of a digit CPF mask is its digit groups. */
  lemma NuCpfOfMask(r: string)
    requires |r| >= 12 && r[3] == '.' && r[7] == '.' && r[11] == '-'
    requires AllDigits(MaskDigits(r))
    ensures NuCpf(r) == MaskDigits(r)
  {
    var m := MaskDigits(r);
    var g1, g2, g3, g4 := r[..3], r[4..7], r[8..11], r[12..];
    assert g1 == m[..3] && g2 == m[3..6] && g3 == m[6..9] && g4 == m[9..];
    DigitsSlice(m, 0, 3);
    DigitsSlice(m, 3, 6);
    DigitsSlice(m, 6, 9);
    DigitsSlice(m, 9, |m|);
    MaskShape(r);
    MaskRemoval(g1, g2, g3, g4);
    assert m == g1 + g2 + g3 + g4;
    ConcatAssoc(g1 + g2, g3, g4);
    ConcatAssoc(g1, g2, g3 + g4);
  }

  /** The bare CPF undoes the CPF mask of an eleven-digit CPF. */
  lemma NuCpfUndoesMask(cpf: string)
    requires |cpf| == 11 && AllDigits(cpf)
    ensures NuCpf(FormatarCpf(cpf)) == cpf
  {
    var r := FormatarCpf(cpf);
    assert PadLeft(cpf, 11, '0') == cpf;
    NuCpfOfMask(r);
  }

  // ---------------------------------------------------------------------
  // Phone

  const PHONE_PUNCTUATION: set<char> := {'(', ')', '-'}

  /** `telefone_ddd`: an empty or missing phone gives two empty parts; with
      parentheses and dashes removed, eleven characters split after the
      second, anything else at the first space -- and raises without one. */
  function TelefoneDdd(telefone: Option<string>): (r: Result<(string, string)>)
    ensures (telefone.None? || telefone.value == "") ==> r == Ok(("", ""))
    ensures r.Ok? && telefone.Some? && telefone.value != "" ==>
      var t := RemoveChars(telefone.value, PHONE_PUNCTUATION);
      (|t| == 11 ==> r.value.0 + r.value.1 == t && |r.value.0| == 2)
      && (|t| != 11 ==> r.value.0 + " " + r.value.1 == t && ' ' !in r.value.0)
    ensures r.Err? <==>
      (telefone.Some? && telefone.value != ""
       && |RemoveChars(telefone.value, PHONE_PUNCTUATION)| != 11
       && ' ' !in RemoveChars(telefone.value, PHONE_PUNCTUATION))
  {
    if telefone.None? || telefone.value == "" then Ok(("", ""))
    else
      var t := RemoveChars(telefone.value, PHONE_PUNCTUATION);
      if |t| == 11 then
        assert t[..2] + t[2..] == t;
        Ok((t[..2], t[2..]))
      else
        match Find(t, " ")
        case None =>
          assert ' ' !in t by {
            forall j | 0 <= j < |t| ensures t[j] != ' ' {
              assert !OccursAt(t, " ", j);
            }
          }
          Err("ValueError: not enough values to unpack (expected 2, got 1)")
        case Some(i) =>
          FirstSpace(t, i);
          Ok((t[..i], t[i + 1..]))
  }

  lemma FirstSpace(t: string, i: nat)
    requires Find(t, " ") == Some(i)
    ensures i < |t| && t[i] == ' ' && ' ' !in t[..i] && t[..i] + " " + t[i + 1..] == t
  {
    assert t[i..i + 1] == " ";
    forall j | 0 <= j < i ensures t[..i][j] != ' ' {
      assert !OccursAt(t, " ", j);
    }
    assert t[..i] + " " + t[i + 1..] == t[..i] + t[i..i + 1] + t[i + 1..];
  }

  // ---------------------------------------------------------------------
  // Change tracking and unique CPF

  /** A client row: its key, its CPF, the field values now and as last
      saved. */
  datatype Cliente = Cliente(pk: int, nuCpf: Option<string>, fields: map<string, string>, original: map<string, string>)

  /** `has_changed`: the field differs from its value when last saved;
      a field missing from either snapshot raises. */
  function HasChanged(c: Cliente, field: string): (r: Result<bool>)
    ensures r.Ok? <==> field in c.original && field in c.fields
    ensures r.Ok? ==> (r.value <==> c.original[field] != c.fields[field])
  {
    if field !in c.original || field !in c.fields then Err("KeyError")
    else Ok(c.original[field] != c.fields[field])
  }

  /** `_validate_unique_nu_cpf`: another client (a different key) with the
      same CPF is an error. */
  predicate CpfTaken(others: seq<Cliente>, c: Cliente) {
    exists i :: 0 <= i < |others| && others[i].nuCpf == c.nuCpf && others[i].pk != c.pk
  }

  /** `save`: the CPF is checked first; on success the snapshot is taken
      again. */
  function Save(others: seq<Cliente>, c: Cliente): (r: Result<Cliente>)
    ensures r.Err? <==> CpfTaken(others, c)
    ensures r.Ok? ==> r.value.fields == c.fields && r.value.original == c.fields && r.value.pk == c.pk
  {
    if CpfTaken(others, c) then Err("ValidationError: Client with nu_cpf already exists.")
    else Ok(c.(original := c.fields))
  }

  /** After a successful save no field reads as changed. */
  lemma SavedHasNoChanges(others: seq<Cliente>, c: Cliente, field: string)
    requires Save(others, c).Ok?
    requires field in c.fields
    ensures HasChanged(Save(others, c).value, field) == Ok(false)
  {
  }

  /** Saving a client whose CPF another row already uses fails, and saving
      the only row with that CPF (or a row against itself) succeeds. */
  lemma SaveRejectsDuplicateCpf(c: Cliente, other: Cliente)
    ensures other.nuCpf == c.nuCpf && other.pk != c.pk ==> Save([other], c).Err?
    ensures Save([c], c).Ok?
  {
    if other.nuCpf == c.nuCpf && other.pk != c.pk {
      assert [other][0] == other;
    }
  }
}
