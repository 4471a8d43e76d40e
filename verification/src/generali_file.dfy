/** The Generali insurance file (handlers/criar_dados_planos.py): a text
    file of fixed-width records, 1300 characters each plus a newline. The
    first character tags the record (header '0', adhesion '1', collection
    '3', trailer '9') and the last six hold the record's sequence number.
    The file is a sequence of lines as `readlines` returns them. The
    transliteration the writer applies to free-text fields (`unidecode`) is
    taken as already done by the caller. */
module GeneraliFile {
  import opened Common

  const RECORD_WIDTH: nat := 1300
  /** Offset of the six-digit sequence slot, `[1294, 1300)`. */
  const SEQ_AT: nat := 1294

  /** `mock(size, char)`, i.e. `''.rjust(size, char)`. */
  function Mock(size: int, c: char): (r: string)
    ensures |r| == if size > 0 then size else 0
    ensures forall i :: 0 <= i < |r| ==> r[i] == c
  {
    if size > 0 then Repeat(c, size) else ""
  }

  predicate AllSpaces(s: string) {
    forall i :: 0 <= i < |s| ==> s[i] == ' '
  }

  /** A record of full width: 1300 characters, a newline, and a six-digit
      slot at the end. */
  predicate FullRecord(r: string, tag: char, sequencial: string) {
    |r| == RECORD_WIDTH + 1 && r[0] == tag && r[RECORD_WIDTH] == '\n'
    && r[SEQ_AT..RECORD_WIDTH] == sequencial
  }

  // ---------------------------------------------------------------------
  // The four record writers

  /** `write_initial_content`: the header. Its own sequence slot is the
      constant `000001`; the value of `sequencial` (the file's sequence
      number) is written untruncated after the date. */
  function Header(produto: string, apolice: string, today: string, sequencial: string,
                  codigoOperacao: string): (r: string)
    ensures |r| > 0 && r[0] == '0' && EndsWith(r, "000001\n")
    ensures |produto| >= 5 && |apolice| >= 10 && |today| >= 8 && |sequencial| == 6 && |codigoOperacao| >= 3 ==>
      FullRecord(r, '0', "000001") && r[30..36] == "0001.8" && AllSpaces(r[39..SEQ_AT])
  {
    var version := Prefix(PadLeft("1.8", 6, '0'), 6);
    assert version == "0001.8";
    var body := "0" + Prefix(produto, 5) + Prefix(apolice, 10) + Prefix(today, 8) + sequencial + version
      + Prefix(codigoOperacao, 3);
    var r := body + Prefix(Mock(1255, ' '), 1255) + "000001\n";
    assert r[|r| - 7..] == "000001\n";
    r
  }

  /** `escrever_arrecadacao`: a collection record. The plan code is padded
      to ten characters before being cut, so its slot is always full. */
  function Collection(produto: string, apolice: string, plano: string, identificacao: string,
                      qtdParcela: string, today: string, premio: string, cnpj: string,
                      sequencial: string): (r: string)
    ensures |r| > 0 && r[0] == '3' && EndsWith(r, "\n")
    ensures (|produto| >= 5 && |apolice| >= 10 && |cnpj| >= 15 && |identificacao| >= 20
             && |Prefix(qtdParcela, 3)| == 3 && |today| >= 8 && |premio| >= 15 && |sequencial| >= 6) ==>
      FullRecord(r, '3', sequencial[..6]) && r[95] == 'A' && AllSpaces(r[96..SEQ_AT])
      && r[16..26] == Prefix(PadRight(plano, 10, ' '), 10) && r[41..61] == identificacao[..20]
  {
    var planoSlot, id := Prefix(PadRight(plano, 10, ' '), 10), Prefix(identificacao, 20);
    var rest := Prefix(qtdParcela, 3) + Prefix(today, 8) + Prefix(today, 8) + Prefix(premio, 15);
    var head := "3" + Prefix(produto, 5) + Prefix(apolice, 10) + planoSlot + Prefix(cnpj, 15) + id + rest;
    var mock, sq := Mock(1198, ' '), Prefix(sequencial, 6);
    CollectionRecord(head, mock, sq);
    CollectionHead(Prefix(produto, 5), Prefix(apolice, 10), planoSlot, Prefix(cnpj, 15), id, rest);
    head + "A" + mock + sq + "\n"
  }

  /** Where the plan and the insurance id sit in a collection record's
      first 95 characters. */
  lemma CollectionHead(produto: string, apolice: string, planoSlot: string, cnpj: string, id: string,
                       rest: string)
    ensures var head := "3" + produto + apolice + planoSlot + cnpj + id + rest;
      |produto| == 5 && |apolice| == 10 && |planoSlot| == 10 && |cnpj| == 15 && |id| == 20 && |rest| == 34 ==>
        |head| == 95 && head[16..26] == planoSlot && head[41..61] == id
  {
    var head := "3" + produto + apolice + planoSlot + cnpj + id + rest;
    if |produto| == 5 && |apolice| == 10 && |planoSlot| == 10 && |cnpj| == 15 && |id| == 20 && |rest| == 34 {
      assert head[16..26] == planoSlot;
      assert head[41..61] == id;
    }
  }

  /** A collection record: its 95-character head, the 'A' marker, the
      filler, the sequence slot and the newline. */
  lemma CollectionRecord(head: string, mock: string, sq: string)
    requires |head| > 0
    ensures var r := head + "A" + mock + sq + "\n";
      r[0] == head[0] && EndsWith(r, "\n")
      && (|head| == 95 && |mock| == 1198 && |sq| == 6 ==>
            |r| == RECORD_WIDTH + 1 && r[..95] == head && r[95] == 'A' && r[96..SEQ_AT] == mock
            && r[SEQ_AT..RECORD_WIDTH] == sq && r[RECORD_WIDTH] == '\n')
  {
    var r := head + "A" + mock + sq + "\n";
    assert r[|r| - 1..] == "\n";
    if |head| == 95 && |mock| == 1198 && |sq| == 6 {
      assert r[96..SEQ_AT] == mock;
      assert r[SEQ_AT..RECORD_WIDTH] == sq;
    }
  }

  /** The free-text and numeric fields of an adhesion record. */
  datatype AdhesionFields = AdhesionFields(
    produto: string, apolice: string, plano: string, cnpj: string, identificacao: string,
    cpf: string, dataVenda: string, dataFimVigencia: string, nome: string, rua: string,
    numeroCasa: string, complemento: string, bairro: string, cidade: string, estado: string,
    cep: string, dddResidencial: string, telResidencial: string, dddComercial: string,
    telComercial: string, dtNascimento: string, sexo: string, estadoCivil: string,
    tpDoc: string, numDoc: string, orgExp: string, dtEmissaoDoc: string,
    valorSeguro: string, valorPremio: string, qtdParcela: string, numAdesao: string,
    valorLiquido: string, email: string, sequencial: string)

  /** The writer's conversion of a Brazilian decimal (`1.234,56`) to a dotted
      one (`1234.56`): thousands dots are dropped, then the comma becomes
      the decimal point. */
  function BrToDotDecimal(s: string): (r: string)
    ensures forall i :: 0 <= i < |r| ==> r[i] != ','
    ensures var t := RemoveChars(s, {'.'});
      |r| == |t| && forall i :: 0 <= i < |r| ==> (r[i] == '.' <==> t[i] == ',')
    ensures |r| <= |s|
  {
    ReplaceChar(RemoveChars(s, {'.'}), ',', '.')
  }

  predicate IdsFull(f: AdhesionFields) {
    |f.produto| >= 5 && |f.apolice| >= 10 && |f.cnpj| >= 15 && |f.identificacao| >= 20
    && |f.cpf| >= 15 && |f.dataVenda| >= 8 && |f.dataFimVigencia| >= 8
  }

  predicate AddressFull(f: AdhesionFields) {
    |f.nome| >= 50 && |f.rua| >= 50 && |f.numeroCasa| >= 20 && |f.complemento| >= 50
    && |f.bairro| >= 50 && |f.cidade| >= 60 && |f.estado| >= 2 && |f.cep| >= 8
  }

  predicate PersonFull(f: AdhesionFields) {
    |f.dddResidencial| >= 3 && |f.telResidencial| >= 9 && |f.dddComercial| >= 3
    && |f.telComercial| >= 9 && |f.dtNascimento| >= 8 && |f.sexo| >= 1 && |f.estadoCivil| >= 1
    && |f.tpDoc| >= 10 && |f.numDoc| >= 20 && |f.orgExp| >= 15 && |f.dtEmissaoDoc| >= 8
  }

  predicate ValuesFull(f: AdhesionFields) {
    |BrToDotDecimal(f.valorSeguro)| >= 15 && |BrToDotDecimal(f.valorPremio)| >= 15
    && |f.qtdParcela| >= 2 && |f.numAdesao| >= 20 && |f.dddComercial| >= 3 && |f.telComercial| >= 9
    && |BrToDotDecimal(f.valorLiquido)| >= 15
  }

  /** Every slot of an adhesion record is filled to its width. */
  predicate AdhesionFull(f: AdhesionFields) {
    IdsFull(f) && AddressFull(f) && PersonFull(f) && ValuesFull(f) && |f.email| >= 60 && |f.sequencial| >= 6
  }

  /** The identification block of an adhesion record: tag, product,
      policy, plan, company, insurance id, CPF and the four dates. */
  function AdhesionIds(f: AdhesionFields): (r: string)
    ensures |r| > 0 && r[0] == '1'
    ensures IdsFull(f) ==>
      |r| == 108 && r[61..76] == f.cpf[..15] && r[76..84] == f.dataVenda[..8]
  {
    var head := "1" + Prefix(f.produto, 5) + Prefix(f.apolice, 10) + Prefix(PadRight(f.plano, 10, ' '), 10)
      + Prefix(f.cnpj, 15) + Prefix(f.identificacao, 20);
    head + Prefix(f.cpf, 15) + Prefix(f.dataVenda, 8) + Prefix(f.dataVenda, 8)
      + Prefix(f.dataVenda, 8) + Prefix(f.dataFimVigencia, 8)
  }

  /** Name and address block. */
  function AdhesionAddress(f: AdhesionFields): (r: string)
    ensures AddressFull(f) ==> |r| == 290
  {
    Prefix(f.nome, 50) + Prefix(f.rua, 50) + Prefix(f.numeroCasa, 20) + Prefix(f.complemento, 50)
      + Prefix(f.bairro, 50) + Prefix(f.cidade, 60) + Prefix(f.estado, 2) + Prefix(f.cep, 8)
  }

  /** Phones, birth, sex, marital status and identity document block. */
  function AdhesionPerson(f: AdhesionFields): (r: string)
    ensures PersonFull(f) ==> |r| == 87
  {
    Prefix(f.dddResidencial, 3) + Prefix(f.telResidencial, 9) + Prefix(f.dddComercial, 3)
      + Prefix(f.telComercial, 9) + Prefix(f.dtNascimento, 8) + Prefix(f.sexo, 1) + Prefix(f.estadoCivil, 1)
      + Prefix(f.tpDoc, 10) + Prefix(f.numDoc, 20) + Prefix(f.orgExp, 15) + Prefix(f.dtEmissaoDoc, 8)
  }

  /** Values block; the commercial phone is written a second time here. */
  function AdhesionValues(f: AdhesionFields): (r: string)
    ensures ValuesFull(f) ==> |r| == 289
  {
    Prefix(BrToDotDecimal(f.valorSeguro), 15) + Prefix(BrToDotDecimal(f.valorPremio), 15)
      + Prefix(f.qtdParcela, 2) + Mock(20, ' ') + Prefix(f.numAdesao, 20) + Mock(145, ' ')
      + Prefix(f.dddComercial, 3) + Prefix(f.telComercial, 9) + Mock(45, ' ')
      + Prefix(BrToDotDecimal(f.valorLiquido), 15)
  }

  lemma RecordLayout(ids: string, rest: string, sq: string)
    requires |ids| == 108 && |rest| == 1186 && |sq| == 6
    ensures var r := ids + rest + sq + "\n";
      |r| == RECORD_WIDTH + 1 && r[..108] == ids && r[SEQ_AT..RECORD_WIDTH] == sq && r[RECORD_WIDTH] == '\n'
  {
    var r := ids + rest + sq + "\n";
    assert r[SEQ_AT..RECORD_WIDTH] == sq;
  }

  /** `write_adesao`: an adhesion record. */
  function Adhesion(f: AdhesionFields): (r: string)
    ensures |r| > 0 && r[0] == '1' && EndsWith(r, "\n")
    ensures AdhesionFull(f) ==>
      FullRecord(r, '1', f.sequencial[..6]) && r[76..84] == f.dataVenda[..8] && r[61..76] == f.cpf[..15]
  {
    AdhesionLayout(f);
    AdhesionIds(f) + AdhesionRest(f) + Prefix(f.sequencial, 6) + "\n"
  }

  function AdhesionRest(f: AdhesionFields): (r: string)
    ensures AddressFull(f) && PersonFull(f) && ValuesFull(f) && |f.email| >= 60 ==> |r| == 1186
  {
    AdhesionAddress(f) + AdhesionPerson(f) + AdhesionValues(f) + Mock(350, ' ') + Prefix(f.email, 60) + Mock(110, ' ')
  }

  lemma AdhesionLayout(f: AdhesionFields)
    ensures var r := AdhesionIds(f) + AdhesionRest(f) + Prefix(f.sequencial, 6) + "\n";
      |r| > 0 && r[0] == '1' && EndsWith(r, "\n")
      && (AdhesionFull(f) ==>
            FullRecord(r, '1', f.sequencial[..6]) && r[76..84] == f.dataVenda[..8] && r[61..76] == f.cpf[..15])
  {
    var ids := AdhesionIds(f);
    var rest := AdhesionRest(f);
    var sq := Prefix(f.sequencial, 6);
    RecordEnds(ids, rest, sq);
    if AdhesionFull(f) {
      FullAdhesionLayout(f, ids, rest, sq);
    }
  }

  /** A record starts with its block's tag and ends with a newline. */
  lemma RecordEnds(ids: string, rest: string, sq: string)
    requires |ids| > 0
    ensures var r := ids + rest + sq + "\n"; |r| > 0 && r[0] == ids[0] && EndsWith(r, "\n")
  {
    var r := ids + rest + sq + "\n";
    assert r[|r| - 1..] == "\n";
  }

  lemma FullAdhesionLayout(f: AdhesionFields, ids: string, rest: string, sq: string)
    requires ids == AdhesionIds(f) && rest == AdhesionRest(f) && sq == Prefix(f.sequencial, 6)
    requires AdhesionFull(f)
    ensures var r := ids + rest + sq + "\n";
      FullRecord(r, '1', f.sequencial[..6]) && r[76..84] == f.dataVenda[..8] && r[61..76] == f.cpf[..15]
  {
    assert sq == f.sequencial[..6];
    IdsRecordLayout(ids, rest, sq, f.cpf[..15], f.dataVenda[..8]);
  }

  /** A full record whose identification block carries the CPF and sale
      date keeps them at the same columns. */
  lemma IdsRecordLayout(ids: string, rest: string, sq: string, cpf: string, date: string)
    requires |ids| == 108 && |rest| == 1186 && |sq| == 6 && |ids| > 0 && ids[0] == '1'
    requires ids[61..76] == cpf && ids[76..84] == date
    ensures var r := ids + rest + sq + "\n";
      FullRecord(r, '1', sq) && r[76..84] == date && r[61..76] == cpf
  {
    var r := ids + rest + sq + "\n";
    RecordLayout(ids, rest, sq);
    assert r[76..84] == ids[76..84];
    assert r[61..76] == ids[61..76];
  }

  /** `write_trailer`: the count of records, zero-filled to six, then 1287
      spaces and the sequence. */
  function Trailer(count: string, sequencial: string): (r: string)
    ensures |r| > 0 && r[0] == '9' && EndsWith(r, "\n")
    ensures |count| <= 6 && |sequencial| == 6 ==>
      FullRecord(r, '9', sequencial) && EndsWith(r[1..7], count)
      && (forall i :: 1 <= i < 7 - |count| ==> r[i] == '0') && AllSpaces(r[7..SEQ_AT])
  {
    var p := PadLeft(count, 6, '0');
    var m := Mock(1287, ' ');
    TrailerShape(count, p, m, sequencial);
    "9" + p + m + sequencial + "\n"
  }

  /** The trailer's slots sit at fixed columns once the count fits six. */
  lemma TrailerShape(count: string, p: string, m: string, sequencial: string)
    requires |p| == (if |count| >= 6 then |count| else 6) && EndsWith(p, count)
    requires forall i :: 0 <= i < |p| - |count| ==> p[i] == '0'
    requires |m| == 1287 && AllSpaces(m)
    ensures var r := "9" + p + m + sequencial + "\n";
      |r| > 0 && r[0] == '9' && EndsWith(r, "\n")
      && (|count| <= 6 && |sequencial| == 6 ==>
            FullRecord(r, '9', sequencial) && EndsWith(r[1..7], count)
            && (forall i :: 1 <= i < 7 - |count| ==> r[i] == '0') && AllSpaces(r[7..SEQ_AT]))
  {
    var r := "9" + p + m + sequencial + "\n";
    assert r[|r| - 1..] == "\n";
    if |count| <= 6 && |sequencial| == 6 {
      assert r[1..7] == p;
      assert r[7..SEQ_AT] == m;
      assert r[SEQ_AT..RECORD_WIDTH] == sequencial;
    }
  }

  /** The trailer written by the file builder carries the record count as
      six digits that read back as the count. */
  lemma TrailerCount(n: nat, sequencial: string)
    requires n < 1000000 && |sequencial| == 6
    ensures var r := Trailer(ZeroPad(n, 6), sequencial);
      FullRecord(r, '9', sequencial) && AllDigits(r[1..7]) && ParseNat(r[1..7]) == n
  {
    assert Pow10(6) == 1000000;
    var z := ZeroPad(n, 6);
    var r := Trailer(z, sequencial);
    assert r[1..7] == z;
  }

  // ---------------------------------------------------------------------
  // Reading the file back

  predicate HeaderOrTrailer(line: string) {
    StartsWith(line, "0") || StartsWith(line, "9")
  }

  /** `count_reg`: the lines that are neither header nor trailer. */
  function CountReg(lines: seq<string>): (r: nat)
    ensures r <= |lines|
    ensures r == 0 <==> forall i :: 0 <= i < |lines| ==> HeaderOrTrailer(lines[i])
    ensures r == |lines| <==> forall i :: 0 <= i < |lines| ==> !HeaderOrTrailer(lines[i])
  {
    if |lines| == 0 then 0
    else
      var rest := CountReg(lines[1..]);
      assert forall i :: 1 <= i < |lines| ==> lines[i] == lines[1..][i - 1];
      (if HeaderOrTrailer(lines[0]) then 0 else 1) + rest
  }

  /** Counting distributes over concatenation, so appending a record adds
      one exactly when it is not a header or trailer. */
  lemma {:induction false} CountRegAppend(a: seq<string>, b: seq<string>)
    ensures CountReg(a + b) == CountReg(a) + CountReg(b)
  {
    if |a| > 0 {
      assert (a + b)[1..] == a[1..] + b;
      CountRegAppend(a[1..], b);
    } else {
      assert a + b == b;
    }
  }

  /** `check_data_in_range`: what reading a slice of the last line gives. */
  datatype RangeRead =
    | NoLines                          // `(False, False)` for an empty file
    | Read(data: string, first: char)  // the slice and the line's first character
    | Swallowed                        // an exception was caught; the call returns None

  function CheckDataInRange(startIndex: int, endIndex: int, lines: seq<string>): (r: RangeRead)
    ensures r.NoLines? <==> |lines| == 0
    ensures r.Swallowed? <==> |lines| > 0 && |lines[|lines| - 1]| == 0
    ensures r.Read? ==> r.first == lines[|lines| - 1][0]
    ensures r.Read? && 1 <= startIndex <= endIndex <= |lines[|lines| - 1]| ==>
      r.data == lines[|lines| - 1][startIndex - 1..endIndex]
  {
    if |lines| == 0 then NoLines
    else
      var last := lines[|lines| - 1];
      if |last| == 0 then Swallowed
      else Read(Slice(last, startIndex - 1, endIndex), last[0])
  }

  /** The file builder's use of `check_data_in_range(1295, 1300)`: read the
      last record's sequence and add one; keep `current` when the file is
      empty or the slice is empty. `current` is `None` at the first call
      site, where the variable is not yet bound: keeping it there raises
      `UnboundLocalError` when the record is written. Unpacking the `None`
      of a swallowed exception, or `int` of a slot that is not a number,
      raises too. */
  function NextSequence(lines: seq<string>, current: Option<string>): (r: Result<string>)
    ensures |lines| == 0 ==> (r.Ok? <==> current.Some?)
    ensures |lines| == 0 && current.Some? ==> r == Ok(current.value)
    ensures r.Ok? && current.None? ==>
      CheckDataInRange(1295, 1300, lines).Read? && ParseInt(CheckDataInRange(1295, 1300, lines).data).Some?
  {
    match CheckDataInRange(1295, 1300, lines)
    case NoLines => Keep(current)
    case Swallowed => Err("TypeError: cannot unpack non-iterable NoneType object")
    case Read(data, _) =>
      if |data| == 0 then Keep(current)
      else
        match ParseInt(data)
        case None => Err("ValueError: invalid literal for int()")
        case Some(n) => Ok(PadLeft(IntToString(n + 1), 6, '0'))
  }

  function Keep(current: Option<string>): (r: Result<string>)
    ensures r.Ok? <==> current.Some?
    ensures r.Ok? ==> r.value == current.value
  {
    if current.Some? then Ok(current.value)
    else Err("UnboundLocalError: sequencial_do_registro referenced before assignment")
  }

  /** After a full record carrying sequence `k`, the next record gets `k+1`. */
  lemma NextSequenceAfterRecord(lines: seq<string>, tag: char, k: nat, current: Option<string>)
    requires k + 1 < 1000000
    requires |lines| > 0 && FullRecord(lines[|lines| - 1], tag, ZeroPad(k, 6))
    ensures NextSequence(lines, current) == Ok(ZeroPad(k + 1, 6))
  {
    var z := ZeroPad(k, 6);
    SlotParses(k);
    ReadSequenceSlot(lines, z);
    NextSequenceOfRead(lines, current, z, k);
  }

  /** At the first call site a last line too short to reach column 1295
      leaves the sequence unbound, and the record cannot be written. */
  lemma {:induction false} NextSequenceUnboundOnShortLine(lines: seq<string>)
    requires |lines| > 0 && 0 < |lines[|lines| - 1]| < 1295
    ensures NextSequence(lines, None).Err?
  {
    var last := lines[|lines| - 1];
    assert CheckDataInRange(1295, 1300, lines) == Read(Slice(last, 1294, 1300), last[0]);
    assert Slice(last, 1294, 1300) == "";
  }

  /** A sequence below a million fills its six-digit slot and reads back. */
  lemma SlotParses(k: nat)
    requires k < 1000000
    ensures |ZeroPad(k, 6)| == 6 && ParseInt(ZeroPad(k, 6)) == Some(k)
  {
    assert Pow10(6) == 1000000;
  }

  /** A slot that reads as the number `n` gives `n + 1`, zero-filled. */
  lemma NextSequenceOfRead(lines: seq<string>, current: Option<string>, z: string, n: nat)
    requires CheckDataInRange(1295, 1300, lines).Read? && CheckDataInRange(1295, 1300, lines).data == z
    requires |z| > 0 && ParseInt(z) == Some(n)
    ensures NextSequence(lines, current) == Ok(ZeroPad(n + 1, 6))
  {
    assert IntToString(n + 1) == NatToString(n + 1);
  }

  /** Reading `[1295, 1300]` of a full last record gives its sequence slot. */
  lemma ReadSequenceSlot(lines: seq<string>, z: string)
    requires |lines| > 0 && |lines[|lines| - 1]| == RECORD_WIDTH + 1
    requires lines[|lines| - 1][SEQ_AT..RECORD_WIDTH] == z
    ensures CheckDataInRange(1295, 1300, lines) == Read(z, lines[|lines| - 1][0])
  {
  }

  // ---------------------------------------------------------------------
  // Renumbering

  /** The sort key of `ajustar_posicoes`: `int` of the first character and
      `int` of the last five. The last five characters of a record are the
      final four digits of its sequence and the newline, so the key reads
      the sequence modulo 10000. `None` where `int` raises (on the first
      character, exactly when it is not a digit: `ParseIntOneChar`). */
  function LineKey(line: string): Option<(int, int)> {
    if |line| == 0 || !IsDigit(line[0]) then None
    else
      match ParseInt(Slice(line, -5, |line|))
      case Some(b) => Some((DigitValue(line[0]), b))
      case None => None
  }

  /** `int` of a one-character string succeeds exactly on a digit, with
      that digit's value. */
  lemma ParseIntOneChar(c: char)
    ensures ParseInt([c]).Some? <==> IsDigit(c)
    ensures IsDigit(c) ==> ParseInt([c]) == Some(DigitValue(c))
  {
    if IsDigit(c) {
      StripDigits([c]);
      assert [c][..|[c]| - 1] == [];
      assert ParseNat([c]) == DigitValue(c);
    } else if c !in WHITESPACE {
      assert Strip([c]) == [c];
    } else {
      assert Strip([c]) == Strip([c][1..]);
    }
  }

  lemma StripNewline(x: string)
    requires |x| > 0 && AllDigits(x)
    ensures Strip(x + "\n") == x
  {
    assert (x + "\n")[..|x|] == x;
    StripDigits(x);
  }

  /** The key of a full record with a six-digit slot `d0 d1 d2 d3 d4 d5`
      is its tag and the number `d2 d3 d4 d5`. */
  lemma KeyOfFullRecord(r: string, tag: char, sequencial: string)
    requires FullRecord(r, tag, sequencial) && IsDigit(tag) && |sequencial| == 6 && AllDigits(sequencial)
    ensures LineKey(r) == Some((DigitValue(tag), ParseNat(sequencial[2..])))
  {
    assert Slice(r, -5, |r|) == sequencial[2..] + "\n";
    StripNewline(sequencial[2..]);
    assert ParseInt(sequencial[2..] + "\n") == Some(ParseNat(sequencial[2..]));
  }

  /** Sequences 9999 and 10000 in records of one type get keys 9999 and 0:
      the five-character key puts the later record first. */
  lemma KeyWrapsAtTenThousand(r1: string, r2: string)
    requires FullRecord(r1, '1', "009999") && FullRecord(r2, '1', "010000")
    ensures LineKey(r1) == Some((1, 9999)) && LineKey(r2) == Some((1, 0))
  {
    KeyOfFullRecord(r1, '1', "009999");
    KeyOfFullRecord(r2, '1', "010000");
    assert "009999"[2..] == "9999" && "010000"[2..] == "0000";
    ParseNatSmall();
  }

  lemma ParseNatSmall()
    ensures ParseNat("9999") == 9999 && ParseNat("0000") == 0
  {
    assert "9999"[..3] == "999" && "999"[..2] == "99" && "99"[..1] == "9" && "9"[..0] == "";
    assert "0000"[..3] == "000" && "000"[..2] == "00" && "00"[..1] == "0" && "0"[..0] == "";
  }

  predicate KeyLe(a: (int, int), b: (int, int)) {
    a.0 < b.0 || (a.0 == b.0 && a.1 <= b.1)
  }

  predicate Keyed(lines: seq<string>) {
    forall i :: 0 <= i < |lines| ==> LineKey(lines[i]).Some?
  }

  predicate SortedByKey(lines: seq<string>)
    requires Keyed(lines)
  {
    forall i, j :: 0 <= i < j < |lines| ==> KeyLe(LineKey(lines[i]).value, LineKey(lines[j]).value)
  }

  /** A line with its key computed once, as `sorted` does. */
  datatype KeyedLine = KeyedLine(key: (int, int), line: string)

  predicate SortedKeys(s: seq<KeyedLine>) {
    forall i, j :: 0 <= i < j < |s| ==> KeyLe(s[i].key, s[j].key)
  }

  predicate WellKeyed(s: seq<KeyedLine>) {
    forall i :: 0 <= i < |s| ==> LineKey(s[i].line) == Some(s[i].key)
  }

  function LinesOf(s: seq<KeyedLine>): (r: seq<string>)
    ensures |r| == |s|
  {
    if |s| == 0 then [] else [s[0].line] + LinesOf(s[1..])
  }

  lemma {:induction false} LinesOfAt(s: seq<KeyedLine>)
    ensures forall i :: 0 <= i < |s| ==> LinesOf(s)[i] == s[i].line
  {
    if |s| > 0 {
      LinesOfAt(s[1..]);
    }
  }

  /** Inserts `x` before the first line whose key is not smaller, which keeps
      equal keys in their original order. */
  function InsertKeyed(x: KeyedLine, s: seq<KeyedLine>): (r: seq<KeyedLine>)
    requires SortedKeys(s)
    ensures |r| == |s| + 1 && multiset(r) == multiset(s) + multiset{x}
    ensures SortedKeys(r)
  {
    if |s| == 0 then [x]
    else if KeyLe(x.key, s[0].key) then
      InsertFront(x, s);
      [x] + s
    else
      var rest := InsertKeyed(x, s[1..]);
      InsertLater(x, s, rest);
      [s[0]] + rest
  }

  lemma InsertFront(x: KeyedLine, s: seq<KeyedLine>)
    requires SortedKeys(s) && |s| > 0 && KeyLe(x.key, s[0].key)
    ensures SortedKeys([x] + s)
  {
    assert forall j :: 0 < j < |s| ==> KeyLe(s[0].key, s[j].key);
    SortedCons(x, s);
  }

  lemma InsertLater(x: KeyedLine, s: seq<KeyedLine>, rest: seq<KeyedLine>)
    requires SortedKeys(s) && |s| > 0 && !KeyLe(x.key, s[0].key)
    requires SortedKeys(rest) && multiset(rest) == multiset(s[1..]) + multiset{x}
    ensures SortedKeys([s[0]] + rest)
    ensures multiset([s[0]] + rest) == multiset(s) + multiset{x}
  {
    assert s == [s[0]] + s[1..];
    HeadBelowInserted(x, s, rest);
    SortedCons(s[0], rest);
  }

  /** Inserting a keyed line adds its line to the lines. */
  lemma {:induction false} InsertKeyedLines(x: KeyedLine, s: seq<KeyedLine>)
    requires SortedKeys(s)
    ensures multiset(LinesOf(InsertKeyed(x, s))) == multiset(LinesOf(s)) + multiset{x.line}
  {
    if |s| == 0 {
      assert InsertKeyed(x, s) == [x];
    } else if KeyLe(x.key, s[0].key) {
      var r := [x] + s;
      assert InsertKeyed(x, s) == r;
      assert r[1..] == s;
      assert LinesOf(r) == [x.line] + LinesOf(s);
    } else {
      var rest := InsertKeyed(x, s[1..]);
      InsertKeyedLines(x, s[1..]);
      var r := [s[0]] + rest;
      assert InsertKeyed(x, s) == r;
      assert r[1..] == rest;
      assert LinesOf(r) == [s[0].line] + LinesOf(rest);
      assert LinesOf(s) == [s[0].line] + LinesOf(s[1..]);
    }
  }

  lemma HeadBelowInserted(x: KeyedLine, s: seq<KeyedLine>, rest: seq<KeyedLine>)
    requires |s| > 0 && SortedKeys(s) && !KeyLe(x.key, s[0].key)
    requires multiset(rest) == multiset(s[1..]) + multiset{x}
    ensures forall j :: 0 <= j < |rest| ==> KeyLe(s[0].key, rest[j].key)
  {
    forall j | 0 <= j < |rest|
      ensures KeyLe(s[0].key, rest[j].key)
    {
      assert rest[j] in multiset(s[1..]) + multiset{x};
      if rest[j] != x {
        assert rest[j] in s[1..];
        var k :| 0 <= k < |s[1..]| && s[1..][k] == rest[j];
        assert s[k + 1] == rest[j];
      }
    }
  }

  lemma SortedCons(h: KeyedLine, rest: seq<KeyedLine>)
    requires SortedKeys(rest) && forall j :: 0 <= j < |rest| ==> KeyLe(h.key, rest[j].key)
    ensures SortedKeys([h] + rest)
  {
    var r := [h] + rest;
    forall i, j | 0 <= i < j < |r|
      ensures KeyLe(r[i].key, r[j].key)
    {
      if i > 0 {
        assert r[i] == rest[i - 1] && r[j] == rest[j - 1];
      } else {
        assert r[j] == rest[j - 1];
      }
    }
  }

  function SortKeyed(s: seq<KeyedLine>): (r: seq<KeyedLine>)
    ensures |r| == |s| && multiset(r) == multiset(s)
    ensures SortedKeys(r)
  {
    if |s| == 0 then []
    else
      assert s == [s[0]] + s[1..];
      InsertKeyed(s[0], SortKeyed(s[1..]))
  }

  /** Sorting the keyed lines permutes the lines. */
  lemma {:induction false} SortKeyedLines(s: seq<KeyedLine>)
    ensures multiset(LinesOf(SortKeyed(s))) == multiset(LinesOf(s))
  {
    if |s| > 0 {
      SortKeyedLines(s[1..]);
      InsertKeyedLines(s[0], SortKeyed(s[1..]));
      assert LinesOf(s) == [s[0].line] + LinesOf(s[1..]);
    }
  }

  function Pairs(lines: seq<string>): (r: seq<KeyedLine>)
    requires Keyed(lines)
    ensures LinesOf(r) == lines && WellKeyed(r)
  {
    if |lines| == 0 then []
    else
      var h := KeyedLine(LineKey(lines[0]).value, lines[0]);
      var rest := Pairs(lines[1..]);
      KeyedCons(h, rest);
      assert lines == [lines[0]] + lines[1..];
      [h] + rest
  }

  lemma KeyedCons(h: KeyedLine, rest: seq<KeyedLine>)
    requires LineKey(h.line) == Some(h.key) && WellKeyed(rest)
    ensures WellKeyed([h] + rest) && LinesOf([h] + rest) == [h.line] + LinesOf(rest)
  {
    var r := [h] + rest;
    assert r[1..] == rest;
    forall i | 0 <= i < |r| ensures LineKey(r[i].line) == Some(r[i].key) {
      if i > 0 {
        assert r[i] == rest[i - 1];
      }
    }
  }

  lemma WellKeyedPermutation(s: seq<KeyedLine>, t: seq<KeyedLine>)
    requires WellKeyed(s) && multiset(t) == multiset(s)
    ensures WellKeyed(t)
  {
    forall i | 0 <= i < |t|
      ensures LineKey(t[i].line) == Some(t[i].key)
    {
      assert t[i] in multiset(s);
      var k :| 0 <= k < |s| && s[k] == t[i];
    }
  }

  /** The stable sort `sorted(..., key=...)` of `ajustar_posicoes`. */
  function SortLines(lines: seq<string>): (r: seq<string>)
    requires Keyed(lines)
    ensures |r| == |lines| && multiset(r) == multiset(lines)
    ensures Keyed(r) && SortedByKey(r)
  {
    var p := Pairs(lines);
    var sp := SortKeyed(p);
    WellKeyedPermutation(p, sp);
    SortKeyedLines(p);
    LinesOfAt(sp);
    LinesOf(sp)
  }

  lemma Pow10Six()
    ensures Pow10(6) == 1000000
  {
    assert Pow10(1) == 10;
    assert Pow10(3) == 1000;
    assert Pow10(5) == 100000;
  }

  /** Line `line` with its sequence slot overwritten by `n`, as
      `linha[:1294] + novo + linha[1300:]`. A line too short to have a slot
      gets the number appended (and loses nothing but gains six digits). */
  function Renumber(line: string, n: nat): (r: string)
    ensures (|line| >= RECORD_WIDTH && n < 1000000) ==>
      (|r| == |line| && r[..SEQ_AT] == line[..SEQ_AT] && r[SEQ_AT..RECORD_WIDTH] == ZeroPad(n, 6)
       && r[RECORD_WIDTH..] == line[RECORD_WIDTH..])
    ensures |line| <= SEQ_AT ==> r == line + ZeroPad(n, 6)
  {
    RenumberLayout(line, n);
    Prefix(line, SEQ_AT) + ZeroPad(n, 6) + Suffix(line, RECORD_WIDTH)
  }

  lemma RenumberLayout(line: string, n: nat)
    ensures var r := Prefix(line, SEQ_AT) + ZeroPad(n, 6) + Suffix(line, RECORD_WIDTH);
      (|line| >= RECORD_WIDTH && n < 1000000) ==>
        (|r| == |line| && r[..SEQ_AT] == line[..SEQ_AT] && r[SEQ_AT..RECORD_WIDTH] == ZeroPad(n, 6)
         && r[RECORD_WIDTH..] == line[RECORD_WIDTH..])
    ensures |line| <= SEQ_AT ==> Prefix(line, SEQ_AT) + ZeroPad(n, 6) + Suffix(line, RECORD_WIDTH) == line + ZeroPad(n, 6)
  {
    var a := Prefix(line, SEQ_AT);
    var z := ZeroPad(n, 6);
    var b := Suffix(line, RECORD_WIDTH);
    if |line| >= RECORD_WIDTH && n < 1000000 {
      Pow10Six();
      assert |z| == 6 && a == line[..SEQ_AT] && b == line[RECORD_WIDTH..];
      var r := a + z + b;
      assert r[..SEQ_AT] == a;
      assert r[SEQ_AT..RECORD_WIDTH] == z;
      assert r[RECORD_WIDTH..] == b;
    }
    if |line| <= SEQ_AT {
      assert a == line && b == [];
    }
  }

  /** `out` is `s` with slot `i` holding the number `i + 1`, for every full
      record of `s`. */
  predicate IsRenumberingOf(out: seq<string>, s: seq<string>) {
    |out| == |s|
    && forall i :: 0 <= i < |s| && |s[i]| >= RECORD_WIDTH && i + 1 < 1000000 ==>
      (|out[i]| == |s[i]| && out[i][..SEQ_AT] == s[i][..SEQ_AT]
       && out[i][SEQ_AT..RECORD_WIDTH] == ZeroPad(i + 1, 6) && out[i][RECORD_WIDTH..] == s[i][RECORD_WIDTH..])
  }

  function RenumberAll(s: seq<string>): (r: seq<string>)
    ensures IsRenumberingOf(r, s)
  {
    var out := seq(|s|, i requires 0 <= i < |s| => Renumber(s[i], i + 1));
    assert forall i :: 0 <= i < |s| ==> out[i] == Renumber(s[i], i + 1);
    out
  }

  /** `ajustar_posicoes`: sorts the lines by key and writes `1, 2, ...` into
      the slot of each line in the sorted order. A line whose key cannot be
      read makes `int` raise. */
  function AjustarPosicoes(lines: seq<string>): (r: Result<seq<string>>)
    ensures r.Ok? <==> Keyed(lines)
    ensures r.Ok? ==> |r.value| == |lines| && IsRenumberingOf(r.value, SortLines(lines))
  {
    if !Keyed(lines) then Err("ValueError: invalid literal for int()")
    else Ok(RenumberAll(SortLines(lines)))
  }

  /** On a file of full records, renumbering yields full records again:
      the `i`-th output line is an input record (the `i`-th in key order)
      with its tag and newline kept and `i + 1` in its slot. */
  lemma AjustarPosicoesKeepsRecords(lines: seq<string>, i: nat)
    requires Keyed(lines) && i < |lines| && i + 1 < 1000000
    requires forall k :: 0 <= k < |lines| ==> |lines[k]| == RECORD_WIDTH + 1 && lines[k][RECORD_WIDTH] == '\n'
    ensures SortLines(lines)[i] in lines
    ensures var out := AjustarPosicoes(lines).value; var s := SortLines(lines);
      FullRecord(out[i], s[i][0], ZeroPad(i + 1, 6)) && out[i][..SEQ_AT] == s[i][..SEQ_AT]
  {
    var s := SortLines(lines);
    assert s[i] in multiset(lines);
    RenumberedFullRecord(s, AjustarPosicoes(lines).value, i);
  }

  lemma RenumberedFullRecord(s: seq<string>, out: seq<string>, i: nat)
    requires IsRenumberingOf(out, s) && i < |s| && i + 1 < 1000000
    requires |s[i]| == RECORD_WIDTH + 1 && s[i][RECORD_WIDTH] == '\n'
    ensures FullRecord(out[i], s[i][0], ZeroPad(i + 1, 6)) && out[i][..SEQ_AT] == s[i][..SEQ_AT]
  {
    assert |out[i]| == |s[i]| && out[i][..SEQ_AT] == s[i][..SEQ_AT]
      && out[i][SEQ_AT..RECORD_WIDTH] == ZeroPad(i + 1, 6) && out[i][RECORD_WIDTH..] == s[i][RECORD_WIDTH..];
    assert s[i][0] == s[i][..SEQ_AT][0];
    assert s[i][RECORD_WIDTH] == s[i][RECORD_WIDTH..][0];
    assert out[i][0] == out[i][..SEQ_AT][0];
    assert out[i][RECORD_WIDTH] == out[i][RECORD_WIDTH..][0];
  }

  // ---------------------------------------------------------------------
  // Removing the trailer

  /** `remove_first_line_starting_with` as written: it deletes from the list
      it is enumerating, so after a deletion the next line is skipped. */
  function RemoveWhileEnumerating(t: string, ls: seq<string>, i: nat): (r: seq<string>)
    decreases |ls| - i
  {
    if i >= |ls| then ls
    else if StartsWith(ls[i], t) then RemoveWhileEnumerating(t, ls[..i] + ls[i + 1..], i + 1)
    else RemoveWhileEnumerating(t, ls, i + 1)
  }

  function RemoveFirstLineAsWritten(t: string, lines: seq<string>): (r: seq<string>)
    ensures r == RemoveAlternating(t, lines, false)
    ensures |r| <= |lines|
  {
    RemoveWhileEnumeratingIsAlternating(t, lines, 0);
    assert lines[..0] + RemoveAlternating(t, lines[0..], false) == RemoveAlternating(t, lines, false);
    RemoveWhileEnumerating(t, lines, 0)
  }

  /** A reference definition of the loop: a matching line is deleted unless
      the line just before it was deleted. */
  function RemoveAlternating(t: string, lines: seq<string>, prevDeleted: bool): (r: seq<string>)
    ensures |r| <= |lines|
  {
    if |lines| == 0 then []
    else if StartsWith(lines[0], t) && !prevDeleted then RemoveAlternating(t, lines[1..], true)
    else [lines[0]] + RemoveAlternating(t, lines[1..], false)
  }

  lemma {:induction false} RemoveWhileEnumeratingIsAlternating(t: string, ls: seq<string>, i: nat)
    requires i <= |ls|
    ensures RemoveWhileEnumerating(t, ls, i) == ls[..i] + RemoveAlternating(t, ls[i..], false)
    decreases |ls| - i
  {
    if i == |ls| {
      assert ls[..i] == ls;
    } else if StartsWith(ls[i], t) {
      var ls' := ls[..i] + ls[i + 1..];
      assert ls[i..][1..] == ls[i + 1..];
      if i + 1 <= |ls'| {
        RemoveWhileEnumeratingIsAlternating(t, ls', i + 1);
        assert ls'[..i + 1] == ls[..i] + [ls[i + 1]];
        assert ls'[i + 1..] == ls[i + 2..];
        assert ls[i + 1..][1..] == ls[i + 2..];
      } else {
        assert ls' == ls[..i];
        assert ls[i + 1..] == [];
      }
    } else {
      RemoveWhileEnumeratingIsAlternating(t, ls, i + 1);
      assert ls[..i + 1] == ls[..i] + [ls[i]];
      assert ls[i..][1..] == ls[i + 1..];
    }
  }

  /** The position of the first line starting with `t`. */
  function FirstMatch(t: string, lines: seq<string>): (r: Option<nat>)
    ensures r.Some? ==> (r.value < |lines| && StartsWith(lines[r.value], t)
                         && forall j :: 0 <= j < r.value ==> !StartsWith(lines[j], t))
    ensures r.None? ==> forall j :: 0 <= j < |lines| ==> !StartsWith(lines[j], t)
  {
    if |lines| == 0 then None
    else if StartsWith(lines[0], t) then Some(0)
    else
      match FirstMatch(t, lines[1..])
      case None => None
      case Some(k) => Some(k + 1)
  }

  /** The corrected operation: only the first matching line goes. */
  function RemoveFirstLineStartingWith(t: string, lines: seq<string>): (r: seq<string>)
    ensures FirstMatch(t, lines).None? ==> r == lines
    ensures FirstMatch(t, lines).Some? ==>
      var k := FirstMatch(t, lines).value; r == lines[..k] + lines[k + 1..]
  {
    if |lines| == 0 then []
    else if StartsWith(lines[0], t) then lines[1..]
    else
      var rest := RemoveFirstLineStartingWith(t, lines[1..]);
      FirstMatchBehindHead(t, lines);
      match FirstMatch(t, lines[1..])
      case Some(k) =>
        DeleteBehindHead(lines, k);
        [lines[0]] + rest
      case None =>
        [lines[0]] + rest
  }

  /** Behind a head that does not match, the first match moves one place. */
  lemma FirstMatchBehindHead(t: string, lines: seq<string>)
    requires |lines| > 0 && !StartsWith(lines[0], t)
    ensures FirstMatch(t, lines[1..]).None? ==> FirstMatch(t, lines) == None
    ensures FirstMatch(t, lines[1..]).Some? ==> FirstMatch(t, lines) == Some(FirstMatch(t, lines[1..]).value + 1)
  {
  }

  /** Deleting position `k + 1` keeps the head and deletes `k` from the
      tail. */
  lemma DeleteBehindHead<T>(xs: seq<T>, k: nat)
    requires k + 1 < |xs|
    ensures xs[..k + 1] + xs[k + 2..] == [xs[0]] + (xs[1..][..k] + xs[1..][k + 1..])
  {
    assert xs[..k + 1] == [xs[0]] + xs[1..][..k];
    assert xs[k + 2..] == xs[1..][k + 1..];
  }

  /** The two agree when at most one line matches, as when the only line
      starting with '9' is the trailer. */
  lemma {:induction false} RemoveAgreesOnSingleMatch(t: string, lines: seq<string>, prevDeleted: bool)
    requires forall i, j :: 0 <= i < j < |lines| && StartsWith(lines[i], t) ==> !StartsWith(lines[j], t)
    requires !prevDeleted
    ensures RemoveAlternating(t, lines, prevDeleted) == RemoveFirstLineStartingWith(t, lines)
  {
    if |lines| > 0 {
      if StartsWith(lines[0], t) {
        NoMatchKept(t, lines[1..]);
      } else {
        RemoveAgreesOnSingleMatch(t, lines[1..], false);
      }
    }
  }

  lemma {:induction false} NoMatchKept(t: string, lines: seq<string>)
    requires forall i :: 0 <= i < |lines| ==> !StartsWith(lines[i], t)
    ensures RemoveAlternating(t, lines, true) == lines
  {
    if |lines| > 0 {
      NoMatchKept(t, lines[1..]);
      NoMatchKeptFalse(t, lines[1..]);
    }
  }

  lemma {:induction false} NoMatchKeptFalse(t: string, lines: seq<string>)
    requires forall i :: 0 <= i < |lines| ==> !StartsWith(lines[i], t)
    ensures RemoveAlternating(t, lines, false) == lines
  {
    if |lines| > 0 {
      NoMatchKeptFalse(t, lines[1..]);
    }
  }

  /** With two trailers that are not adjacent, the loop as written deletes
      both, where only the first should go. */
  lemma RemoveAsWrittenDropsSecondMatch()
    ensures RemoveFirstLineAsWritten("9", ["9a\n", "x\n", "9b\n"]) == ["x\n"]
  {
    var ls := ["9a\n", "x\n", "9b\n"];
    RemoveWhileEnumeratingIsAlternating("9", ls, 0);
    TwoTrailers(ls);
    assert ls[..0] == [] && ls[0..] == ls;
  }

  /** The corrected operation keeps the second trailer. */
  lemma RemoveFirstKeepsSecondMatch()
    ensures RemoveFirstLineStartingWith("9", ["9a\n", "x\n", "9b\n"]) == ["x\n", "9b\n"]
  {
    var ls := ["9a\n", "x\n", "9b\n"];
    TwoTrailers(ls);
    assert FirstMatch("9", ls) == Some(0);
  }

  lemma TwoTrailers(ls: seq<string>)
    requires ls == ["9a\n", "x\n", "9b\n"]
    ensures StartsWith(ls[0], "9") && !StartsWith(ls[1], "9") && StartsWith(ls[2], "9")
    ensures RemoveAlternating("9", ls, false) == ["x\n"]
  {
    assert "x\n"[..1] == "x";
    assert ls[1..] == ["x\n", "9b\n"] && ls[1..][1..] == ["9b\n"];
    assert RemoveAlternating("9", ["9b\n"], false) == [];
    assert RemoveAlternating("9", ls[1..], true) == ["x\n"];
  }
}
