/** The decision part of the BRB withdrawal integration (handlers/brb.py):
    the identity-document type, the bank code sent, the instalment count
    of a transfer, what the status poll of a transfer does next, and the
    names of the client files sent in the dossier. The enumerations of
    document and attachment types are named here, not numbered, because
    their numbering is not part of this model. */
module Brb {
  import opened Common
  import opened Codes
  import DockFormalizacao

  // ---------------------------------------------------------------------
  // Account opening: document type and bank code

  datatype DocumentKind = RG | CNH | OtherDocument

  /** An identity card is sent as such; every other document as a
      driving licence. */
  function DocumentType(kind: DocumentKind): (r: string)
    ensures r in {"CARTEIRA_IDENTIDADE", "CARTEIRA_MOTORISTA"}
    ensures r == "CARTEIRA_IDENTIDADE" <==> kind == RG
  {
    if kind == RG then "CARTEIRA_IDENTIDADE" else "CARTEIRA_MOTORISTA"
  }

  /** The bank code is the first three characters of the stored one. */
  function BankCode(contaBanco: string): (r: string)
    ensures |r| == if |contaBanco| < 3 then |contaBanco| else 3
    ensures StartsWith(contaBanco, r)
  {
    Prefix(contaBanco, 3)
  }

  /** A stored code that begins with a three-character bank number, such
      as "001 - Banco do Brasil", sends that number. */
  lemma BankCodeOfLabelled(code: string, rest: string)
    requires |code| == 3
    ensures BankCode(code + rest) == code
  {
    assert (code + rest)[..3] == code;
  }

  // ---------------------------------------------------------------------
  // transferencia_saque: instalment count

  /** The contracted count for a withdrawal in instalments, else one; the
      contract of any product other than a card or a complementary
      withdrawal is never loaded. */
  function InstalmentCount(produto: int, parcelado: bool, qtdParcelas: int): (r: Result<int>)
    ensures r.Ok? <==> produto in {PRODUTO_CARTAO_BENEFICIO, PRODUTO_CARTAO_CONSIGNADO, PRODUTO_SAQUE_COMPLEMENTAR}
    ensures r.Ok? && parcelado ==> r.value == qtdParcelas
    ensures r.Ok? && !parcelado ==> r.value == 1
  {
    if produto !in {PRODUTO_CARTAO_BENEFICIO, PRODUTO_CARTAO_CONSIGNADO, PRODUTO_SAQUE_COMPLEMENTAR} then
      Err("UnboundLocalError")
    else Ok(if parcelado then qtdParcelas else 1)
  }

  // ---------------------------------------------------------------------
  // retorno_saque: polling the transfer status

  const POLL_RETRY_LIMIT: nat := 5

  const AWAITING_PAYMENT: string := "AGUARDANDO PAGAMENTO"
  const PAID: string := "PAGO"

  /** A poll answer: the HTTP status and the contract situation, `None`
      when the answer lacks it. */
  datatype Poll = Poll(statusCode: int, situacao: Option<string>)

  datatype PollAction =
    | PollAgain(count: nat)     // rescheduled with this retry count
    | GiveUp                    // alert e-mail after the last retry
    | LaunchInstalments         // lancamento_saque_parcelado_fatura
    | LaunchAdjustment          // ajustes_financeiros
    | LogOnly
    | Raised(error: string)

  /** What one poll with retry count `count` does. A successful answer
      without a situation raises on the lookup. On a paid transfer the
      product picks the table the withdrawal row is read from: `row` is the
      `saque_parcelado` flag of that table's first row for the contract,
      `None` when it has none. Another product leaves the row unbound. */
  function PollStep(p: Poll, count: nat, produto: int, row: Option<bool>): (r: PollAction)
    ensures r.PollAgain? <==> p.statusCode == 200 && p.situacao == Some(AWAITING_PAYMENT) && count < POLL_RETRY_LIMIT
    ensures r.PollAgain? ==> r.count == count + 1
    ensures r == GiveUp <==> p.statusCode == 200 && p.situacao == Some(AWAITING_PAYMENT) && count >= POLL_RETRY_LIMIT
    ensures r in {LaunchInstalments, LaunchAdjustment} <==>
      p.statusCode == 200 && p.situacao == Some(PAID) && SequenceProduct(produto) && row.Some?
    ensures r == LaunchInstalments ==> row == Some(true)
    ensures r == LaunchAdjustment ==> row == Some(false)
    ensures r == Raised("UnboundLocalError") <==>
      p.statusCode == 200 && p.situacao == Some(PAID) && !SequenceProduct(produto)
    ensures r == Raised("AttributeError") <==>
      p.statusCode == 200 && p.situacao == Some(PAID) && SequenceProduct(produto) && row.None?
    ensures r == Raised("KeyError") <==> p.statusCode == 200 && p.situacao.None?
  {
    if p.statusCode != 200 then LogOnly
    else if p.situacao.None? then Raised("KeyError")
    else if p.situacao.value == AWAITING_PAYMENT then
      match DockFormalizacao.Reschedule(true, count, POLL_RETRY_LIMIT)
      case Some(c) => PollAgain(c)
      case None => GiveUp
    else if p.situacao.value == PAID then
      if !SequenceProduct(produto) then Raised("UnboundLocalError")
      else if row.None? then Raised("AttributeError")
      else if row.value then LaunchInstalments else LaunchAdjustment
    else LogOnly
  }

  /** The products whose paid withdrawal has a row to read: the two card
      products and the complementary withdrawal. */
  predicate SequenceProduct(produto: int) {
    produto in {PRODUTO_CARTAO_BENEFICIO, PRODUTO_CARTAO_CONSIGNADO, PRODUTO_SAQUE_COMPLEMENTAR}
  }

  /** True for a poll that reschedules itself when retries remain. */
  predicate Waiting(p: Poll) { p.statusCode == 200 && p.situacao == Some(AWAITING_PAYMENT) }

  function WaitingFlags(polls: seq<Poll>): (r: seq<bool>)
    ensures |r| == |polls|
    ensures forall i :: 0 <= i < |polls| ==> (r[i] <==> Waiting(polls[i]))
  {
    if |polls| == 0 then [] else [Waiting(polls[0])] + WaitingFlags(polls[1..])
  }

  /** The number of polls made, counted by the same rescheduling rule as
      the Dock tasks with a limit of five. */
  function PollCount(polls: seq<Poll>, count: nat): (n: nat)
    ensures n <= |polls|
  {
    DockFormalizacao.Runs(WaitingFlags(polls), count, POLL_RETRY_LIMIT)
  }

  /** A transfer that stays awaiting payment is polled six times, and the
      last poll gives up. */
  lemma StuckTransferPolledSixTimes(polls: seq<Poll>)
    requires |polls| >= POLL_RETRY_LIMIT + 1
    requires forall i :: 0 <= i < |polls| ==> Waiting(polls[i])
    ensures PollCount(polls, 0) == 6
    ensures forall produto, row :: PollStep(polls[5], 5, produto, row) == GiveUp
  {
    DockFormalizacao.AlwaysRaisingRuns(WaitingFlags(polls), 0, POLL_RETRY_LIMIT);
  }

  /** Each poll before the last one of a chain was awaiting payment, and
      the last one either settled the transfer or gave up. */
  lemma PollsStopWhenSettled(polls: seq<Poll>)
    requires |polls| > 0
    ensures var n := PollCount(polls, 0);
      1 <= n <= POLL_RETRY_LIMIT + 1
      && (forall i :: 0 <= i < n - 1 ==> Waiting(polls[i]))
      && (n == |polls| || !Waiting(polls[n - 1]) || n - 1 == POLL_RETRY_LIMIT)
  {
    DockFormalizacao.RunsBounded(WaitingFlags(polls), 0, POLL_RETRY_LIMIT);
  }

  // ---------------------------------------------------------------------
  // envio_dossie: client file names

  datatype AttachmentKind = DocumentoFrente | DocumentoVerso | CnhDocument | Selfie | ComprovanteEndereco | OtherAttachment

  datatype Attachment = Attachment(kind: AttachmentKind, name: string, extension: string)

  /** The attachment types sent in the dossier. */
  predicate Sent(a: Attachment) { a.kind != OtherAttachment }

  /** A selfie lives in the envelope's folder under its bare name plus
      ".jpg"; every other file in the contract's folder as "name.ext". */
  function FileName(a: Attachment, contractFolder: string, envelopeFolder: string): (r: string)
    ensures a.kind == Selfie ==> r == envelopeFolder + "/" + a.name + ".jpg"
    ensures a.kind != Selfie ==> r == contractFolder + "/" + a.name + "." + a.extension
  {
    (if a.kind == Selfie then envelopeFolder else contractFolder)
    + "/"
    + (if a.kind == Selfie then a.name else a.name + "." + a.extension)
    + (if a.kind == Selfie then ".jpg" else "")
  }

  /** The names of the sent attachments, in the attachments' order. */
  function DossierFiles(anexos: seq<Attachment>, contractFolder: string, envelopeFolder: string): (r: seq<string>)
    ensures |r| <= |anexos|
    ensures forall k :: 0 <= k < |r| ==>
      exists i :: 0 <= i < |anexos| && Sent(anexos[i]) && r[k] == FileName(anexos[i], contractFolder, envelopeFolder)
    ensures forall i :: 0 <= i < |anexos| && Sent(anexos[i]) ==>
      FileName(anexos[i], contractFolder, envelopeFolder) in r
  {
    if |anexos| == 0 then []
    else
      var rest := DossierFiles(anexos[1..], contractFolder, envelopeFolder);
      assert forall i :: 1 <= i < |anexos| ==> anexos[i] == anexos[1..][i - 1];
      if Sent(anexos[0]) then [FileName(anexos[0], contractFolder, envelopeFolder)] + rest else rest
  }

  /** Folder names without '/' can be read back from a file name: the
      part before the first '/' is the envelope's folder for a selfie and
      the contract's otherwise. */
  lemma FolderOfFileName(a: Attachment, contractFolder: string, envelopeFolder: string)
    requires '/' !in contractFolder && '/' !in envelopeFolder
    ensures var folder := if a.kind == Selfie then envelopeFolder else contractFolder;
      SplitAt(FileName(a, contractFolder, envelopeFolder), "/", 0) == Some(folder)
  {
    var folder := if a.kind == Selfie then envelopeFolder else contractFolder;
    var rest := (if a.kind == Selfie then a.name else a.name + "." + a.extension)
                + (if a.kind == Selfie then ".jpg" else "");
    assert FileName(a, contractFolder, envelopeFolder) == folder + "/" + rest;
    CharSeparator(folder, '/', rest);
    SplitAfterFirst(folder, "/", rest, 0);
  }
}
