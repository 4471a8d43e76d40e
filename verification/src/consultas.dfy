/** The decision part of the rule-hub queries (handlers/consultas.py):
    how a base64 text is recognised as a PNG image or a PDF document, the
    object key an upload is stored under, the bucket a contract's
    documents are read from and the operation name sent to the hub. The
    base64 encoding of section 4 of RFC 4648 is written out so that the
    two recognisers can be checked against the files' magic bytes; the
    storage calls and Django's `slugify` are left out (the slug is an
    input). */
module Consultas {
  import opened Common
  import opened Codes

  // ---------------------------------------------------------------------
  // Base64 (section 4 of RFC 4648)

  type Byte = x: int | 0 <= x < 256

  /** The character of a six-bit value (Table 1 of RFC 4648). */
  function B64Char(v: int): (c: char)
    requires 0 <= v < 64
    ensures c != '='
  {
    if v < 26 then ('A' as int + v) as char
    else if v < 52 then ('a' as int + (v - 26)) as char
    else if v < 62 then ('0' as int + (v - 52)) as char
    else if v == 62 then '+'
    else '/'
  }

  /** One group of three bytes as four characters, six bits each. */
  function Quad(a: Byte, b: Byte, c: Byte): (r: string)
    ensures |r| == 4 && '=' !in r
  {
    [B64Char(a / 4), B64Char(Second(a, b)), B64Char(Third(b, c)), B64Char(c % 64)]
  }

  /** The low two bits of `a` above the high four of `b`. */
  function Second(a: Byte, b: Byte): (v: int)
    ensures 0 <= v < 64
  {
    (a % 4) * 16 + b / 16
  }

  /** The low four bits of `b` above the high two of `c`. */
  function Third(b: Byte, c: Byte): (v: int)
    ensures 0 <= v < 64
  {
    (b % 16) * 4 + c / 64
  }

  /** The padded base64 encoding of a byte string: four characters per
      started group of three bytes, '=' only as padding. */
  function Base64(bytes: seq<Byte>): (r: string)
    decreases |bytes|
  {
    if |bytes| >= 3 then Quad(bytes[0], bytes[1], bytes[2]) + Base64(bytes[3..])
    else if |bytes| == 2 then Quad(bytes[0], bytes[1], 0)[..3] + "="
    else if |bytes| == 1 then Quad(bytes[0], 0, 0)[..2] + "=="
    else ""
  }

  /** Whole groups encode independently of what follows them. */
  lemma {:induction false} Base64Append(a: seq<Byte>, b: seq<Byte>)
    requires |a| % 3 == 0
    ensures Base64(a + b) == Base64(a) + Base64(b)
    decreases |a|
  {
    if |a| > 0 {
      assert (a + b)[..3] == a[..3];
      assert (a + b)[3..] == a[3..] + b;
      Base64Append(a[3..], b);
    } else {
      assert a + b == b;
    }
  }

  /** Four characters per started group of three bytes. */
  lemma {:induction false} Base64Length(bytes: seq<Byte>)
    ensures |Base64(bytes)| == 4 * ((|bytes| + 2) / 3)
    decreases |bytes|
  {
    if |bytes| >= 3 {
      Base64Length(bytes[3..]);
      assert (|bytes| + 2) / 3 == (|bytes[3..]| + 2) / 3 + 1;
    }
  }

  /** The first character encodes the top six bits of the first byte. */
  lemma FirstCharacter(bytes: seq<Byte>)
    requires |bytes| > 0
    ensures Base64(bytes)[0] == B64Char(bytes[0] / 4)
  {
    var q := if |bytes| >= 3 then Quad(bytes[0], bytes[1], bytes[2])
             else if |bytes| == 2 then Quad(bytes[0], bytes[1], 0)
             else Quad(bytes[0], 0, 0);
    assert q[0] == B64Char(bytes[0] / 4);
    assert Base64(bytes)[0] == q[0];
  }

  // ---------------------------------------------------------------------
  // is_png, is_pdf

  const PNG_HEADER_BASE64: string := "iVBORw0KGgo"
  const PDF_HEADER_BASE64: string := "JVBER"

  function IsPng(b64: string): (r: bool)
    ensures r <==> |b64| >= 11 && b64[..11] == PNG_HEADER_BASE64
  {
    StartsWith(b64, PNG_HEADER_BASE64)
  }

  function IsPdf(b64: string): (r: bool)
    ensures r <==> |b64| >= 5 && b64[..5] == PDF_HEADER_BASE64
  {
    StartsWith(b64, PDF_HEADER_BASE64)
  }

  /** The eight-byte PNG signature. */
  const PNG_SIGNATURE: seq<Byte> := [0x89, 0x50, 0x4E, 0x47, 0x0D, 0x0A, 0x1A, 0x0A]

  /** "%PDF". */
  const PDF_SIGNATURE: seq<Byte> := [0x25, 0x50, 0x44, 0x46]


  /** The first eleven characters of three quads and what follows. */
  lemma ElevenOfQuads(q1: string, q2: string, q3: string, tail: string)
    requires |q1| == 4 && |q2| == 4 && |q3| == 4
    ensures (q1 + q2 + q3 + tail)[..11] == q1 + q2 + q3[..3]
  {
  }

  /** The three groups of the PNG signature, the last one up to the six
      bits it shares with the next byte. */
  lemma PngGroups(next: Byte)
    requires next < 64
    ensures Quad(0x89, 0x50, 0x4E) == "iVBO"
    ensures Quad(0x47, 0x0D, 0x0A) == "Rw0K"
    ensures Quad(0x1A, 0x0A, next)[..3] == "Ggo"
  {
    assert B64Char(0x89 / 4) == 'i' && B64Char(Second(0x89, 0x50)) == 'V';
    assert B64Char(Third(0x50, 0x4E)) == 'B' && B64Char(0x4E % 64) == 'O';
    assert B64Char(0x47 / 4) == 'R' && B64Char(Second(0x47, 0x0D)) == 'w';
    assert B64Char(Third(0x0D, 0x0A)) == '0' && B64Char(0x0A % 64) == 'K';
    assert B64Char(0x1A / 4) == 'G' && B64Char(Second(0x1A, 0x0A)) == 'g';
    assert Third(0x0A, next) == 40 && B64Char(40) == 'o';
  }

  /** Nine or more bytes encode to their first three groups, then the
      rest. */
  lemma Base64OfNine(bytes: seq<Byte>)
    requires |bytes| >= 9
    ensures Base64(bytes) == Quad(bytes[0], bytes[1], bytes[2]) + Quad(bytes[3], bytes[4], bytes[5])
                             + Quad(bytes[6], bytes[7], bytes[8]) + Base64(bytes[9..])
  {
    var t := bytes[3..];
    var u := t[3..];
    assert Base64(bytes) == Quad(bytes[0], bytes[1], bytes[2]) + Base64(t);
    assert Base64(t) == Quad(t[0], t[1], t[2]) + Base64(u);
    assert Base64(u) == Quad(u[0], u[1], u[2]) + Base64(u[3..]);
    assert u[3..] == bytes[9..];
  }

  /** A PNG file (whose signature is followed by the big-endian length of
      its first chunk, so by a byte below 64) is recognised as one. */
  lemma PngRecognised(next: Byte, rest: seq<Byte>)
    requires next < 64
    ensures IsPng(Base64(PNG_SIGNATURE + [next] + rest))
  {
    var bytes := PNG_SIGNATURE + [next] + rest;
    Base64OfNine(bytes);
    assert bytes[0] == 0x89 && bytes[1] == 0x50 && bytes[2] == 0x4E;
    assert bytes[3] == 0x47 && bytes[4] == 0x0D && bytes[5] == 0x0A;
    assert bytes[6] == 0x1A && bytes[7] == 0x0A && bytes[8] == next;
    PngGroups(next);
    ElevenOfQuads(Quad(0x89, 0x50, 0x4E), Quad(0x47, 0x0D, 0x0A), Quad(0x1A, 0x0A, next), Base64(bytes[9..]));
    assert "iVBO" + "Rw0K" + "Ggo" == PNG_HEADER_BASE64;
  }

  /** Four or more bytes encode to their first group, then a character
      carrying the fourth byte's top six bits. */
  lemma Base64OfFour(bytes: seq<Byte>)
    requires |bytes| >= 4
    ensures Base64(bytes) == Quad(bytes[0], bytes[1], bytes[2]) + Base64(bytes[3..])
    ensures |Base64(bytes[3..])| > 0 && Base64(bytes[3..])[0] == B64Char(bytes[3] / 4)
  {
    FirstCharacter(bytes[3..]);
  }

  /** The PDF test reads thirty bits: "%PD" and the top six bits of "F".
      A PDF file, which starts with "%PDF", passes it, and so does any
      text starting with "%PD" and one of "D", "E", "F" or "G". */
  lemma PdfRecognised(bytes: seq<Byte>)
    requires |bytes| >= 4 && bytes[0] == 0x25 && bytes[1] == 0x50 && bytes[2] == 0x44
    requires bytes[3] / 4 == 0x46 / 4
    ensures IsPdf(Base64(bytes))
  {
    Base64OfFour(bytes);
    assert Quad(0x25, 0x50, 0x44) == "JVBE" by {
      assert B64Char(0x25 / 4) == 'J' && B64Char(Second(0x25, 0x50)) == 'V';
      assert B64Char(Third(0x50, 0x44)) == 'B' && B64Char(0x44 % 64) == 'E';
    }
    assert B64Char(bytes[3] / 4) == 'R';
    var t := Base64(bytes[3..]);
    assert ("JVBE" + t)[..5] == "JVBE" + [t[0]];
  }

  /** A PDF file is recognised as one, whatever follows "%PDF". */
  lemma PdfFileRecognised(rest: seq<Byte>)
    ensures IsPdf(Base64(PDF_SIGNATURE + rest))
  {
    PdfRecognised(PDF_SIGNATURE + rest);
  }

  // ---------------------------------------------------------------------
  // upload_base64: payload and object key

  /** The text after the last `c`, or all of `s` when it holds none
      (`s.split(c)[-1]`). */
  function LastPiece(s: string, c: char): (r: string)
    ensures c !in r
    ensures EndsWith(s, r)
    ensures |r| < |s| ==> s[|s| - |r| - 1] == c
    ensures c !in s ==> r == s
    decreases |s|
  {
    if |s| == 0 then s
    else if s[|s| - 1] == c then ""
    else
      var r := LastPiece(s[..|s| - 1], c);
      assert EndsWith(s[..|s| - 1], r);
      assert s[|s| - |r| - 1..] == s[..|s| - 1][|s| - 1 - |r|..] + [s[|s| - 1]];
      r + [s[|s| - 1]]
  }

  /** A subtype after the last separator is read back. */
  lemma {:induction false} LastPieceOfJoined(a: string, c: char, b: string)
    requires c !in b
    ensures LastPiece(a + [c] + b, c) == b
    decreases |b|
  {
    var s := a + [c] + b;
    if |b| > 0 {
      assert s[..|s| - 1] == a + [c] + b[..|b| - 1];
      assert s[|s| - 1] == b[|b| - 1];
      assert b[|b| - 1] != c by { assert b[|b| - 1] in b; }
      var front := b[..|b| - 1];
      assert c !in front by {
        forall i | 0 <= i < |front| ensures front[i] != c { assert front[i] == b[i]; assert b[i] in b; }
      }
      LastPieceOfJoined(a, c, b[..|b| - 1]);
      assert b[..|b| - 1] + [b[|b| - 1]] == b;
    }
  }

  datatype Upload = Upload(payload: string, key: string, contentType: string)

  /** The base64 payload is the text after the first ";base64," (a text
      without it raises); the key is the folder, the slugified name and
      the MIME subtype as `folder/slug.ext`. */
  function UploadBase64(dataUrl: string, folder: string, slug: string, mimeType: string): (r: Result<Upload>)
    ensures r.Ok? <==> Contains(dataUrl, ";base64,")
    ensures r.Err? ==> r.message == "IndexError"
    ensures r.Ok? ==> r.value.key == folder + "/" + slug + "." + LastPiece(mimeType, '/')
    ensures r.Ok? ==> r.value.contentType == mimeType && Some(r.value.payload) == SplitAt(dataUrl, ";base64,", 1)
  {
    match SplitAt(dataUrl, ";base64,", 1)
    case None => Err("IndexError")
    case Some(payload) => Ok(Upload(payload, folder + "/" + slug + "." + LastPiece(mimeType, '/'), mimeType))
  }


  /** A data URL "<header>;base64,<payload>" whose parts hold no ';'
      gives back its payload. */
  lemma PayloadOfDataUrl(header: string, payload: string)
    requires ';' !in header && ';' !in payload
    ensures SplitAt(header + ";base64," + payload, ";base64,", 1) == Some(payload)
  {
    var sep := ";base64,";
    var s := header + sep + payload;
    forall j | 0 <= j < |header| ensures !OccursAt(s, sep, j) {
      assert s[j] == header[j];
    }
    SplitAfterFirst(header, sep, payload, 0);
    SplitWithoutSemicolon(payload);
  }

  lemma SplitWithoutSemicolon(s: string)
    requires ';' !in s
    ensures SplitAt(s, ";base64,", 0) == Some(s)
  {
    forall j | 0 <= j <= |s| - 8
      ensures !OccursAt(s, ";base64,", j)
    {
      assert s[j] == s[j..j + 8][0];
    }
  }

  /** An upload of a data URL stores its payload under the MIME
      subtype. */
  lemma UploadOfDataUrl(header: string, payload: string, folder: string, slug: string, kind: string, subtype: string)
    requires ';' !in header && ';' !in payload && '/' !in subtype
    ensures UploadBase64(header + ";base64," + payload, folder, slug, kind + "/" + subtype)
            == Ok(Upload(payload, folder + "/" + slug + "." + subtype, kind + "/" + subtype))
  {
    PayloadOfDataUrl(header, payload);
    LastPieceOfJoined(kind, '/', subtype);
  }

  // ---------------------------------------------------------------------
  // consulta_regras_hub: bucket and operation

  datatype Bucket = AmigozBucket | PortabilidadeBucket | InssBucket

  predicate IsCardFamily(produto: int) {
    produto in {PRODUTO_CARTAO_BENEFICIO, PRODUTO_CARTAO_BENEFICIO_REPRESENTANTE, PRODUTO_CARTAO_CONSIGNADO}
  }

  predicate IsPortabilityFamily(produto: int) {
    produto in {PRODUTO_PORTABILIDADE, PRODUTO_PORTABILIDADE_REFINANCIAMENTO}
  }

  predicate IsInssFamily(produto: int) {
    produto in {PRODUTO_INSS, PRODUTO_INSS_CORBAN, PRODUTO_INSS_REPRESENTANTE_LEGAL, PRODUTO_MARGEM_LIVRE}
  }

  /** The bucket the contract's documents are read from; none for other
      products. */
  function HubBucket(produto: int): (r: Option<Bucket>)
    ensures r == Some(AmigozBucket) <==> IsCardFamily(produto)
    ensures r == Some(PortabilidadeBucket) <==> IsPortabilityFamily(produto)
    ensures r == Some(InssBucket) <==> IsInssFamily(produto)
  {
    if IsCardFamily(produto) then Some(AmigozBucket)
    else if IsPortabilityFamily(produto) then Some(PortabilidadeBucket)
    else if IsInssFamily(produto) then Some(InssBucket)
    else None
  }

  /** The operation name sent to the hub; none for other products. */
  function HubOperation(produto: int): (r: Option<string>)
    ensures r == Some("happy-cartao-beneficio") <==> IsCardFamily(produto)
    ensures r == Some("happy-portabilidade") <==> IsPortabilityFamily(produto) || produto == PRODUTO_MARGEM_LIVRE
    ensures r.Some? ==> r.value in {"happy-cartao-beneficio", "happy-portabilidade"}
  {
    if IsCardFamily(produto) then Some("happy-cartao-beneficio")
    else if IsPortabilityFamily(produto) || produto == PRODUTO_MARGEM_LIVRE then Some("happy-portabilidade")
    else None
  }

  /** What the query does: the hub is asked, with the operation and the
      bucket, or the query raises inside its handler and answers nothing.
      `readsDocuments` says whether an identity document is attached, in
      which case the bucket is used. */
  datatype HubQuery = Asked(operation: string, bucket: Option<Bucket>) | NoAnswer

  function ConsultaRegrasHub(produto: int, readsDocuments: bool): (r: HubQuery)
    ensures r.Asked? <==> HubOperation(produto).Some? && (!readsDocuments || HubBucket(produto).Some?)
    ensures r.Asked? ==> r.operation == HubOperation(produto).value && r.bucket == HubBucket(produto)
  {
    var bucket := HubBucket(produto);
    if readsDocuments && bucket.None? then NoAnswer
    else match HubOperation(produto)
      case None => NoAnswer
      case Some(op) => Asked(op, bucket)
  }

  /** Every product the hub is asked about has a bucket, so whether the
      hub is asked depends on the product alone; the INSS loans have a
      bucket but no operation and are never asked about. */
  lemma HubAskedByProduct(produto: int, readsDocuments: bool)
    ensures HubOperation(produto).Some? ==> HubBucket(produto).Some?
    ensures ConsultaRegrasHub(produto, readsDocuments).Asked? <==> HubOperation(produto).Some?
    ensures produto in {PRODUTO_INSS, PRODUTO_INSS_CORBAN, PRODUTO_INSS_REPRESENTANTE_LEGAL} ==>
      HubBucket(produto) == Some(InssBucket) && ConsultaRegrasHub(produto, readsDocuments) == NoAnswer
  {
  }
}
