/** The decision part of the QiTech client (handlers/qitech.py): the
    endpoint a request is signed for, how an error answer is decoded, the
    string a request signature covers, which resource receives documents
    and resubmits a payment, and the rate sent for a refinancing. JWT
    signing and decoding, MD5 and the clock are left out; their results
    are inputs. */
module Qitech {
  import opened Common
  import opened Codes

  // ---------------------------------------------------------------------
  // _get_endpoint

  /** `s.replace(sub, '')`: every non-overlapping occurrence of `sub`,
      scanning from the left, is removed; an empty `sub` removes nothing. */
  function RemoveAll(s: string, sub: string): (r: string)
    ensures |r| <= |s|
    decreases |s|
  {
    if |sub| == 0 || |s| == 0 then s
    else if StartsWith(s, sub) then RemoveAll(s[|sub|..], sub)
    else [s[0]] + RemoveAll(s[1..], sub)
  }

  /** Text that does not contain `sub` is left as it is. */
  lemma {:induction false} RemoveAllAbsent(s: string, sub: string)
    requires |sub| > 0 && !Contains(s, sub)
    ensures RemoveAll(s, sub) == s
    decreases |s|
  {
    if |s| > 0 {
      assert !OccursAt(s, sub, 0);
      assert !Contains(s[1..], sub) by {
        forall i | 0 <= i <= |s[1..]| - |sub|
          ensures !OccursAt(s[1..], sub, i)
        {
          assert !OccursAt(s, sub, i + 1);
          assert s[1..][i..i + |sub|] == s[i + 1..i + 1 + |sub|];
        }
      }
      RemoveAllAbsent(s[1..], sub);
      assert s == [s[0]] + s[1..];
    }
  }

  /** The endpoint a request is signed for: the URL without the base. */
  function Endpoint(url: string, baseUrl: string): (r: string)
    ensures |r| <= |url|
  {
    RemoveAll(url, baseUrl)
  }

  /** For a URL built as base plus a path that does not repeat the base,
      the endpoint is the path. */
  lemma EndpointOfResource(baseUrl: string, path: string)
    requires |baseUrl| > 0 && !Contains(path, baseUrl)
    ensures Endpoint(baseUrl + path, baseUrl) == path
  {
    var url := baseUrl + path;
    assert url[..|baseUrl|] == baseUrl;
    assert url[|baseUrl|..] == path;
    RemoveAllAbsent(path, baseUrl);
  }

  // ---------------------------------------------------------------------
  // decode_body

  /** What an error answer decodes to: the claims of its encoded body
      (decoded outside the model), or its description, absent or not. */
  datatype DecodedBody = Claims(token: string) | Description(description: Option<string>)

  /** A present, non-empty `encoded_body` is decoded; otherwise the
      answer's `description` is returned. */
  function DecodeBody(encodedBody: Option<string>, description: Option<string>): (r: DecodedBody)
    ensures r.Claims? <==> encodedBody.Some? && encodedBody.value != ""
    ensures r.Claims? ==> r.token == encodedBody.value
    ensures r.Description? ==> r.description == description
  {
    match encodedBody
    case Some(token) => if token != "" then Claims(token) else Description(description)
    case None => Description(description)
  }

  // ---------------------------------------------------------------------
  // _get_headers: the signed string

  /** Method, body digest, content type, date and endpoint, one per line. */
  function SigningString(httpMethod: string, md5Body: string, contentType: string, date: string, endpoint: string)
    : string
  {
    httpMethod + "\n" + md5Body + "\n" + contentType + "\n" + date + "\n" + endpoint
  }

  /** Parts free of the separator are read back by splitting the joined
      text. */
  lemma {:induction false} JoinSplit(parts: seq<string>, c: char, k: nat)
    requires forall i :: 0 <= i < |parts| ==> c !in parts[i]
    requires k < |parts|
    ensures SplitAt(Join(parts, [c]), [c], k) == Some(parts[k])
    decreases |parts|
  {
    if |parts| == 1 {
      assert k == 0 && Join(parts, [c]) == parts[0];
      SplitWithoutChar(parts[0], c);
    } else if k == 0 {
      JoinStep(parts, c, 0);
    } else {
      var tail := parts[1..];
      assert forall i :: 0 <= i < |tail| ==> tail[i] == parts[i + 1];
      JoinStep(parts, c, k - 1);
      JoinSplit(tail, c, k - 1);
      assert tail[k - 1] == parts[k];
    }
  }

  /** The first piece of a join is its first part, and the later pieces
      are those of the join of the rest. */
  lemma JoinStep(parts: seq<string>, c: char, k: nat)
    requires |parts| > 1 && c !in parts[0]
    ensures SplitAt(Join(parts, [c]), [c], 0) == Some(parts[0])
    ensures SplitAt(Join(parts, [c]), [c], k + 1) == SplitAt(Join(parts[1..], [c]), [c], k)
  {
    var rest := Join(parts[1..], [c]);
    assert Join(parts, [c]) == parts[0] + [c] + rest;
    CharSeparator(parts[0], c, rest);
    SplitAfterFirst(parts[0], [c], rest, k);
  }

  /** The five signed fields can be read back from the signed string when
      none of them holds a line break. */
  lemma SigningStringFields(httpMethod: string, md5Body: string, contentType: string, date: string, endpoint: string)
    requires '\n' !in httpMethod && '\n' !in md5Body && '\n' !in contentType && '\n' !in date && '\n' !in endpoint
    ensures var s := SigningString(httpMethod, md5Body, contentType, date, endpoint);
      && SplitAt(s, "\n", 0) == Some(httpMethod)
      && SplitAt(s, "\n", 1) == Some(md5Body)
      && SplitAt(s, "\n", 2) == Some(contentType)
      && SplitAt(s, "\n", 3) == Some(date)
      && SplitAt(s, "\n", 4) == Some(endpoint)
  {
    var parts := [httpMethod, md5Body, contentType, date, endpoint];
    assert Join(parts[4..], "\n") == endpoint;
    assert Join(parts[3..], "\n") == date + "\n" + endpoint by { assert parts[3..][1..] == parts[4..]; }
    assert Join(parts[2..], "\n") == contentType + "\n" + date + "\n" + endpoint by { assert parts[2..][1..] == parts[3..]; }
    assert Join(parts[1..], "\n") == md5Body + "\n" + contentType + "\n" + date + "\n" + endpoint by {
      assert parts[1..][1..] == parts[2..];
    }
    assert Join(parts, "\n") == SigningString(httpMethod, md5Body, contentType, date, endpoint);
    JoinSplit(parts, '\n', 0);
    JoinSplit(parts, '\n', 1);
    JoinSplit(parts, '\n', 2);
    JoinSplit(parts, '\n', 3);
    JoinSplit(parts, '\n', 4);
  }

  // ---------------------------------------------------------------------
  // Resource routing

  const SEND_CREDIT_TRANSFER_DOCUMENTS: string := "send_credit_transfer_documents"
  const SEND_DEBT_DOCUMENTS: string := "send_debt_documents"

  /** Documents of a portability (with or without refinancing) go to the
      credit-transfer proposal, those of a free-margin loan to the debt;
      any other product is not mapped. */
  function SendDocumentsResource(produto: int): (r: Result<string>)
    ensures r == Ok(SEND_CREDIT_TRANSFER_DOCUMENTS)
            <==> produto in {PRODUTO_PORTABILIDADE, PRODUTO_PORTABILIDADE_REFINANCIAMENTO}
    ensures r == Ok(SEND_DEBT_DOCUMENTS) <==> produto == PRODUTO_MARGEM_LIVRE
    ensures r.Err? ==> r.message == "NotImplementedError"
  {
    if produto in {PRODUTO_PORTABILIDADE, PRODUTO_PORTABILIDADE_REFINANCIAMENTO} then Ok(SEND_CREDIT_TRANSFER_DOCUMENTS)
    else if produto == PRODUTO_MARGEM_LIVRE then Ok(SEND_DEBT_DOCUMENTS)
    else Err("NotImplementedError")
  }

  datatype Resubmission = Resubmission(resource: string, verb: string)

  /** A refinancing's payment is resubmitted by PATCHing the refinancing
      operation; a free-margin loan's by POSTing a new disbursement date;
      other products are not supported. */
  function PaymentResubmission(produto: int): (r: Result<Resubmission>)
    ensures r.Ok? <==> produto in {PRODUTO_PORTABILIDADE_REFINANCIAMENTO, PRODUTO_MARGEM_LIVRE}
    ensures r.Ok? ==> (r.value.verb == "PATCH" <==> produto == PRODUTO_PORTABILIDADE_REFINANCIAMENTO)
    ensures r.Ok? ==> (r.value.verb == "POST" <==> produto == PRODUTO_MARGEM_LIVRE)
    ensures r.Ok? && produto == PRODUTO_PORTABILIDADE_REFINANCIAMENTO ==>
      r.value.resource == "resubmit_payment_refinancing"
    ensures r.Ok? && produto == PRODUTO_MARGEM_LIVRE ==> r.value.resource == "resubmit_payment_free_margin"
  {
    if produto == PRODUTO_PORTABILIDADE_REFINANCIAMENTO then Ok(Resubmission("resubmit_payment_refinancing", "PATCH"))
    else if produto == PRODUTO_MARGEM_LIVRE then Ok(Resubmission("resubmit_payment_free_margin", "POST"))
    else Err("NotImplementedError")
  }

  // ---------------------------------------------------------------------
  // Refinancing: the monthly rate sent

  /** The refinancing's instalment and monthly rate (in percent): those
      recalculated against the portability when the contract has one,
      otherwise the refinancing's own. */
  function RefinancingTerms(parcela: real, taxa: real, portability: Option<(real, real)>): (r: (real, real))
    ensures portability.None? ==> r == (parcela, taxa)
    ensures portability.Some? ==> r == portability.value
  {
    match portability
    case None => (parcela, taxa)
    case Some(terms) => terms
  }

  /** The rate sent, as a fraction: the monthly rate capped at the
      product's maximum, divided by one hundred. */
  function SentRate(taxa: real, taxaMaxima: real): (r: real)
    ensures r * 100.0 <= taxaMaxima && r * 100.0 <= taxa
    ensures r * 100.0 == taxa || r * 100.0 == taxaMaxima
  {
    (if taxa <= taxaMaxima then taxa else taxaMaxima) / 100.0
  }

  /** A higher rate never sends a lower one, and a rate within the cap is
      sent as it is. */
  lemma SentRateMonotone(a: real, b: real, taxaMaxima: real)
    requires a <= b
    ensures SentRate(a, taxaMaxima) <= SentRate(b, taxaMaxima)
    ensures b <= taxaMaxima ==> SentRate(b, taxaMaxima) == b / 100.0
  {
  }
}
