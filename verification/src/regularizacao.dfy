/** A contract's regularization request (contract/models/regularizacao_contrato):
    the pending-item attachment and the regularization attachment, the size
    and extension check on save, the soft delete, and the reading of an
    attachment's S3 URL. Both attachments follow the same rules, so one
    `Attachment` value stands for either. */
module RegularizacaoContrato {
  import opened Common

  /** One attachment slot: its name, its extension (`None` when unset), its
      URL (`None` when unset) and the size of the uploaded file when one is
      attached. */
  datatype Attachment = Attachment(nome: string, extensao: Option<string>, url: Option<string>,
                                   fileSize: Option<nat>)

  datatype Regularization = Regularization(pendencia: Attachment, regularizacao: Attachment,
                                           active: bool, deletedAt: Option<int>)

  const MAX_SIZE: nat := 20000000
  const VALID_EXTENSIONS: seq<string> := ["png", "jpg", "jpeg", "tiff", "pdf"]
  const MSG_INVALID_EXTENSION: string := "Extensão inválida, formatos aceitos: ('png', 'jpg', 'jpeg', 'tiff', 'pdf')"
  const MSG_TOO_LARGE: string := "O Tamanho do arquivo não pode exceder 20 MB"

  // ---------------------------------------------------------------------
  // save

  /** An unset or empty extension is not checked. */
  predicate ExtensionAccepted(extensao: Option<string>) {
    extensao.None? || extensao.value == "" || extensao.value in VALID_EXTENSIONS
  }

  /** The attached file's checks: the extension first, then the size. */
  function CheckFile(a: Attachment): (r: Result<()>)
    requires a.fileSize.Some?
    ensures r.Ok? <==> ExtensionAccepted(a.extensao) && a.fileSize.value <= MAX_SIZE
    ensures r.Err? ==> (r.message == MSG_INVALID_EXTENSION <==> !ExtensionAccepted(a.extensao))
    ensures r.Err? ==> r.message in {MSG_INVALID_EXTENSION, MSG_TOO_LARGE}
  {
    if !ExtensionAccepted(a.extensao) then Err(MSG_INVALID_EXTENSION)
    else if a.fileSize.value > MAX_SIZE then Err(MSG_TOO_LARGE)
    else Ok(())
  }

  /** The attachment `save` checks: the pending-item file when one is
      attached, else the regularization file. */
  function CheckedAttachment(reg: Regularization): Option<Attachment> {
    if reg.pendencia.fileSize.Some? then Some(reg.pendencia)
    else if reg.regularizacao.fileSize.Some? then Some(reg.regularizacao)
    else None
  }

  /** Saving stores the record unchanged, or raises the validation error of
      the checked attachment. */
  function Save(reg: Regularization): (r: Result<Regularization>)
    ensures r.Ok? ==> r.value == reg
    ensures r.Ok? <==> (forall a :: CheckedAttachment(reg) == Some(a) ==>
                          (ExtensionAccepted(a.extensao) && a.fileSize.Some? && a.fileSize.value <= MAX_SIZE))
    ensures reg.pendencia.fileSize.None? && reg.regularizacao.fileSize.None? ==> r.Ok?
  {
    match CheckedAttachment(reg)
    case None => Ok(reg)
    case Some(a) =>
      match CheckFile(a)
      case Err(m) => Err(m)
      case Ok(_) => Ok(reg)
  }

  /** With a pending-item file attached, the regularization file is not
      looked at: any regularization attachment saves alike. */
  lemma PendingFileShadowsRegularization(reg: Regularization, other: Attachment)
    requires reg.pendencia.fileSize.Some?
    ensures Save(reg.(regularizacao := other)).Ok? == Save(reg).Ok?
  {
  }

  /** `delete` is soft: it clears the active flag, stamps the deletion time
      and saves, so it raises exactly when saving the record would. */
  function Delete(reg: Regularization, now: int): (r: Result<Regularization>)
    ensures r.Ok? <==> Save(reg).Ok?
    ensures r.Ok? ==> (!r.value.active && r.value.deletedAt == Some(now)
                       && r.value.pendencia == reg.pendencia && r.value.regularizacao == reg.regularizacao)
  {
    Save(reg.(active := false, deletedAt := Some(now)))
  }

  // ---------------------------------------------------------------------
  // name_with_extension_*

  /** Python's `str()` of an optional text. */
  function PyStr(o: Option<string>): string {
    if o.None? then "None" else o.value
  }

  function NameWithExtension(a: Attachment): (r: string)
    ensures StartsWith(r, a.nome) && EndsWith(r, "." + PyStr(a.extensao))
    ensures |r| == |a.nome| + 1 + |PyStr(a.extensao)|
  {
    a.nome + "." + PyStr(a.extensao)
  }

  /** The text after the last `c`, the whole text when it has none. */
  function AfterLast(s: string, c: char): (r: string)
    ensures c !in r
    ensures EndsWith(s, r)
  {
    if |s| == 0 then ""
    else if s[|s| - 1] == c then ""
    else AfterLast(s[..|s| - 1], c) + [s[|s| - 1]]
  }

  /** The extension is what follows the last dot of the name with
      extension, whatever dots the name itself holds. */
  lemma {:induction false} ExtensionRecovered(a: Attachment)
    requires a.extensao.Some? && '.' !in a.extensao.value
    ensures AfterLast(NameWithExtension(a), '.') == a.extensao.value
  {
    AfterLastPastSeparator(a.nome, '.', a.extensao.value);
  }

  lemma {:induction false} AfterLastPastSeparator(x: string, c: char, y: string)
    requires c !in y
    ensures AfterLast(x + [c] + y, c) == y
    decreases |y|
  {
    var s := x + [c] + y;
    if |y| > 0 {
      var y' := y[..|y| - 1];
      assert s[..|s| - 1] == x + [c] + y';
      AfterLastPastSeparator(x, c, y');
      assert y == y' + [y[|y| - 1]];
    } else {
      assert s[|s| - 1] == c;
    }
  }

  // ---------------------------------------------------------------------
  // is_stored_on_s3_*, extract_object_key_from_url_*, extract_bucket_name_from_url_*

  const S3_HOST: string := "s3.amazonaws.com"

  /** `'s3.amazonaws.com' in url`; an unset URL raises. */
  function IsStoredOnS3(url: Option<string>): (r: Result<bool>)
    ensures r.Ok? <==> url.Some?
    ensures r.Ok? ==> (r.value <==> exists i | 0 <= i <= |url.value| - |S3_HOST| :: OccursAt(url.value, S3_HOST, i))
  {
    if url.None? then Err("TypeError") else Ok(Contains(url.value, S3_HOST))
  }

  /** The text after the first '.com/' up to the next '.com/' or '?'; a URL
      without '.com/' raises. */
  function ObjectKey(url: Option<string>): (r: Result<string>)
    ensures r.Ok? <==> url.Some? && Contains(url.value, ".com/")
    ensures url.Some? && !Contains(url.value, ".com/") ==> r == Err("IndexError")
    ensures r.Ok? ==> '?' !in r.value
    ensures r.Ok? ==>
      var rest := url.value[Find(url.value, ".com/").value + 5..];
      StartsWith(rest, r.value)
      && (|r.value| < |rest| ==> rest[|r.value|] == '?' || OccursAt(rest, ".com/", |r.value|))
  {
    if url.None? then Err("AttributeError")
    else
      SecondPiece(url.value, ".com/");
      match SplitAt(url.value, ".com/", 1)
      case None => Err("IndexError")
      case Some(piece) =>
        var rest := url.value[Find(url.value, ".com/").value + 5..];
        FirstPiece(rest, ".com/");
        Ok(KeyBeforeQuery(piece))
  }

  /** `s.split(sep)[1]` exists exactly when `sep` occurs, and is the first
      piece of what follows its first occurrence. */
  lemma SecondPiece(s: string, sep: string)
    requires |sep| > 0
    ensures SplitAt(s, sep, 1).Some? <==> Contains(s, sep)
    ensures Contains(s, sep) ==> SplitAt(s, sep, 1) == SplitAt(s[Find(s, sep).value + |sep|..], sep, 0)
  {
  }

  /** `s.split(sep)[0]` is a prefix of `s` ended by `sep` or by the end. */
  lemma FirstPiece(s: string, sep: string)
    requires |sep| > 0
    ensures SplitAt(s, sep, 0).Some?
    ensures StartsWith(s, SplitAt(s, sep, 0).value)
    ensures |SplitAt(s, sep, 0).value| < |s| ==> OccursAt(s, sep, |SplitAt(s, sep, 0).value|)
    ensures forall j :: 0 <= j < |SplitAt(s, sep, 0).value| ==> !OccursAt(s, sep, j)
  {
  }

  function KeyBeforeQuery(piece: string): (r: string)
    ensures '?' !in r
    ensures StartsWith(piece, r)
    ensures |r| < |piece| ==> piece[|r|] == '?'
  {
    var f := Find(piece, "?");
    if f.None? then
      PrefixWithoutChar(piece, '?', |piece|);
      assert piece[..|piece|] == piece;
      piece
    else
      PrefixWithoutChar(piece, '?', f.value);
      assert piece[f.value..f.value + 1] == "?";
      piece[..f.value]
  }

  lemma PrefixWithoutChar(s: string, c: char, i: nat)
    requires i <= |s| && forall j :: 0 <= j < i ==> !OccursAt(s, [c], j)
    ensures c !in s[..i]
  {
    forall j | 0 <= j < i
      ensures s[j] != c
    {
      assert !OccursAt(s, [c], j);
      assert s[j..j + 1] == [s[j]];
    }
  }

  /** The first dot-separated part of the host: the text between the
      second and third '/' up to its first '.'; a URL with fewer than two
      '/' raises. */
  function BucketName(url: Option<string>): (r: Result<string>)
    ensures r.Ok? <==> url.Some? && SplitAt(url.value, "/", 2).Some?
    ensures r.Ok? ==>
      var host := SplitAt(url.value, "/", 2).value;
      StartsWith(host, r.value) && '.' !in r.value && (|r.value| < |host| ==> host[|r.value|] == '.')
  {
    if url.None? then Err("AttributeError")
    else match SplitAt(url.value, "/", 2)
      case None => Err("IndexError")
      case Some(host) =>
        FirstPiece(host, ".");
        var b := SplitAt(host, ".", 0).value;
        forall j | 0 <= j < |b| ensures b[j] != '.' {
          assert !OccursAt(host, ".", j);
          assert host[j..j + 1] == [host[j]];
        }
        Ok(b)
  }

  /** The virtual-hosted URL of an object in a bucket. */
  function S3Url(bucket: string, key: string): string {
    "https://" + bucket + "." + S3_HOST + "/" + key
  }

  /** Reading the URL of a stored object gives back its bucket and key, and
      it counts as stored on S3, for a bucket without '.' or '/' and a key
      without '?' or '.com/'. */
  lemma {:induction false} S3UrlRoundTrip(bucket: string, key: string)
    requires '.' !in bucket && '/' !in bucket
    requires '?' !in key && !Contains(key, ".com/")
    ensures IsStoredOnS3(Some(S3Url(bucket, key))) == Ok(true)
    ensures ObjectKey(Some(S3Url(bucket, key))) == Ok(key)
    ensures BucketName(Some(S3Url(bucket, key))) == Ok(bucket)
  {
    var url := S3Url(bucket, key);
    var pre := "https://" + bucket;
    assert OccursAt(url, S3_HOST, |pre| + 1) by {
      assert url == pre + "." + S3_HOST + "/" + key;
    }
    KeyAfterHost(bucket, key);
    BucketBeforeHost(bucket, key);
  }

  lemma KeyAfterHost(bucket: string, key: string)
    requires '.' !in bucket
    requires '?' !in key && !Contains(key, ".com/")
    ensures ObjectKey(Some(S3Url(bucket, key))) == Ok(key)
  {
    var a := "https://" + bucket + ".s3.amazonaws";
    NoComBeforeHost(bucket, key);
    SplitAfterFirst(a, ".com/", key, 0);
    SplitWithoutChar(key, '?');
  }

  /** No '.com/' starts before the one that ends the S3 host. */
  lemma NoComBeforeHost(bucket: string, key: string)
    requires '.' !in bucket
    ensures var a := "https://" + bucket + ".s3.amazonaws";
      S3Url(bucket, key) == a + ".com/" + key
      && forall j :: 0 <= j < |a| ==> !OccursAt(S3Url(bucket, key), ".com/", j)
  {
    var a := "https://" + bucket + ".s3.amazonaws";
    var url := S3Url(bucket, key);
    assert url == a + ".com/" + key;
    forall j | 0 <= j < |a|
      ensures !OccursAt(url, ".com/", j)
    {
      if j < 8 + |bucket| {
        assert url[j] == ("https://" + bucket)[j];
        assert url[j] != '.';
      } else {
        var tail := ".s3.amazonaws.com/";
        assert url[j] == tail[j - 8 - |bucket|] && url[j + 1] == tail[j + 1 - 8 - |bucket|];
        assert url[j] != '.' || url[j + 1] != 'c';
      }
      OccursAtHead(url, ".com/", j);
    }
  }

  /** An occurrence starts with the pattern's first two characters. */
  lemma OccursAtHead(s: string, p: string, j: int)
    requires |p| >= 2
    ensures OccursAt(s, p, j) ==> s[j] == p[0] && s[j + 1] == p[1]
  {
    if OccursAt(s, p, j) {
      assert s[j..j + |p|][0] == s[j] && s[j..j + |p|][1] == s[j + 1];
    }
  }

  lemma BucketBeforeHost(bucket: string, key: string)
    requires '.' !in bucket && '/' !in bucket
    ensures BucketName(Some(S3Url(bucket, key))) == Ok(bucket)
  {
    HostOfS3Url(bucket, key);
    BucketOfHost(bucket);
  }

  lemma HostOfS3Url(bucket: string, key: string)
    requires '/' !in bucket
    ensures SplitAt(S3Url(bucket, key), "/", 2) == Some(bucket + ".s3.amazonaws.com")
  {
    var host := bucket + ".s3.amazonaws.com";
    var tail := host + "/" + key;
    var rest := "" + "/" + tail;
    S3UrlShape(bucket, key);
    SchemeSkipped(rest);
    SplitAfterFirst("", "/", tail, 0);
    HostPiece(host, key);
  }

  lemma S3UrlShape(bucket: string, key: string)
    ensures S3Url(bucket, key) == "https:" + "/" + ("" + "/" + (bucket + ".s3.amazonaws.com" + "/" + key))
  {
  }

  lemma SchemeSkipped(rest: string)
    ensures SplitAt("https:" + "/" + rest, "/", 2) == SplitAt(rest, "/", 1)
  {
    CharSeparator("https:", '/', rest);
    SplitAfterFirst("https:", "/", rest, 1);
  }

  lemma HostPiece(host: string, key: string)
    requires '/' !in host
    ensures SplitAt(host + "/" + key, "/", 0) == Some(host)
  {
    CharSeparator(host, '/', key);
    SplitAfterFirst(host, "/", key, 0);
  }

  lemma BucketOfHost(bucket: string)
    requires '.' !in bucket
    ensures SplitAt(bucket + ".s3.amazonaws.com", ".", 0) == Some(bucket)
  {
    assert bucket + ".s3.amazonaws.com" == bucket + "." + "s3.amazonaws.com";
    CharSeparator(bucket, '.', "s3.amazonaws.com");
    SplitAfterFirst(bucket, ".", "s3.amazonaws.com", 0);
  }
}
