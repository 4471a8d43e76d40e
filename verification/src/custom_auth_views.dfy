/** The user-facing views of custom_auth/views.py: the supervisor choices
    for a Corban and level, the S3 key, content type and record fields of a
    user's uploaded document, and the guards of the password change. */
module CustomAuthViews {
  import opened Common
  import CustomAuthModels

  // ---------------------------------------------------------------------
  // get_corban

  /** `EnumNivelHierarquia`'s typist level, the default; the level table is
      not part of this model. */
  const DIGITADOR: int := 1

  /** The level the request selects: its `nivel` parameter when it is a
      non-empty run of digits, else the typist level. */
  function SelectedLevel(nivel: Option<string>): (r: int)
    ensures nivel.Some? && nivel.value != "" && AllDigits(nivel.value) ==> r == ParseNat(nivel.value)
    ensures !(nivel.Some? && nivel.value != "" && AllDigits(nivel.value)) ==> r == DIGITADOR
  {
    if nivel.Some? && nivel.value != "" && AllDigits(nivel.value) then ParseNat(nivel.value) else DIGITADOR
  }

  /** A supervisor choice: the blank default or a user. */
  datatype Choice = Blank | Supervisor(id: int)

  function UsersAtLevel(users: seq<CustomAuthModels.User>, corbanId: int, level: int): (r: seq<int>)
    ensures forall k :: 0 <= k < |r| ==> exists u :: u in users && u.id == r[k] && u.corban == Some(corbanId) && u.nivel == Some(level)
    ensures forall u :: u in users && u.corban == Some(corbanId) && u.nivel == Some(level) ==> u.id in r
    ensures |r| <= |users|
  {
    if |users| == 0 then []
    else (if users[0].corban == Some(corbanId) && users[0].nivel == Some(level) then [users[0].id] else [])
         + UsersAtLevel(users[1..], corbanId, level)
  }

  /** The supervisor list: the blank option first, then the Corban's users
      one level above the selected one, in database order. */
  function SupervisorChoices(users: seq<CustomAuthModels.User>, corbanId: int, nivel: Option<string>): (r: seq<Choice>)
    ensures |r| >= 1 && r[0] == Blank
    ensures forall k :: 1 <= k < |r| ==>
      (r[k].Supervisor? &&
       exists u :: u in users && u.id == r[k].id && u.corban == Some(corbanId) && u.nivel == Some(SelectedLevel(nivel) + 1))
    ensures forall u :: u in users && u.corban == Some(corbanId) && u.nivel == Some(SelectedLevel(nivel) + 1) ==>
      Supervisor(u.id) in r
  {
    var ids := UsersAtLevel(users, corbanId, SelectedLevel(nivel) + 1);
    var r := [Blank] + seq(|ids|, (k: int) requires 0 <= k < |ids| => Supervisor(ids[k]));
    assert forall k :: 1 <= k < |r| ==> r[k] == Supervisor(ids[k - 1]);
    assert forall j :: 0 <= j < |ids| ==> r[j + 1] == Supervisor(ids[j]);
    r
  }

  /** A level that is not a run of digits offers the typists' supervisors. */
  lemma MalformedLevelOffersTypistSupervisors(users: seq<CustomAuthModels.User>, corbanId: int)
    ensures SupervisorChoices(users, corbanId, Some("2a")) == SupervisorChoices(users, corbanId, None)
  {
    assert !AllDigits("2a") by { assert !IsDigit("2a"[1]); }
  }

  // ---------------------------------------------------------------------
  // UploadDocumentosUsuarioAPIView: gerar_nome_arquivo, determinar_content_type, gerar_data

  /** The document kinds a user uploads; `Other` is any other attachment
      code. */
  datatype DocumentKind = DocumentoFrente | DocumentoVerso | Cnh | Selfie | Other(code: int)

  function KindSuffix(kind: DocumentKind): string
    requires !kind.Other?
  {
    match kind
    case DocumentoFrente => "documento_frente"
    case DocumentoVerso => "documento_verso"
    case Cnh => "cnh"
    case Selfie => "selfie"
  }

  /** The object key `{uid}/{uid}_{kind}.{ext}`; other kinds raise. */
  function FileKey(uid: string, kind: DocumentKind, ext: string): (r: Result<string>)
    ensures r.Ok? <==> !kind.Other?
    ensures r.Ok? ==> StartsWith(r.value, uid + "/" + uid + "_") && EndsWith(r.value, "." + ext)
    ensures r.Err? ==> r.message == "Tipo de anexo não suportado: " + IntToString(kind.code)
  {
    if kind.Other? then Err("Tipo de anexo não suportado: " + IntToString(kind.code))
    else Ok(KeyOf(uid, KindSuffix(kind), ext))
  }

  function KeyOf(uid: string, suffix: string, ext: string): string {
    uid + "/" + uid + "_" + suffix + "." + ext
  }

  /** The user's folder is the key's first path piece when the id holds
      no '/'. */
  lemma FileKeyFolder(uid: string, kind: DocumentKind, ext: string)
    requires '/' !in uid && !kind.Other?
    ensures SplitAt(FileKey(uid, kind, ext).value, "/", 0) == Some(uid)
  {
    KeyFolder(uid, KindSuffix(kind), ext);
  }

  lemma KeyFolder(uid: string, suffix: string, ext: string)
    requires '/' !in uid
    ensures SplitAt(KeyOf(uid, suffix, ext), "/", 0) == Some(uid)
  {
    var tail := uid + "_" + suffix + "." + ext;
    assert KeyOf(uid, suffix, ext) == uid + "/" + tail;
    CharSeparator(uid, '/', tail);
    SplitAfterFirst(uid, "/", tail, 0);
  }

  /** Two supported kinds never share a key. */
  lemma FileKeysDistinct(uid: string, a: DocumentKind, b: DocumentKind, ext: string)
    requires !a.Other? && !b.Other? && a != b
    ensures FileKey(uid, a, ext) != FileKey(uid, b, ext)
  {
    SuffixesDiffer(a, b);
    NoDotInSuffix(a);
    NoDotInSuffix(b);
    KeyInjective(uid, KindSuffix(a), KindSuffix(b), ext);
  }

  /** Keys built from different dot-free suffixes differ. */
  lemma KeyInjective(uid: string, sa: string, sb: string, ext: string)
    requires '.' !in sa && '.' !in sb && sa != sb
    ensures KeyOf(uid, sa, ext) != KeyOf(uid, sb, ext)
  {
    var p := uid + "/" + uid + "_";
    var ta := sa + "." + ext;
    var tb := sb + "." + ext;
    assert KeyOf(uid, sa, ext) == p + ta && KeyOf(uid, sb, ext) == p + tb;
    assert (p + ta)[|p|..] == ta && (p + tb)[|p|..] == tb;
    if |sa| == |sb| {
      assert ta[..|sa|] == sa && tb[..|sb|] == sb;
    } else if |sa| < |sb| {
      assert ta[|sa|] == '.' && tb[|sa|] == sb[|sa|];
    } else {
      assert tb[|sb|] == '.' && ta[|sb|] == sa[|sb|];
    }
  }

  /** The suffixes differ in length or in their first letter's place. */
  lemma SuffixesDiffer(a: DocumentKind, b: DocumentKind)
    requires !a.Other? && !b.Other? && a != b
    ensures KindSuffix(a) != KindSuffix(b)
  {
    assert "documento_frente"[10] != "documento_verso"[10];
  }

  lemma NoDotInSuffix(k: DocumentKind)
    requires !k.Other?
    ensures '.' !in KindSuffix(k)
  {
  }

  /** `image/jpeg` for jpg and jpeg, `image/png` for png; anything else
      raises. */
  function ContentType(ext: string): (r: Result<string>)
    ensures r.Ok? <==> ext in {"jpg", "jpeg", "png"}
    ensures r.Ok? ==> (r.value == "image/png" <==> ext == "png")
    ensures r.Err? ==> r.message == "Extensão de arquivo não suportada: " + ext
  {
    if ext == "jpg" || ext == "jpeg" then Ok("image/jpeg")
    else if ext == "png" then Ok("image/png")
    else Err("Extensão de arquivo não suportada: " + ext)
  }

  /** A field the stored record receives: left alone, or set to a value
      (`None` is Python's `None`). */
  datatype FieldWrite = Untouched | SetTo(url: Option<string>)

  datatype DocumentData = DocumentData(kind: DocumentKind, selfieUrl: FieldWrite, anexoUrl: FieldWrite,
                                       versoUrl: FieldWrite)

  /** The selfie's URL goes to the selfie field, the front's and the
      driver's licence's to the attachment field; the back clears the
      back field and stores no URL. */
  function DocumentFields(url: Option<string>, kind: DocumentKind): (r: DocumentData)
    ensures r.kind == kind
    ensures r.selfieUrl != Untouched <==> kind == Selfie
    ensures r.anexoUrl != Untouched <==> kind in {DocumentoFrente, Cnh}
    ensures r.versoUrl != Untouched <==> kind == DocumentoVerso
    ensures r.selfieUrl.SetTo? ==> r.selfieUrl.url == url
    ensures r.anexoUrl.SetTo? ==> r.anexoUrl.url == url
    ensures r.versoUrl.SetTo? ==> r.versoUrl.url.None?
  {
    if kind == Selfie then DocumentData(kind, SetTo(url), Untouched, Untouched)
    else if kind in {DocumentoFrente, Cnh} then DocumentData(kind, Untouched, SetTo(url), Untouched)
    else if kind == DocumentoVerso then DocumentData(kind, Untouched, Untouched, SetTo(None))
    else DocumentData(kind, Untouched, Untouched, Untouched)
  }

  // ---------------------------------------------------------------------
  // change_user_password

  const MSG_ALL_FIELDS: string := "Todos os campos são obrigatórios"
  const MSG_CONFIRMATION: string := "Confirmação de senha não confere"
  const MSG_WRONG_DATA: string := "Informações incorretas, confira os dados e tente novamente."

  datatype PasswordReply = PasswordReply(code: int, error: string, changed: bool)

  /** The request's fields (an absent one is empty), whether the token is
      known, and whether the old password authenticates its user. */
  function ChangePassword(oldPassword: string, newPassword: string, confirm: string, token: string,
                          tokenKnown: bool, authenticates: bool): (r: PasswordReply)
    ensures r.changed <==> r.code == 200
    ensures r.code == 200 <==> oldPassword != "" && newPassword != "" && confirm != "" && token != ""
                               && newPassword == confirm && tokenKnown && authenticates
    ensures (oldPassword == "" || newPassword == "" || confirm == "" || token == "") ==>
      r == PasswordReply(400, MSG_ALL_FIELDS, false)
    ensures r.code == 400 && r.error == MSG_CONFIRMATION ==> newPassword != confirm
    ensures r.code == 404 <==> oldPassword != "" && newPassword != "" && confirm != "" && token != ""
                               && newPassword == confirm && !tokenKnown
  {
    if oldPassword == "" || newPassword == "" || token == "" || confirm == "" then
      PasswordReply(400, MSG_ALL_FIELDS, false)
    else if newPassword != confirm then PasswordReply(400, MSG_CONFIRMATION, false)
    else if !tokenKnown then PasswordReply(404, "", false)
    else if authenticates then PasswordReply(200, "", true)
    else PasswordReply(400, MSG_WRONG_DATA, false)
  }
}
