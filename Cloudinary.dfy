/*
 * The image-upload helper of the profile page: the checks an upload goes through before
 * any request is built, the classification of the upload's completion, and the URL of a
 * transformed image.
 */
module Cloudinary {
  import opened Js

  /** A browser File as far as the checks look at it: its MIME type and its size in bytes. */
  datatype File = File(mime: string, size: nat)

  /** One entry of the multipart form sent with an upload. */
  datatype FormValue = FileValue(file: File) | Text(text: string)

  /** The POST an accepted upload sends. */
  datatype UploadRequest = UploadRequest(url: string, form: seq<(string, FormValue)>)

  /** What `uploadImage` does: report one message through `onError` and stop, or send the request. */
  datatype UploadStart = Reported(message: string) | Sent(request: UploadRequest)

  /** The body of the upload's response, as `JSON.parse` sees it: not JSON, the JSON `null`, or a value whose `secure_url` and `error?.message` are these. */
  datatype ResponseBody = NotJson | JsonNull | JsonValue(secureUrl: JsValue, errorMessage: JsValue)

  /** The events the upload's XMLHttpRequest listens to. */
  datatype XhrEvent = Load(status: int, body: ResponseBody) | ConnectionError | TimedOut

  /** The one callback an event ends in. */
  datatype Callback = OnSuccess(url: JsValue) | OnError(message: JsValue)

  const NotConfiguredMessage: string := "Cloudinary não configurado corretamente"
  const NoFileMessage: string := "Nenhum arquivo selecionado"
  const UnsupportedTypeMessage: string := "Tipo de arquivo não suportado. Use JPG, PNG, GIF, WebP, BMP ou TIFF"
  const TooLargeMessage: string := "Arquivo muito grande. Máximo permitido: 10MB"
  const InvalidResponseMessage: string := "Resposta inválida do Cloudinary"
  const ProcessingMessage: string := "Erro ao processar resposta do servidor"
  const UploadFailedMessage: string := "Erro no upload"
  const ConnectionMessage: string := "Erro de conexão com o servidor"
  const TimeoutMessage: string := "Timeout no upload. Tente novamente"

  /** 10 MB, the largest accepted file. */
  const MaxSize: nat := 10 * 1024 * 1024

  /** The accepted MIME types, compared after lower-casing. */
  const ValidTypes: seq<string> := [
    "image/jpeg", "image/jpg", "image/png", "image/gif", "image/webp", "image/bmp", "image/tiff"
  ]

  /** The subtypes the whitelist accepts under `image/`. */
  const ImageSubtypes: set<string> := {"jpeg", "jpg", "png", "gif", "webp", "bmp", "tiff"}

  class CloudinaryManager {
    var cloudName: Option<string>
    var uploadPreset: Option<string>
    var apiKey: Option<string>

    /** The three settings come from the build environment; a missing one is None. */
    constructor(cloudName: Option<string>, uploadPreset: Option<string>, apiKey: Option<string>)
      ensures this.cloudName == cloudName && this.uploadPreset == uploadPreset && this.apiKey == apiKey
    {
      this.cloudName := cloudName;
      this.uploadPreset := uploadPreset;
      this.apiKey := apiKey;
    }

    /** Both the cloud name and the upload preset are set and non-empty. */
    predicate Configured()
      reads this
    {
      Truthy(cloudName) && Truthy(uploadPreset)
    }

    function IsValidImageFile(file: File): bool {
      ToLowerCase(file.mime) in ValidTypes
    }

    /** `uploadImage`: the checks in order, each failing one reporting its message and stopping. */
    function UploadImage(file: Option<File>): (r: UploadStart)
      reads this
      ensures r == Reported(NotConfiguredMessage) <==> !Configured()
      ensures r == Reported(NoFileMessage) <==> Configured() && file.None?
      ensures r == Reported(UnsupportedTypeMessage) <==> Configured() && file.Some? && !IsValidImageFile(file.value)
      ensures r == Reported(TooLargeMessage) <==> Configured() && file.Some? && IsValidImageFile(file.value) && file.value.size > MaxSize
      ensures r.Sent? <==> Configured() && file.Some? && IsValidImageFile(file.value) && file.value.size <= MaxSize
      ensures r.Sent? ==> r.request.url == "https://api.cloudinary.com/v1_1/" + cloudName.value + "/image/upload"
      ensures r.Sent? ==> |r.request.form| == 6 && r.request.form[0] == ("file", FileValue(file.value)) && r.request.form[1] == ("upload_preset", Text(uploadPreset.value))
      ensures r.Sent? ==> r.request.form[2] == ("cloud_name", Text(cloudName.value))
      ensures r.Sent? ==> r.request.form[3] == ("quality", Text("auto")) && r.request.form[4] == ("fetch_format", Text("auto"))
      ensures r.Sent? ==> r.request.form[5] == ("folder", Text("profile_pictures"))
    {
      if !Configured() then Reported(NotConfiguredMessage)
      else if file.None? then Reported(NoFileMessage)
      else if !IsValidImageFile(file.value) then Reported(UnsupportedTypeMessage)
      else if file.value.size > MaxSize then Reported(TooLargeMessage)
      else
        Sent(UploadRequest(
          "https://api.cloudinary.com/v1_1/" + cloudName.value + "/image/upload",
          [ ("file", FileValue(file.value)),
            ("upload_preset", Text(uploadPreset.value)),
            ("cloud_name", Text(cloudName.value)),
            ("quality", Text("auto")),
            ("fetch_format", Text("auto")),
            ("folder", Text("profile_pictures")) ]))
    }

    /** `getTransformedUrl(publicId, transformations)` */
    function GetTransformedUrl(publicId: Option<string>, transformations: Obj<JsValue>): (r: string)
      requires Valid(transformations)
      reads this
      ensures r == "" <==> !Truthy(cloudName) || !Truthy(publicId)
    {
      if !Truthy(cloudName) || !Truthy(publicId) then ""
      else BaseUrl(cloudName.value) + "/" + TransformString(FinalTransforms(transformations)) + "/" + publicId.value
    }
  }

  /** The listener of an upload event: the load outcome, a connection error, or the 60 s timeout. */
  function OnXhrEvent(e: XhrEvent): (r: Callback)
    ensures r.OnSuccess? ==> e.Load? && e.status == 200
  {
    match e
    case Load(status, body) => OnLoad(status, body)
    case ConnectionError => OnError(JStr(ConnectionMessage))
    case TimedOut => OnError(JStr(TimeoutMessage))
  }

  /**
   * The load listener. On status 200 the body's `secure_url` goes to `onSuccess`; an unparsable
   * body, or `null` (whose property read throws), is caught. On any other status the body's
   * `error?.message` is reported, or the status itself when the body does not parse.
   */
  function OnLoad(status: int, body: ResponseBody): (r: Callback)
    ensures r.OnSuccess? <==> status == 200 && body.JsonValue? && TruthyValue(body.secureUrl)
    ensures r.OnSuccess? ==> r.url == body.secureUrl
    ensures status == 200 && body.JsonValue? && !TruthyValue(body.secureUrl) ==> r == OnError(JStr(InvalidResponseMessage))
    ensures status == 200 && !body.JsonValue? ==> r == OnError(JStr(ProcessingMessage))
    ensures status != 200 && body.JsonValue? ==>
      r == OnError(if TruthyValue(body.errorMessage) then body.errorMessage else JStr(UploadFailedMessage))
    ensures status != 200 && !body.JsonValue? ==> r == OnError(JStr(HttpErrorMessage(status)))
    ensures status != 200 ==> r.OnError? && TruthyValue(r.message)
  {
    if status == 200 then
      match body
      case JsonValue(url, _) => if TruthyValue(url) then OnSuccess(url) else OnError(JStr(InvalidResponseMessage))
      case _ => OnError(JStr(ProcessingMessage))
    else
      match body
      case JsonValue(_, message) => OnError(if TruthyValue(message) then message else JStr(UploadFailedMessage))
      case _ => OnError(JStr(HttpErrorMessage(status)))
  }

  function HttpErrorMessage(status: int): string {
    "Erro HTTP: " + IntToString(status)
  }

  /** A failed upload whose body does not parse reports the HTTP status, readable back from the message. */
  lemma OnLoadReportsStatus(status: nat, body: ResponseBody)
    requires status != 200 && !body.JsonValue?
    ensures OnLoad(status, body).OnError? && OnLoad(status, body).message.JStr?
    ensures var msg := OnLoad(status, body).message.s;
      |msg| > 11 && msg[..11] == "Erro HTTP: " && ParseNat(msg[11..]) == status
  {
    HttpErrorMessageCarriesStatus(status);
  }

  function BaseUrl(cloudName: string): string {
    "https://res.cloudinary.com/" + cloudName + "/image/upload"
  }

  /** The default transformations for a profile picture, in their literal's order. */
  const DefaultKeys: seq<PropertyKey> := [Name("width"), Name("height"), Name("crop"), Name("gravity"), Name("quality"), Name("format")]

  const DefaultTransforms: Obj<JsValue> := Obj(DefaultKeys, map[
    Name("width") := JNum(200), Name("height") := JNum(200), Name("crop") := JStr("fill"),
    Name("gravity") := JStr("face"), Name("quality") := JStr("auto"), Name("format") := JStr("auto")])

  lemma DefaultTransformsValid()
    ensures Valid(DefaultTransforms)
  {
    forall i | 0 <= i < |DefaultKeys| ensures ValidKey(DefaultKeys[i]) {
      NameKeyValid(DefaultKeys[i].s);
    }
    forall i, j | 0 <= i < j < |DefaultKeys| ensures InOrder(DefaultKeys[i], DefaultKeys[j]) {
      assert DefaultKeys[i].s[0] != DefaultKeys[j].s[0];
    }
    forall k | k in DefaultTransforms.vals ensures k in DefaultKeys {
    }
  }

  /** A name that does not start with a digit is not an array index. */
  lemma NameKeyValid(s: string)
    requires s != [] && !IsDigit(s[0])
    ensures ValidKey(Name(s))
  {
  }

  /** `{ ...defaultTransforms, ...transformations }` */
  function FinalTransforms(transformations: Obj<JsValue>): (r: Obj<JsValue>)
    requires Valid(transformations)
    ensures Valid(r)
  {
    DefaultTransformsValid();
    Spread(Spread(Empty(), DefaultTransforms), transformations)
  }

  /** `Object.entries(o).map(([key, value]) => `${key}_${value}`)` */
  function Entries(o: Obj<JsValue>): (r: seq<string>)
    requires Valid(o)
    ensures |r| == |o.keys|
    ensures forall i :: 0 <= i < |r| ==> r[i] == KeyToString(o.keys[i]) + "_" + ToJsString(o.vals[o.keys[i]])
  {
    seq(|o.keys|, i requires 0 <= i < |o.keys| && Valid(o) => KeyToString(o.keys[i]) + "_" + ToJsString(o.vals[o.keys[i]]))
  }

  function TransformString(o: Obj<JsValue>): string
    requires Valid(o)
  {
    Join(Entries(o), ",")
  }

  // ---------------------------------------------------------------------------
  // Properties
  // ---------------------------------------------------------------------------

  /** The whitelist is `image/` followed by one of seven subtypes, in any letter case. */
  lemma IsValidImageFileExactly(m: CloudinaryManager, f: File)
    ensures m.IsValidImageFile(f) <==>
      var t := ToLowerCase(f.mime); |t| >= 6 && t[..6] == "image/" && t[6..] in ImageSubtypes
  {
    var t := ToLowerCase(f.mime);
    if |t| >= 6 && t[..6] == "image/" && t[6..] in ImageSubtypes {
      var sub := t[6..];
      assert t == "image/" + sub;
      WhitelistedSubtype(sub);
    }
    if t in ValidTypes {
      var i :| 0 <= i < |ValidTypes| && ValidTypes[i] == t;
      WhitelistedType(i);
    }
  }

  lemma WhitelistedSubtype(sub: string)
    requires sub in ImageSubtypes
    ensures "image/" + sub in ValidTypes
  {
    if sub == "jpeg" { assert "image/" + sub == ValidTypes[0]; }
    else if sub == "jpg" { assert "image/" + sub == ValidTypes[1]; }
    else if sub == "png" { assert "image/" + sub == ValidTypes[2]; }
    else if sub == "gif" { assert "image/" + sub == ValidTypes[3]; }
    else if sub == "webp" { assert "image/" + sub == ValidTypes[4]; }
    else if sub == "bmp" { assert "image/" + sub == ValidTypes[5]; }
    else { assert "image/" + sub == ValidTypes[6]; }
  }

  lemma WhitelistedType(i: int)
    requires 0 <= i < |ValidTypes|
    ensures |ValidTypes[i]| >= 6 && ValidTypes[i][..6] == "image/" && ValidTypes[i][6..] in ImageSubtypes
  {
  }

  /** Letter case does not matter: a type and its lower-cased form are judged alike. */
  lemma IsValidImageFileIgnoresCase(m: CloudinaryManager, mime: string, size: nat)
    ensures m.IsValidImageFile(File(mime, size)) == m.IsValidImageFile(File(ToLowerCase(mime), size))
  {
    assert ToLowerCase(ToLowerCase(mime)) == ToLowerCase(mime);
  }

  /** The size bound is inclusive: exactly 10 MB is sent, one byte more is refused. */
  lemma UploadSizeBoundInclusive(m: CloudinaryManager, mime: string)
    requires m.Configured() && m.IsValidImageFile(File(mime, MaxSize))
    ensures m.UploadImage(Some(File(mime, MaxSize))).Sent?
    ensures m.UploadImage(Some(File(mime, MaxSize + 1))) == Reported(TooLargeMessage)
  {
    assert m.IsValidImageFile(File(mime, MaxSize + 1));
  }

  /** The status in an HTTP error message reads back from the text after its prefix. */
  lemma HttpErrorMessageCarriesStatus(status: nat)
    ensures var msg := HttpErrorMessage(status); |msg| > 11 && msg[..11] == "Erro HTTP: " && ParseNat(msg[11..]) == status
  {
    var msg := HttpErrorMessage(status);
    assert msg[11..] == NatToString(status);
    ParseNatToString(status);
  }

  lemma {:induction false} NewKeysOfEmpty<V>(ks: seq<PropertyKey>, m: map<PropertyKey, V>)
    requires m == map[]
    ensures NewKeys(ks, m) == ks
    decreases |ks|
  {
    if ks != [] {
      NewKeysOfEmpty(ks[1..], m);
    }
  }

  /** Spreading the defaults into `{}` gives the defaults. */
  lemma SpreadDefaults()
    ensures Valid(DefaultTransforms)
    ensures Spread(Empty(), DefaultTransforms) == DefaultTransforms
  {
    DefaultTransformsValid();
    SpreadIntoEmpty(DefaultTransforms);
  }

  /** `{ ...o }` copies an object without array-index keys exactly, order included. */
  lemma SpreadIntoEmpty<V>(o: Obj<V>)
    requires Valid(o)
    requires forall k :: k in o.vals ==> k.Name?
    ensures Spread(Empty(), o) == o
  {
    SpreadNamedKeys(Empty(), o);
    NewKeysOfEmpty(o.keys, Empty<V>().vals);
    assert Empty<V>().keys + o.keys == o.keys;
    assert Empty<V>().vals + o.vals == o.vals;
  }

  /**
   * Overrides without array-index keys: an override of a default keeps the default's position
   * and takes the override's value, the other defaults stay, and the new keys follow the six
   * defaults in the order they were given.
   */
  lemma FinalTransformsOverride(t: Obj<JsValue>)
    requires Valid(t)
    requires forall k :: k in t.vals ==> k.Name?
    ensures FinalTransforms(t).keys == DefaultKeys + NewKeys(t.keys, DefaultTransforms.vals)
    ensures FinalTransforms(t).vals == DefaultTransforms.vals + t.vals
  {
    SpreadDefaults();
    SpreadNamedKeys(DefaultTransforms, t);
  }

  /** In the URL, the i-th entry still names the i-th default, with the override's value if there is one. */
  lemma OverrideEntry(t: Obj<JsValue>, i: int)
    requires Valid(t)
    requires forall k :: k in t.vals ==> k.Name?
    requires 0 <= i < 6
    ensures |FinalTransforms(t).keys| >= 6
    ensures var k := DefaultKeys[i];
      Entries(FinalTransforms(t))[i] ==
        KeyToString(k) + "_" + ToJsString(if k in t.vals then t.vals[k] else DefaultValues[i])
  {
    FinalTransformsOverride(t);
    DefaultValueAt(i);
  }

  /** The new keys are those not yet present, in their given order. */
  lemma {:induction false} NewKeysIsFilter<V>(ks: seq<PropertyKey>, m: map<PropertyKey, V>)
    ensures NewKeys(ks, m) == Filter(ks, Absent(m))
    decreases |ks|
  {
    if ks != [] {
      var init, x := ks[..|ks| - 1], ks[|ks| - 1];
      assert ks == init + [x];
      NewKeysIsFilter(init, m);
      NewKeysSnoc(init, x, m);
      FilterSnoc(init, x, Absent(m));
    }
  }

  function Absent<V>(m: map<PropertyKey, V>): PropertyKey -> bool {
    k => k !in m
  }

  lemma {:induction false} NewKeysSnoc<V>(ks: seq<PropertyKey>, x: PropertyKey, m: map<PropertyKey, V>)
    ensures NewKeys(ks + [x], m) == NewKeys(ks, m) + (if x in m then [] else [x])
    decreases |ks|
  {
    if ks == [] {
      assert [x][1..] == [];
    } else {
      assert (ks + [x])[1..] == ks[1..] + [x];
      NewKeysSnoc(ks[1..], x, m);
    }
  }

  /** The six `key_value` entries of the defaults, in the literal's order. */
  const DefaultEntryTexts: seq<string> := ["width_200", "height_200", "crop_fill", "gravity_face", "quality_auto", "format_auto"]

  /** With no overrides the URL carries the six defaults in their order, comma-joined. */
  lemma DefaultUrl(m: CloudinaryManager, publicId: string, cloudName: string)
    requires m.cloudName == Some(cloudName) && cloudName != "" && publicId != ""
    ensures m.GetTransformedUrl(Some(publicId), Empty()) ==
      BaseUrl(cloudName) + "/" + Join(DefaultEntryTexts, ",") + "/" + publicId
  {
    NoOverrides();
    DefaultEntries();
  }

  /** Without overrides the final transformations are the defaults. */
  lemma NoOverrides()
    ensures Valid(DefaultTransforms)
    ensures FinalTransforms(Empty()) == DefaultTransforms
  {
    SpreadDefaults();
  }

  lemma DefaultEntries()
    ensures Valid(DefaultTransforms)
    ensures Entries(DefaultTransforms) == DefaultEntryTexts
  {
    DefaultTransformsValid();
    forall i | 0 <= i < 6 ensures Entries(DefaultTransforms)[i] == DefaultEntryTexts[i] {
      DefaultEntry(i);
    }
  }

  lemma DefaultEntry(i: int)
    requires 0 <= i < 6
    ensures Valid(DefaultTransforms)
    ensures Entries(DefaultTransforms)[i] == DefaultEntryTexts[i]
  {
    DefaultTransformsValid();
    DefaultValueAt(i);
    DefaultTextAt(i);
  }

  lemma EntryTexts()
    ensures "width" + "_" + "200" == "width_200"
    ensures "height" + "_" + "200" == "height_200"
    ensures "crop" + "_" + "fill" == "crop_fill"
    ensures "gravity" + "_" + "face" == "gravity_face"
    ensures "quality" + "_" + "auto" == "quality_auto"
    ensures "format" + "_" + "auto" == "format_auto"
  {
  }

  lemma Digits200()
    ensures ToJsString(JNum(200)) == "200"
  {
    assert NatToString(2) == "2";
    assert NatToString(20) == "2" + "0" == "20";
    assert NatToString(200) == "20" + "0" == "200";
  }

  /** The default values, in the literal's order. */
  const DefaultValues: seq<JsValue> := [JNum(200), JNum(200), JStr("fill"), JStr("face"), JStr("auto"), JStr("auto")]
  lemma DefaultValueAt(i: int)
    requires 0 <= i < 6
    ensures DefaultTransforms.vals[DefaultKeys[i]] == DefaultValues[i]
  {
  }
  lemma DefaultTextAt(i: int)
    requires 0 <= i < 6
    ensures KeyToString(DefaultKeys[i]) + "_" + ToJsString(DefaultValues[i]) == DefaultEntryTexts[i]
  {
    Digits200();
    EntryTexts();
  }
}
