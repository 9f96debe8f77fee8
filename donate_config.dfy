/**
 * The donation configuration holder (`/api/donate-config`), read by the donation action:
 * POST checks the form, finds an image (the upload, else the NFT's
 * metadata image or the default picture, fetched and inlined as a data URL), and replaces
 * the configuration; GET returns it, or `{}` before the first POST.
 *
 * The web is a parameter (`Web`); the database insert the POST makes is not modelled,
 * since its result is not used.
 */
module DonateConfig {
  import opened Base
  import opened Text
  import opened Protocol
  import opened ConfigForms

  const INTERNAL := "Internal server error"
  const MISSING_FIELDS := "Missing required fields: title, description, or amounts"
  const LOCALHOST := "http://localhost:3000"

  /** The JSON fields `image` and `image_url` of a metadata document. */
  datatype MetadataJson = MetadataJson(image: Option<string>, imageUrl: Option<string>)

  /** A fetched resource: status, `content-type`, the body in base64, and the body read as JSON (None when it is not JSON). */
  datatype Resource = Resource(ok: bool, statusText: string, contentType: Option<string>, base64: string, json: Option<MetadataJson>)

  /** `fetch(url)`: a resource, or a network error. */
  type Web = string -> Outcome<Resource>

  /** The image a resource holds as a data URL, when its content type is an image. */
  function ImageOf(r: Resource, what: string): (d: Outcome<string>)
    ensures d.Ok? <==> r.ok && StartsWith(Or(r.contentType, "image/png"), "image/")
    ensures d.Ok? ==> d.value == DataUrl(Or(r.contentType, "image/png"), r.base64)
  {
    if !r.ok then Err("Failed to fetch " + what + ": " + r.statusText)
    else
      var contentType := Or(r.contentType, "image/png");
      if !StartsWith(contentType, "image/") then Err("Invalid " + (if what == "image" then "image " else "") + "content type: " + contentType)
      else Ok(DataUrl(contentType, r.base64))
  }

  /**
   * `fetchImageAsBase64(url)`: the image at `url` as a data URL; a JSON metadata document
   * is followed once to its `image` (or `image_url`).
   */
  function FetchImage(web: Web, url: string): (d: Outcome<string>)
    ensures d.Ok? ==> StartsWith(d.value, "data:image/")
  {
    match web(url)
    case Err(m) => Err(m)
    case Ok(r) =>
      if !r.ok then Err("Failed to fetch resource: " + r.statusText)
      else if Or(r.contentType, "image/png") == "application/json" then
        match r.json
        case None => Err("Unexpected end of JSON input")
        case Some(j) =>
          var image := if Truthy(j.image) then j.image else j.imageUrl;
          if !Truthy(image) then Err("No image URL found in metadata JSON")
          else match web(image.value)
            case Err(m) => Err(m)
            case Ok(r2) => ImageOfIsImage(r2, "image"); ImageOf(r2, "image")
      else ImageOfIsImage(r, "resource"); ImageOf(r, "resource")
  }

  lemma ImageOfIsImage(r: Resource, what: string)
    ensures ImageOf(r, what).Ok? ==> StartsWith(ImageOf(r, what).value, "data:image/")
  {
    if ImageOf(r, what).Ok? {
      ImageDataUrl(Or(r.contentType, "image/png"), r.base64);
    }
  }

  /** The stored configuration. */
  datatype DonateSettings = DonateSettings(title: string, description: string, file: string, amounts: seq<string>,
                                           owner: Option<string>, mintAddress: Option<string>, publicKey: PublicKey)

  /** The submitted form. */
  datatype DonateForm = DonateForm(title: Option<string>, description: Option<string>, amounts: ParsedAmounts,
                                   file: Option<Upload>, mintAddress: Option<string>, owner: Option<string>,
                                   publicKey: Option<string>)

  /** The default picture, under the configured API URL or localhost. */
  function DefaultImage(apiUrl: Option<string>): string {
    Or(apiUrl, LOCALHOST) + "/solana-pic.png"
  }

  /** The image to fetch: the NFT's metadata URI when a mint is given and found, else the default. */
  function ImageUrl(form: DonateForm, env: Env, apiUrl: Option<string>): (u: string)
    ensures !Truthy(form.mintAddress) ==> u == DefaultImage(apiUrl)
    ensures Truthy(form.mintAddress) && env.key(form.mintAddress).Some? && env.nft(env.key(form.mintAddress).value).Some? ==>
      u == Or(Some(env.nft(env.key(form.mintAddress).value).value.uri), DefaultImage(apiUrl))
    ensures Truthy(form.mintAddress) && (env.key(form.mintAddress).None? || env.nft(env.key(form.mintAddress).value).None?) ==>
      u == DefaultImage(apiUrl)
  {
    if !Truthy(form.mintAddress) then DefaultImage(apiUrl)
    else match env.key(form.mintAddress)
      case None => DefaultImage(apiUrl)
      case Some(m) =>
        match env.nft(m)
        case None => DefaultImage(apiUrl)
        case Some(n) => Or(Some(n.uri), DefaultImage(apiUrl))
  }

  /** The stored image: the upload if it is an image, else the fetched image, else the fetched default. */
  function StoredImage(form: DonateForm, env: Env, web: Web, apiUrl: Option<string>): (d: Outcome<string>)
    ensures d.Ok? ==> StartsWith(d.value, "data:image/")
    ensures UploadedImage(form.file) != "" ==> d == Ok(UploadedImage(form.file))
    ensures UploadedImage(form.file) == "" && FetchImage(web, ImageUrl(form, env, apiUrl)).Ok? ==>
      d == FetchImage(web, ImageUrl(form, env, apiUrl))
    ensures UploadedImage(form.file) == "" && FetchImage(web, ImageUrl(form, env, apiUrl)).Err? ==>
      d == FetchImage(web, DefaultImage(apiUrl))
  {
    var upload := UploadedImage(form.file);
    if upload != "" then Ok(upload)
    else match FetchImage(web, ImageUrl(form, env, apiUrl))
      case Ok(d) => Ok(d)
      case Err(_) => FetchImage(web, DefaultImage(apiUrl))
  }

  /** POST: the reply (`mintAddress` on success) and the configuration afterwards. */
  function Save(stored: Option<DonateSettings>, form: DonateForm, env: Env, web: Web, apiUrl: Option<string>)
    : (r: (Reply<Option<string>>, Option<DonateSettings>))
    ensures r.0.Fail? ==> r.1 == stored
    ensures form.amounts.Malformed? ==> r.0 == Fail(500, INTERNAL)
    ensures form.amounts.Parsed? && (!Truthy(form.title) || !Truthy(form.description) || form.amounts.amounts.None?) ==>
      r.0 == Fail(400, MISSING_FIELDS)
    ensures (form.amounts.Parsed? && Truthy(form.title) && Truthy(form.description) && form.amounts.amounts.Some?
             && r.0.Fail?) ==> r.0 == Fail(500, INTERNAL)
    ensures r.0.Done? <==>
      && form.amounts.Parsed? && Truthy(form.title) && Truthy(form.description) && form.amounts.amounts.Some?
      && StoredImage(form, env, web, apiUrl).Ok? && env.key(form.publicKey).Some?
    ensures r.0.Done? ==>
      && r.0.body == form.mintAddress
      && r.1 == Some(DonateSettings(form.title.value, form.description.value, StoredImage(form, env, web, apiUrl).value,
                                    form.amounts.amounts.value, if Truthy(form.owner) then form.owner else None,
                                    form.mintAddress, env.key(form.publicKey).value))
  {
    match form.amounts
    case Malformed => (Fail(500, INTERNAL), stored)
    case Parsed(amounts) =>
      if !Truthy(form.title) || !Truthy(form.description) || amounts.None? then (Fail(400, MISSING_FIELDS), stored)
      else match StoredImage(form, env, web, apiUrl)
        case Err(_) => (Fail(500, INTERNAL), stored)
        case Ok(file) =>
          match env.key(form.publicKey)
          case None => (Fail(500, INTERNAL), stored)
          case Some(k) =>
            (Done(form.mintAddress),
             Some(DonateSettings(form.title.value, form.description.value, file, amounts.value,
                                 if Truthy(form.owner) then form.owner else None, form.mintAddress, k)))
  }

  /** GET: the stored configuration as the routes read it. */
  function View(stored: Option<DonateSettings>): (c: Config)
    ensures stored.None? ==> c == NoConfig
    ensures stored.Some? ==>
      var s := stored.value;
      c == Config(Some(s.title), Some(s.description), Some(s.file), Some(s.amounts), None, Some(s.publicKey), s.owner, s.mintAddress, None)
  {
    match stored
    case None => NoConfig
    case Some(s) => Config(Some(s.title), Some(s.description), Some(s.file), Some(s.amounts), None, Some(s.publicKey), s.owner, s.mintAddress, None)
  }

  /** The module-level `blinkConfig` variable with its two handlers. */
  class DonateConfigStore {
    var stored: Option<DonateSettings>

    constructor()
      ensures stored.None?
    {
      stored := None;
    }

    method Post(form: DonateForm, env: Env, web: Web, apiUrl: Option<string>) returns (reply: Reply<Option<string>>)
      modifies this
      ensures (reply, stored) == Save(old(stored), form, env, web, apiUrl)
    {
      if form.amounts.Malformed? {
        return Fail(500, INTERNAL);
      }
      if !Truthy(form.title) || !Truthy(form.description) || form.amounts.amounts.None? {
        return Fail(400, MISSING_FIELDS);
      }
      var imageUrl := DefaultImage(apiUrl);
      if Truthy(form.mintAddress) {
        var mint := env.key(form.mintAddress);
        if mint.Some? && env.nft(mint.value).Some? {
          imageUrl := Or(Some(env.nft(mint.value).value.uri), imageUrl);
        }
      }
      var file := UploadedImage(form.file);
      if file == "" {
        var fetched := FetchImage(web, imageUrl);
        if fetched.Err? {
          fetched := FetchImage(web, DefaultImage(apiUrl));
          if fetched.Err? {
            return Fail(500, INTERNAL);
          }
        }
        file := fetched.value;
      }
      var publicKey := env.key(form.publicKey);
      if publicKey.None? {
        return Fail(500, INTERNAL);
      }
      stored := Some(DonateSettings(form.title.value, form.description.value, file, form.amounts.amounts.value,
                                    if Truthy(form.owner) then form.owner else None, form.mintAddress, publicKey.value));
      return Done(form.mintAddress);
    }

    function Get(): (c: Config)
      reads this
      ensures c == View(stored)
    {
      View(stored)
    }
  }

  /** Every configuration this holder stores shows an image: its file is an image data URL. */
  predicate ShowsImage(stored: Option<DonateSettings>) {
    stored.Some? ==> StartsWith(stored.value.file, "data:image/")
  }

  lemma SaveKeepsShowsImage(stored: Option<DonateSettings>, form: DonateForm, env: Env, web: Web, apiUrl: Option<string>)
    requires ShowsImage(stored)
    ensures ShowsImage(Save(stored, form, env, web, apiUrl).1)
  {
  }
}
