/**
 * What the three configuration holders (blink-config, vote-config, donate-config) read from
 * a submitted form: text fields, an uploaded file, and the `amounts` field parsed as JSON.
 */
module ConfigForms {
  import opened Base
  import opened Text

  /** An uploaded file: its media type and its contents in base64. */
  datatype Upload = Upload(mediaType: string, base64: string)

  /** `JSON.parse(amounts)`: a syntax error, or a string array or null. */
  datatype ParsedAmounts = Malformed | Parsed(amounts: Option<seq<string>>)

  /** `data:<type>;base64,<contents>`. */
  function DataUrl(mediaType: string, base64: string): (s: string)
    ensures StartsWith(s, "data:" + mediaType + ";")
  {
    assert ("data:" + mediaType + ";base64," + base64)[..|"data:" + mediaType + ";"|] == "data:" + mediaType + ";";
    "data:" + mediaType + ";base64," + base64
  }

  /** An image upload as a data URL; anything else (no file, another type) as "". */
  function UploadedImage(file: Option<Upload>): (s: string)
    ensures s == "" <==> !(file.Some? && StartsWith(file.value.mediaType, "image/"))
    ensures s != "" ==> StartsWith(s, "data:image/")
  {
    if file.Some? && StartsWith(file.value.mediaType, "image/") then
      ImageDataUrl(file.value.mediaType, file.value.base64);
      DataUrl(file.value.mediaType, file.value.base64)
    else ""
  }

  /** A data URL built from an image media type starts with `data:image/`. */
  lemma ImageDataUrl(mediaType: string, base64: string)
    requires StartsWith(mediaType, "image/")
    ensures StartsWith(DataUrl(mediaType, base64), "data:image/")
  {
    var s := DataUrl(mediaType, base64);
    assert s == "data:image/" + (mediaType[6..] + ";base64," + base64) by {
      assert mediaType == "image/" + mediaType[6..];
    }
    assert s[..11] == "data:image/";
  }
}
