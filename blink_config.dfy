/**
 * The blink configuration holder (`/api/blink-config`), read by the NFT and swap actions:
 * POST replaces the whole configuration with the submitted form; GET returns it, or `{}`
 * before the first POST.
 */
module BlinkConfig {
  import opened Base
  import opened Protocol
  import opened ConfigForms
  import Text

  /** The stored configuration. */
  datatype BlinkSettings = BlinkSettings(title: Option<string>, description: Option<string>, file: string, amounts: Option<seq<string>>)

  /** The submitted form. */
  datatype BlinkForm = BlinkForm(title: Option<string>, description: Option<string>, amounts: ParsedAmounts, file: Option<Upload>)

  /** GET: the stored configuration as the routes read it, `{}` when there is none. */
  function View(stored: Option<BlinkSettings>): (c: Config)
    ensures stored.None? ==> c == NoConfig
    ensures stored.Some? ==>
      c == Config(stored.value.title, stored.value.description, Some(stored.value.file), stored.value.amounts, None, None, None, None, None)
  {
    match stored
    case None => NoConfig
    case Some(s) => Config(s.title, s.description, Some(s.file), s.amounts, None, None, None, None, None)
  }

  /**
   * POST: a form whose amounts are not JSON makes the handler throw (a 500 from the
   * framework) and keeps the old configuration; any other form replaces it.
   */
  function Save(stored: Option<BlinkSettings>, form: BlinkForm): (r: (Reply<bool>, Option<BlinkSettings>))
    ensures r.0.Fail? <==> form.amounts.Malformed?
    ensures r.0.Fail? ==> r == (Fail(500, "Internal Server Error"), stored)
    ensures r.0.Done? ==> r.0.body && r.1.Some?
    ensures r.0.Done? ==>
      r.1.value == BlinkSettings(form.title, form.description, UploadedImage(form.file), form.amounts.amounts)
  {
    match form.amounts
    case Malformed => (Fail(500, "Internal Server Error"), stored)
    case Parsed(amounts) => (Done(true), Some(BlinkSettings(form.title, form.description, UploadedImage(form.file), amounts)))
  }

  /** The module-level `blinkConfig` variable with its two handlers. */
  class BlinkConfigStore {
    var stored: Option<BlinkSettings>

    constructor()
      ensures stored.None?
    {
      stored := None;
    }

    method Post(form: BlinkForm) returns (reply: Reply<bool>)
      modifies this
      ensures (reply, stored) == Save(old(stored), form)
    {
      if form.amounts.Malformed? {
        return Fail(500, "Internal Server Error");
      }
      var file := UploadedImage(form.file);
      stored := Some(BlinkSettings(form.title, form.description, file, form.amounts.amounts));
      return Done(true);
    }

    function Get(): (c: Config)
      reads this
      ensures c == View(stored)
    {
      View(stored)
    }
  }

  /**
   * What GET returns after a POST: the submitted fields for a well-formed form; the file is
   * empty or an image data URL; a malformed form changes nothing.
   */
  lemma GetAfterSave(stored: Option<BlinkSettings>, form: BlinkForm)
    ensures var c := View(Save(stored, form).1);
      form.amounts.Parsed? ==>
        && c.title == form.title && c.description == form.description && c.amounts == form.amounts.amounts
        && c.file.Some? && (c.file.value == "" || Text.StartsWith(c.file.value, "data:image/"))
    ensures form.amounts.Malformed? ==> View(Save(stored, form).1) == View(stored)
  {
  }
}
