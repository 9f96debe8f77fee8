/**
 * The vote configuration holder (`/api/vote-config`), read by the voting action: POST
 * replaces the configuration when the submitted candidate key parses; GET returns it, or
 * `{}` before the first POST.
 */
module VoteConfig {
  import opened Base
  import opened Protocol
  import opened ConfigForms
  import Text

  /** The stored configuration; the key is kept in its base58 form. */
  datatype VoteSettings = VoteSettings(title: Option<string>, description: Option<string>, file: string,
                                       name: Option<string>, publicKey: PublicKey)

  /** The submitted form. */
  datatype VoteForm = VoteForm(title: Option<string>, description: Option<string>, name: Option<string>,
                               file: Option<Upload>, publicKey: Option<string>)

  /** GET: the stored configuration as the voting action reads it. */
  function View(stored: Option<VoteSettings>): (c: Config)
    ensures stored.None? ==> c == NoConfig
    ensures stored.Some? ==>
      c == Config(stored.value.title, stored.value.description, Some(stored.value.file), None,
                  stored.value.name, Some(stored.value.publicKey), None, None, None)
  {
    match stored
    case None => NoConfig
    case Some(s) => Config(s.title, s.description, Some(s.file), None, s.name, Some(s.publicKey), None, None, None)
  }

  /** POST: a key that does not parse makes the handler throw (a 500) before anything is stored. */
  function Save(stored: Option<VoteSettings>, form: VoteForm, env: Env): (r: (Reply<bool>, Option<VoteSettings>))
    ensures r.0.Fail? <==> env.key(form.publicKey).None?
    ensures r.0.Fail? ==> r == (Fail(500, "Internal Server Error"), stored)
    ensures r.0.Done? ==> r.1 == Some(VoteSettings(form.title, form.description, UploadedImage(form.file), form.name,
                                                    env.key(form.publicKey).value))
  {
    match env.key(form.publicKey)
    case None => (Fail(500, "Internal Server Error"), stored)
    case Some(k) => (Done(true), Some(VoteSettings(form.title, form.description, UploadedImage(form.file), form.name, k)))
  }

  /** The module-level `blinkConfig` variable with its two handlers. */
  class VoteConfigStore {
    var stored: Option<VoteSettings>

    constructor()
      ensures stored.None?
    {
      stored := None;
    }

    method Post(form: VoteForm, env: Env) returns (reply: Reply<bool>)
      modifies this
      ensures (reply, stored) == Save(old(stored), form, env)
    {
      var file := UploadedImage(form.file);
      var publicKey := env.key(form.publicKey);
      if publicKey.None? {
        return Fail(500, "Internal Server Error");
      }
      stored := Some(VoteSettings(form.title, form.description, file, form.name, publicKey.value));
      return Done(true);
    }

    function Get(): (c: Config)
      reads this
      ensures c == View(stored)
    {
      View(stored)
    }
  }

  /**
   * Once a POST has succeeded, GET always reports a candidate key, and it is the key the
   * form's text parsed to; later failed POSTs do not remove it.
   */
  lemma SavedKeyIsReported(stored: Option<VoteSettings>, form: VoteForm, env: Env)
    ensures var (reply, after) := Save(stored, form, env);
      && (reply.Done? ==> View(after).publicKey == env.key(form.publicKey))
      && (stored.Some? ==> View(after).publicKey.Some?)
  {
  }
}
