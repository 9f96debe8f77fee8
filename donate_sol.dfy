/**
 * The donation action (`/api/actions/donate-sol`): a discovery document with one link per
 * configured amount plus a custom-amount link, and a POST that builds a single SOL
 * transfer from the payer to the configured donation wallet.
 */
module DonateSol {
  import opened Base
  import opened Url
  import opened Protocol
  import DonateConfig

  const DONATE_PATH := "/api/actions/donate-sol"
  const INTERNAL := "Internal server error"
  const DEFAULT_AMOUNTS := ["0.01", "0.05", "0.1"]

  /** GET: the donation document, built from the donation configuration. */
  function Discover(c: Config, origin: string): (doc: ActionDocument)
    ensures doc.caption == "1 SOL"
    ensures doc.icon == Or(c.file, origin + "/solana-pic.png")
    ensures doc.title == Or(c.title, "Example tittle")
    ensures doc.description == Or(c.description, "Default description")
    ensures |doc.links| == |AmountsOr(c, DEFAULT_AMOUNTS)| + 1
    ensures forall i :: 0 <= i < |doc.links| - 1 ==>
      doc.links[i].caption == AmountsOr(c, DEFAULT_AMOUNTS)[i] + " SOL" && doc.links[i].parameters == []
    ensures var custom := doc.links[|doc.links| - 1];
      && custom.caption == "Donate" && custom.href == DONATE_PATH + "?amount={amount}"
      && custom.parameters == [ActionParameter("amount", "Enter a custom SOL amount", "number")]
  {
    ActionDocument(
      Or(c.file, Resolve(origin, "/solana-pic.png")), "1 SOL",
      Or(c.title, "Example tittle"), Or(c.description, "Default description"),
      AmountLinks(DONATE_PATH, AmountsOr(c, DEFAULT_AMOUNTS), [])
      + [InputLink("Donate", DONATE_PATH, [], "amount", "Enter a custom SOL amount", [])])
  }

  /** POST: one transfer of `Number(amount)` SOL from the payer to the configured wallet. */
  function Post(c: Config, amount: Option<string>, account: Option<string>, env: Env): (r: Reply<Transaction>)
    ensures r.Done? <==>
      Truthy(c.publicKey) && env.key(c.publicKey).Some? && env.key(account).Some? && env.blockhash.Ok?
    ensures r.Fail? ==> r == Fail(500, INTERNAL)
    ensures r.Done? ==>
      && r.body.feePayer == env.key(account).value
      && r.body.recentBlockhash == env.blockhash.value
      && r.body.instructions == [Transfer(env.key(account).value, env.key(c.publicKey).value, env.number(amount))]
  {
    if !Truthy(c.publicKey) then Fail(500, INTERNAL)
    else
      var wallet := env.key(c.publicKey);
      if wallet.None? then Fail(500, INTERNAL)
      else
        var lamports := env.number(amount);
        var payer := env.key(account);
        if payer.None? then Fail(500, INTERNAL)
        else match Assemble(payer.value, [Transfer(payer.value, wallet.value, lamports)], env.blockhash)
          case Err(_) => Fail(500, INTERNAL)
          case Ok(tx) => Done(tx)
  }

  /**
   * Following the i-th amount link of the document donates exactly that amount to the
   * configured wallet: `URLSearchParams` reads the link as `amount=<a>`, and a POST with
   * that amount transfers `Number(a)` SOL. An amount holding `+` or `%` would reach the
   * POST decoded, so those are excluded.
   */
  lemma AmountLinkDonatesItsAmount(c: Config, origin: string, i: nat, account: Option<string>, env: Env)
    requires i < |AmountsOr(c, DEFAULT_AMOUNTS)|
    requires Plain(AmountsOr(c, DEFAULT_AMOUNTS)[i]) && Verbatim(AmountsOr(c, DEFAULT_AMOUNTS)[i])
    requires Truthy(c.publicKey) && env.key(c.publicKey).Some? && env.key(account).Some? && env.blockhash.Ok?
    ensures var a := AmountsOr(c, DEFAULT_AMOUNTS)[i];
      && ReadParams(Discover(c, origin).links[i].href) == Some([("amount", a)])
      && Post(c, Some(a), account, env).Done?
      && Post(c, Some(a), account, env).body.instructions
         == [Transfer(env.key(account).value, env.key(c.publicKey).value, env.number(Some(a)))]
  {
    var a := AmountsOr(c, DEFAULT_AMOUNTS)[i];
    AmountLinksReadBack(DONATE_PATH, AmountsOr(c, DEFAULT_AMOUNTS), [], i);
    assert [("amount", a)] + [] == [("amount", a)];
    DecodePairsVerbatim([("amount", a)]);
  }

  /**
   * After a successful donation configuration POST, a donation goes to the wallet that was
   * configured, for the amount asked for, paid by the donor.
   */
  lemma DonationGoesToConfiguredWallet(stored: Option<DonateConfig.DonateSettings>, form: DonateConfig.DonateForm,
                                       web: DonateConfig.Web, apiUrl: Option<string>,
                                       amount: Option<string>, account: Option<string>, env: Env)
    requires DonateConfig.Save(stored, form, env, web, apiUrl).0.Done?
    requires var k := env.key(form.publicKey).value; k != "" && env.key(Some(k)) == Some(k)
    requires env.key(account).Some? && env.blockhash.Ok?
    ensures var c := DonateConfig.View(DonateConfig.Save(stored, form, env, web, apiUrl).1);
      && Post(c, amount, account, env).Done?
      && Post(c, amount, account, env).body.instructions
         == [Transfer(env.key(account).value, env.key(form.publicKey).value, env.number(amount))]
  {
  }
}
