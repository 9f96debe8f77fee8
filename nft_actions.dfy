/**
 * The NFT blink action (`/api/actions/nft`): GET lists one buy link per configured amount
 * and one "Get Blinks" link; POST either verifies ownership and returns a buy blink (list)
 * or builds a purchase transaction (any other action).
 *
 * Two places where the code differs from what it evidently means are modelled twice: as
 * written (`ListAmountAsWritten`, `PurchaseAsWritten`) with a lemma showing the
 * difference, and corrected (`ListAmount`, `Purchase`), which the handlers use.
 */
module NftActions {
  import opened Base
  import opened Url
  import opened Protocol
  import NftMarket
  import BlinkConfig

  const NFT_PATH := "/api/actions/nft"
  const INTERNAL := "Internal server error"
  const MISSING_OWNER := "Missing owner public key"
  const INVALID_KEY_OR_MINT := "Invalid public key or mint address"
  const NOT_OWNER := "Seller does not own the NFT or invalid mint address"
  const INVALID_AMOUNT := "Invalid amount in listing"
  const LOCALHOST := "http://localhost:3000"

  // ---------------------------------------------------------------- GET

  /** The owner and mint of the buy links, as a template literal renders them. */
  function Holder(c: Config): seq<Param> {
    [("owner", Shown(c.owner)), ("mintAddress", Shown(c.mintAddress))]
  }

  /**
   * The amount of the "Get Blinks" link as the code computes it,
   * `(config.amount && config.amount[0]) || 0.1`: the corrected rule applied to the field
   * `amount`, which no configuration holder writes, instead of `amounts`.
   */
  function ListAmountAsWritten(c: Config): (a: string)
    ensures a == ListAmount(c.(amounts := c.amount))
  {
    if c.amount.Some? && |c.amount.value| > 0 && c.amount.value[0] != "" then c.amount.value[0] else "0.1"
  }

  /** The amount of the "Get Blinks" link: the first configured amount, 0.1 without a non-empty one. */
  function ListAmount(c: Config): (a: string)
    ensures c.amounts.Some? && |c.amounts.value| > 0 && c.amounts.value[0] != "" ==> a == c.amounts.value[0]
    ensures !(c.amounts.Some? && |c.amounts.value| > 0 && c.amounts.value[0] != "") ==> a == "0.1"
  {
    if c.amounts.Some? && |c.amounts.value| > 0 && c.amounts.value[0] != "" then c.amounts.value[0] else "0.1"
  }

  /**
   * The route reads the blink configuration. Whatever a POST to it stored, the code's list
   * amount is 0.1; when the POST configured a non-empty first amount, the corrected list
   * amount is that amount.
   */
  lemma ListAmountIgnoresAmounts(stored: Option<BlinkConfig.BlinkSettings>, form: BlinkConfig.BlinkForm)
    ensures var c := BlinkConfig.View(BlinkConfig.Save(stored, form).1);
      && ListAmountAsWritten(c) == "0.1"
      && ((form.amounts.Parsed? && form.amounts.amounts.Some? && |form.amounts.amounts.value| > 0
           && form.amounts.amounts.value[0] != "") ==> ListAmount(c) == form.amounts.amounts.value[0])
  {
  }

  /** GET: one buy link per configured amount (default ["0.01"]) and the list link last. */
  function Discover(c: Config, origin: string): (doc: ActionDocument)
    ensures |doc.links| == |AmountsOr(c, ["0.01"])| + 1
    ensures doc.caption == "Select NFT"
    ensures doc.icon == Or(c.file, origin + "/solana-pic.png")
    ensures doc.title == Or(c.title, "NFT Blink")
    ensures doc.description == Or(c.description, "Create or Select an NFT to list for sale")
    ensures forall i :: 0 <= i < |doc.links| - 1 ==>
      doc.links[i].caption == AmountsOr(c, ["0.01"])[i] + " SOL" && doc.links[i].kind == TransactionLink
    ensures doc.links[|doc.links| - 1] ==
      LinkedAction(TransactionLink, "Get Blinks", Href(NFT_PATH, [("amount", ListAmount(c))] + Holder(c) + [("action", "list")]), [])
  {
    var amounts := AmountsOr(c, ["0.01"]);
    ActionDocument(
      Or(c.file, Resolve(origin, "/solana-pic.png")), "Select NFT",
      Or(c.title, "NFT Blink"), Or(c.description, "Create or Select an NFT to list for sale"),
      AmountLinks(NFT_PATH, amounts, Holder(c) + [("action", "buy")])
      + [LinkedAction(TransactionLink, "Get Blinks", Href(NFT_PATH, [("amount", ListAmount(c))] + Holder(c) + [("action", "list")]), [])])
  }

  /** Each buy link reads back as its amount, the owner, the mint and `action=buy`, in that order. */
  lemma BuyLinksReadBack(c: Config, origin: string, i: nat)
    requires i < |AmountsOr(c, ["0.01"])|
    requires Plain(AmountsOr(c, ["0.01"])[i]) && Plain(Shown(c.owner)) && Plain(Shown(c.mintAddress))
    ensures ReadQuery(Discover(c, origin).links[i].href)
      == [("amount", AmountsOr(c, ["0.01"])[i]), ("owner", Shown(c.owner)), ("mintAddress", Shown(c.mintAddress)), ("action", "buy")]
  {
    var rest := Holder(c) + [("action", "buy")];
    assert PlainParams(rest);
    AmountLinksReadBack(NFT_PATH, AmountsOr(c, ["0.01"]), rest, i);
  }

  /**
   * The "Get Blinks" link reads back as the list amount, the owner, the mint and
   * `action=list`; with a non-empty first amount configured, the amount is that one.
   */
  lemma ListLinkReadsBack(c: Config, origin: string)
    requires Plain(ListAmount(c)) && Plain(Shown(c.owner)) && Plain(Shown(c.mintAddress))
    ensures var links := Discover(c, origin).links;
      ReadQuery(links[|links| - 1].href) == [("amount", ListAmount(c))] + Holder(c) + [("action", "list")]
    ensures var links := Discover(c, origin).links;
      c.amounts.Some? && |c.amounts.value| > 0 && c.amounts.value[0] != "" ==>
        ReadQuery(links[|links| - 1].href)
        == [("amount", c.amounts.value[0]), ("owner", Shown(c.owner)), ("mintAddress", Shown(c.mintAddress)), ("action", "list")]
  {
    var ps := [("amount", ListAmount(c))] + Holder(c) + [("action", "list")];
    assert PlainParams(ps);
    HrefReadsBack(NFT_PATH, ps);
  }

  // ---------------------------------------------------------------- POST

  /** The query of a POST. */
  datatype NftQuery = NftQuery(action: Option<string>, amount: Option<string>, owner: Option<string>,
                               seller: Option<string>, mintAddress: Option<string>)

  /** A 200 reply: the buy blink of a listing, or a purchase transaction with the blink page of the mint. */
  datatype Answer = Listed(blinkUrl: string) | Bought(transaction: Transaction, blinkUrl: string)

  /** What the handler hands back: a response, or (when no owner is given) an `Error` object that is not a response. */
  datatype Handled = Respond(reply: Reply<Answer>) | NotAResponse(message: string)

  /** `amount.toString()`. */
  function AmountText(a: Amount): string {
    if a.NaN? then "NaN" else a.text
  }

  /**
   * `verifyOwnership`: the owner's token account for the mint holds the raw amount "1", and
   * the first creator of the NFT's metadata is the owner; any failure on the way is false.
   */
  predicate Owns(env: Env, mint: Option<string>, owner: PublicKey) {
    var m := env.key(mint);
    && m.Some?
    && env.balance(env.ata(m.value, owner)).Ok?
    && OneRawUnit(env.balance(env.ata(m.value, owner)).value)
    && env.nft(m.value).Some?
    && |env.nft(m.value).value.creators| > 0
    && env.nft(m.value).value.creators[0] == owner
  }

  /** The parameters the list branch appends to the buy action URL, in order. */
  function BuyLinkParams(mint: Option<string>, amount: Amount, owner: string): (ps: seq<Param>)
    ensures |ps| == (if Truthy(mint) then 4 else 3)
    ensures ps[0] == ("action", "buy") && ps[|ps| - 2] == ("amount", AmountText(amount)) && ps[|ps| - 1] == ("seller", owner)
    ensures Truthy(mint) ==> ps[1] == ("mintAddress", mint.value)
  {
    [("action", "buy")] + (if Truthy(mint) then [("mintAddress", mint.value)] else [])
    + [("amount", AmountText(amount)), ("seller", owner)]
  }

  /** The buy action URL of a listing reads back as its parameters, and its dial.to link as the URL. */
  lemma BuyLinkReadsBack(apiUrl: string, mint: Option<string>, amount: Amount, owner: string)
    ensures var actionUrl := WithParams(apiUrl + NFT_PATH, BuyLinkParams(mint, amount, owner));
      && ('?' !in apiUrl && '#' !in apiUrl ==> ReadParams(actionUrl) == Some(BuyLinkParams(mint, amount, owner)))
      && ReadParams(DialLink(actionUrl)) == Some([("action", "solana-action:" + actionUrl)])
  {
    var ps := BuyLinkParams(mint, amount, owner);
    if '?' !in apiUrl && '#' !in apiUrl {
      assert '?' !in apiUrl + NFT_PATH && '#' !in apiUrl + NFT_PATH;
      WithParamsReadsBack(apiUrl + NFT_PATH, ps);
    }
    DialLinkReadsBack(WithParams(apiUrl + NFT_PATH, ps));
  }

  /** The list branch's URL building, one `searchParams.append` at a time. */
  method BuildListBlink(apiUrl: string, mint: Option<string>, amount: Amount, owner: string) returns (actionUrl: string, blinkUrl: string)
    ensures actionUrl == WithParams(apiUrl + NFT_PATH, BuyLinkParams(mint, amount, owner))
    ensures blinkUrl == DialLink(actionUrl)
    ensures '?' !in apiUrl && '#' !in apiUrl ==> ReadParams(actionUrl) == Some(BuyLinkParams(mint, amount, owner))
    ensures ReadParams(blinkUrl) == Some([("action", "solana-action:" + actionUrl)])
  {
    var ps: seq<Param> := [("action", "buy")];
    if Truthy(mint) {
      ps := ps + [("mintAddress", mint.value)];
    }
    ps := ps + [("amount", AmountText(amount))];
    ps := ps + [("seller", owner)];
    assert ps == BuyLinkParams(mint, amount, owner);
    actionUrl := WithParams(apiUrl + NFT_PATH, ps);
    blinkUrl := DialLink(actionUrl);
    BuyLinkReadsBack(apiUrl, mint, amount, owner);
  }

  /**
   * The purchase as the code builds it: the token transfer is handed the NFT's metadata
   * account where the token program belongs.
   */
  function PurchaseAsWritten(env: Env, payer: PublicKey, seller: PublicKey, mint: PublicKey, amount: Amount, n: Nft): (r: seq<Instruction>)
    ensures |r| == 2 && r[1].TokenTransfer? && r[1].program == n.metadataAddress
  {
    [Transfer(payer, seller, amount), TokenTransfer(n.metadataAddress, env.ata(mint, seller), env.ata(mint, payer), seller, 1)]
  }

  /** The purchase: pay the seller, then move one token from the seller's account to the payer's. */
  function Purchase(env: Env, payer: PublicKey, seller: PublicKey, mint: PublicKey, amount: Amount): (r: seq<Instruction>)
    ensures |r| == 2
    ensures r[0] == Transfer(payer, seller, amount)
    ensures r[1] == TokenTransfer(TOKEN_PROGRAM_ID, env.ata(mint, seller), env.ata(mint, payer), seller, 1)
  {
    [Transfer(payer, seller, amount), TokenTransfer(TOKEN_PROGRAM_ID, env.ata(mint, seller), env.ata(mint, payer), seller, 1)]
  }

  /** Unless the metadata account happens to be the token program, the code's token transfer is addressed to the wrong program. */
  lemma PurchaseAsWrittenMisroutes(env: Env, payer: PublicKey, seller: PublicKey, mint: PublicKey, amount: Amount, n: Nft)
    requires n.metadataAddress != TOKEN_PROGRAM_ID
    ensures PurchaseAsWritten(env, payer, seller, mint, amount, n)[1].program != TOKEN_PROGRAM_ID
    ensures PurchaseAsWritten(env, payer, seller, mint, amount, n) != Purchase(env, payer, seller, mint, amount)
  {
  }

  /**
   * The corrected purchase is the market route's purchase for a buyer who already has a
   * token account: the same two instructions in the same order.
   */
  lemma PurchaseMatchesMarket(env: Env, payer: PublicKey, seller: PublicKey, mint: PublicKey, amount: Amount)
    ensures Purchase(env, payer, seller, mint, amount) == NftMarket.BuyInstructions(env, payer, seller, mint, amount, true)
  {
    var market := NftMarket.BuyInstructions(env, payer, seller, mint, amount, true);
    assert market == [market[0], market[1]];
  }

  /** A query value inside a template literal: a missing one renders as "null". */
  function Rendered(s: Option<string>): string {
    if s.Some? then s.value else "null"
  }

  /** The owner named by the query: `owner || seller`. */
  function OwnerOf(q: NftQuery): Option<string> {
    if Truthy(q.owner) then q.owner else q.seller
  }

  /** The account, the owner and (when given) the mint all parse: the checks both branches share. */
  predicate KeysParse(q: NftQuery, account: Option<string>, env: Env) {
    && env.key(account).Some? && Truthy(OwnerOf(q)) && env.key(OwnerOf(q)).Some?
    && (!Truthy(q.mintAddress) || env.key(q.mintAddress).Some?)
  }

  /** POST: the ladder of checks, then the list or the buy branch. */
  function Post(q: NftQuery, account: Option<string>, env: Env, apiUrl: string): (r: Handled)
    ensures env.key(account).None? ==> r == Respond(Fail(500, INTERNAL))
    ensures env.key(account).Some? && !Truthy(OwnerOf(q)) ==> r == NotAResponse(MISSING_OWNER)
    ensures r.Respond? && r.reply.Done? ==>
      && env.key(account).Some? && Truthy(OwnerOf(q)) && env.key(OwnerOf(q)).Some?
      && Owns(env, q.mintAddress, env.key(OwnerOf(q)).value)
    ensures r.Respond? && r.reply.Done? && r.reply.body.Listed? ==>
      && q.action == Some("list")
      && r.reply.body.blinkUrl
         == DialLink(WithParams(apiUrl + NFT_PATH, BuyLinkParams(q.mintAddress, env.number(q.amount), OwnerOf(q).value)))
    ensures env.key(account).Some? && Truthy(OwnerOf(q)) && env.key(OwnerOf(q)).None? ==> r == Respond(Fail(500, INTERNAL))
    ensures (env.key(account).Some? && Truthy(OwnerOf(q)) && env.key(OwnerOf(q)).Some?
             && Truthy(q.mintAddress) && env.key(q.mintAddress).None?) ==> r == Respond(Fail(400, INVALID_KEY_OR_MINT))
    ensures (KeysParse(q, account, env) && (q.action == Some("list") || Positive(env.number(q.amount)))
             && !Owns(env, q.mintAddress, env.key(OwnerOf(q)).value)) ==> r == Respond(Fail(403, NOT_OWNER))
    ensures KeysParse(q, account, env) && q.action == Some("list") && Owns(env, q.mintAddress, env.key(OwnerOf(q)).value) ==>
      r.Respond? && r.reply.Done? && r.reply.body.Listed?
    ensures (KeysParse(q, account, env) && q.action != Some("list") && Positive(env.number(q.amount))
             && Owns(env, q.mintAddress, env.key(OwnerOf(q)).value)) ==>
      r.Respond? && (r.reply.Done? <==> env.blockhash.Ok?) && (r.reply.Fail? ==> r.reply == Fail(500, INTERNAL))
      && (r.reply.Done? ==> r.reply.body.Bought?)
    ensures r.Respond? && r.reply.Done? && r.reply.body.Bought? ==>
      && q.action != Some("list") && Positive(env.number(q.amount)) && env.blockhash.Ok?
      && var payer, seller := env.key(account).value, env.key(OwnerOf(q)).value;
      && r.reply.body.transaction.feePayer == payer
      && r.reply.body.transaction.recentBlockhash == env.blockhash.value
      && r.reply.body.transaction.instructions
         == Purchase(env, payer, seller, env.key(q.mintAddress).value, env.number(q.amount))
      && r.reply.body.blinkUrl == DIAL_BASE + Or(Some(apiUrl), LOCALHOST) + "/blink/" + Rendered(q.mintAddress)
    ensures q.action != Some("list") && r.Respond? && r.reply.Fail? && r.reply.status == 403 ==>
      Positive(env.number(q.amount))
  {
    var amount := env.number(q.amount);
    var payer := env.key(account);
    if payer.None? then Respond(Fail(500, INTERNAL))
    else
      var owner := OwnerOf(q);
      if !Truthy(owner) then NotAResponse(MISSING_OWNER)
      else
        var ownerKey := env.key(owner);
        if ownerKey.None? then Respond(Fail(500, INTERNAL))
        else if Truthy(q.mintAddress) && env.key(q.mintAddress).None? then Respond(Fail(400, INVALID_KEY_OR_MINT))
        else if q.action == Some("list") then
          if !Owns(env, q.mintAddress, ownerKey.value) then Respond(Fail(403, NOT_OWNER))
          else Respond(Done(Listed(DialLink(WithParams(apiUrl + NFT_PATH, BuyLinkParams(q.mintAddress, amount, owner.value))))))
        else if !Positive(amount) then Respond(Fail(400, INVALID_AMOUNT))
        else if !Owns(env, q.mintAddress, ownerKey.value) then Respond(Fail(403, NOT_OWNER))
        else
          var mint := env.key(q.mintAddress).value;
          match Assemble(payer.value, Purchase(env, payer.value, ownerKey.value, mint, amount), env.blockhash)
          case Err(_) => Respond(Fail(500, INTERNAL))
          case Ok(tx) => Respond(Done(Bought(tx, DIAL_BASE + Or(Some(apiUrl), LOCALHOST) + "/blink/" + Rendered(q.mintAddress))))
  }

  /** Listing does not look at the amount: a listing with a non-positive amount still succeeds if the owner holds the NFT. */
  lemma ListIgnoresAmount(q: NftQuery, account: Option<string>, env: Env, apiUrl: string)
    requires q.action == Some("list") && env.key(account).Some? && Truthy(OwnerOf(q))
    requires env.key(OwnerOf(q)).Some? && Owns(env, q.mintAddress, env.key(OwnerOf(q)).value)
    ensures Post(q, account, env, apiUrl).Respond? && Post(q, account, env, apiUrl).reply.Done?
  {
  }

  /** A buy with a NaN or non-positive amount is refused before ownership is looked at. */
  lemma BuyRefusesNonPositive(q: NftQuery, account: Option<string>, env: Env, apiUrl: string)
    requires q.action != Some("list") && !Positive(env.number(q.amount))
    requires env.key(account).Some? && Truthy(OwnerOf(q)) && env.key(OwnerOf(q)).Some?
    requires !Truthy(q.mintAddress) || env.key(q.mintAddress).Some?
    ensures Post(q, account, env, apiUrl) == Respond(Fail(400, INVALID_AMOUNT))
  {
  }
}
