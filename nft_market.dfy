/**
 * The NFT market route (`/api/nft`): a fixed discovery document, and a POST that either
 * builds a purchase transaction (buy) or records a listing and returns its blink (sell).
 * Listings live in an in-memory array.
 */
module NftMarket {
  import opened Base
  import opened Url
  import opened Protocol

  const ACTION_PATH := "/api/nft/action"
  const MISSING_FIELDS := "Missing mintAddress, price, or seller"
  const INVALID_KEY_400 := "Invalid public key"
  const INVALID_PRICE := "Invalid price"
  const MISSING_BUYER := "Missing buyer account"
  const NOT_OWNER := "Seller does not own the NFT"
  const INVALID_ACTION := "Invalid action"

  /** A recorded sale offer. */
  datatype Listing = Listing(mint: string, price: Amount, seller: string)

  /** The POST body; an `action` that is absent defaults to "buy". */
  datatype TradeRequest = TradeRequest(action: Option<string>, mint: Option<string>, price: Option<string>,
                                       seller: Option<string>, account: Option<string>)

  /** A 200 POST reply. */
  datatype Traded = Purchase(transaction: Transaction) | Listed(message: string, blinkUrl: string)

  /** GET: the fixed market document; only icon, title and description come from the configuration. */
  function Discover(c: Config, origin: string): (doc: ActionDocument)
    ensures doc.caption == "Select NFT" && |doc.links| == 4
    ensures doc.icon == Or(c.file, origin + "/solana-pic.png")
    ensures doc.title == Or(c.title, "Example tittle") && doc.description == Or(c.description, "Default description")
    ensures forall i :: 0 <= i < 3 ==> doc.links[i].parameters == [] && doc.links[i].kind == TransactionLink
    ensures doc.links[0].caption == "0.01 SOL" && doc.links[1].caption == "0.05 SOL" && doc.links[2].caption == "0.1 SOL"
    ensures doc.links[3].caption == "Custom Amount" && doc.links[3].href == ACTION_PATH + "?amount={amount}"
    ensures doc.links[3].parameters == [ActionParameter("amount", "Enter a custom SOL amount", "number")]
  {
    ActionDocument(
      Or(c.file, Resolve(origin, "/solana-pic.png")), "Select NFT",
      Or(c.title, "Example tittle"), Or(c.description, "Default description"),
      AmountLinks(ACTION_PATH, ["0.01", "0.05", "0.1"], [])
      + [InputLink("Custom Amount", ACTION_PATH, [], "amount", "Enter a custom SOL amount", [])])
  }

  /** The fixed amounts read back from the first three links, in order. */
  lemma DiscoverLinksReadBack(c: Config, origin: string)
    ensures forall i :: 0 <= i < 3 ==>
      ReadQuery(Discover(c, origin).links[i].href) == [("amount", ["0.01", "0.05", "0.1"][i])]
  {
    var amounts := ["0.01", "0.05", "0.1"];
    forall i | 0 <= i < 3
      ensures ReadQuery(Discover(c, origin).links[i].href) == [("amount", amounts[i])]
    {
      AmountLinksReadBack(ACTION_PATH, amounts, [], i);
      assert [("amount", amounts[i])] + [] == [("amount", amounts[i])];
    }
  }

  /** `verifyNFTOwnership`: the owner's token account for the mint holds a raw amount of one; any failure is false. */
  predicate HoldsNft(env: Env, mint: string, owner: string) {
    var m, o := env.key(Some(mint)), env.key(Some(owner));
    m.Some? && o.Some? && env.balance(env.ata(m.value, o.value)).Ok?
    && OneRawUnit(env.balance(env.ata(m.value, o.value)).value)
  }

  /**
   * The purchase: create the buyer's token account if it is missing, pay the seller, move one
   * token. `buyerAtaExists` is what `getAccountInfo` reported for the buyer's token account.
   */
  function BuyInstructions(env: Env, buyer: PublicKey, seller: PublicKey, mint: PublicKey, price: Amount,
                           buyerAtaExists: bool): (r: seq<Instruction>)
    ensures |r| == (if buyerAtaExists then 2 else 3)
    ensures (exists i :: 0 <= i < |r| && r[i].CreateAta?) <==> !buyerAtaExists
    ensures !buyerAtaExists ==> r[0] == CreateAta(buyer, env.ata(mint, buyer), buyer, mint)
    ensures r[|r| - 2] == Transfer(buyer, seller, price)
    ensures r[|r| - 1] == TokenTransfer(TOKEN_PROGRAM_ID, env.ata(mint, seller), env.ata(mint, buyer), seller, 1)
  {
    var buyerAta := env.ata(mint, buyer);
    var create := if buyerAtaExists then [] else [CreateAta(buyer, buyerAta, buyer, mint)];
    var r := create + [Transfer(buyer, seller, price), TokenTransfer(TOKEN_PROGRAM_ID, env.ata(mint, seller), buyerAta, seller, 1)];
    assert !buyerAtaExists ==> r[0].CreateAta?;
    assert buyerAtaExists ==> forall i :: 0 <= i < |r| ==> !r[i].CreateAta?;
    r
  }

  /** The action after the destructuring default. */
  function ActionOf(req: TradeRequest): string {
    if req.action.None? then "buy" else req.action.value
  }

  /** The checks every POST passes through before it branches on the action. */
  function Screen(req: TradeRequest, env: Env): (r: Option<Reply<Traded>>)
    ensures !(Truthy(req.mint) && Truthy(req.price) && Truthy(req.seller)) ==> r == Some(Fail(400, MISSING_FIELDS))
    ensures r.None? <==>
      && Truthy(req.mint) && Truthy(req.price) && Truthy(req.seller)
      && env.key(req.mint).Some? && env.key(req.seller).Some?
      && !(ActionOf(req) == "buy" && Truthy(req.account) && env.key(req.account).None?)
      && Positive(env.parseFloat(req.price.value))
  {
    if !(Truthy(req.mint) && Truthy(req.price) && Truthy(req.seller)) then Some(Fail(400, MISSING_FIELDS))
    else if env.key(req.mint).None? || env.key(req.seller).None?
      || (ActionOf(req) == "buy" && Truthy(req.account) && env.key(req.account).None?)
    then Some(Fail(400, INVALID_KEY_400))
    else if !Positive(env.parseFloat(req.price.value)) then Some(Fail(400, INVALID_PRICE))
    else None
  }

  /** POST: the reply and the listings afterwards. */
  function Trade(listings: seq<Listing>, req: TradeRequest, env: Env, apiUrl: string): (r: (Reply<Traded>, seq<Listing>))
    ensures Screen(req, env).Some? ==> r == (Screen(req, env).value, listings)
    ensures r.1 == listings || (r.1 == listings + [Listing(req.mint.value, env.parseFloat(req.price.value), req.seller.value)]
                                && ActionOf(req) == "sell" && r.0.Done?)
    ensures Screen(req, env).None? && ActionOf(req) == "buy" && !Truthy(req.account) ==> r.0 == Fail(400, MISSING_BUYER)
    ensures Screen(req, env).None? && ActionOf(req) !in {"buy", "sell"} ==> r == (Fail(400, INVALID_ACTION), listings)
    ensures Screen(req, env).None? && ActionOf(req) == "sell" ==>
      if HoldsNft(env, req.mint.value, req.seller.value)
      then r.1 == listings + [Listing(req.mint.value, env.parseFloat(req.price.value), req.seller.value)]
        && r.0 == Done(Listed("NFT listed for sale at " + req.price.value + " SOL",
                              BlinkUrl(apiUrl, ACTION_PATH, "sell", req.mint.value, [req.price.value], req.seller.value)))
      else r == (Fail(400, NOT_OWNER), listings)
    ensures Screen(req, env).None? && ActionOf(req) == "buy" && Truthy(req.account) ==>
      var buyer, seller, mint := env.key(req.account).value, env.key(req.seller).value, env.key(req.mint).value;
      var balance, buyerAta := env.balance(env.ata(mint, seller)), env.accountExists(env.ata(mint, buyer));
      if balance.Err? then r == (Fail(500, balance.message), listings)
      else if !OneWholeToken(balance.value) then r == (Fail(400, NOT_OWNER), listings)
      else if buyerAta.Err? then r == (Fail(500, buyerAta.message), listings)
      else if env.blockhash.Err? then r == (Fail(500, env.blockhash.message), listings)
      else r == (Done(Purchase(Transaction(buyer, env.blockhash.value,
                                           BuyInstructions(env, buyer, seller, mint, env.parseFloat(req.price.value),
                                                           buyerAta.value)))),
                 listings)
    ensures r.0.Done? && r.0.body.Purchase? ==> ActionOf(req) == "buy" && Truthy(req.account)
  {
    var screened := Screen(req, env);
    if screened.Some? then (screened.value, listings)
    else
      var action := ActionOf(req);
      var mint, seller, price := req.mint.value, req.seller.value, env.parseFloat(req.price.value);
      if action == "buy" then
        if !Truthy(req.account) then (Fail(400, MISSING_BUYER), listings)
        else
          var buyer, sellerKey, mintKey := env.key(req.account).value, env.key(req.seller).value, env.key(req.mint).value;
          match env.balance(env.ata(mintKey, sellerKey))
          case Err(m) => (Fail(500, m), listings)
          case Ok(t) =>
            if !OneWholeToken(t) then (Fail(400, NOT_OWNER), listings)
            else
              match env.accountExists(env.ata(mintKey, buyer))
              case Err(m) => (Fail(500, m), listings)
              case Ok(buyerAtaExists) =>
                match Assemble(buyer, BuyInstructions(env, buyer, sellerKey, mintKey, price, buyerAtaExists), env.blockhash)
                case Err(m) => (Fail(500, m), listings)
                case Ok(tx) => (Done(Purchase(tx)), listings)
      else if action == "sell" then
        if !HoldsNft(env, mint, seller) then (Fail(400, NOT_OWNER), listings)
        else
          (Done(Listed("NFT listed for sale at " + req.price.value + " SOL",
                       BlinkUrl(apiUrl, ACTION_PATH, action, mint, [req.price.value], seller))),
           listings + [Listing(mint, price, seller)])
      else (Fail(400, INVALID_ACTION), listings)
  }

  /** The module-level listings array and the POST handler that pushes to it. */
  class Market {
    var listings: seq<Listing>

    constructor()
      ensures listings == []
    {
      listings := [];
    }

    method Post(req: TradeRequest, env: Env, apiUrl: string) returns (reply: Reply<Traded>)
      modifies this
      ensures (reply, listings) == Trade(old(listings), req, env, apiUrl)
    {
      var screened := Screen(req, env);
      if screened.Some? {
        return screened.value;
      }
      var action := ActionOf(req);
      var price := env.parseFloat(req.price.value);
      if action == "buy" {
        if !Truthy(req.account) {
          return Fail(400, MISSING_BUYER);
        }
        var buyer, sellerKey, mintKey := env.key(req.account).value, env.key(req.seller).value, env.key(req.mint).value;
        var sellerAta, buyerAta := env.ata(mintKey, sellerKey), env.ata(mintKey, buyer);
        var balance := env.balance(sellerAta);
        if balance.Err? {
          return Fail(500, balance.message);
        }
        if !OneWholeToken(balance.value) {
          return Fail(400, NOT_OWNER);
        }
        var instructions: seq<Instruction> := [];
        var buyerAtaInfo := env.accountExists(buyerAta);
        if buyerAtaInfo.Err? {
          return Fail(500, buyerAtaInfo.message);
        }
        if !buyerAtaInfo.value {
          instructions := instructions + [CreateAta(buyer, buyerAta, buyer, mintKey)];
        }
        instructions := instructions + [Transfer(buyer, sellerKey, price)];
        instructions := instructions + [TokenTransfer(TOKEN_PROGRAM_ID, sellerAta, buyerAta, sellerKey, 1)];
        assert instructions == BuyInstructions(env, buyer, sellerKey, mintKey, price, buyerAtaInfo.value);
        var blockhash := env.blockhash;
        if blockhash.Err? {
          return Fail(500, blockhash.message);
        }
        return Done(Purchase(Transaction(buyer, blockhash.value, instructions)));
      } else if action == "sell" {
        if !HoldsNft(env, req.mint.value, req.seller.value) {
          return Fail(400, NOT_OWNER);
        }
        listings := listings + [Listing(req.mint.value, price, req.seller.value)];
        var blinkUrl := BlinkUrl(apiUrl, ACTION_PATH, action, req.mint.value, [req.price.value], req.seller.value);
        return Done(Listed("NFT listed for sale at " + req.price.value + " SOL", blinkUrl));
      }
      return Fail(400, INVALID_ACTION);
    }
  }

  /**
   * A purchase of a held NFT by a buyer who already has a token account is exactly
   * [pay the seller, move one token to the buyer], paid for by the buyer.
   */
  lemma PurchaseScenario(req: TradeRequest, env: Env, apiUrl: string)
    requires Screen(req, env).None? && ActionOf(req) == "buy" && Truthy(req.account)
    requires var mint, seller := env.key(req.mint).value, env.key(req.seller).value;
      env.balance(env.ata(mint, seller)) == Ok(TokenAmount(1, 0))
    requires env.accountExists(env.ata(env.key(req.mint).value, env.key(req.account).value)) == Ok(true)
    requires env.blockhash.Ok?
    ensures var r := Trade([], req, env, apiUrl).0;
      var buyer, seller, mint := env.key(req.account).value, env.key(req.seller).value, env.key(req.mint).value;
      r == Done(Purchase(Transaction(buyer, env.blockhash.value,
        [Transfer(buyer, seller, env.parseFloat(req.price.value)),
         TokenTransfer(TOKEN_PROGRAM_ID, env.ata(mint, seller), env.ata(mint, buyer), seller, 1)])))
  {
    var buyer, seller, mint := env.key(req.account).value, env.key(req.seller).value, env.key(req.mint).value;
    var instructions := BuyInstructions(env, buyer, seller, mint, env.parseFloat(req.price.value), true);
    assert instructions == [instructions[0], instructions[1]];
  }
}
