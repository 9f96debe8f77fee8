/**
 * The NFT listing template (`/api/actions/template-nft`): GET previews a listing of one
 * NFT at a price; POST, when the body approves it, records the listing in memory and
 * returns its blink URL.
 */
module TemplateNft {
  import opened Base
  import opened Url
  import opened Protocol
  import NftMarket

  const TEMPLATE_PATH := "/api/actions/template-nft"
  const MISSING := "Missing mintAddress, price, or seller"
  const BAD_KEY := "Invalid public key"
  const BAD_PRICE := "Invalid price"
  const PREVIEW_ONLY := "Use GET /api/actions/template-nft for preview"

  /**
   * The checks GET and POST share, in order: all three fields present, both keys parse,
   * the price is a positive number. None when all pass, else the 400 message.
   */
  function Screen(mint: Option<string>, price: Option<string>, seller: Option<string>, env: Env): (r: Option<string>)
    ensures r.None? <==>
      && Truthy(mint) && Truthy(price) && Truthy(seller)
      && env.key(mint).Some? && env.key(seller).Some? && Positive(env.parseFloat(price.value))
    ensures !Truthy(mint) || !Truthy(price) || !Truthy(seller) ==> r == Some(MISSING)
    ensures Truthy(mint) && Truthy(price) && Truthy(seller) && (env.key(mint).None? || env.key(seller).None?) ==> r == Some(BAD_KEY)
    ensures (Truthy(mint) && Truthy(price) && Truthy(seller) && env.key(mint).Some? && env.key(seller).Some?
             && !Positive(env.parseFloat(price.value))) ==> r == Some(BAD_PRICE)
    ensures r.Some? ==> r.value in {MISSING, BAD_KEY, BAD_PRICE}
  {
    if !Truthy(mint) || !Truthy(price) || !Truthy(seller) then Some(MISSING)
    else if env.key(mint).None? || env.key(seller).None? then Some(BAD_KEY)
    else if !Positive(env.parseFloat(price.value)) then Some(BAD_PRICE)
    else None
  }

  // ---------------------------------------------------------------- GET

  /** The preview's query. */
  datatype PreviewQuery = PreviewQuery(mint: Option<string>, price: Option<string>, seller: Option<string>,
                                       title: Option<string>, description: Option<string>)

  /** The parameters of an approve link; title and description are URI-component encoded. */
  function ApproveParams(mint: string, price: string, seller: string, title: Option<string>, description: Option<string>): seq<Param> {
    [("action", "approve"), ("mintAddress", mint), ("price", price), ("seller", seller),
     ("title", EncodeUriComponent(Or(title, ""))), ("description", EncodeUriComponent(Or(description, "")))]
  }

  /** The NFT's image and name, or the defaults when the lookup fails or they are empty. */
  function ImageAndName(env: Env, mint: PublicKey, apiUrl: string): (r: (string, string))
    ensures env.nft(mint).None? ==> r == (apiUrl + "/solana-pic.png", "NFT")
    ensures env.nft(mint).Some? ==> r.0 == Or(Some(env.nft(mint).value.uri), apiUrl + "/solana-pic.png")
    ensures env.nft(mint).Some? ==> r.1 == Or(Some(env.nft(mint).value.name), "NFT")
  {
    match env.nft(mint)
    case None => (apiUrl + "/solana-pic.png", "NFT")
    case Some(n) => (Or(Some(n.uri), apiUrl + "/solana-pic.png"), Or(Some(n.name), "NFT"))
  }

  /** GET: the preview document, or the first failing check. */
  function Preview(q: PreviewQuery, env: Env, apiUrl: string): (r: Reply<ActionDocument>)
    ensures r.Fail? <==> Screen(q.mint, q.price, q.seller, env).Some?
    ensures r.Fail? ==> r == Fail(400, Screen(q.mint, q.price, q.seller, env).value)
    ensures r.Done? ==>
      var (image, name) := ImageAndName(env, env.key(q.mint).value, apiUrl);
      && r.body.caption == "List NFT" && r.body.icon == image
      && r.body.title == Or(q.title, name + " for Sale")
      && r.body.description == Or(q.description, "List " + name + " for " + q.price.value + " SOL on the Solana blockchain.")
      && |r.body.links| == 2
      && r.body.links[0] == LinkedAction(TransactionLink, q.price.value + " SOL",
           Href(apiUrl + TEMPLATE_PATH, ApproveParams(q.mint.value, q.price.value, q.seller.value, q.title, q.description)), [])
      && r.body.links[1] == LinkedAction(TransactionLink, "Custom Price",
           Href(apiUrl + TEMPLATE_PATH, ApproveParams(q.mint.value, "{price}", q.seller.value, q.title, q.description)),
           [ActionParameter("price", "Enter a custom SOL amount", "number")])
  {
    match Screen(q.mint, q.price, q.seller, env)
    case Some(m) => Fail(400, m)
    case None =>
      var (image, name) := ImageAndName(env, env.key(q.mint).value, apiUrl);
      var mint, price, seller := q.mint.value, q.price.value, q.seller.value;
      Done(ActionDocument(image, "List NFT",
        Or(q.title, name + " for Sale"),
        Or(q.description, "List " + name + " for " + price + " SOL on the Solana blockchain."),
        [LinkedAction(TransactionLink, price + " SOL",
           Href(apiUrl + TEMPLATE_PATH, ApproveParams(mint, price, seller, q.title, q.description)), []),
         LinkedAction(TransactionLink, "Custom Price",
           Href(apiUrl + TEMPLATE_PATH, ApproveParams(mint, "{price}", seller, q.title, q.description)),
           [ActionParameter("price", "Enter a custom SOL amount", "number")])]))
  }

  /**
   * The approve link of a preview reads back as its six parameters, and the title and
   * description decode back to the ones asked for (empty when absent).
   */
  lemma ApproveLinkReadsBack(q: PreviewQuery, env: Env, apiUrl: string)
    requires Preview(q, env, apiUrl).Done?
    requires '?' !in apiUrl && '#' !in apiUrl
    requires Plain(q.mint.value) && Plain(q.price.value) && Plain(q.seller.value)
    ensures var ps := ReadQuery(Preview(q, env, apiUrl).body.links[0].href);
      && ps == ApproveParams(q.mint.value, q.price.value, q.seller.value, q.title, q.description)
      && PercentDecode(UriComponent, ps[4].1) == Some(Or(q.title, ""))
      && PercentDecode(UriComponent, ps[5].1) == Some(Or(q.description, ""))
  {
    var ps := ApproveParams(q.mint.value, q.price.value, q.seller.value, q.title, q.description);
    EncodedIsPlain(UriComponent, Or(q.title, ""));
    EncodedIsPlain(UriComponent, Or(q.description, ""));
    ApproveParamsArePlain(q.mint.value, q.price.value, q.seller.value, q.title, q.description);
    assert '?' !in apiUrl + TEMPLATE_PATH && '#' !in apiUrl + TEMPLATE_PATH;
    HrefReadsBack(apiUrl + TEMPLATE_PATH, ps);
    PercentRoundTrip(UriComponent, Or(q.title, ""));
    PercentRoundTrip(UriComponent, Or(q.description, ""));
  }

  lemma ApproveParamsArePlain(mint: string, price: string, seller: string, title: Option<string>, description: Option<string>)
    requires Plain(mint) && Plain(price) && Plain(seller)
    requires Plain(EncodeUriComponent(Or(title, ""))) && Plain(EncodeUriComponent(Or(description, "")))
    ensures PlainParams(ApproveParams(mint, price, seller, title, description))
  {
  }

  // ---------------------------------------------------------------- POST

  /** The JSON body of a POST; `approve` is its truthiness, false when absent. */
  datatype ApproveBody = ApproveBody(action: Option<string>, mint: Option<string>, price: Option<string>,
                                     seller: Option<string>, approve: bool)

  /** A 200 reply to an approved listing. */
  datatype Approved = Approved(message: string, blinkUrl: string)

  /** `action = "sell"`: the default applies only when the field is absent. */
  function ActionOf(b: ApproveBody): string {
    if b.action.Some? then b.action.value else "sell"
  }

  /** POST: the reply and the listings after one approval request. */
  function Approve(listings: seq<NftMarket.Listing>, b: ApproveBody, env: Env, apiUrl: string): (r: (Reply<Approved>, seq<NftMarket.Listing>))
    ensures r.0.Fail? ==> r.1 == listings && r.0.status == 400
    ensures Screen(b.mint, b.price, b.seller, env).Some? ==> r.0 == Fail(400, Screen(b.mint, b.price, b.seller, env).value)
    ensures Screen(b.mint, b.price, b.seller, env).None? && !b.approve ==> r.0 == Fail(400, PREVIEW_ONLY)
    ensures r.0.Done? <==> Screen(b.mint, b.price, b.seller, env).None? && b.approve
    ensures r.0.Done? ==>
      && r.1 == listings + [NftMarket.Listing(b.mint.value, env.parseFloat(b.price.value), b.seller.value)]
      && r.0.body.message == "NFT listed for sale at " + b.price.value + " SOL"
      && r.0.body.blinkUrl == BlinkUrl(apiUrl, TEMPLATE_PATH, ActionOf(b), b.mint.value, [b.price.value], b.seller.value)
  {
    match Screen(b.mint, b.price, b.seller, env)
    case Some(m) => (Fail(400, m), listings)
    case None =>
      if !b.approve then (Fail(400, PREVIEW_ONLY), listings)
      else
        var mint, price, seller := b.mint.value, b.price.value, b.seller.value;
        (Done(Approved("NFT listed for sale at " + price + " SOL", BlinkUrl(apiUrl, TEMPLATE_PATH, ActionOf(b), mint, [price], seller))),
         listings + [NftMarket.Listing(mint, env.parseFloat(price), seller)])
  }

  /** The in-memory listings with the POST handler that appends to them. */
  class TemplateListings {
    var listings: seq<NftMarket.Listing>

    constructor()
      ensures listings == []
    {
      listings := [];
    }

    method Post(b: ApproveBody, env: Env, apiUrl: string) returns (reply: Reply<Approved>)
      modifies this
      ensures (reply, listings) == Approve(old(listings), b, env, apiUrl)
    {
      if !Truthy(b.mint) || !Truthy(b.price) || !Truthy(b.seller) {
        return Fail(400, MISSING);
      }
      if env.key(b.mint).None? || env.key(b.seller).None? {
        return Fail(400, BAD_KEY);
      }
      var priceValue := env.parseFloat(b.price.value);
      if !Positive(priceValue) {
        return Fail(400, BAD_PRICE);
      }
      if !b.approve {
        return Fail(400, PREVIEW_ONLY);
      }
      listings := listings + [NftMarket.Listing(b.mint.value, priceValue, b.seller.value)];
      var blinkUrl := BlinkUrl(apiUrl, TEMPLATE_PATH, ActionOf(b), b.mint.value, [b.price.value], b.seller.value);
      return Done(Approved("NFT listed for sale at " + b.price.value + " SOL", blinkUrl));
    }
  }

  /** Every recorded listing has a positive price. */
  predicate PricedListings(listings: seq<NftMarket.Listing>) {
    forall i :: 0 <= i < |listings| ==> Positive(listings[i].price)
  }

  lemma ApproveKeepsPricedListings(listings: seq<NftMarket.Listing>, b: ApproveBody, env: Env, apiUrl: string)
    requires PricedListings(listings)
    ensures PricedListings(Approve(listings, b, env, apiUrl).1)
  {
    var after := Approve(listings, b, env, apiUrl).1;
    if after != listings {
      forall i | 0 <= i < |after| ensures Positive(after[i].price) {
        if i < |listings| {
          assert after[i] == listings[i];
        }
      }
    }
  }

  /**
   * A Solana Actions client posts only `{"account": ...}`; the approve links carry the
   * listing in their query, which the POST does not read, so such a request is refused
   * and nothing is listed.
   */
  lemma AccountOnlyBodyIsRefused(listings: seq<NftMarket.Listing>, env: Env, apiUrl: string)
    ensures Approve(listings, ApproveBody(None, None, None, None, false), env, apiUrl) == (Fail(400, MISSING), listings)
  {
  }
}
