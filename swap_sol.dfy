/**
 * The swap action (`/api/actions/swap-sol`): a discovery document for buying one of four
 * known tokens with another, and a POST that asks the Jupiter exchange for a quote and a
 * swap transaction, checks that the payer signs it, and returns it.
 *
 * Jupiter is a parameter (`Exchange`); its transactions are opaque apart from their static
 * account keys and their serialized form.
 */
module SwapSol {
  import opened Base
  import opened Url
  import opened Protocol

  const SWAP_PATH := "/api/actions/swap-sol"
  const UNSUPPORTED := "Unsupported input or output token"
  const MISSING_MINTS := "Missing mint parameters"
  const INVALID_SWAP := "Invalid swap transaction returned by Jupiter"
  const NOT_SIGNER := "User public key not found in transaction accounts"
  const DEFAULT_AMOUNTS := ["0.01", "0.05", "0.1"]

  const SOL_MINT := "So11111111111111111111111111111111111111112"
  const JUP_MINT := "JUPyiwrYJFskUPiHa7hkeR8VUtAeFoSYbKedZNsDvCN"
  const WIF_MINT := "EKpQGSJtjMFqKZ9KQanSqYXRcF8fBopzLHYxdM65zcjm"
  const BONK_MINT := "DezXAZ8z7PnrnRJjz3wXBoRgixCa6xjnB7YaB1pPB263"

  /** A token the blink knows: its ticker and the path of its icon. */
  datatype Token = Token(name: string, icon: string)

  /** The token table: exactly the four known mints. */
  function TokenOf(mint: string): (t: Option<Token>)
    ensures t.Some? <==> mint in {SOL_MINT, JUP_MINT, WIF_MINT, BONK_MINT}
    ensures mint == SOL_MINT ==> t == Some(Token("SOL", "/solana-pic.png"))
  {
    if mint == SOL_MINT then Some(Token("SOL", "/solana-pic.png"))
    else if mint == JUP_MINT then Some(Token("JUP", "/JUP.jpg"))
    else if mint == WIF_MINT then Some(Token("WIF", "/WIF.jpeg"))
    else if mint == BONK_MINT then Some(Token("BONK", "/BONK.jpg"))
    else None
  }

  /** `searchParams.get(k) ?? ""`. */
  function OrEmpty(s: Option<string>): string {
    if s.Some? then s.value else ""
  }

  /** GET: the swap document for `inputMint` → `outputMint`, or 400 when either is unknown. */
  function Discover(c: Config, origin: string, inputMint: Option<string>, outputMint: Option<string>): (r: Reply<ActionDocument>)
    ensures r.Fail? <==> TokenOf(OrEmpty(inputMint)).None? || TokenOf(OrEmpty(outputMint)).None?
    ensures r.Fail? ==> r == Fail(400, UNSUPPORTED)
    ensures r.Done? ==>
      var tin, tout := TokenOf(OrEmpty(inputMint)).value, TokenOf(OrEmpty(outputMint)).value;
      && r.body.caption == "Buy " + tout.name
      && r.body.icon == origin + tout.icon
      && r.body.title == Or(c.title, "Buy " + tout.name + " with " + tin.name)
      && r.body.description == Or(c.description, "Swap 0.01, 0.05, or 0.1 " + tin.name + " to buy " + tout.name + " using Jupiter via Blink")
      && |r.body.links| == |AmountsOr(c, DEFAULT_AMOUNTS)| + 1
      && (forall i :: 0 <= i < |r.body.links| - 1 ==> r.body.links[i] == LinkedAction(TransactionLink,
            AmountsOr(c, DEFAULT_AMOUNTS)[i] + " SOL",
            Href(SWAP_PATH, [("amount", AmountsOr(c, DEFAULT_AMOUNTS)[i]), ("inputMint", OrEmpty(inputMint)), ("outputMint", OrEmpty(outputMint))]), []))
      && r.body.links[|r.body.links| - 1].caption == "Custom"
      && r.body.links[|r.body.links| - 1].href
         == Href(SWAP_PATH, [("amount", "{amount}"), ("inputMint", OrEmpty(inputMint)), ("outputMint", OrEmpty(outputMint))])
      && r.body.links[|r.body.links| - 1].parameters == [ActionParameter("amount", "Enter amount in " + tin.name, "number")]
  {
    var inMint, outMint := OrEmpty(inputMint), OrEmpty(outputMint);
    var tin, tout := TokenOf(inMint), TokenOf(outMint);
    if tin.None? || tout.None? then Fail(400, UNSUPPORTED)
    else
      var pair := [("inputMint", inMint), ("outputMint", outMint)];
      assert forall a :: [("amount", a)] + pair == [("amount", a), ("inputMint", inMint), ("outputMint", outMint)];
      Done(ActionDocument(
        Resolve(origin, tout.value.icon), "Buy " + tout.value.name,
        Or(c.title, "Buy " + tout.value.name + " with " + tin.value.name),
        Or(c.description, "Swap 0.01, 0.05, or 0.1 " + tin.value.name + " to buy " + tout.value.name + " using Jupiter via Blink"),
        AmountLinks(SWAP_PATH, AmountsOr(c, DEFAULT_AMOUNTS), pair)
        + [LinkedAction(TransactionLink, "Custom", Href(SWAP_PATH, [("amount", "{amount}")] + pair),
                        [ActionParameter("amount", "Enter amount in " + tin.value.name, "number")])]))
  }

  /** Every amount link of a swap document reads back as the amount and the two mints. */
  lemma SwapLinksReadBack(c: Config, origin: string, inputMint: string, outputMint: string, i: nat)
    requires TokenOf(inputMint).Some? && TokenOf(outputMint).Some?
    requires i < |AmountsOr(c, DEFAULT_AMOUNTS)| && Plain(AmountsOr(c, DEFAULT_AMOUNTS)[i])
    ensures Discover(c, origin, Some(inputMint), Some(outputMint)).Done?
    ensures ReadQuery(Discover(c, origin, Some(inputMint), Some(outputMint)).body.links[i].href)
      == [("amount", AmountsOr(c, DEFAULT_AMOUNTS)[i]), ("inputMint", inputMint), ("outputMint", outputMint)]
  {
    var a := AmountsOr(c, DEFAULT_AMOUNTS)[i];
    var ps := [("amount", a), ("inputMint", inputMint), ("outputMint", outputMint)];
    var d := Discover(c, origin, Some(inputMint), Some(outputMint));
    KnownMintIsPlain(inputMint);
    KnownMintIsPlain(outputMint);
    SwapParamsArePlain(a, inputMint, outputMint);
    HrefReadsBack(SWAP_PATH, ps);
  }

  lemma SwapParamsArePlain(amount: string, inputMint: string, outputMint: string)
    requires Plain(amount) && Plain(inputMint) && Plain(outputMint)
    ensures PlainParams([("amount", amount), ("inputMint", inputMint), ("outputMint", outputMint)])
  {
  }

  /** A known mint is base58 text: nothing in it ends a parameter. */
  lemma KnownMintIsPlain(mint: string)
    requires TokenOf(mint).Some?
    ensures Plain(mint)
  {
    MintsArePlain();
  }

  lemma MintsArePlain()
    ensures Plain(SOL_MINT) && Plain(JUP_MINT) && Plain(WIF_MINT) && Plain(BONK_MINT)
  {
    forall i | 0 <= i < |SOL_MINT| ensures SOL_MINT[i] != '&' && SOL_MINT[i] != '#' { }
    forall i | 0 <= i < |JUP_MINT| ensures JUP_MINT[i] != '&' && JUP_MINT[i] != '#' { }
    forall i | 0 <= i < |WIF_MINT| ensures WIF_MINT[i] != '&' && WIF_MINT[i] != '#' { }
    forall i | 0 <= i < |BONK_MINT| ensures BONK_MINT[i] != '&' && BONK_MINT[i] != '#' { }
  }

  /** The `swapTransaction` field of Jupiter's swap reply. */
  datatype SwapField = Missing | NotText | Text(encoded: string)

  /** A deserialized versioned transaction: its static account keys and its serialized base64 form. */
  datatype SwapTransaction = SwapTransaction(staticKeys: seq<PublicKey>, serialized: string)

  /** The Jupiter exchange and the transaction decoder. */
  datatype Exchange = Exchange(
    quote: (string, string, Amount) -> Outcome<string>,           // GET /v6/quote; the quote body is opaque
    swap: (string, PublicKey, Blockhash) -> Outcome<SwapField>,   // POST /v6/swap
    deserialize: string -> Outcome<SwapTransaction>)              // VersionedTransaction.deserialize

  /** The swap query: both mints and the amount in SOL. */
  datatype SwapQuery = SwapQuery(inputMint: Option<string>, outputMint: Option<string>, amount: Option<string>)

  /** A 200 reply: the transaction to sign and the blink URL of this swap. */
  datatype Swapped = Swapped(transaction: string, blinkUrl: string)

  /** The amount asked for: `parseFloat(amount || "0.01")`, floored to lamports. */
  function SwapAmount(q: SwapQuery, env: Env): (a: Amount)
    ensures !Truthy(q.amount) ==> a == env.parseFloat("0.01")
    ensures Truthy(q.amount) ==> a == env.parseFloat(q.amount.value)
  {
    env.parseFloat(Or(q.amount, "0.01"))
  }

  /** POST: quote, swap and check the transaction; `id` is the fresh swap identifier. */
  function Post(q: SwapQuery, account: Option<string>, env: Env, jup: Exchange, id: string): (r: Reply<Swapped>)
    ensures r.Fail? ==> r.status in {400, 500}
    ensures env.key(account).None? ==> r == Fail(500, env.keyError(account))
    ensures env.key(account).Some? && (!Truthy(q.inputMint) || !Truthy(q.outputMint)) ==> r == Fail(400, MISSING_MINTS)
    ensures env.key(account).Some? && Truthy(q.inputMint) && Truthy(q.outputMint) && r.Fail? ==> r.status == 500
    ensures env.key(account).Some? && Truthy(q.inputMint) && Truthy(q.outputMint) && env.blockhash.Ok? ==>
      var payer := env.key(account).value;
      var quote := jup.quote(q.inputMint.value, q.outputMint.value, SwapAmount(q, env));
      quote.Ok? && jup.swap(quote.value, payer, env.blockhash.value).Ok? ==>
        var field := jup.swap(quote.value, payer, env.blockhash.value).value;
        (field.Text? && field.encoded != "" && jup.deserialize(field.encoded).Ok?
         && payer in jup.deserialize(field.encoded).value.staticKeys) ==> r.Done?
    ensures r.Done? ==>
      && env.key(account).Some? && Truthy(q.inputMint) && Truthy(q.outputMint) && env.blockhash.Ok?
      && var payer := env.key(account).value;
      && jup.quote(q.inputMint.value, q.outputMint.value, SwapAmount(q, env)).Ok?
      && var quote := jup.quote(q.inputMint.value, q.outputMint.value, SwapAmount(q, env)).value;
      && jup.swap(quote, payer, env.blockhash.value) .Ok?
      && var field := jup.swap(quote, payer, env.blockhash.value).value;
      && field.Text? && field.encoded != ""
      && jup.deserialize(field.encoded).Ok?
      && payer in jup.deserialize(field.encoded).value.staticKeys
      && r.body.transaction == jup.deserialize(field.encoded).value.serialized
      && r.body.blinkUrl == Href(SWAP_PATH, [("bet", id), ("inputMint", q.inputMint.value), ("outputMint", q.outputMint.value)])
  {
    var payer := env.key(account);
    if payer.None? then Fail(500, env.keyError(account))
    else
      var amount := SwapAmount(q, env);
      if !Truthy(q.inputMint) || !Truthy(q.outputMint) then Fail(400, MISSING_MINTS)
      else match env.blockhash
        case Err(m) => Fail(500, m)
        case Ok(hash) =>
          match jup.quote(q.inputMint.value, q.outputMint.value, amount)
          case Err(m) => Fail(500, m)
          case Ok(quote) =>
            match jup.swap(quote, payer.value, hash)
            case Err(m) => Fail(500, m)
            case Ok(field) =>
              if !field.Text? || field.encoded == "" then Fail(500, INVALID_SWAP)
              else match jup.deserialize(field.encoded)
                case Err(m) => Fail(500, m)
                case Ok(tx) =>
                  if payer.value !in tx.staticKeys then Fail(500, NOT_SIGNER)
                  else Done(Swapped(tx.serialized, Href(SWAP_PATH, [("bet", id), ("inputMint", q.inputMint.value), ("outputMint", q.outputMint.value)])))
  }

  /** A transaction the payer does not appear in is never handed out. */
  lemma NeverReturnsForeignTransaction(q: SwapQuery, account: Option<string>, env: Env, jup: Exchange, id: string, encoded: string)
    requires env.key(account).Some? && Truthy(q.inputMint) && Truthy(q.outputMint) && env.blockhash.Ok?
    requires jup.quote(q.inputMint.value, q.outputMint.value, SwapAmount(q, env)).Ok?
    requires jup.swap(jup.quote(q.inputMint.value, q.outputMint.value, SwapAmount(q, env)).value,
                      env.key(account).value, env.blockhash.value) == Ok(Text(encoded))
    requires encoded != "" && jup.deserialize(encoded).Ok?
    requires env.key(account).value !in jup.deserialize(encoded).value.staticKeys
    ensures Post(q, account, env, jup, id) == Fail(500, NOT_SIGNER)
  {
  }

  /** The blink URL of a swap reads back as its identifier and its two mints. */
  lemma SwapBlinkReadsBack(q: SwapQuery, account: Option<string>, env: Env, jup: Exchange, id: string)
    requires Post(q, account, env, jup, id).Done?
    requires Plain(id) && Plain(q.inputMint.value) && Plain(q.outputMint.value)
    ensures ReadQuery(Post(q, account, env, jup, id).body.blinkUrl)
      == [("bet", id), ("inputMint", q.inputMint.value), ("outputMint", q.outputMint.value)]
  {
    var ps := [("bet", id), ("inputMint", q.inputMint.value), ("outputMint", q.outputMint.value)];
    assert PlainParams(ps);
    HrefReadsBack(SWAP_PATH, ps);
  }
}
