/**
 * The Solana Actions protocol as the routes speak it (version 2.4, sent as
 * `x-action-version`): action documents with linked actions, replies with an HTTP status,
 * unsigned transactions made of an ordered list of instructions with a fee payer and a
 * recent blockhash, and the dial.to blink URL.
 *
 * Everything the routes ask of the Solana SDK, the RPC node, Metaplex and the JavaScript
 * number parser is a parameter: an `Env`.
 */
module Protocol {
  import opened Base
  import opened Text
  import opened Url

  /** A public key in its base58 text form (what `toBase58()` gives). */
  type PublicKey = string
  type Blockhash = string

  const TOKEN_PROGRAM_ID: PublicKey := "TokenkegQfeZyiNwAJbNbGKPFXCWuBvf9Ss623VQ5DA"
  const ACTION_VERSION := "2.4"
  const DIAL_BASE := "https://dial.to/"

  /** A lookup that either answers or throws with a message. */
  datatype Outcome<T> = Ok(value: T) | Err(message: string)

  /**
   * A JavaScript number read as an amount of SOL: `NaN`, or a number whose value times
   * LAMPORTS_PER_SOL is `lamports`, and whose `toString()` is `text`.
   */
  datatype Amount = NaN | Num(lamports: int, text: string)

  /** `!(isNaN(v) || v <= 0)`. */
  predicate Positive(a: Amount) {
    a.Num? && a.lamports > 0
  }

  /** A token account balance: the raw integer amount and the mint's decimals. */
  datatype TokenAmount = TokenAmount(raw: nat, decimals: nat)

  function Pow10(n: nat): (p: nat)
    ensures p >= 1
  {
    if n == 0 then 1 else 10 * Pow10(n - 1)
  }

  /** `balance.value.uiAmount === 1`: the balance is exactly one whole token. */
  predicate OneWholeToken(t: TokenAmount) {
    t.raw == Pow10(t.decimals)
  }

  /** `balance.value.amount === "1"` (and `amount === BigInt(1)`): the raw amount is one. */
  predicate OneRawUnit(t: TokenAmount) {
    t.raw == 1
  }

  /** What Metaplex `findByMint` reports about an NFT. */
  datatype Nft = Nft(name: string, uri: string, creators: seq<PublicKey>, metadataAddress: PublicKey)

  /** The outside world, as the routes see it. */
  datatype Env = Env(
    key: Option<string> -> Option<PublicKey>,          // `new PublicKey(v)`; None when it throws
    keyError: Option<string> -> string,                // the message `new PublicKey(v)` throws with, when it does
    ata: (PublicKey, PublicKey) -> PublicKey,          // getAssociatedTokenAddress(mint, owner)
    balance: PublicKey -> Outcome<TokenAmount>,        // token account balance lookup
    accountExists: PublicKey -> Outcome<bool>,         // getAccountInfo(...) is not null, or its RPC fault
    nft: PublicKey -> Option<Nft>,                     // findByMint; None when it throws
    blockhash: Outcome<Blockhash>,                     // getLatestBlockhash()
    number: Option<string> -> Amount,                  // Number(v)
    parseFloat: string -> Amount)                      // parseFloat(v)

  // ---------------------------------------------------------------- transactions

  datatype Instruction =
    | Transfer(from: PublicKey, to: PublicKey, amount: Amount)
    | TokenTransfer(program: PublicKey, source: PublicKey, destination: PublicKey, owner: PublicKey, count: nat)
    | CreateAta(payer: PublicKey, ata: PublicKey, owner: PublicKey, mint: PublicKey)

  /** An unsigned transaction message; its wire form is not modelled. */
  datatype Transaction = Transaction(feePayer: PublicKey, recentBlockhash: Blockhash, instructions: seq<Instruction>)

  /** Fetch the latest blockhash and compile the instructions, in order, with the fee payer. */
  function Assemble(payer: PublicKey, instructions: seq<Instruction>, blockhash: Outcome<Blockhash>): (r: Outcome<Transaction>)
    ensures r.Ok? <==> blockhash.Ok?
    ensures r.Ok? ==> r.value.feePayer == payer && r.value.recentBlockhash == blockhash.value
    ensures r.Ok? ==> r.value.instructions == instructions
    ensures r.Err? ==> r.message == blockhash.message
  {
    match blockhash
    case Err(m) => Err(m)
    case Ok(h) => Ok(Transaction(payer, h, instructions))
  }

  // ---------------------------------------------------------------- replies and documents

  /** A route's reply: a 200 with a body, or an error status with a message. */
  datatype Reply<T> = Done(body: T) | Fail(status: nat, message: string)

  datatype LinkKind = TransactionLink | MessageLink

  datatype ActionParameter = ActionParameter(name: string, prompt: string, kind: string)

  datatype LinkedAction = LinkedAction(kind: LinkKind, caption: string, href: string, parameters: seq<ActionParameter>)

  /** The `ActionGetResponse` a discovery GET returns (`type: "action"`). */
  datatype ActionDocument = ActionDocument(icon: string, caption: string, title: string, description: string, links: seq<LinkedAction>)

  /** `new URL(path, req.url).toString()` for an absolute path. */
  function Resolve(origin: string, path: string): string {
    origin + path
  }

  /** One transaction link per amount: label `<a> SOL`, href `<path>?amount=<a>` followed by `rest`. */
  function AmountLinks(path: string, amounts: seq<string>, rest: seq<Param>): (links: seq<LinkedAction>)
    ensures |links| == |amounts|
    ensures forall i :: 0 <= i < |links| ==>
      links[i] == LinkedAction(TransactionLink, amounts[i] + " SOL", Href(path, [("amount", amounts[i])] + rest), [])
  {
    seq(|amounts|, i requires 0 <= i < |amounts| =>
      LinkedAction(TransactionLink, amounts[i] + " SOL", Href(path, [("amount", amounts[i])] + rest), []))
  }

  /** A link whose `name` is filled in by the user: `{name}` in the href and one number parameter. */
  function InputLink(caption: string, path: string, before: seq<Param>, name: string, prompt: string, after: seq<Param>): LinkedAction {
    LinkedAction(TransactionLink, caption, Href(path, before + [(name, "{" + name + "}")] + after),
      [ActionParameter(name, prompt, "number")])
  }

  /** Every amount link reads back as `amount=<a>` followed by `rest`, whatever the amounts. */
  lemma AmountLinksReadBack(path: string, amounts: seq<string>, rest: seq<Param>, i: nat)
    requires '?' !in path && '#' !in path
    requires i < |amounts| && Plain(amounts[i]) && PlainParams(rest)
    ensures ReadQuery(AmountLinks(path, amounts, rest)[i].href) == [("amount", amounts[i])] + rest
    ensures AmountLinks(path, amounts, rest)[i].caption == amounts[i] + " SOL"
  {
    var ps := [("amount", amounts[i])] + rest;
    assert PlainParams(ps) by {
      forall k | 0 <= k < |ps| ensures PlainName(ps[k].0) && Plain(ps[k].1) {
        if k > 0 { assert ps[k] == rest[k - 1]; }
      }
    }
    HrefReadsBack(path, ps);
  }

  // ---------------------------------------------------------------- configuration seen by the routes

  /**
   * The JSON a config holder's GET returns, field by field; None is a field that is absent
   * or null. An empty object `{}` is `NoConfig`. `amount` is a field a route reads that no
   * holder ever writes.
   */
  datatype Config = Config(
    title: Option<string>, description: Option<string>, file: Option<string>,
    amounts: Option<seq<string>>, name: Option<string>, publicKey: Option<PublicKey>,
    owner: Option<string>, mintAddress: Option<string>, amount: Option<seq<string>>)

  const NoConfig := Config(None, None, None, None, None, None, None, None, None)

  /** `config.amounts || fallback`: any array, even an empty one, is truthy. */
  function AmountsOr(c: Config, fallback: seq<string>): seq<string> {
    if c.amounts.Some? then c.amounts.value else fallback
  }

  // ---------------------------------------------------------------- blink URLs

  /** `https://dial.to/?action=solana-action:<url>`, with the parameter form-urlencoded. */
  function DialLink(actionUrl: string): string {
    WithParams(DIAL_BASE, [("action", "solana-action:" + actionUrl)])
  }

  /** The action URL `generateBlinkUrl` builds with four `searchParams.append` calls. */
  function BlinkActionUrl(apiUrl: string, path: string, action: string, mint: string, prices: seq<string>, seller: string): string {
    WithParams(apiUrl + path, [("actionType", action), ("mintAddress", mint), ("prices", Join(prices, ",")), ("seller", seller)])
  }

  /** `generateBlinkUrl(action, mintAddress, prices, seller)` for the route at `path`. */
  function BlinkUrl(apiUrl: string, path: string, action: string, mint: string, prices: seq<string>, seller: string): string {
    DialLink(BlinkActionUrl(apiUrl, path, action, mint, prices, seller))
  }

  lemma DialBaseIsPlain()
    ensures '?' !in DIAL_BASE && '#' !in DIAL_BASE
  {
  }

  /** A dial.to link carries exactly one parameter, the `solana-action:` URL, and it reads back. */
  lemma DialLinkReadsBack(actionUrl: string)
    ensures ReadParams(DialLink(actionUrl)) == Some([("action", "solana-action:" + actionUrl)])
  {
    DialBaseIsPlain();
    WithParamsReadsBack(DIAL_BASE, [("action", "solana-action:" + actionUrl)]);
  }

  /**
   * A blink URL reads back, through both layers of encoding, as the action type, mint,
   * prices and seller in that order; prices without commas split back into the list.
   */
  lemma BlinkUrlReadsBack(apiUrl: string, path: string, action: string, mint: string, prices: seq<string>, seller: string)
    requires '?' !in apiUrl + path && '#' !in apiUrl + path
    ensures ReadParams(BlinkUrl(apiUrl, path, action, mint, prices, seller))
         == Some([("action", "solana-action:" + BlinkActionUrl(apiUrl, path, action, mint, prices, seller))])
    ensures ReadParams(BlinkActionUrl(apiUrl, path, action, mint, prices, seller))
         == Some([("actionType", action), ("mintAddress", mint), ("prices", Join(prices, ",")), ("seller", seller)])
    ensures |prices| >= 1 && (forall k :: 0 <= k < |prices| ==> ',' !in prices[k]) ==>
      Split(Join(prices, ","), ",") == prices
  {
    DialLinkReadsBack(BlinkActionUrl(apiUrl, path, action, mint, prices, seller));
    WithParamsReadsBack(apiUrl + path, [("actionType", action), ("mintAddress", mint), ("prices", Join(prices, ",")), ("seller", seller)]);
    if |prices| >= 1 && (forall k :: 0 <= k < |prices| ==> ',' !in prices[k]) {
      SplitJoin(prices, ',');
    }
  }
}
