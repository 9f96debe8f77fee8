# Blink builder routes, modelled in Dafny

Blink builder is a Next.js application that serves Solana Actions ("blinks").

- A GET on an action route returns an action document: icon, title, description and a list of linked actions, each with an href and optional input parameters.
- A POST returns an unsigned transaction for the wallet to sign, or a message.
- Three configuration routes (`blink-config`, `vote-config`, `donate-config`) each hold one module-level configuration object. The action routes read it.

This project models the ten API routes that make up that core:

- the voting, betting, donation and swap actions;
- the two NFT marketplace routes;
- the NFT listing template;
- the three configuration holders.

Modules:

| module | route |
|---|---|
| `Base`, `Text`, `Utf8`, `Url` | JavaScript's `||` defaulting, `split`/`join`, UTF-8, template-literal hrefs, `URLSearchParams` and `encodeURIComponent` |
| `Protocol` | what the routes share: amounts, public keys, instructions, transactions, action documents, `generateBlinkUrl` and the dial.to link |
| `VoteSol` | `src/app/api/actions/vote-sol/route.ts` |
| `GambleSol` | `src/app/api/actions/gamble-sol/route.ts` |
| `NftMarket` | `src/app/api/nft/route.ts` |
| `NftActions` | `src/app/api/actions/nft/route.ts` |
| `DonateSol` | `src/app/api/actions/donate-sol/route.ts` |
| `SwapSol` | `src/app/api/actions/swap-sol/route.ts` |
| `TemplateNft` | `src/app/api/actions/template-nft/route.ts` |
| `ConfigForms`, `BlinkConfig`, `VoteConfig`, `DonateConfig` | the configuration holders |

Everything a route asks of the outside world is a parameter. The `Protocol.Env` value carries:

- public-key parsing, and the message `new PublicKey` throws for text it rejects;
- associated token addresses;
- token balances;
- account existence, or the RPC fault of that lookup;
- Metaplex NFT lookups;
- the latest blockhash;
- `Number` and `parseFloat`.

The Supabase calls of the voting route are modelled as a map from candidate key to row, together with the two store faults. Jupiter's quote, swap and deserialisation calls are a parameter. So are the web fetches of the donation configuration.

State the source keeps in module-level variables is a class with one field:

- the bets map;
- the two listing arrays;
- the candidate table;
- the configuration objects.

Each handler that changes state is a `method` with a `modifies` clause. Its `ensures` ties the reply and the new field value to a pure function of the old value. The properties are proved as lemmas about that function.

Most hrefs are built with template literals and read with `URLSearchParams`. The lemmas named `...ReadsBack` prove that a link's raw query splits back into the parameters it was built from, provided the values contain no `&` or `#`. `URLSearchParams` also decodes `+` and `%XX`, so a value read through it comes back unchanged only when it holds neither `+` nor `%` as well (`Url.HrefReadsBackDecoded`); the lemmas that follow a link into a POST (`DonateSol.AmountLinkDonatesItsAmount`, `GambleSol.PlaceThenDescribe`) read it that way.

One behaviour of the NFT listing template is modelled as written and deserves notice. The template's approve links carry their data in the query string (`template-nft/route.ts:113-135`). Its POST reads only the JSON body (`:161-169`). A wallet that posts just `{account}` to such a link is therefore refused with 400 (`TemplateNft.AccountOnlyBodyIsRefused`).

## Model

| member | source | states |
|---|---|---|
| Text.JoinSplit | src/app/api/actions/gamble-sol/route.ts:104 | joining the pieces `split` produces, with the same separator, gives back the original string |
| Text.SplitJoin | src/app/api/nft/route.ts:411 | a non-empty list of prices without commas, joined with `,`, splits back into the same list |
| Utf8.DecodeEncode | src/app/api/actions/template-nft/route.ts:117-125 | decoding the UTF-8 encoding of any string gives back that string |
| Url.HrefReadsBack | src/app/api/actions/vote-sol/route.ts:54-55 | the query of a template-literal href `path?k1=v1&...` reads back, in order, as the pairs it was built from, when names contain no `=` and values no `&` or `#` |
| Url.EncodedIsPlain | src/app/api/actions/template-nft/route.ts:117-125 | a percent-encoded string contains none of `&`, `#`, `=`, `?`, so it can sit in a query unescaped |
| Url.PercentRoundTrip | src/app/api/actions/template-nft/route.ts:117-125 | percent-decoding undoes percent-encoding for both the form-urlencoded and the `encodeURIComponent` character sets, for every string |
| Url.DecodeEncodedPairs | src/app/api/nft/route.ts:408-412 | decoding the form-urlencoded pairs of a parameter list gives back that list |
| Url.DecodeVerbatim | src/app/api/actions/donate-sol/route.ts:158 | percent-decoding leaves a string without `+` or `%` as it is |
| Url.HrefReadsBackDecoded | src/app/api/actions/donate-sol/route.ts:158 | a template-literal href whose names and values hold none of `&`, `#`, `+`, `%` reads back through `URLSearchParams` as exactly the pairs it was built from |
| Url.WithParamsReadsBack | src/app/api/nft/route.ts:408-416 | a URL built with `searchParams.append` reads back, through `URLSearchParams`, as exactly the appended pairs in order, whatever their characters |
| Protocol.Assemble | src/app/api/actions/donate-sol/route.ts:191-216 | a transaction exists exactly when the blockhash is fetched; it then has the given fee payer and blockhash and the instructions in order, and a failure carries the fetch's message |
| Protocol.AmountLinks | src/app/api/actions/donate-sol/route.ts:112-125 | one transaction link per configured amount, in order, labelled `<a> SOL`, with href `<path>?amount=<a>` followed by the fixed parameters |
| Protocol.AmountLinksReadBack | src/app/api/actions/donate-sol/route.ts:112-125 | the i-th amount link's query reads back as `amount=<i-th amount>` followed by the fixed parameters |
| Protocol.DialLinkReadsBack | src/app/api/nft/route.ts:413-416 | the dial.to link's single `action` parameter reads back as `solana-action:` followed by the whole action URL |
| Protocol.BlinkUrlReadsBack | src/app/api/nft/route.ts:399-417 | `generateBlinkUrl`'s link unwraps to its action URL, whose parameters read back as `actionType`, `mintAddress`, `prices`, `seller`; comma-free prices split back into the list |
| VoteSol.Discover | src/app/api/actions/vote-sol/route.ts:38-65 | the vote document: one message link `Vote for <name>`, with each configured field shown and each missing one replaced by its default |
| VoteSol.VoteLinkReadsBack | src/app/api/actions/vote-sol/route.ts:54-55 | the vote link's query reads back as exactly `candidate=<configured name>` |
| VoteSol.Appended | src/app/api/actions/vote-sol/route.ts:154-161 | appending a voter extends the row's voter list by that voter and keeps its name, key and title |
| VoteSol.Vote | src/app/api/actions/vote-sol/route.ts:73-185 | the error ladder: missing candidate key 500, a candidate or voter key that does not parse 500 with the message the key parser threw, self-vote 403, missing candidate 400, a read fault 500 with its message, repeat voter 403, a write fault 500 with its message. A failure leaves the table as it was. A vote that passes these checks with no store fault succeeds: it inserts a row with the voter as its only voter for a new candidate, or appends the voter to the candidate's row |
| VoteSol.CandidateTable.constructor | src/app/api/actions/vote-sol/route.ts:32-35 | the candidate table starts empty |
| VoteSol.CandidateTable.Post | src/app/api/actions/vote-sol/route.ts:73-185 | the handler's step-by-step reads and writes leave the reply and the table that `VoteSol.Vote` specifies |
| VoteSol.AppendDistinct | src/app/api/actions/vote-sol/route.ts:143-161 | appending a voter who is not yet in a duplicate-free list keeps it duplicate-free |
| VoteSol.VoteKeepsNoDoubleVotes | src/app/api/actions/vote-sol/route.ts:143-161 | no voter appears twice under one candidate after any vote, if none did before |
| VoteSol.RunKeepsNoDoubleVotes | src/app/api/actions/vote-sol/route.ts:143-161 | the no-double-vote invariant holds after any sequence of votes |
| VoteSol.VoteTouchesOneRow | src/app/api/actions/vote-sol/route.ts:118-161 | a vote adds, removes or changes no row other than the configured candidate's |
| VoteSol.SecondVoteScenario | src/app/api/actions/vote-sol/route.ts:143-161 | a voter already recorded is refused with 403 and the table is unchanged; a new voter is appended after the first |
| GambleSol.Place | src/app/api/actions/gamble-sol/route.ts:26-84 | an incomplete request is a 400 that stores nothing. A complete one stores the bet even when building the transaction fails with 500. On success the reply holds a single transfer from payer to creator and the `?bet=<id>` link |
| GambleSol.FirstOther | src/app/api/actions/gamble-sol/route.ts:104-105 | the first team in the list that differs from the picked side, or none exactly when every team is that side |
| GambleSol.Describe | src/app/api/actions/gamble-sol/route.ts:86-132 | a missing or unknown bet is 404. Otherwise the document describes the match, the creator and their pick, the opposite side, the amount and the time (`N/A` when absent), and offers one link to bet the same amount on the opposite side, under that team's logo |
| GambleSol.Challenge | src/app/api/actions/gamble-sol/route.ts:134-155 | an unknown bet is 404 and a missing challenger 400, both leaving the bets unchanged; the PUT succeeds exactly when the bet is known and a challenger is given, and then records the challenger on that bet |
| GambleSol.BetStore.constructor | src/app/api/actions/gamble-sol/route.ts:19 | the bets map starts empty |
| GambleSol.BetStore.Post | src/app/api/actions/gamble-sol/route.ts:26-84 | the POST handler's reply and new bets map are those of `GambleSol.Place` |
| GambleSol.BetStore.Get | src/app/api/actions/gamble-sol/route.ts:86-132 | GET fails exactly when the bet parameter is missing or names no stored bet (see Left out for prototype keys) |
| GambleSol.BetStore.Put | src/app/api/actions/gamble-sol/route.ts:134-155 | the PUT handler's reply and new bets map are those of `GambleSol.Challenge` |
| GambleSol.PlaceAddsOneBet | src/app/api/actions/gamble-sol/route.ts:36-46 | a complete request adds exactly one bet under its id, with no challenger yet, and leaves every other bet alone |
| GambleSol.PlaceThenDescribe | src/app/api/actions/gamble-sol/route.ts:67-71 | the link a created bet returns reads back through `URLSearchParams` as `bet=<id>`; GET on that id then finds the bet, and its join link reads back as the same id |
| GambleSol.ChallengeChangesOnlyChallenger | src/app/api/actions/gamble-sol/route.ts:150 | a successful PUT keeps the set of bets and every other bet, and changes only the challenger field of the named bet |
| GambleSol.OppositeSideIsAnotherTeam | src/app/api/actions/gamble-sol/route.ts:104-105 | the opposite side is either `Other` or a non-empty team of the series different from the picked side; it is `Other` when no team differs |
| GambleSol.NoSpaceNoSeparator | src/app/api/actions/gamble-sol/route.ts:104 | a team name without spaces never contains the ` vs ` separator, so it splits into itself |
| GambleSol.SplitSeries | src/app/api/actions/gamble-sol/route.ts:104 | `A vs B`, with space-free names, splits into exactly the two teams |
| GambleSol.KnicksCeltics | src/app/api/actions/gamble-sol/route.ts:104-105 | in `Knicks vs Celtics` each side's opposite is the other team, and a one-team series has `Other` |
| NftMarket.Discover | src/app/api/nft/route.ts:69-116 | the market document: three fixed amount links (0.01, 0.05, 0.1 SOL) and a custom-amount link `/api/nft/action?amount={amount}` with a number input |
| NftMarket.DiscoverLinksReadBack | src/app/api/nft/route.ts:69-116 | each fixed link's query reads back as `amount=` its own amount |
| NftMarket.BuyInstructions | src/app/api/nft/route.ts:192-223 | the purchase creates the buyer's token account exactly when `getAccountInfo` reported it missing, then pays the seller the price, then moves one token from seller to buyer under the token program |
| NftMarket.Screen | src/app/api/nft/route.ts:119-151 | the shared checks pass exactly when mint, price and seller are present and parse, the buyer key (if given for a buy) parses, and the price is positive |
| NftMarket.Trade | src/app/api/nft/route.ts:119-294 | a failed check changes nothing. A buy without a buyer is 400. A sell is listed only if the seller holds the token, and an unknown action is 400. A buy with a buyer follows the whole ladder: a failed balance read is 500 with its message, a balance other than one whole token is 400 `NOT_OWNER`, a failed lookup of the buyer's token account is 500 with its message, a failed blockhash is 500 with its message, and otherwise the reply is the buyer-paid `BuyInstructions` transaction at that blockhash; a purchase is returned only for such a buy |
| NftMarket.Market.constructor | src/app/api/nft/route.ts:50 | the listings start empty |
| NftMarket.Market.Post | src/app/api/nft/route.ts:119-294 | the POST handler's reply and new listings are those of `NftMarket.Trade` |
| NftMarket.PurchaseScenario | src/app/api/nft/route.ts:156-245 | a buyer whose token account exists, against a seller holding exactly one token, receives the two-instruction purchase with themself as fee payer |
| NftActions.ListAmountAsWritten | src/app/api/actions/nft/route.ts:121-122 | the amount of the `Get Blinks` link as written: the intended rule applied to `config.amount`, a field no configuration holder writes |
| NftActions.ListAmount | src/app/api/actions/nft/route.ts:119-128 | the intended amount: the first configured amount when there is a non-empty one, else 0.1 |
| NftActions.ListAmountIgnoresAmounts | src/app/api/actions/nft/route.ts:121-122 | after any blink-config POST, the code as written links 0.1, while the intended amount is the first submitted amount whenever that is non-empty |
| NftActions.ListLinkReadsBack | src/app/api/actions/nft/route.ts:119-128 | the `Get Blinks` link's query reads back as the amount, owner, mint address and `action=list`; with a non-empty first configured amount, that amount |
| NftActions.Discover | src/app/api/actions/nft/route.ts:71-136 | one buy link per configured amount (default 0.01), followed by the `Get Blinks` list link carrying the amount, owner, mint and `action=list`; the amount is the corrected `ListAmount` (see Findings) |
| NftActions.BuyLinksReadBack | src/app/api/actions/nft/route.ts:114-118 | the i-th buy link reads back as amount, owner, mint address and `action=buy`, with a missing owner or mint shown as `undefined` |
| NftActions.BuyLinkParams | src/app/api/actions/nft/route.ts:252-264 | the list branch appends `action=buy`, then the mint address only when one is given, then the amount, then the seller |
| NftActions.BuyLinkReadsBack | src/app/api/actions/nft/route.ts:251-264 | the action URL reads back as exactly the appended parameters, and the blink URL unwraps to that action URL |
| NftActions.BuildListBlink | src/app/api/actions/nft/route.ts:251-264 | the step-by-step appends build the URL of `BuyLinkParams` wrapped in the dial.to link, and both read back as built |
| NftActions.PurchaseAsWritten | src/app/api/actions/nft/route.ts:297-359 | the purchase as written: two instructions, the token transfer addressed to the NFT's metadata account as its program |
| NftActions.Purchase | src/app/api/actions/nft/route.ts:297-359 | the intended purchase: pay the seller the amount, then move one token from the seller's token account to the buyer's under the token program |
| NftActions.PurchaseAsWrittenMisroutes | src/app/api/actions/nft/route.ts:338-345 | whenever the metadata account is not the token program, the as-written token transfer goes to another program and differs from the intended purchase |
| NftActions.PurchaseMatchesMarket | src/app/api/actions/nft/route.ts:297-359 | when the buyer's token account exists, the intended purchase is the same instruction list the marketplace route builds |
| NftActions.Post | src/app/api/actions/nft/route.ts:167-386 | a bad account or owner is 500; a missing owner throws a plain error instead of a reply; a mint that does not parse is 400 `Invalid public key or mint address`. A list request, or a buy with a positive amount, whose seller does not own the NFT is 403. An owner-verified listing returns the dial.to blink of the appended buy URL. An owner-verified buy with a positive amount succeeds exactly when the blockhash is fetched, else 500; it returns the corrected purchase (see Findings) with the buyer as fee payer at that blockhash |
| NftActions.ListIgnoresAmount | src/app/api/actions/nft/route.ts:236-268 | an owner-verified list request succeeds whatever its amount, even a non-number |
| NftActions.BuyRefusesNonPositive | src/app/api/actions/nft/route.ts:279-284 | a buy whose amount is not a positive number is refused with 400 `Invalid amount in listing` before ownership is checked |
| DonateSol.Discover | src/app/api/actions/donate-sol/route.ts:99-139 | the donation document: one `<a> SOL` link per configured amount (default 0.01, 0.05, 0.1) and a final custom `Donate` link with a number input |
| DonateSol.Post | src/app/api/actions/donate-sol/route.ts:142-216 | a transaction exactly when the configured wallet and the account both parse and the blockhash is fetched: one transfer of `Number(amount)` from the account to the configured wallet, paid by the account; otherwise 500 |
| DonateSol.AmountLinkDonatesItsAmount | src/app/api/actions/donate-sol/route.ts:112-216 | the i-th amount link reads back through `URLSearchParams` as `amount=<a>`, and posting it donates exactly that amount to the configured wallet, for an amount without `&`, `#`, `+` or `%` |
| DonateSol.DonationGoesToConfiguredWallet | src/app/api/donate-config/route.ts:147-155 | after a successful donation configuration, donations go to the wallet that configuration named |
| SwapSol.TokenOf | src/app/api/actions/swap-sol/route.ts:24-41 | metadata exists exactly for the four supported mints (SOL, JUP, WIF, BONK) |
| SwapSol.Discover | src/app/api/actions/swap-sol/route.ts:45-97 | an unsupported mint on either side is 400. Otherwise each amount link carries the amount and both mints, and the custom link's href is `?amount={amount}` with both mints, asking for an amount in the input token |
| SwapSol.SwapLinksReadBack | src/app/api/actions/swap-sol/route.ts:73-91 | for two supported mints, each amount link's query reads back as amount, input mint and output mint |
| SwapSol.SwapAmount | src/app/api/actions/swap-sol/route.ts:106 | the amount swapped is the query's `amount` when present and non-empty, else 0.01 |
| SwapSol.Post | src/app/api/actions/swap-sol/route.ts:99-191 | an account that does not parse is 500 with the message the key parser threw, and missing mints 400; any failure after that is 500. A success needs a quote and a non-empty serialized swap that deserializes, and the payer among its static keys, and conversely those together with a fetched blockhash give a success. It returns that transaction and the link with both mints |
| SwapSol.NeverReturnsForeignTransaction | src/app/api/actions/swap-sol/route.ts:154-169 | a transaction whose static keys do not include the payer is refused with 500, never returned |
| SwapSol.SwapBlinkReadsBack | src/app/api/actions/swap-sol/route.ts:178 | the returned link reads back as the id and both mints |
| TemplateNft.Screen | src/app/api/actions/template-nft/route.ts:62-88 | the query passes exactly when mint, price and seller are present and parse and the price is positive; otherwise the first failing check's message: missing fields, then an invalid key, then an invalid price |
| TemplateNft.ImageAndName | src/app/api/actions/template-nft/route.ts:90-99 | the NFT's image URI and name when the lookup succeeds and they are non-empty, else the default picture and `NFT` |
| TemplateNft.Preview | src/app/api/actions/template-nft/route.ts:53-155 | a failed check is 400 with its message. Otherwise a `List NFT` document with two approve links, one at the asked price and one with a `{price}` input |
| TemplateNft.ApproveLinkReadsBack | src/app/api/actions/template-nft/route.ts:113-135 | the fixed-price approve link reads back as its six parameters, and title and description decode back to the originals |
| TemplateNft.Approve | src/app/api/actions/template-nft/route.ts:158-242 | every failure is a 400 that leaves the listings alone. Success comes exactly when the checks pass and `approve` is set. It appends exactly one listing at the parsed price and returns the blink for it |
| TemplateNft.TemplateListings.constructor | src/app/api/actions/template-nft/route.ts:34 | the listings start empty |
| TemplateNft.TemplateListings.Post | src/app/api/actions/template-nft/route.ts:158-242 | the POST handler's reply and new listings are those of `TemplateNft.Approve` |
| TemplateNft.ApproveKeepsPricedListings | src/app/api/actions/template-nft/route.ts:199-212 | every listing the template stores has a positive price, after any request |
| TemplateNft.AccountOnlyBodyIsRefused | src/app/api/actions/template-nft/route.ts:161-169 | a body holding only the account, as a wallet sends to an approve link, is refused as missing fields and lists nothing |
| ConfigForms.DataUrl | src/app/api/donate-config/route.ts:125-145 | a data URL begins `data:<media type>;` |
| ConfigForms.UploadedImage | src/app/api/blink-config/route.ts:18-24 | no file or a non-image file gives the empty string; an image upload gives a `data:image/` URL |
| ConfigForms.ImageDataUrl | src/app/api/vote-config/route.ts:21-27 | a data URL built from an `image/` media type begins `data:image/` |
| BlinkConfig.View | src/app/api/blink-config/route.ts:30-32 | GET shows `{}` before any POST and the stored title, description, file and amounts after |
| BlinkConfig.Save | src/app/api/blink-config/route.ts:10-28 | amounts that are not JSON give 500 and keep the old configuration; any other form replaces the whole configuration with the submitted fields |
| BlinkConfig.BlinkConfigStore.constructor | src/app/api/blink-config/route.ts:3-8 | no configuration is stored at start |
| BlinkConfig.BlinkConfigStore.Post | src/app/api/blink-config/route.ts:10-28 | the handler's reply and new configuration are those of `BlinkConfig.Save` |
| BlinkConfig.GetAfterSave | src/app/api/blink-config/route.ts:10-32 | after a well-formed POST, GET returns the submitted title, description and amounts and an empty or image file; a malformed POST changes nothing GET shows |
| VoteConfig.View | src/app/api/vote-config/route.ts:35-37 | GET shows `{}` before any POST and the stored fields with the parsed candidate key after |
| VoteConfig.Save | src/app/api/vote-config/route.ts:12-33 | a candidate key that does not parse gives 500 and keeps the old configuration; otherwise the whole configuration is replaced |
| VoteConfig.VoteConfigStore.constructor | src/app/api/vote-config/route.ts:4-10 | no configuration is stored at start |
| VoteConfig.VoteConfigStore.Post | src/app/api/vote-config/route.ts:12-33 | the handler's reply and new configuration are those of `VoteConfig.Save` |
| VoteConfig.SavedKeyIsReported | src/app/api/vote-config/route.ts:29-37 | after a successful POST, GET reports the key the form's text parsed to; once a key is stored, a later POST never removes it |
| DonateConfig.ImageOf | src/app/api/donate-config/route.ts:80-123 | a fetched resource yields a data URL exactly when the fetch succeeded and its content type (default `image/png`) is an image type |
| DonateConfig.FetchImage | src/app/api/donate-config/route.ts:80-123 | every image fetched, directly or through a metadata document's `image`/`image_url`, is a `data:image/` URL |
| DonateConfig.ImageOfIsImage | src/app/api/donate-config/route.ts:80-123 | a data URL made from an accepted resource begins `data:image/` |
| DonateConfig.ImageUrl | src/app/api/donate-config/route.ts:41-77 | the image to fetch is the NFT's metadata URI when a mint is given and found; a mint that does not parse or is not found gives the default picture |
| DonateConfig.StoredImage | src/app/api/donate-config/route.ts:41-145 | an image upload is used as is. Otherwise the image fetched from `ImageUrl` is used when that fetch succeeds, and the default picture's fetch when it fails. Any result is a `data:image/` URL |
| DonateConfig.Save | src/app/api/donate-config/route.ts:17-178 | malformed amounts give 500; a missing title, description or amounts gives 400; any later failure (no image could be fetched, the key does not parse) is 500 `Internal server error`. Success comes exactly when an image is found and the key parses. It then returns the mint address and stores every field; any failure keeps the old configuration |
| DonateConfig.View | src/app/api/donate-config/route.ts:180-182 | GET shows `{}` before any POST and every stored field after |
| DonateConfig.DonateConfigStore.constructor | src/app/api/donate-config/route.ts:7-15 | no configuration is stored at start |
| DonateConfig.DonateConfigStore.Post | src/app/api/donate-config/route.ts:17-178 | the handler's reply and new configuration are those of `DonateConfig.Save` |
| DonateConfig.SaveKeepsShowsImage | src/app/api/donate-config/route.ts:147-155 | the stored donation configuration always shows an image: its file is a `data:image/` URL, after any POST |

## Left out

- HTTP framing is not modelled: OPTIONS handlers, CORS headers, the `X-Action-Version` and `X-Blockchain-Ids` headers, and JSON (de)serialisation. Replies are `Reply` values, and request bodies arrive as already-parsed fields.
- A request body that is not JSON, or that holds non-string values where strings are read, is not modelled, because the fields are typed as optional strings.
- The wire form of transactions is not modelled: serialisation, base64 and signatures. A transaction is its fee payer, blockhash and instruction list.
- Floating point is not modelled. `Number`/`parseFloat` become the `Env.number`/`Env.parseFloat` parameters returning either NaN or an exact lamport amount, so rounding of `amount * LAMPORTS_PER_SOL` is not captured.
- DonateSol.Post: the transfer carries whatever `Number(amount)` gives, NaN or negative included. The SDK's encoder refusing such a value (which the source would turn into a 500) is not modelled.
- GambleSol.Place: like the donation, the transfer carries `parseFloat(amount)` unchecked. The SDK's refusal of NaN or negative lamports is not modelled.
- The `GET_owned` listing helper in `src/app/api/nft/route.ts` is not modelled: it is not a route, and it does not change any state the routes read.
- Concurrency between requests is not modelled: each handler runs to completion on the current state.
- The bet id (`uuid`) and the swap link id are parameters, not generated.
- The Jupiter HTTP calls are the `Exchange` parameter. Their error texts become the `Err` messages, which end up as 500 replies.
- The Supabase insert in the donation configuration POST is not modelled: the route ignores its result and replies with success either way.
- The Supabase fallback in the actions/nft GET is not modelled, because it sits behind a condition that is always false.
- The voting route's Supabase errors are the `StoreFaults` parameter: a failed read or write is a 500. The message text of a `PostgrestError` is not modelled.
- The prototype keys of the swap route's `tokenMetadata` object literal (such as `toString`) are not modelled: only the four mints are known tokens.
- GambleSol.Describe, GambleSol.Challenge, GambleSol.BetStore.Get, GambleSol.BetStore.Put: a bet id that names a property every JavaScript object has (such as `constructor`) passes the source's `!bets[bet]` check, because `bets` is a plain `{}`. GET then throws on the missing fields (500) and PUT answers 200. The model knows only stored bets and answers 404 to both.
- GambleSol.Describe: a team named after a property every JavaScript object has (such as `constructor`) makes `teamLogos[oppositeSide]` a function in the source, so the reply's `icon` is dropped from the JSON. The model's logo table knows only the four teams and gives that side the Lakers logo.
- NftActions.Discover: its list link carries the corrected amount `ListAmount`, not the 0.1 the code always links (see Findings; `NftActions.ListAmountAsWritten` models the code).
- NftActions.Post: its purchase is the corrected `Purchase` under the token program, not the metadata-account program the code names (see Findings; `NftActions.PurchaseAsWritten` models the code).
- The gamble PUT parses its body before it checks the bet. A bad body on an unknown bet is therefore a framework 500 in the source; here it is the 404.
- The configuration holders' framework error text is modelled as `Internal Server Error`, the framework's default text.
- Commented-out code in the routes is not modelled.
- The React components and the `create-nft` route are not part of this model.

## Findings

| source | as written | input that shows it | evidently intended | confidence | as-written member | corrected member |
|---|---|---|---|---|---|---|
| src/app/api/actions/nft/route.ts:121-122 | the `Get Blinks` link reads `config.amount`, a field no configuration holder writes, so the link always carries `amount=0.1` | a blink-config POST with amounts `["0.5"]` (the route reads the blink configuration) | the link carries the first configured amount (`config.amounts[0]`) | not executed | NftActions.ListAmountAsWritten (shown by NftActions.ListAmountIgnoresAmounts) | NftActions.ListAmount |
| src/app/api/actions/nft/route.ts:338-345 | the NFT transfer instruction is given the NFT's metadata account as its program id | any NFT, since a metadata account is never the SPL token program | the transfer is addressed to the SPL token program, as in `src/app/api/nft/route.ts:215-222` | not executed | NftActions.PurchaseAsWritten (shown by NftActions.PurchaseAsWrittenMisroutes) | NftActions.Purchase (agreement proved by NftActions.PurchaseMatchesMarket) |
