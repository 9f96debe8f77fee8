/**
 * The betting action (`/api/actions/gamble-sol`): POST records a bet in the in-memory bet
 * store and returns a one-transfer transaction; GET describes a stored bet from the point
 * of view of a challenger; PUT sets a bet's challenger. The fresh bet id (a UUID in the
 * source) is a parameter.
 */
module GambleSol {
  import opened Base
  import opened Text
  import opened Url
  import opened Protocol

  const GAMBLE_PATH := "/api/actions/gamble-sol"
  const JOIN_PATH := "/api/actions/gamble-sol/join-bet"
  const MISSING_FIELDS := "Missing fields"
  const INTERNAL := "Internal server error"
  const NOT_FOUND := "Bet not found"
  const MISSING_CHALLENGER := "Missing challenger"
  const LAKERS_LOGO := "https://upload.wikimedia.org/wikipedia/en/2/25/Los_Angeles_Lakers_logo.svg"

  /** A stored bet; `challenger` is null until a PUT sets it. */
  datatype Bet = Bet(id: string, creator: string, series: string, amount: string, side: string,
                     time: Option<string>, challenger: Option<string>)

  type Bets = map<string, Bet>

  /** The POST body. */
  datatype BetRequest = BetRequest(creator: Option<string>, series: Option<string>, amount: Option<string>,
                                   side: Option<string>, account: Option<string>, time: Option<string>)

  /** A 200 POST reply: the transaction to sign and the link to the stored bet. */
  datatype Created = Created(transaction: Transaction, blinkUrl: string)

  predicate Complete(req: BetRequest) {
    Truthy(req.creator) && Truthy(req.series) && Truthy(req.amount) && Truthy(req.side) && Truthy(req.account)
  }

  /** The bet a complete request stores under `id`. */
  function NewBet(req: BetRequest, id: string): Bet
    requires Complete(req)
  {
    Bet(id, req.creator.value, req.series.value, req.amount.value, req.side.value, req.time, None)
  }

  /** POST: the reply and the bet store afterwards. */
  function Place(bets: Bets, req: BetRequest, id: string, env: Env): (r: (Reply<Created>, Bets))
    ensures !Complete(req) ==> r == (Fail(400, MISSING_FIELDS), bets)
    ensures Complete(req) ==> r.1 == bets[id := NewBet(req, id)]
    ensures r.0.Fail? && Complete(req) ==> r.0 == Fail(500, INTERNAL)
    ensures r.0.Done? <==>
      Complete(req) && env.key(req.account).Some? && env.key(req.creator).Some? && env.blockhash.Ok?
    ensures r.0.Done? ==>
      var payer := env.key(req.account).value;
      && r.0.body.transaction.feePayer == payer
      && r.0.body.transaction.recentBlockhash == env.blockhash.value
      && r.0.body.transaction.instructions
         == [Transfer(payer, env.key(req.creator).value, env.parseFloat(req.amount.value))]
      && r.0.body.blinkUrl == GAMBLE_PATH + "?bet=" + id
  {
    if !Complete(req) then (Fail(400, MISSING_FIELDS), bets)
    else
      var stored := bets[id := NewBet(req, id)];
      var payer, creatorKey := env.key(req.account), env.key(req.creator);
      if payer.None? || creatorKey.None? then (Fail(500, INTERNAL), stored)
      else
        var transfer := Transfer(payer.value, creatorKey.value, env.parseFloat(req.amount.value));
        match Assemble(payer.value, [transfer], env.blockhash)
        case Err(_) => (Fail(500, INTERNAL), stored)
        case Ok(tx) => (Done(Created(tx, Href(GAMBLE_PATH, [("bet", id)]))), stored)
  }

  /** `teams.find(team => team !== side)`. */
  function FirstOther(teams: seq<string>, side: string): (r: Option<string>)
    decreases |teams|
    ensures r.None? <==> forall k :: 0 <= k < |teams| ==> teams[k] == side
    ensures r.Some? ==>
      && r.value != side
      && exists i :: 0 <= i < |teams| && teams[i] == r.value && forall k :: 0 <= k < i ==> teams[k] == side
  {
    if teams == [] then None
    else if teams[0] != side then Some(teams[0])
    else
      var rest := FirstOther(teams[1..], side);
      if rest.Some? then
        assert exists i :: 0 <= i < |teams| && teams[i] == rest.value && forall k :: 0 <= k < i ==> teams[k] == side by {
          var i :| 0 <= i < |teams[1..]| && teams[1..][i] == rest.value && forall k :: 0 <= k < i ==> teams[1..][k] == side;
          assert teams[i + 1] == rest.value;
          forall k | 0 <= k < i + 1 ensures teams[k] == side {
            if k > 0 { assert teams[k] == teams[1..][k - 1]; }
          }
        }
        rest
      else rest
  }

  /** The team a challenger backs: the first team of the series, split on " vs ", other than the creator's side. */
  function OppositeSide(series: string, side: string): string {
    Or(FirstOther(Split(series, " vs "), side), "Other")
  }

  /** `teamLogos[team] || <Lakers logo>`. */
  function TeamLogo(team: string): string {
    var logos := map[
      "Knicks" := "https://upload.wikimedia.org/wikipedia/en/2/25/New_York_Knicks_logo.svg",
      "Celtics" := "https://upload.wikimedia.org/wikipedia/en/8/8f/Boston_Celtics.svg",
      "Warriors" := "https://upload.wikimedia.org/wikipedia/en/0/01/Golden_State_Warriors_logo.svg",
      "Timberwolves" := "https://upload.wikimedia.org/wikipedia/en/c/c2/Minnesota_Timberwolves_logo.svg"];
    if team in logos then logos[team] else LAKERS_LOGO
  }

  /** The description a challenger reads. */
  function BetDescription(b: Bet, opposite: string): string {
    "• Match: " + b.series + "\n"
    + "• Creator: " + b.creator + " (picked: " + b.side + ")\n"
    + "• You are betting on: " + opposite + "\n"
    + "• Amount: \U{1F4B0} " + b.amount + " SOL\n"
    + "• Time: " + Or(b.time, "N/A")
  }

  /** GET: the document for the bet named by the `bet` query parameter. */
  function Describe(bets: Bets, bet: Option<string>): (r: Reply<ActionDocument>)
    ensures r.Fail? <==> !Truthy(bet) || bet.value !in bets
    ensures r.Fail? ==> r == Fail(404, NOT_FOUND)
    ensures r.Done? ==>
      var b := bets[bet.value];
      var opposite := OppositeSide(b.series, b.side);
      && r.body.caption == "\U{1F3C0} Bet: " + b.series
      && r.body.title == "NBA Playoff Bet"
      && r.body.description == BetDescription(b, opposite)
      && r.body.icon == TeamLogo(opposite)
      && |r.body.links| == 1
      && r.body.links[0].caption == "Bet " + b.amount + " SOL on " + opposite
      && r.body.links[0].href == JOIN_PATH + "?bet=" + b.id
  {
    if !Truthy(bet) || bet.value !in bets then Fail(404, NOT_FOUND)
    else
      var b := bets[bet.value];
      var opposite := OppositeSide(b.series, b.side);
      Done(ActionDocument(TeamLogo(opposite), "\U{1F3C0} Bet: " + b.series, "NBA Playoff Bet",
        BetDescription(b, opposite),
        [LinkedAction(TransactionLink, "Bet " + b.amount + " SOL on " + opposite, Href(JOIN_PATH, [("bet", b.id)]), [])]))
  }

  /** PUT: set the challenger of the bet named by the `bet` query parameter. */
  function Challenge(bets: Bets, bet: Option<string>, challenger: Option<string>): (r: (Reply<bool>, Bets))
    ensures !Truthy(bet) || bet.value !in bets ==> r == (Fail(404, NOT_FOUND), bets)
    ensures Truthy(bet) && bet.value in bets && !Truthy(challenger) ==> r == (Fail(400, MISSING_CHALLENGER), bets)
    ensures r.0.Done? <==> Truthy(bet) && bet.value in bets && Truthy(challenger)
    ensures r.0.Done? ==>
      && r.0.body && Truthy(challenger)
      && r.1 == bets[bet.value := bets[bet.value].(challenger := challenger)]
  {
    if !Truthy(bet) || bet.value !in bets then (Fail(404, NOT_FOUND), bets)
    else if !Truthy(challenger) then (Fail(400, MISSING_CHALLENGER), bets)
    else (Done(true), bets[bet.value := bets[bet.value].(challenger := challenger)])
  }

  /** The module-level bet store and its three handlers. */
  class BetStore {
    var bets: Bets

    constructor()
      ensures bets == map[]
    {
      bets := map[];
    }

    method Post(req: BetRequest, id: string, env: Env) returns (reply: Reply<Created>)
      modifies this
      ensures (reply, bets) == Place(old(bets), req, id, env)
    {
      if !Complete(req) {
        return Fail(400, MISSING_FIELDS);
      }
      bets := bets[id := NewBet(req, id)];
      var payer := env.key(req.account);
      var creatorKey := env.key(req.creator);
      if payer.None? || creatorKey.None? {
        return Fail(500, INTERNAL);
      }
      var transfer := Transfer(payer.value, creatorKey.value, env.parseFloat(req.amount.value));
      var blockhash := env.blockhash;
      if blockhash.Err? {
        return Fail(500, INTERNAL);
      }
      var tx := Transaction(payer.value, blockhash.value, [transfer]);
      reply := Done(Created(tx, Href(GAMBLE_PATH, [("bet", id)])));
    }

    function Get(bet: Option<string>): (r: Reply<ActionDocument>)
      reads this
      ensures r.Fail? <==> !Truthy(bet) || bet.value !in bets
    {
      Describe(bets, bet)
    }

    method Put(bet: Option<string>, challenger: Option<string>) returns (reply: Reply<bool>)
      modifies this
      ensures (reply, bets) == Challenge(old(bets), bet, challenger)
    {
      if !Truthy(bet) || bet.value !in bets {
        return Fail(404, NOT_FOUND);
      }
      if !Truthy(challenger) {
        return Fail(400, MISSING_CHALLENGER);
      }
      var b := bets[bet.value];
      bets := bets[bet.value := b.(challenger := challenger)];
      return Done(true);
    }
  }

  // ---------------------------------------------------------------- properties across handlers

  /** A POST with a fresh id adds exactly that one bet, unchallenged, even when the reply is a 500. */
  lemma PlaceAddsOneBet(bets: Bets, req: BetRequest, id: string, env: Env)
    requires Complete(req) && id !in bets
    ensures var after := Place(bets, req, id, env).1;
      after.Keys == bets.Keys + {id} && after[id].challenger.None? && after[id].id == id
      && forall k :: k in bets ==> after[k] == bets[k]
  {
  }

  /**
   * The blink a successful POST returns names the bet it stored, as `URLSearchParams` reads
   * it, and GET then finds that bet; its join link names the same bet. A bet id (a UUID)
   * holds no `+` or `%`, which the reader would decode.
   */
  lemma PlaceThenDescribe(bets: Bets, req: BetRequest, id: string, env: Env)
    requires Place(bets, req, id, env).0.Done? && id != "" && Plain(id) && Verbatim(id)
    ensures var r := Place(bets, req, id, env);
      ReadParams(r.0.body.blinkUrl) == Some([("bet", id)])
      && Describe(r.1, Some(id)).Done?
      && ReadParams(Describe(r.1, Some(id)).body.links[0].href) == Some([("bet", id)])
  {
    assert PlainParams([("bet", id)]);
    HrefReadsBackDecoded(GAMBLE_PATH, [("bet", id)]);
    HrefReadsBackDecoded(JOIN_PATH, [("bet", id)]);
  }

  /** PUT changes the challenger of the named bet and nothing else. */
  lemma ChallengeChangesOnlyChallenger(bets: Bets, bet: Option<string>, challenger: Option<string>)
    requires Challenge(bets, bet, challenger).0.Done?
    ensures var after := Challenge(bets, bet, challenger).1;
      after.Keys == bets.Keys
      && (forall k :: k in bets && k != bet.value ==> after[k] == bets[k])
      && after[bet.value] == bets[bet.value].(challenger := challenger)
  {
  }

  /** The opposite side is a team of the series other than the creator's, or "Other". */
  lemma OppositeSideIsAnotherTeam(series: string, side: string)
    ensures var o := OppositeSide(series, side);
      o == "Other" || (o != side && o != "" && o in Split(series, " vs "))
    ensures (forall t :: t in Split(series, " vs ") ==> t == side) ==> OppositeSide(series, side) == "Other"
  {
  }

  /** A string without spaces splits on " vs " into itself. */
  lemma NoSpaceNoSeparator(t: string)
    requires ' ' !in t
    ensures forall j :: 0 <= j < |t| ==> !OccursAt(t, " vs ", j)
    ensures Split(t, " vs ") == [t]
  {
    forall j | 0 <= j < |t| ensures !OccursAt(t, " vs ", j) {
      if j + 4 <= |t| { assert t[j..j + 4][0] == t[j]; }
    }
  }

  /** A series of two space-free team names splits into exactly those two teams. */
  lemma SplitSeries(a: string, b: string)
    requires ' ' !in a && ' ' !in b
    ensures Split(a + " vs " + b, " vs ") == [a, b]
  {
    var s := a + " vs " + b;
    assert OccursAt(s, " vs ", |a|) by { assert s[|a|..|a| + 4] == " vs "; }
    forall j | 0 <= j < |a| ensures !OccursAt(s, " vs ", j) {
      assert s[j] == a[j];
      if j + 4 <= |s| { assert s[j..j + 4][0] == s[j]; }
    }
    assert IndexOf(s, " vs ", 0) == Some(|a|);
    assert s[..|a|] == a;
    assert s[|a| + 4..] == b;
    NoSpaceNoSeparator(b);
  }

  /** "Knicks vs Celtics" backed on the Knicks is challenged on the Celtics, and vice versa. */
  lemma KnicksCeltics()
    ensures OppositeSide("Knicks vs Celtics", "Knicks") == "Celtics"
    ensures OppositeSide("Knicks vs Celtics", "Celtics") == "Knicks"
    ensures OppositeSide("Knicks", "Knicks") == "Other"
  {
    SplitSeries("Knicks", "Celtics");
    assert "Knicks" + " vs " + "Celtics" == "Knicks vs Celtics";
    NoSpaceNoSeparator("Knicks");
  }
}
