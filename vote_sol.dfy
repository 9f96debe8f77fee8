/**
 * The voting action (`/api/actions/vote-sol`): a discovery document with one message link
 * for the configured candidate, and a POST that records a vote in the `candidates` table.
 * The table is a map from candidate public key to its row; a store error is an input.
 */
module VoteSol {
  import opened Base
  import opened Url
  import opened Protocol

  const VOTE_PATH := "/api/actions/vote-sol"
  const NO_CANDIDATE_KEY := "Candidate's public key is not found."
  const SELF_VOTE := "You cannot vote for yourself."
  const MISSING_FIELDS := "Missing required fields."
  const ALREADY_VOTED := "You have already voted."
  const VERIFY_ONLY := "This process won't initiate any SOL transactions. It's solely for verification purposes."

  /** A row of the `candidates` table. */
  datatype Candidate = Candidate(name: string, key: PublicKey, voters: seq<PublicKey>, title: Option<string>)

  type Rows = map<PublicKey, Candidate>

  /** The query (`candidate`) and body (`account`) of a vote. */
  datatype VoteRequest = VoteRequest(candidate: Option<string>, account: Option<string>)

  /** What the `candidates` table reports: an unexpected read error, a write error. */
  datatype StoreFaults = StoreFaults(fetch: Option<string>, write: Option<string>)

  /** `config.name || "Charles"`. */
  function CandidateName(c: Config): string {
    Or(c.name, "Charles")
  }

  /** GET: the vote document, built from the vote configuration. */
  function Discover(c: Config, origin: string): (doc: ActionDocument)
    ensures doc.caption == "Vote Now" && |doc.links| == 1
    ensures doc.icon == (if Truthy(c.file) then c.file.value else origin + "/votePerson.jpg")
    ensures doc.title == (if Truthy(c.title) then c.title.value else "University Election")
    ensures doc.description == (if Truthy(c.description) then c.description.value
                                else "Vote for your favorite candidate in the university election.")
    ensures doc.links[0].kind == MessageLink && doc.links[0].parameters == []
    ensures doc.links[0].caption == "Vote for " + CandidateName(c)
  {
    var name := CandidateName(c);
    ActionDocument(
      Or(c.file, Resolve(origin, "/votePerson.jpg")), "Vote Now",
      Or(c.title, "University Election"),
      Or(c.description, "Vote for your favorite candidate in the university election."),
      [LinkedAction(MessageLink, "Vote for " + name, Href(VOTE_PATH, [("candidate", name)]), [])])
  }

  /** The vote link reads back as `candidate=<name>` whenever the name has no `&` or `#`. */
  lemma VoteLinkReadsBack(c: Config, origin: string)
    requires Plain(CandidateName(c))
    ensures ReadQuery(Discover(c, origin).links[0].href) == [("candidate", CandidateName(c))]
  {
    assert PlainParams([("candidate", CandidateName(c))]);
    HrefReadsBack(VOTE_PATH, [("candidate", CandidateName(c))]);
  }

  /** The voter list with one more voter at the end. */
  function Appended(row: Candidate, voter: PublicKey): (r: Candidate)
    ensures r.voters == row.voters + [voter]
    ensures r.name == row.name && r.key == row.key && r.title == row.title
  {
    row.(voters := row.voters + [voter])
  }

  /** The candidate and voter keys, when both parse. */
  predicate KeysParse(c: Config, req: VoteRequest, env: Env) {
    Truthy(c.publicKey) && env.key(c.publicKey).Some? && env.key(req.account).Some?
  }

  /** POST: the reply and the table after one vote. */
  function Vote(rows: Rows, c: Config, req: VoteRequest, env: Env, faults: StoreFaults): (r: (Reply<string>, Rows))
    ensures r.0.Fail? ==> r.1 == rows
    ensures !Truthy(c.publicKey) ==> r.0 == Fail(500, NO_CANDIDATE_KEY)
    ensures Truthy(c.publicKey) && env.key(c.publicKey).None? ==> r.0 == Fail(500, env.keyError(c.publicKey))
    ensures Truthy(c.publicKey) && env.key(c.publicKey).Some? && env.key(req.account).None? ==>
      r.0 == Fail(500, env.keyError(req.account))
    ensures KeysParse(c, req, env) && env.key(c.publicKey) == env.key(req.account) ==>
      r.0 == Fail(403, SELF_VOTE)
    ensures KeysParse(c, req, env) && env.key(c.publicKey) != env.key(req.account) && !Truthy(req.candidate) ==>
      r.0 == Fail(400, MISSING_FIELDS)
    ensures r.0.Done? ==>
      && KeysParse(c, req, env) && Truthy(req.candidate) && faults.fetch.None? && faults.write.None?
      && var ck, vk := env.key(c.publicKey).value, env.key(req.account).value;
      && ck != vk
      && r.0.body == VERIFY_ONLY
      && (ck !in rows ==> r.1 == rows[ck := Candidate(req.candidate.value, ck, [vk], c.title)])
      && (ck in rows ==> vk !in rows[ck].voters && r.1 == rows[ck := Appended(rows[ck], vk)])
    ensures KeysParse(c, req, env) && Truthy(req.candidate) && faults.fetch.None? ==>
      var ck, vk := env.key(c.publicKey).value, env.key(req.account).value;
      ck != vk && ck in rows && vk in rows[ck].voters ==> r.0 == Fail(403, ALREADY_VOTED)
    ensures KeysParse(c, req, env) && env.key(c.publicKey) != env.key(req.account) && Truthy(req.candidate) ==>
      var ck, vk := env.key(c.publicKey).value, env.key(req.account).value;
      && (faults.fetch.Some? ==> r.0 == Fail(500, faults.fetch.value))
      && (faults.fetch.None? && faults.write.Some? && !(ck in rows && vk in rows[ck].voters) ==>
            r.0 == Fail(500, faults.write.value))
      && (faults.fetch.None? && faults.write.None? && !(ck in rows && vk in rows[ck].voters) ==> r.0.Done?)
  {
    if !Truthy(c.publicKey) then (Fail(500, NO_CANDIDATE_KEY), rows)
    else
      var candidateKey, voterKey := env.key(c.publicKey), env.key(req.account);
      if candidateKey.None? then (Fail(500, env.keyError(c.publicKey)), rows)
      else if voterKey.None? then (Fail(500, env.keyError(req.account)), rows)
      else
        var ck, vk := candidateKey.value, voterKey.value;
        if ck == vk then (Fail(403, SELF_VOTE), rows)
        else if !Truthy(req.candidate) then (Fail(400, MISSING_FIELDS), rows)
        else if faults.fetch.Some? then (Fail(500, faults.fetch.value), rows)
        else if ck !in rows then
          if faults.write.Some? then (Fail(500, faults.write.value), rows)
          else (Done(VERIFY_ONLY), rows[ck := Candidate(req.candidate.value, ck, [vk], c.title)])
        else if vk in rows[ck].voters then (Fail(403, ALREADY_VOTED), rows)
        else if faults.write.Some? then (Fail(500, faults.write.value), rows)
        else (Done(VERIFY_ONLY), rows[ck := Appended(rows[ck], vk)])
  }

  /** The `candidates` table with the vote handler that reads and writes it. */
  class CandidateTable {
    var rows: Rows

    constructor()
      ensures rows == map[]
    {
      rows := map[];
    }

    method Post(c: Config, req: VoteRequest, env: Env, faults: StoreFaults) returns (reply: Reply<string>)
      modifies this
      ensures (reply, rows) == Vote(old(rows), c, req, env, faults)
    {
      if !Truthy(c.publicKey) {
        return Fail(500, NO_CANDIDATE_KEY);
      }
      var candidateKey := env.key(c.publicKey);
      if candidateKey.None? {
        return Fail(500, env.keyError(c.publicKey));
      }
      var voterKey := env.key(req.account);
      if voterKey.None? {
        return Fail(500, env.keyError(req.account));
      }
      var ck, vk := candidateKey.value, voterKey.value;
      if ck == vk {
        return Fail(403, SELF_VOTE);
      }
      if !Truthy(req.candidate) {
        return Fail(400, MISSING_FIELDS);
      }
      if faults.fetch.Some? {
        return Fail(500, faults.fetch.value);
      }
      if ck !in rows {
        if faults.write.Some? {
          return Fail(500, faults.write.value);
        }
        rows := rows[ck := Candidate(req.candidate.value, ck, [vk], c.title)];
      } else {
        var current := rows[ck].voters;
        if vk in current {
          return Fail(403, ALREADY_VOTED);
        }
        if faults.write.Some? {
          return Fail(500, faults.write.value);
        }
        rows := rows[ck := rows[ck].(voters := current + [vk])];
      }
      return Done(VERIFY_ONLY);
    }
  }

  // ---------------------------------------------------------------- properties over many votes

  predicate Distinct(s: seq<PublicKey>) {
    forall i, j :: 0 <= i < j < |s| ==> s[i] != s[j]
  }

  /** No candidate's voter list names anyone twice. */
  predicate NoDoubleVotes(rows: Rows) {
    forall k :: k in rows ==> Distinct(rows[k].voters)
  }

  lemma AppendDistinct(s: seq<PublicKey>, v: PublicKey)
    requires Distinct(s) && v !in s
    ensures Distinct(s + [v])
  {
    forall i, j | 0 <= i < j < |s + [v]| ensures (s + [v])[i] != (s + [v])[j] {
      if j == |s| {
        assert (s + [v])[i] == s[i];
      }
    }
  }

  /** One vote never makes anyone appear twice in a voter list. */
  lemma VoteKeepsNoDoubleVotes(rows: Rows, c: Config, req: VoteRequest, env: Env, faults: StoreFaults)
    requires NoDoubleVotes(rows)
    ensures NoDoubleVotes(Vote(rows, c, req, env, faults).1)
  {
    var r := Vote(rows, c, req, env, faults);
    if r.0.Done? {
      var ck, vk := env.key(c.publicKey).value, env.key(req.account).value;
      if ck in rows {
        AppendDistinct(rows[ck].voters, vk);
      }
    }
  }

  /** One step of a run: the configuration, request, world and store faults of a POST. */
  datatype Step = Step(c: Config, req: VoteRequest, env: Env, faults: StoreFaults)

  /** The table after a run of POSTs handled one after another. */
  function Run(rows: Rows, steps: seq<Step>): Rows
    decreases |steps|
  {
    if steps == [] then rows
    else Run(Vote(rows, steps[0].c, steps[0].req, steps[0].env, steps[0].faults).1, steps[1..])
  }

  /** After any run of votes starting from an empty table, nobody has voted twice for a candidate. */
  lemma {:induction false} RunKeepsNoDoubleVotes(rows: Rows, steps: seq<Step>)
    requires NoDoubleVotes(rows)
    decreases |steps|
    ensures NoDoubleVotes(Run(rows, steps))
  {
    if steps != [] {
      VoteKeepsNoDoubleVotes(rows, steps[0].c, steps[0].req, steps[0].env, steps[0].faults);
      RunKeepsNoDoubleVotes(Vote(rows, steps[0].c, steps[0].req, steps[0].env, steps[0].faults).1, steps[1..]);
    }
  }

  /** A vote touches at most the row of the configured candidate's key; no other row changes. */
  lemma VoteTouchesOneRow(rows: Rows, c: Config, req: VoteRequest, env: Env, faults: StoreFaults, other: PublicKey)
    requires !Truthy(c.publicKey) || env.key(c.publicKey) != Some(other)
    ensures var after := Vote(rows, c, req, env, faults).1;
      (other in after <==> other in rows) && (other in rows ==> after[other] == rows[other])
  {
  }

  /**
   * With voter V1 already recorded for the candidate, a second vote by V1 is refused and
   * the row is unchanged; a first vote by V2 leaves the list [V1, V2].
   */
  lemma SecondVoteScenario(rows: Rows, c: Config, env: Env, name: string, v1: string, v2: string)
    requires Truthy(c.publicKey) && env.key(c.publicKey).Some?
    requires env.key(Some(v1)).Some? && env.key(Some(v2)).Some?
    requires var ck := env.key(c.publicKey).value;
      ck in rows && rows[ck].voters == [env.key(Some(v1)).value]
    requires env.key(Some(v1)).value != env.key(Some(v2)).value
    requires env.key(c.publicKey).value !in {env.key(Some(v1)).value, env.key(Some(v2)).value}
    requires name != ""
    ensures var again := Vote(rows, c, VoteRequest(Some(name), Some(v1)), env, StoreFaults(None, None));
      again == (Fail(403, ALREADY_VOTED), rows)
    ensures var first := Vote(rows, c, VoteRequest(Some(name), Some(v2)), env, StoreFaults(None, None));
      var ck := env.key(c.publicKey).value;
      first.0 == Done(VERIFY_ONLY) && first.1[ck].voters == [env.key(Some(v1)).value, env.key(Some(v2)).value]
  {
  }
}
