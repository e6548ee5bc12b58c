/** The organisation's governance contract (`MultiSig`): members are the
    holders of the current generation's stewardship token; they create, sign
    and resolve proposals, create and approve events, and anyone who signed the
    agreement can claim an event token. A generation lasts a fixed number of
    minutes; `reactivate` ends it and mints the next stewardship token to the
    holders of the event tokens of the events that passed. */
module Governance {
  import opened Tezos
  import TokenMetadata
  import Fa2

  // ---------------------------------------------------------------------------
  // Quorum.
  // ---------------------------------------------------------------------------

  datatype Threshold = Threshold(ratioNumber: nat, ratioTotal: nat, minimumCount: nat)

  /** `check_threshold` once the holder count is known: at least the minimum
      count, and approvals / holders >= ratio_number / ratio_total compared by
      cross-multiplication. */
  predicate Passes(approveCount: nat, holderCount: nat, t: Threshold) {
    approveCount >= t.minimumCount && approveCount * t.ratioTotal >= holderCount * t.ratioNumber
  }

  /** More approvals, or fewer holders, never turn a passing vote into a failing one. */
  lemma PassesMonotone(a: nat, b: nat, h: nat, g: nat, t: Threshold)
    requires a <= b && g <= h
    requires Passes(a, h, t)
    ensures Passes(b, g, t)
  {
    MulLeq(a, b, t.ratioTotal);
    MulLeq(g, h, t.ratioNumber);
  }

  lemma MulLeq(x: nat, y: nat, k: nat)
    requires x <= y
    ensures x * k <= y * k
  {
  }

  /** A threshold that `validate_proposal` accepts can be met: when every
      current holder approves, the vote passes. */
  lemma FullApprovalPasses(h: nat, t: Threshold)
    requires t.minimumCount <= h && t.ratioNumber <= t.ratioTotal
    ensures Passes(h, h, t)
  {
    MulLeq(t.ratioNumber, t.ratioTotal, h);
    assert h * t.ratioNumber == t.ratioNumber * h;
    assert h * t.ratioTotal == t.ratioTotal * h;
  }

  // ---------------------------------------------------------------------------
  // Storage.
  // ---------------------------------------------------------------------------

  datatype ProposalContent =
    | TransferTez(to: Address, amount: nat)
    | UpdateAgreementUri(agreementUri: Bytes)
    | UpdateDatasetUri(datasetUri: Bytes)
    | UpdateThreshold(threshold: Threshold)
    | UpdateGenerationDurationMinute(minutes: int)
    | UpdateMetadata(key: string, value: Bytes)
      /** The operations the proposal's lambda returns when applied to unit. */
    | LambdaOps(operations: seq<Operation>)

  datatype Proposal = Proposal(approved: set<Address>, isResolved: bool, proposer: Address,
                               createTime: Timestamp, generation: nat, content: ProposalContent)

  /** An event; `amount` is the number of editions left, `None` for unlimited. */
  datatype Event = Event(approved: set<Address>, passed: bool, proposer: Address, createTime: Timestamp,
                         generation: nat, tokenId: nat, amount: Option<nat>, claims: map<Address, Signature>)

  datatype Info = Info(name: Bytes, description: Bytes, generation: nat, generationDurationMinute: int)
  datatype Addresses = Addresses(factory: Address, tokenMetadataGenerator: Address, payloadGenerator: Address)
  datatype Times = Times(createTime: Timestamp, generationStartTime: Timestamp, generationEndTime: Timestamp)
  datatype EventStore = EventStore(eventTokenFa2: Address, nextEventId: nat, eventIdList: seq<nat>,
                                   events: map<nat, Event>)
  datatype ProposalStore = ProposalStore(nextProposalId: nat, proposals: map<nat, Proposal>)
  datatype StewardshipToken = StewardshipToken(fa2: Address, id: nat)

  /** The contract's whole storage, one field per storage record entry. */
  datatype Storage = Storage(info: Info, addresses: Addresses, timestamp: Times, event: EventStore,
                             proposal: ProposalStore, agreementUri: Bytes, datasetUri: Bytes,
                             gen0StewardshipSignatures: map<Address, Signature>,
                             stewardshipToken: StewardshipToken, threshold: Threshold,
                             metadata: map<string, Bytes>)

  /** Ids are handed out by the two counters, and the event list only names
      stored events. */
  ghost predicate Consistent(s: Storage) {
    && (forall id :: id in s.proposal.proposals ==> id < s.proposal.nextProposalId)
    && (forall id :: id in s.event.events ==> id < s.event.nextEventId)
    && (forall i :: 0 <= i < |s.event.eventIdList| ==> s.event.eventIdList[i] in s.event.events)
  }

  /** A new proposal stored under the counter, with the counter bumped, keeps
      the storage consistent; the counter's slot was free. */
  lemma NewProposalKeeps(s: Storage, p: Proposal)
    requires Consistent(s)
    ensures s.proposal.nextProposalId !in s.proposal.proposals
    ensures Consistent(s.(proposal := ProposalStore(s.proposal.nextProposalId + 1,
                                                    s.proposal.proposals[s.proposal.nextProposalId := p])))
  {
  }

  /** Rewriting a stored proposal keeps the storage consistent. */
  lemma ProposalUpdateKeeps(s: Storage, id: nat, p: Proposal)
    requires Consistent(s) && id in s.proposal.proposals
    ensures Consistent(s.(proposal := s.proposal.(proposals := s.proposal.proposals[id := p])))
  {
  }

  /** A new event stored under the counter and pushed on the list, with the
      counter bumped, keeps the storage consistent; the counter's slot was free. */
  lemma NewEventKeeps(s: Storage, e: Event)
    requires Consistent(s)
    ensures s.event.nextEventId !in s.event.events
    ensures var id := s.event.nextEventId;
      Consistent(s.(event := s.event.(nextEventId := id + 1, eventIdList := [id] + s.event.eventIdList,
                                      events := s.event.events[id := e])))
  {
    var id := s.event.nextEventId;
    var t := s.(event := s.event.(nextEventId := id + 1, eventIdList := [id] + s.event.eventIdList,
                                  events := s.event.events[id := e]));
    forall i | 0 <= i < |t.event.eventIdList|
      ensures t.event.eventIdList[i] in t.event.events
    {
      if i > 0 {
        assert t.event.eventIdList[i] == s.event.eventIdList[i - 1];
      }
    }
  }

  /** Rewriting a stored event keeps the storage consistent. */
  lemma EventUpdateKeeps(s: Storage, id: nat, e: Event)
    requires Consistent(s) && id in s.event.events
    ensures Consistent(s.(event := s.event.(events := s.event.events[id := e])))
  {
  }

  /** Consistency only depends on the proposal and event stores. */
  lemma StoresKeep(s: Storage, t: Storage)
    requires Consistent(s) && t.proposal == s.proposal && t.event == s.event
    ensures Consistent(t)
  {
  }

  // ---------------------------------------------------------------------------
  // What a call sees of the rest of the chain.
  // ---------------------------------------------------------------------------

  /** The parameter the contract sends to `gen_stewardship_token`. */
  datatype StewardshipRequest = StewardshipRequest(generation: nat, multisigName: Bytes,
                                                   multisigDescription: Bytes, creator: Address)

  /** The on-chain views the contract calls, by target contract and parameter,
      and the cryptographic primitives: `checkSignature` is `sp.check_signature`
      and `keyAddress` is the implicit account of a key's hash. */
  datatype World = World(
    getBalanceOf: (Address, seq<BalanceRequest>) -> View<seq<BalanceResponse>>,
    getTokenHolders: (Address, nat) -> View<set<Address>>,
    getNextStewardshipTokenId: Address -> View<nat>,
    getNextEventTokenId: Address -> View<nat>,
    genPayload: (Address, Bytes) -> View<Bytes>,
    genStewardshipToken: (Address, StewardshipRequest) -> View<TokenInfo>,
    genEventToken: (Address, TokenMetadata.EventParams) -> View<TokenInfo>,
    checkSignature: (Key, Signature, Bytes) -> bool,
    keyAddress: Key -> Address)

  /** `sp.sender`, `sp.amount` (in mutez) and `sp.now` of a call. */
  datatype Context = Context(sender: Address, amount: nat, now: Timestamp)

  // ---------------------------------------------------------------------------
  // Shared checks.
  // ---------------------------------------------------------------------------

  function ZeroTez(ctx: Context): Result<()> {
    Verify(ctx.amount == 0, "TEZOS_NOT_ACCEPTED")
  }

  /** `check_member`: every balance the stewardship ledger reports for the
      address and the current stewardship token id is positive. */
  function CheckMember(s: Storage, world: World, address: Address): (r: Result<()>)
    ensures var v := world.getBalanceOf(s.stewardshipToken.fa2, [BalanceRequest(address, s.stewardshipToken.id)]);
      && (r.Ok? <==> v.Answer? && forall i :: 0 <= i < |v.value| ==> v.value[i].balance > 0)
      && (v.NoAnswer? ==> r == Err("open get_balance_of view Error"))
      && (v.Answer? && r.Err? ==> r == Err("NO_OWNING_STEWARDSHIP_TOKEN"))
  {
    var responses :- Open(world.getBalanceOf(s.stewardshipToken.fa2, [BalanceRequest(address, s.stewardshipToken.id)]),
                          "open get_balance_of view Error");
    Verify(forall i :: 0 <= i < |responses| ==> responses[i].balance > 0, "NO_OWNING_STEWARDSHIP_TOKEN")
  }

  /** `check_valid_time`: strictly before the generation's end, and after activation. */
  function CheckValidTime(s: Storage, now: Timestamp): (r: Result<()>)
    ensures r.Ok? <==> now < s.timestamp.generationEndTime && s.info.generation > 0
    ensures now >= s.timestamp.generationEndTime ==> r == Err("OVER_GENERATION_END_TIME")
    ensures now < s.timestamp.generationEndTime && s.info.generation == 0 ==> r == Err("NOT_ACTIVATED_YET")
  {
    var _ :- Verify(now < s.timestamp.generationEndTime, "OVER_GENERATION_END_TIME");
    Verify(s.info.generation > 0, "NOT_ACTIVATED_YET")
  }

  function StewardshipHolders(s: Storage, world: World): Result<set<Address>> {
    Open(world.getTokenHolders(s.stewardshipToken.fa2, s.stewardshipToken.id), "open get_token_holders view Error")
  }

  /** `check_threshold`: the quorum against the current stewardship holder count. */
  function CheckThreshold(s: Storage, world: World, approveCount: nat): (r: Result<bool>)
    ensures r.Ok? <==> StewardshipHolders(s, world).Ok?
    ensures r.Err? ==> r.code == StewardshipHolders(s, world).code
    ensures r.Ok? ==> r.value == Passes(approveCount, |StewardshipHolders(s, world).value|, s.threshold)
  {
    var holders :- StewardshipHolders(s, world);
    Ok(Passes(approveCount, |holders|, s.threshold))
  }

  /** `validate_proposal` */
  function ValidateProposal(s: Storage, world: World, content: ProposalContent): (r: Result<()>)
    ensures content.TransferTez? ==> (r.Ok? <==> content.amount > 0)
    ensures content.TransferTez? && content.amount == 0 ==> r == Err("CANNOT_SEND_ZERO_TEZ")
    ensures content.UpdateThreshold? ==>
              (r.Ok? <==> && StewardshipHolders(s, world).Ok?
                          && content.threshold.minimumCount <= |StewardshipHolders(s, world).value|
                          && content.threshold.ratioNumber <= content.threshold.ratioTotal)
    ensures !content.TransferTez? && !content.UpdateThreshold? ==> r.Ok?
  {
    match content
    case TransferTez(_, amount) => Verify(amount > 0, "CANNOT_SEND_ZERO_TEZ")
    case UpdateThreshold(t) =>
      var holders :- StewardshipHolders(s, world);
      var _ :- Verify(t.minimumCount <= |holders|, "MINIMUM_COUNT_ERROR: over holders count");
      Verify(t.ratioNumber <= t.ratioTotal, "RATIO_ERROR: numerator should not greater than denominator")
    case _ => Ok(())
  }

  /** A threshold accepted by `validate_proposal` is reachable with the holders
      of the moment: their unanimous approval passes it. */
  lemma AcceptedThresholdIsReachable(s: Storage, world: World, t: Threshold)
    requires ValidateProposal(s, world, UpdateThreshold(t)).Ok?
    ensures var h := |StewardshipHolders(s, world).value|; Passes(h, h, t)
  {
    FullApprovalPasses(|StewardshipHolders(s, world).value|, t);
  }

  /** With the stewardship ledger as the answering contract, `check_member`
      accepts exactly the addresses with a positive balance of the current
      stewardship token (which must be defined). */
  lemma MembersAreStewardshipHolders(s: Storage, world: World, ledger: Fa2.Ledger, address: Address)
    requires var reqs := [BalanceRequest(address, s.stewardshipToken.id)];
      world.getBalanceOf(s.stewardshipToken.fa2, reqs) == AsView(ledger.BalanceOfBatch(reqs))
    ensures CheckMember(s, world, address).Ok?
            <==> s.stewardshipToken.id in ledger.tokenMetadata
                 && Fa2.Get(ledger.ledger, (address, s.stewardshipToken.id)) > 0
  {
    var reqs := [BalanceRequest(address, s.stewardshipToken.id)];
    var answer := ledger.BalanceOfBatch(reqs);
    if answer.Ok? {
      assert answer.value[0] == BalanceResponse(reqs[0], Fa2.Get(ledger.ledger, (address, s.stewardshipToken.id)));
    }
  }

  /** The view answer of a contract's view body. */
  function AsView<T>(r: Result<T>): View<T> {
    match r
    case Ok(v) => Answer(v)
    case Err(c) => Failed(c)
  }

  // ---------------------------------------------------------------------------
  // The checks of each entry point, in the order the contract makes them.
  // ---------------------------------------------------------------------------

  /** `create_proposal` */
  function CreateProposalCheck(s: Storage, world: World, ctx: Context, content: ProposalContent): (r: Result<()>)
    ensures r.Ok? <==> && ctx.amount == 0 && CheckMember(s, world, ctx.sender).Ok?
                       && CheckValidTime(s, ctx.now).Ok? && ValidateProposal(s, world, content).Ok?
  {
    var _ :- ZeroTez(ctx);
    var _ :- CheckMember(s, world, ctx.sender);
    var _ :- CheckValidTime(s, ctx.now);
    ValidateProposal(s, world, content)
  }

  /** `sign_proposal` */
  function SignProposalCheck(s: Storage, world: World, ctx: Context, id: nat): (r: Result<()>)
    ensures r.Ok? <==> && ctx.amount == 0 && CheckMember(s, world, ctx.sender).Ok? && CheckValidTime(s, ctx.now).Ok?
                       && id in s.proposal.proposals
                       && !s.proposal.proposals[id].isResolved
                       && s.proposal.proposals[id].generation == s.info.generation
                       && ctx.sender !in s.proposal.proposals[id].approved
    ensures && ctx.amount == 0 && CheckMember(s, world, ctx.sender).Ok? && CheckValidTime(s, ctx.now).Ok?
            && id in s.proposal.proposals && ctx.sender in s.proposal.proposals[id].approved
            && !s.proposal.proposals[id].isResolved && s.proposal.proposals[id].generation == s.info.generation
            ==> r == Err("PROPOSAL_APPROVED_ALREADY")
  {
    var _ :- ZeroTez(ctx);
    var _ :- CheckMember(s, world, ctx.sender);
    var _ :- CheckValidTime(s, ctx.now);
    var _ :- Verify(id in s.proposal.proposals, "PROPOSAL_ID_NOT_EXISTED");
    var p := s.proposal.proposals[id];
    var _ :- Verify(!p.isResolved, "PROPOSAL_IS_RESOLVED");
    var _ :- Verify(s.info.generation == p.generation, "NOT_CURRENT_GENERATION_PROPOSAL");
    Verify(ctx.sender !in p.approved, "PROPOSAL_APPROVED_ALREADY")
  }

  /** `resolve_proposal`: no membership check, only the window, the proposal's
      state and the quorum. */
  function ResolveProposalCheck(s: Storage, world: World, ctx: Context, id: nat): (r: Result<()>)
    ensures r.Ok? <==> && ctx.amount == 0 && CheckValidTime(s, ctx.now).Ok?
                       && id in s.proposal.proposals
                       && !s.proposal.proposals[id].isResolved
                       && s.proposal.proposals[id].generation == s.info.generation
                       && CheckThreshold(s, world, |s.proposal.proposals[id].approved|) == Ok(true)
    ensures && ctx.amount == 0 && CheckValidTime(s, ctx.now).Ok?
            && id in s.proposal.proposals && s.proposal.proposals[id].isResolved
            ==> r == Err("PROPOSAL_IS_RESOLVED")
  {
    var _ :- ZeroTez(ctx);
    var _ :- CheckValidTime(s, ctx.now);
    var _ :- Verify(id in s.proposal.proposals, "PROPOSAL_ID_NOT_EXISTED");
    var p := s.proposal.proposals[id];
    var _ :- Verify(!p.isResolved, "PROPOSAL_IS_RESOLVED");
    var _ :- Verify(s.info.generation == p.generation, "NOT_CURRENT_GENERATION_PROPOSAL");
    var passes :- CheckThreshold(s, world, |p.approved|);
    Verify(passes, "NOT_REACH_THRESHOLD")
  }

  /** `execute_proposal` and its seven `execute_*` branches. */
  function Execute(s: Storage, id: nat): (r: (Storage, seq<Operation>))
    requires id in s.proposal.proposals
    ensures r.0.proposal.nextProposalId == s.proposal.nextProposalId
    ensures r.0.proposal.proposals.Keys == s.proposal.proposals.Keys && r.0.proposal.proposals[id].isResolved
    ensures r.0.event == s.event && r.0.stewardshipToken == s.stewardshipToken && r.0.info.generation == s.info.generation
  {
    var p := s.proposal.proposals[id];
    var resolved := s.(proposal := s.proposal.(proposals := s.proposal.proposals[id := p.(isResolved := true)]));
    match p.content
    case TransferTez(to, amount) => (resolved, [SendTez(to, amount)])
    case UpdateAgreementUri(uri) => (resolved.(agreementUri := uri), [])
    case UpdateDatasetUri(uri) => (resolved.(datasetUri := uri), [])
    case UpdateThreshold(t) => (resolved.(threshold := t), [])
    case UpdateGenerationDurationMinute(m) => (resolved.(info := resolved.info.(generationDurationMinute := m)), [])
    case UpdateMetadata(k, v) => (resolved.(metadata := resolved.metadata[k := v]), [])
    case LambdaOps(operations) => (resolved, operations)
  }

  /** Executing a proposal marks it resolved, and each kind of content changes
      only its own target: nothing else in the storage moves. */
  lemma ExecuteChangesOnlyTarget(s: Storage, id: nat)
    requires id in s.proposal.proposals
    ensures var (t, ops) := Execute(s, id); var p := s.proposal.proposals[id]; var c := p.content;
      && t.proposal == s.proposal.(proposals := s.proposal.proposals[id := p.(isResolved := true)])
      && t.event == s.event && t.timestamp == s.timestamp && t.addresses == s.addresses
      && t.gen0StewardshipSignatures == s.gen0StewardshipSignatures && t.stewardshipToken == s.stewardshipToken
      && t.info.(generationDurationMinute := s.info.generationDurationMinute) == s.info
      && (t.agreementUri == if c.UpdateAgreementUri? then c.agreementUri else s.agreementUri)
      && (t.datasetUri == if c.UpdateDatasetUri? then c.datasetUri else s.datasetUri)
      && (t.threshold == if c.UpdateThreshold? then c.threshold else s.threshold)
      && (t.info.generationDurationMinute
          == if c.UpdateGenerationDurationMinute? then c.minutes else s.info.generationDurationMinute)
      && (t.metadata == if c.UpdateMetadata? then s.metadata[c.key := c.value] else s.metadata)
      && (ops == match c
                 case TransferTez(to, amount) => [SendTez(to, amount)]
                 case LambdaOps(operations) => operations
                 case _ => [])
  {
  }

  /** Executing a proposal keeps the storage consistent. */
  lemma ExecuteKeeps(s: Storage, id: nat)
    requires Consistent(s) && id in s.proposal.proposals
    ensures Consistent(Execute(s, id).0)
  {
    var p := s.proposal.proposals[id];
    ProposalUpdateKeeps(s, id, p.(isResolved := true));
    StoresKeep(s.(proposal := s.proposal.(proposals := s.proposal.proposals[id := p.(isResolved := true)])),
               Execute(s, id).0);
  }

  /** A proposal is resolved at most once: after a successful resolution every
      later call fails, with `PROPOSAL_IS_RESOLVED` once it is inside the window. */
  lemma ResolveAtMostOnce(s: Storage, world: World, ctx: Context, id: nat, world': World, ctx': Context)
    requires ResolveProposalCheck(s, world, ctx, id).Ok?
    ensures var s' := Execute(s, id).0;
      && ResolveProposalCheck(s', world', ctx', id).Err?
      && (ctx'.amount == 0 && CheckValidTime(s', ctx'.now).Ok? ==>
            ResolveProposalCheck(s', world', ctx', id) == Err("PROPOSAL_IS_RESOLVED"))
  {
  }

  /** `create_event` up to the two views it calls. */
  function CreateEventCheck(s: Storage, world: World, ctx: Context): (r: Result<()>)
    ensures r.Ok? <==> ctx.amount == 0 && CheckMember(s, world, ctx.sender).Ok? && CheckValidTime(s, ctx.now).Ok?
  {
    var _ :- ZeroTez(ctx);
    var _ :- CheckMember(s, world, ctx.sender);
    CheckValidTime(s, ctx.now)
  }

  /** The request `create_event` sends to `gen_event_token`. */
  function EventTokenRequest(s: Storage, self: Address, name: Bytes, description: Bytes): TokenMetadata.EventParams {
    TokenMetadata.EventParams(name, description, s.info.name, s.info.generation, self)
  }

  /** `claim_event` */
  function ClaimEventCheck(s: Storage, world: World, ctx: Context, publicKey: Key, signature: Signature,
                           id: nat): (r: Result<()>)
    ensures r.Ok? <==> && ctx.amount == 0 && CheckValidTime(s, ctx.now).Ok?
                       && ctx.sender == world.keyAddress(publicKey)
                       && world.genPayload(s.addresses.payloadGenerator, s.agreementUri).Answer?
                       && world.checkSignature(publicKey, signature,
                                               world.genPayload(s.addresses.payloadGenerator, s.agreementUri).value)
                       && id in s.event.events
                       && ctx.sender !in s.event.events[id].claims
                       && s.info.generation == s.event.events[id].generation
                       && s.event.events[id].amount != Some(0)
    ensures (r.Err? && id in s.event.events && ctx.sender in s.event.events[id].claims
             && ctx.amount == 0 && CheckValidTime(s, ctx.now).Ok? && ctx.sender == world.keyAddress(publicKey)
             && world.genPayload(s.addresses.payloadGenerator, s.agreementUri).Answer?
             && world.checkSignature(publicKey, signature,
                                     world.genPayload(s.addresses.payloadGenerator, s.agreementUri).value))
            ==> r.code == "CANNOT_CLAIM_TWICE"
    ensures (&& ctx.amount == 0 && CheckValidTime(s, ctx.now).Ok? && ctx.sender == world.keyAddress(publicKey)
             && world.genPayload(s.addresses.payloadGenerator, s.agreementUri).Answer?
             && world.checkSignature(publicKey, signature,
                                     world.genPayload(s.addresses.payloadGenerator, s.agreementUri).value)
             && id in s.event.events && ctx.sender !in s.event.events[id].claims
             && s.info.generation == s.event.events[id].generation && s.event.events[id].amount == Some(0))
            ==> r == Err("EVENT_EDITION_INSUFFICIENT")
  {
    var _ :- ZeroTez(ctx);
    var _ :- CheckValidTime(s, ctx.now);
    var _ :- Verify(ctx.sender == world.keyAddress(publicKey), "PUBLIC_KEY_ERROR: not matched with sender");
    var payload :- Open(world.genPayload(s.addresses.payloadGenerator, s.agreementUri), "open gen_payload view Error");
    var _ :- Verify(world.checkSignature(publicKey, signature, payload), "SIGNATURE_NOT_MATCHED");
    var _ :- Verify(id in s.event.events, MISSING_KEY);
    var e := s.event.events[id];
    var _ :- Verify(ctx.sender !in e.claims, "CANNOT_CLAIM_TWICE");
    var _ :- Verify(s.info.generation == e.generation, "NOT_CURRENT_GENERATION_EVENT");
    Verify(e.amount != Some(0), "EVENT_EDITION_INSUFFICIENT")
  }

  /** The editions left after one claim: a limited edition loses one. */
  function AfterClaim(amount: Option<nat>): (r: Option<nat>)
    requires amount != Some(0)
    ensures amount.None? ==> r.None?
    ensures amount.Some? ==> r.Some? && r.value + 1 == amount.value
  {
    if amount.Some? then Some(amount.value - 1) else None
  }

  /** The storage after a claim of event `id` by `sender`. */
  function Claimed(s: Storage, id: nat, sender: Address, signature: Signature): Storage
    requires id in s.event.events && s.event.events[id].amount != Some(0)
  {
    var e := s.event.events[id];
    s.(event := s.event.(events := s.event.events[id := e.(amount := AfterClaim(e.amount),
                                                           claims := e.claims[sender := signature])]))
  }

  /** At most one claim per (event, address): once a claim succeeded, the same
      sender's next claim of that event fails whatever key, signature or time,
      and fails with `CANNOT_CLAIM_TWICE` once its key and signature check out. */
  lemma ClaimEventOnce(s: Storage, world: World, ctx: Context, publicKey: Key, signature: Signature, id: nat,
                       world': World, ctx': Context, publicKey': Key, signature': Signature)
    requires ClaimEventCheck(s, world, ctx, publicKey, signature, id).Ok?
    requires ctx'.sender == ctx.sender
    ensures var s' := Claimed(s, id, ctx.sender, signature);
      && s'.event.events[id].claims[ctx.sender] == signature
      && ClaimEventCheck(s', world', ctx', publicKey', signature', id).Err?
  {
  }

  /** Claiming the last edition of a limited event closes it: every later
      claim fails, by the same sender or any other, and one that gets past
      the earlier checks fails `EVENT_EDITION_INSUFFICIENT`. */
  lemma LastEditionCloses(s: Storage, world: World, ctx: Context, publicKey: Key, signature: Signature, id: nat,
                          world': World, ctx': Context, publicKey': Key, signature': Signature)
    requires ClaimEventCheck(s, world, ctx, publicKey, signature, id).Ok?
    requires s.event.events[id].amount == Some(1)
    ensures var s' := Claimed(s, id, ctx.sender, signature);
      && s'.event.events[id].amount == Some(0)
      && ClaimEventCheck(s', world', ctx', publicKey', signature', id).Err?
    ensures var s' := Claimed(s, id, ctx.sender, signature);
      (&& ctx'.amount == 0 && CheckValidTime(s', ctx'.now).Ok? && ctx'.sender == world'.keyAddress(publicKey')
       && world'.genPayload(s'.addresses.payloadGenerator, s'.agreementUri).Answer?
       && world'.checkSignature(publicKey', signature',
                                world'.genPayload(s'.addresses.payloadGenerator, s'.agreementUri).value)
       && ctx'.sender != ctx.sender && ctx'.sender !in s.event.events[id].claims)
      ==> ClaimEventCheck(s', world', ctx', publicKey', signature', id) == Err("EVENT_EDITION_INSUFFICIENT")
  {
  }

  /** `approve_event` */
  function ApproveEventCheck(s: Storage, world: World, ctx: Context, id: nat): (r: Result<()>)
    ensures r.Ok? <==> && ctx.amount == 0 && CheckMember(s, world, ctx.sender).Ok? && CheckValidTime(s, ctx.now).Ok?
                       && id in s.event.events
                       && s.event.events[id].generation == s.info.generation
                       && ctx.sender !in s.event.events[id].approved
  {
    var _ :- ZeroTez(ctx);
    var _ :- CheckMember(s, world, ctx.sender);
    var _ :- CheckValidTime(s, ctx.now);
    var _ :- Verify(id in s.event.events, "EVENT_ID_NOT_EXISTED");
    var e := s.event.events[id];
    var _ :- Verify(s.info.generation == e.generation, "NOT_CURRENT_GENERATION_PROPOSAL");
    Verify(ctx.sender !in e.approved, "EVENT_APPROVED_ALREADY")
  }

  /** `create_gen0_stewardship` up to the two views it calls. */
  function CreateGen0Check(s: Storage, ctx: Context): (r: Result<()>)
    ensures r.Ok? <==> && ctx.amount == 0 && ctx.sender == s.addresses.factory
                       && s.info.generation == 0 && s.stewardshipToken.id == 0
    ensures (ctx.amount == 0 && ctx.sender == s.addresses.factory && s.info.generation == 0
             && s.stewardshipToken.id != 0) ==> r == Err("CREATE_ALREADY")
  {
    var _ :- ZeroTez(ctx);
    var _ :- Verify(ctx.sender == s.addresses.factory, "ONLY_FACTORY_CAN_CREATE");
    var _ :- Verify(s.info.generation == 0, "GENERATION_INCORRECT");
    Verify(s.stewardshipToken.id == 0, "CREATE_ALREADY")
  }

  /** The request for the first stewardship token's metadata: generation 1. */
  function Gen0StewardshipRequest(s: Storage, self: Address): StewardshipRequest {
    StewardshipRequest(1, s.info.name, s.info.description, self)
  }

  /** `claim_gen0_stewardship`: until the end of the claiming window inclusive. */
  function ClaimGen0Check(s: Storage, world: World, ctx: Context, publicKey: Key, signature: Signature): (r: Result<()>)
    ensures r.Ok? <==> && ctx.amount == 0 && s.info.generation == 0 && ctx.now <= s.timestamp.generationEndTime
                       && ctx.sender == world.keyAddress(publicKey)
                       && world.genPayload(s.addresses.payloadGenerator, s.agreementUri).Answer?
                       && world.checkSignature(publicKey, signature,
                                               world.genPayload(s.addresses.payloadGenerator, s.agreementUri).value)
                       && ctx.sender !in s.gen0StewardshipSignatures
  {
    var _ :- ZeroTez(ctx);
    var _ :- Verify(s.info.generation == 0, "GENERATION_ERROR");
    var _ :- Verify(ctx.now <= s.timestamp.generationEndTime, "CLAIM_EXPIRED");
    var _ :- Verify(ctx.sender == world.keyAddress(publicKey), "PUBLIC_KEY_ERROR: not matched with sender");
    var payload :- Open(world.genPayload(s.addresses.payloadGenerator, s.agreementUri), "open gen_payload view Error");
    var _ :- Verify(world.checkSignature(publicKey, signature, payload), "SIGNATURE_NOT_MATCHED");
    Verify(ctx.sender !in s.gen0StewardshipSignatures, "CANNOT_CLAIM_TWICE")
  }

  /** `activate` */
  function ActivateCheck(s: Storage, world: World, ctx: Context): (r: Result<()>)
    ensures r.Ok? <==> && ctx.amount == 0 && s.info.generation == 0 && ctx.now > s.timestamp.generationEndTime
                       && StewardshipHolders(s, world).Ok?
                       && |StewardshipHolders(s, world).value| >= s.threshold.minimumCount
  {
    var _ :- ZeroTez(ctx);
    var _ :- Verify(s.info.generation == 0, "GENEATION_ERROR");
    var _ :- Verify(ctx.now > s.timestamp.generationEndTime, "STILL_IN_CLAIMING_TIME");
    var holders :- StewardshipHolders(s, world);
    Verify(|holders| >= s.threshold.minimumCount, "APPROVE_COUNT_INSUFFICIENT")
  }

  /** `reactivate` up to the tally. */
  function ReactivateCheck(s: Storage, ctx: Context): (r: Result<()>)
    ensures r.Ok? <==> ctx.amount == 0 && s.info.generation > 0 && ctx.now > s.timestamp.generationEndTime
  {
    var _ :- ZeroTez(ctx);
    var _ :- Verify(s.info.generation > 0, "GENEATION_ERROR");
    Verify(ctx.now > s.timestamp.generationEndTime, "STILL_IN_GENERATION_TIME")
  }

  /** The `is_alive` view. */
  function IsAlive(s: Storage, now: Timestamp): (r: bool)
    ensures r <==> CheckValidTime(s, now).Ok? || (s.info.generation > 0 && now == s.timestamp.generationEndTime)
  {
    s.info.generation > 0 && now <= s.timestamp.generationEndTime
  }

  /** The member actions' window (`now < end`) and the generation changes
      (`now > end`) never overlap, and at `now == end` neither is open; the
      generation-0 claiming window (`now <= end`) and `activate` split time
      exactly. `is_alive` still answers true at `now == end`, when no member
      action is accepted any more. */
  lemma WindowsAreExclusive(s: Storage, world: World, ctx: Context)
    ensures CheckValidTime(s, ctx.now).Ok? ==>
              ActivateCheck(s, world, ctx).Err? && ReactivateCheck(s, ctx).Err?
    ensures ctx.now == s.timestamp.generationEndTime ==>
              && CheckValidTime(s, ctx.now).Err? && ActivateCheck(s, world, ctx).Err?
              && ReactivateCheck(s, ctx).Err? && IsAlive(s, ctx.now) == (s.info.generation > 0)
    ensures (ctx.now <= s.timestamp.generationEndTime) != (ctx.now > s.timestamp.generationEndTime)
    ensures CheckValidTime(s, ctx.now).Ok? ==> IsAlive(s, ctx.now)
    ensures IsAlive(s, ctx.now) && ctx.now != s.timestamp.generationEndTime ==> CheckValidTime(s, ctx.now).Ok?
  {
  }

  // ---------------------------------------------------------------------------
  // The `reactivate` tally.
  // ---------------------------------------------------------------------------

  /** What `reactivate` learns of one listed event: whether it passes the
      quorum and, when it does, the holders of its event token. */
  function EventOutcome(s: Storage, world: World, id: nat): Result<Option<set<Address>>> {
    if id !in s.event.events then Err(MISSING_KEY)
    else
      var e := s.event.events[id];
      var passes :- CheckThreshold(s, world, |e.approved|);
      if !passes then Ok(None)
      else
        var holders :- Open(world.getTokenHolders(s.event.eventTokenFa2, e.tokenId), "open get_token_holders view Error");
        Ok(Some(holders))
  }

  /** The weights and the passed events gathered so far. */
  datatype Tally = Tally(weights: map<Address, nat>, passed: set<nat>)

  /** One more passed event: each of its holders gains one weight. */
  function AddOne(w: map<Address, nat>, holders: set<Address>): map<Address, nat> {
    map a | a in w.Keys + holders :: Weight0(w, a) + (if a in holders then 1 else 0)
  }

  /** `m.get(a, 0)` */
  function Weight0(w: map<Address, nat>, a: Address): nat {
    if a in w then w[a] else 0
  }

  /** The tally of the events `ids`, in list order, on top of `acc`. */
  function TallyFrom(s: Storage, world: World, ids: seq<nat>, acc: Tally): (r: Result<Tally>)
    ensures r.Ok? ==> acc.passed <= r.value.passed && acc.weights.Keys <= r.value.weights.Keys
    ensures r.Ok? ==> forall id :: id in r.value.passed && id !in acc.passed ==> id in ids
    decreases |ids|
  {
    if ids == [] then Ok(acc)
    else
      var outcome :- EventOutcome(s, world, ids[0]);
      var acc' := if outcome.Some? then Tally(AddOne(acc.weights, outcome.value), acc.passed + {ids[0]}) else acc;
      TallyFrom(s, world, ids[1..], acc')
  }

  /** The reference definition of an address's weight: the number of listed
      events that pass and whose token the address holds. */
  function Weight(s: Storage, world: World, ids: seq<nat>, a: Address): nat
    decreases |ids|
  {
    if ids == [] then 0
    else
      (match EventOutcome(s, world, ids[0])
       case Ok(Some(holders)) => if a in holders then 1 else 0
       case _ => 0)
      + Weight(s, world, ids[1..], a)
  }

  /** The listed events that pass. */
  function PassedIds(s: Storage, world: World, ids: seq<nat>): set<nat>
    decreases |ids|
  {
    if ids == [] then {}
    else
      (if EventOutcome(s, world, ids[0]).Ok? && EventOutcome(s, world, ids[0]).value.Some? then {ids[0]} else {})
      + PassedIds(s, world, ids[1..])
  }

  /** The tally computes the reference weights, keeps exactly the addresses with
      a positive weight, and marks exactly the passing events. */
  lemma {:induction false} TallyIsWeight(s: Storage, world: World, ids: seq<nat>, acc: Tally)
    requires TallyFrom(s, world, ids, acc).Ok?
    ensures var t := TallyFrom(s, world, ids, acc).value;
      && (forall a :: Weight0(t.weights, a) == Weight0(acc.weights, a) + Weight(s, world, ids, a))
      && (forall a :: a in t.weights <==> a in acc.weights || Weight(s, world, ids, a) > 0)
      && t.passed == acc.passed + PassedIds(s, world, ids)
    decreases |ids|
  {
    if ids != [] {
      var outcome := EventOutcome(s, world, ids[0]).value;
      var acc' := if outcome.Some? then Tally(AddOne(acc.weights, outcome.value), acc.passed + {ids[0]}) else acc;
      TallyIsWeight(s, world, ids[1..], acc');
    }
  }

  /** From an empty tally every kept address has weight at least one. */
  lemma TallyWeightsPositive(s: Storage, world: World, ids: seq<nat>)
    requires TallyFrom(s, world, ids, Tally(map[], {})).Ok?
    ensures var t := TallyFrom(s, world, ids, Tally(map[], {})).value;
      forall a :: a in t.weights ==> t.weights[a] == Weight(s, world, ids, a) && t.weights[a] >= 1
  {
    TallyIsWeight(s, world, ids, Tally(map[], {}));
    var t := TallyFrom(s, world, ids, Tally(map[], {})).value;
    forall a | a in t.weights
      ensures t.weights[a] == Weight(s, world, ids, a) && t.weights[a] >= 1
    {
      assert Weight0(t.weights, a) == Weight0(map[], a) + Weight(s, world, ids, a);
    }
  }

  /** The inner loop of the tally, over one passed event's holders. */
  method AddHolders(w0: map<Address, nat>, holders: set<Address>) returns (w: map<Address, nat>)
    ensures w == AddOne(w0, holders)
  {
    w := w0;
    var rest := holders;
    ghost var done: set<Address> := {};
    while rest != {}
      invariant rest <= holders
      invariant forall a :: a in done <==> a in holders && a !in rest
      invariant forall a :: a in w <==> a in w0 || a in done
      invariant forall a :: a in w ==> w[a] == Weight0(w0, a) + (if a in done then 1 else 0)
      decreases |rest|
    {
      var holder :| holder in rest;
      var count := if holder in w then w[holder] else 0;
      w := w[holder := count + 1];
      rest := rest - {holder};
      done := done + {holder};
    }
    AddOneIs(w0, holders, w);
  }

  lemma AddOneIs(w0: map<Address, nat>, holders: set<Address>, w: map<Address, nat>)
    requires forall a :: a in w <==> a in w0 || a in holders
    requires forall a :: a in w ==> w[a] == Weight0(w0, a) + (if a in holders then 1 else 0)
    ensures w == AddOne(w0, holders)
  {
  }

  /** The loop of `reactivate` over `event_id_list`. */
  method TallyEvents(s: Storage, world: World) returns (r: Result<Tally>)
    ensures r == TallyFrom(s, world, s.event.eventIdList, Tally(map[], {}))
  {
    var ids := s.event.eventIdList;
    var acc := Tally(map[], {});
    var i := 0;
    while i < |ids|
      invariant 0 <= i <= |ids|
      invariant TallyFrom(s, world, ids, Tally(map[], {})) == TallyFrom(s, world, ids[i..], acc)
    {
      assert ids[i..][1..] == ids[i + 1..];
      var id := ids[i];
      if id !in s.event.events {
        return Err(MISSING_KEY);
      }
      var e := s.event.events[id];
      var passes := CheckThreshold(s, world, |e.approved|);
      if passes.Err? {
        return Err(passes.code);
      }
      if passes.value {
        var holders := Open(world.getTokenHolders(s.event.eventTokenFa2, e.tokenId), "open get_token_holders view Error");
        if holders.Err? {
          return Err(holders.code);
        }
        var w := AddHolders(acc.weights, holders.value);
        acc := Tally(w, acc.passed + {id});
      }
      i := i + 1;
    }
    assert ids[i..] == [];
    r := Ok(acc);
  }

  /** The mint list of `reactivate`: one entry per weighted holder, with its
      weight and the new stewardship token id. */
  ghost predicate IsMintList(list: seq<MintRequest>, weights: map<Address, nat>, tokenId: nat) {
    && |list| == |weights|
    && (forall a :: a in weights ==> MintRequest(a, weights[a], tokenId) in list)
    && (forall m :: m in list ==> m.address in weights && m.amount == weights[m.address] && m.tokenId == tokenId)
  }

  /** The loop of `reactivate` that builds the mint list. */
  method BuildMintList(weights: map<Address, nat>, tokenId: nat) returns (list: seq<MintRequest>)
    ensures |list| == |weights|
    ensures forall a :: a in weights ==> MintRequest(a, weights[a], tokenId) in list
    ensures forall m :: m in list ==> m.address in weights && m.amount == weights[m.address] && m.tokenId == tokenId
  {
    list := [];
    var rest := weights.Keys;
    while rest != {}
      invariant rest <= weights.Keys
      invariant |list| + |rest| == |weights|
      invariant forall a :: a in weights && a !in rest ==> MintRequest(a, weights[a], tokenId) in list
      invariant forall m :: m in list ==> m.address in weights && m.address !in rest
                                          && m.amount == weights[m.address] && m.tokenId == tokenId
      decreases |rest|
    {
      var holder :| holder in rest;
      list := [MintRequest(holder, weights[holder], tokenId)] + list;
      rest := rest - {holder};
    }
  }

  /** Every event the tally marks passed, with its flag set. */
  function MarkPassed(events: map<nat, Event>, passed: set<nat>): (r: map<nat, Event>)
    ensures r.Keys == events.Keys
    ensures forall id :: id in events ==> r[id] == if id in passed then events[id].(passed := true) else events[id]
  {
    map id | id in events :: if id in passed then events[id].(passed := true) else events[id]
  }

  /** The request `reactivate` sends to `gen_stewardship_token`. */
  function NextStewardshipRequest(s: Storage, self: Address): StewardshipRequest {
    StewardshipRequest(s.info.generation + 1, s.info.name, s.info.description, self)
  }

  // ---------------------------------------------------------------------------
  // The contract.
  // ---------------------------------------------------------------------------

  class MultiSig {
    /** `sp.self_address` */
    const self: Address
    var info: Info
    var addresses: Addresses
    var timestamp: Times
    var event: EventStore
    var proposal: ProposalStore
    var agreementUri: Bytes
    var datasetUri: Bytes
    var gen0StewardshipSignatures: map<Address, Signature>
    var stewardshipToken: StewardshipToken
    var threshold: Threshold
    var metadata: map<string, Bytes>

    function Snapshot(): Storage
      reads this
    {
      Storage(info, addresses, timestamp, event, proposal, agreementUri, datasetUri,
              gen0StewardshipSignatures, stewardshipToken, threshold, metadata)
    }

    /** Writes a whole storage value back to the fields. */
    method Store(t: Storage)
      modifies this
      ensures Snapshot() == t
    {
      info, addresses, timestamp, event, proposal := t.info, t.addresses, t.timestamp, t.event, t.proposal;
      agreementUri, datasetUri, gen0StewardshipSignatures := t.agreementUri, t.datasetUri, t.gen0StewardshipSignatures;
      stewardshipToken, threshold, metadata := t.stewardshipToken, t.threshold, t.metadata;
    }

    ghost predicate Valid()
      reads this
    {
      Consistent(Snapshot())
    }

    /** The storage the factory originates a multisig with: generation 0, a
        claiming window of `gen0DurationMinute` from `now`, no proposals, no
        events, and no stewardship token yet. */
    constructor (self: Address, name: Bytes, description: Bytes, generationDurationMinute: int,
                 gen0DurationMinute: int, addresses: Addresses, now: Timestamp, eventTokenFa2: Address,
                 stewardshipFa2: Address, agreementUri: Bytes, datasetUri: Bytes, threshold: Threshold,
                 contractMetadata: Bytes)
      ensures Valid()
      ensures this.self == self
      ensures Snapshot()
              == Storage(Info(name, description, 0, generationDurationMinute), addresses,
                         Times(now, now, AddMinutes(now, gen0DurationMinute)),
                         EventStore(eventTokenFa2, 0, [], map[]), ProposalStore(0, map[]),
                         agreementUri, datasetUri, map[], StewardshipToken(stewardshipFa2, 0), threshold,
                         map["" := contractMetadata])
    {
      this.self := self;
      this.info := Info(name, description, 0, generationDurationMinute);
      this.addresses := addresses;
      this.timestamp := Times(now, now, AddMinutes(now, gen0DurationMinute));
      this.event := EventStore(eventTokenFa2, 0, [], map[]);
      this.proposal := ProposalStore(0, map[]);
      this.agreementUri := agreementUri;
      this.datasetUri := datasetUri;
      this.gen0StewardshipSignatures := map[];
      this.stewardshipToken := StewardshipToken(stewardshipFa2, 0);
      this.threshold := threshold;
      this.metadata := map["" := contractMetadata];
    }

    /** `create_proposal`: stored under the old `next_proposal_id`, unsigned and
        unresolved, in the current generation; `reserve` is not stored. */
    method CreateProposal(world: World, ctx: Context, content: ProposalContent, reserve: map<Bytes, Bytes>)
      returns (r: Result<seq<Operation>>)
      requires Valid()
      modifies this
      ensures Valid()
      ensures var check := old(CreateProposalCheck(Snapshot(), world, ctx, content));
        && r.Ok? == check.Ok?
        && (r.Err? ==> r.code == check.code && Snapshot() == old(Snapshot()))
      ensures r.Ok? ==>
                && r.value == []
                && old(proposal.nextProposalId) !in old(proposal.proposals)
                && Snapshot() == old(Snapshot()).(proposal := ProposalStore(
                     old(proposal.nextProposalId) + 1,
                     old(proposal.proposals)[old(proposal.nextProposalId) :=
                       Proposal({}, false, ctx.sender, ctx.now, old(info.generation), content)]))
    {
      var s := Snapshot();
      var check := CreateProposalCheck(s, world, ctx, content);
      if check.Err? {
        return Err(check.code);
      }
      var id := s.proposal.nextProposalId;
      var p := Proposal({}, false, ctx.sender, ctx.now, s.info.generation, content);
      NewProposalKeeps(s, p);
      Store(s.(proposal := ProposalStore(id + 1, s.proposal.proposals[id := p])));
      r := Ok([]);
    }

    /** `sign_proposal`: the sender joins the proposal's approvals. */
    method SignProposal(world: World, ctx: Context, id: nat) returns (r: Result<seq<Operation>>)
      requires Valid()
      modifies this
      ensures Valid()
      ensures var check := old(SignProposalCheck(Snapshot(), world, ctx, id));
        && r.Ok? == check.Ok?
        && (r.Err? ==> r.code == check.code && Snapshot() == old(Snapshot()))
      ensures r.Ok? ==>
                && r.value == []
                && var p := old(proposal.proposals[id]);
                && Snapshot() == old(Snapshot()).(proposal := old(proposal).(proposals :=
                     old(proposal.proposals)[id := p.(approved := p.approved + {ctx.sender})]))
                && |proposal.proposals[id].approved| == |p.approved| + 1
    {
      var s := Snapshot();
      var check := SignProposalCheck(s, world, ctx, id);
      if check.Err? {
        return Err(check.code);
      }
      var p := s.proposal.proposals[id];
      ProposalUpdateKeeps(s, id, p.(approved := p.approved + {ctx.sender}));
      Store(s.(proposal := s.proposal.(proposals := s.proposal.proposals[id := p.(approved := p.approved + {ctx.sender})])));
      r := Ok([]);
    }

    /** `resolve_proposal`: after the checks, the proposal is executed. */
    method ResolveProposal(world: World, ctx: Context, id: nat) returns (r: Result<seq<Operation>>)
      requires Valid()
      modifies this
      ensures Valid()
      ensures var check := old(ResolveProposalCheck(Snapshot(), world, ctx, id));
        && r.Ok? == check.Ok?
        && (r.Err? ==> r.code == check.code && Snapshot() == old(Snapshot()))
      ensures r.Ok? ==> (Snapshot(), r.value) == Execute(old(Snapshot()), id) && proposal.proposals[id].isResolved
    {
      var check := ResolveProposalCheck(Snapshot(), world, ctx, id);
      if check.Err? {
        return Err(check.code);
      }
      var ops := ExecuteProposal(id);
      r := Ok(ops);
    }

    /** `execute_proposal`: the proposal's content takes effect and the
        proposal is marked resolved. */
    method ExecuteProposal(id: nat) returns (ops: seq<Operation>)
      requires Valid() && id in proposal.proposals
      modifies this
      ensures Valid()
      ensures (Snapshot(), ops) == Execute(old(Snapshot()), id)
    {
      var p := proposal.proposals[id];
      ExecuteKeeps(Snapshot(), id);
      match p.content {
        case TransferTez(to, amount) =>
          ops := [SendTez(to, amount)];
        case UpdateAgreementUri(uri) =>
          agreementUri := uri;
          ops := [];
        case UpdateDatasetUri(uri) =>
          datasetUri := uri;
          ops := [];
        case UpdateThreshold(t) =>
          threshold := t;
          ops := [];
        case UpdateGenerationDurationMinute(m) =>
          info := info.(generationDurationMinute := m);
          ops := [];
        case UpdateMetadata(k, v) =>
          metadata := metadata[k := v];
          ops := [];
        case LambdaOps(operations) =>
          ops := operations;
      }
      proposal := proposal.(proposals := proposal.proposals[id := p.(isResolved := true)]);
    }

    /** `create_event`: the event token is created on the event ledger with
        this contract as minter, and the event is recorded under the old
        `next_event_id` and pushed on the front of `event_id_list`. */
    method CreateEvent(world: World, ctx: Context, name: Bytes, description: Bytes, edition: Option<nat>)
      returns (r: Result<seq<Operation>>)
      requires Valid()
      modifies this
      ensures Valid()
      ensures var s := old(Snapshot());
        var tokenId := world.getNextEventTokenId(s.event.eventTokenFa2);
        var tokenInfo := world.genEventToken(s.addresses.tokenMetadataGenerator, EventTokenRequest(s, self, name, description));
        && (r.Ok? <==> CreateEventCheck(s, world, ctx).Ok? && tokenId.Answer? && tokenInfo.Answer?)
        && (CreateEventCheck(s, world, ctx).Err? ==> r == Err(CreateEventCheck(s, world, ctx).code))
        && (CreateEventCheck(s, world, ctx).Ok? && tokenId.NoAnswer? ==> r == Err("open get_next_event_token_id view Error"))
        && (CreateEventCheck(s, world, ctx).Ok? && tokenId.Failed? ==> r == Err(tokenId.code))
        && (CreateEventCheck(s, world, ctx).Ok? && tokenId.Answer? && tokenInfo.NoAnswer? ==>
              r == Err("open gen_event_token view Error"))
        && (CreateEventCheck(s, world, ctx).Ok? && tokenId.Answer? && tokenInfo.Failed? ==> r == Err(tokenInfo.code))
        && (r.Err? ==> Snapshot() == s)
        && (r.Ok? ==>
              && r.value == [CreateToken(s.event.eventTokenFa2, [CreateTokenRequest(false, self, tokenInfo.value)])]
              && s.event.nextEventId !in s.event.events
              && Snapshot() == s.(event := s.event.(
                   nextEventId := s.event.nextEventId + 1,
                   eventIdList := [s.event.nextEventId] + s.event.eventIdList,
                   events := s.event.events[s.event.nextEventId :=
                     Event({}, false, ctx.sender, ctx.now, s.info.generation, tokenId.value, edition, map[])])))
    {
      var s := Snapshot();
      var check := CreateEventCheck(s, world, ctx);
      if check.Err? {
        return Err(check.code);
      }
      var tokenId := Open(world.getNextEventTokenId(s.event.eventTokenFa2), "open get_next_event_token_id view Error");
      if tokenId.Err? {
        return Err(tokenId.code);
      }
      var tokenInfo := Open(world.genEventToken(s.addresses.tokenMetadataGenerator, EventTokenRequest(s, self, name, description)),
                            "open gen_event_token view Error");
      if tokenInfo.Err? {
        return Err(tokenInfo.code);
      }
      var create := CreateToken(s.event.eventTokenFa2, [CreateTokenRequest(false, self, tokenInfo.value)]);
      var id := s.event.nextEventId;
      var e := Event({}, false, ctx.sender, ctx.now, s.info.generation, tokenId.value, edition, map[]);
      NewEventKeeps(s, e);
      Store(s.(event := s.event.(nextEventId := id + 1, eventIdList := [id] + s.event.eventIdList,
                                 events := s.event.events[id := e])));
      r := Ok([create]);
    }

    /** `claim_event`: one event token is minted to the sender, whose signature
        is recorded; a limited edition loses one. */
    method ClaimEvent(world: World, ctx: Context, publicKey: Key, signature: Signature, id: nat)
      returns (r: Result<seq<Operation>>)
      requires Valid()
      modifies this
      ensures Valid()
      ensures var check := old(ClaimEventCheck(Snapshot(), world, ctx, publicKey, signature, id));
        && r.Ok? == check.Ok?
        && (r.Err? ==> r.code == check.code && Snapshot() == old(Snapshot()))
      ensures r.Ok? ==>
                && r.value == [Mint(old(event.eventTokenFa2), [MintRequest(ctx.sender, 1, old(event.events[id].tokenId))])]
                && Snapshot() == Claimed(old(Snapshot()), id, ctx.sender, signature)
    {
      var s := Snapshot();
      var check := ClaimEventCheck(s, world, ctx, publicKey, signature, id);
      if check.Err? {
        return Err(check.code);
      }
      var e := s.event.events[id];
      var claimed := e.(amount := AfterClaim(e.amount), claims := e.claims[ctx.sender := signature]);
      EventUpdateKeeps(s, id, claimed);
      var mint := Mint(s.event.eventTokenFa2, [MintRequest(ctx.sender, 1, e.tokenId)]);
      Store(s.(event := s.event.(events := s.event.events[id := claimed])));
      r := Ok([mint]);
    }

    /** `approve_event`: the sender joins the event's approvals. */
    method ApproveEvent(world: World, ctx: Context, id: nat) returns (r: Result<seq<Operation>>)
      requires Valid()
      modifies this
      ensures Valid()
      ensures var check := old(ApproveEventCheck(Snapshot(), world, ctx, id));
        && r.Ok? == check.Ok?
        && (r.Err? ==> r.code == check.code && Snapshot() == old(Snapshot()))
      ensures r.Ok? ==>
                && r.value == []
                && var e := old(event.events[id]);
                && Snapshot() == old(Snapshot()).(event := old(event).(events :=
                     old(event.events)[id := e.(approved := e.approved + {ctx.sender})]))
                && |event.events[id].approved| == |e.approved| + 1
    {
      var s := Snapshot();
      var check := ApproveEventCheck(s, world, ctx, id);
      if check.Err? {
        return Err(check.code);
      }
      var e := s.event.events[id];
      EventUpdateKeeps(s, id, e.(approved := e.approved + {ctx.sender}));
      Store(s.(event := s.event.(events := s.event.events[id := e.(approved := e.approved + {ctx.sender})])));
      r := Ok([]);
    }

    /** `create_gen0_stewardship`: the factory's one call after origination;
        the stewardship token id comes from the stewardship ledger's counter. */
    method CreateGen0Stewardship(world: World, ctx: Context) returns (r: Result<seq<Operation>>)
      requires Valid()
      modifies this
      ensures Valid()
      ensures var s := old(Snapshot());
        var tokenId := world.getNextStewardshipTokenId(s.stewardshipToken.fa2);
        var tokenInfo := world.genStewardshipToken(s.addresses.tokenMetadataGenerator, Gen0StewardshipRequest(s, self));
        && (r.Ok? <==> CreateGen0Check(s, ctx).Ok? && tokenId.Answer? && tokenInfo.Answer?)
        && (CreateGen0Check(s, ctx).Err? ==> r == Err(CreateGen0Check(s, ctx).code))
        && (CreateGen0Check(s, ctx).Ok? && tokenId.NoAnswer? ==>
              r == Err("open get_next_stewardship_token_id view Error"))
        && (CreateGen0Check(s, ctx).Ok? && tokenId.Failed? ==> r == Err(tokenId.code))
        && (CreateGen0Check(s, ctx).Ok? && tokenId.Answer? && tokenInfo.NoAnswer? ==>
              r == Err("open gen_stewardship_token view Error"))
        && (CreateGen0Check(s, ctx).Ok? && tokenId.Answer? && tokenInfo.Failed? ==> r == Err(tokenInfo.code))
        && (r.Err? ==> Snapshot() == s)
        && (r.Ok? ==>
              && r.value == [CreateToken(s.stewardshipToken.fa2, [CreateTokenRequest(true, self, tokenInfo.value)])]
              && Snapshot() == s.(stewardshipToken := s.stewardshipToken.(id := tokenId.value)))
      ensures r.Ok? && stewardshipToken.id != 0 ==> forall c: Context :: CreateGen0Check(Snapshot(), c).Err?
    {
      var check := CreateGen0Check(Snapshot(), ctx);
      if check.Err? {
        return Err(check.code);
      }
      var tokenId := Open(world.getNextStewardshipTokenId(stewardshipToken.fa2), "open get_next_stewardship_token_id view Error");
      if tokenId.Err? {
        return Err(tokenId.code);
      }
      var tokenInfo := Open(world.genStewardshipToken(addresses.tokenMetadataGenerator, Gen0StewardshipRequest(Snapshot(), self)),
                            "open gen_stewardship_token view Error");
      if tokenInfo.Err? {
        return Err(tokenInfo.code);
      }
      stewardshipToken := stewardshipToken.(id := tokenId.value);
      r := Ok([CreateToken(stewardshipToken.fa2, [CreateTokenRequest(true, self, tokenInfo.value)])]);
    }

    /** `claim_gen0_stewardship`: one stewardship token is minted to the
        sender, whose signature is recorded. */
    method ClaimGen0Stewardship(world: World, ctx: Context, publicKey: Key, signature: Signature)
      returns (r: Result<seq<Operation>>)
      requires Valid()
      modifies this
      ensures Valid()
      ensures var check := old(ClaimGen0Check(Snapshot(), world, ctx, publicKey, signature));
        && r.Ok? == check.Ok?
        && (r.Err? ==> r.code == check.code && Snapshot() == old(Snapshot()))
      ensures r.Ok? ==>
                && r.value == [Mint(old(stewardshipToken.fa2), [MintRequest(ctx.sender, 1, old(stewardshipToken.id))])]
                && Snapshot() == old(Snapshot()).(gen0StewardshipSignatures :=
                     old(gen0StewardshipSignatures)[ctx.sender := signature])
      ensures r.Ok? ==> forall w: World, c: Context, k: Key, sig: Signature
                          | c.sender == ctx.sender :: ClaimGen0Check(Snapshot(), w, c, k, sig).Err?
    {
      var check := ClaimGen0Check(Snapshot(), world, ctx, publicKey, signature);
      if check.Err? {
        return Err(check.code);
      }
      var mint := Mint(stewardshipToken.fa2, [MintRequest(ctx.sender, 1, stewardshipToken.id)]);
      gen0StewardshipSignatures := gen0StewardshipSignatures[ctx.sender := signature];
      r := Ok([mint]);
    }

    /** `activate`: generation 0 becomes generation 1, for `generation_duration_minute` from now. */
    method Activate(world: World, ctx: Context) returns (r: Result<seq<Operation>>)
      requires Valid()
      modifies this
      ensures Valid()
      ensures var check := old(ActivateCheck(Snapshot(), world, ctx));
        && r.Ok? == check.Ok?
        && (r.Err? ==> r.code == check.code && Snapshot() == old(Snapshot()))
      ensures r.Ok? ==>
                && r.value == []
                && Snapshot() == old(Snapshot()).(
                     info := old(info).(generation := 1),
                     timestamp := old(timestamp).(generationStartTime := ctx.now,
                                                  generationEndTime := AddMinutes(ctx.now, old(info.generationDurationMinute))))
    {
      var check := ActivateCheck(Snapshot(), world, ctx);
      if check.Err? {
        return Err(check.code);
      }
      timestamp := timestamp.(generationStartTime := ctx.now);
      timestamp := timestamp.(generationEndTime := AddMinutes(ctx.now, info.generationDurationMinute));
      info := info.(generation := 1);
      r := Ok([]);
    }

    /** `reactivate`: tally the listed events, and unless too few addresses
        gained weight, create the next generation's stewardship token, mint it
        to the weighted holders (through the event ledger's `mint`), start the
        next generation and clear the event list. */
    method Reactivate(world: World, ctx: Context) returns (r: Result<seq<Operation>>)
      requires Valid()
      modifies this
      ensures Valid()
      ensures var s := old(Snapshot());
        var t := TallyFrom(s, world, s.event.eventIdList, Tally(map[], {}));
        var tokenId := world.getNextStewardshipTokenId(s.stewardshipToken.fa2);
        var tokenInfo := world.genStewardshipToken(s.addresses.tokenMetadataGenerator, NextStewardshipRequest(s, self));
        && (r.Ok? <==> && ReactivateCheck(s, ctx).Ok? && t.Ok? && |t.value.weights| >= s.threshold.minimumCount
                       && tokenId.Answer? && tokenInfo.Answer?)
        && (ReactivateCheck(s, ctx).Err? ==> r == Err(ReactivateCheck(s, ctx).code))
        && (ReactivateCheck(s, ctx).Ok? && t.Err? ==> r == Err(t.code))
        && (ReactivateCheck(s, ctx).Ok? && t.Ok? && |t.value.weights| < s.threshold.minimumCount ==>
              r == Err("NEW_ST_HOLDER_COUNT_INSUFFICIENT"))
        && (ReactivateCheck(s, ctx).Ok? && t.Ok? && |t.value.weights| >= s.threshold.minimumCount ==>
              && (tokenId.NoAnswer? ==> r == Err("open get_next_stewardship_token_id view Error"))
              && (tokenId.Failed? ==> r == Err(tokenId.code))
              && (tokenId.Answer? && tokenInfo.NoAnswer? ==> r == Err("open gen_stewardship_token view Error"))
              && (tokenId.Answer? && tokenInfo.Failed? ==> r == Err(tokenInfo.code)))
        && (r.Err? ==> Snapshot() == s)
        && (r.Ok? ==>
              && |r.value| == 2
              && r.value[0] == CreateToken(s.stewardshipToken.fa2, [CreateTokenRequest(true, self, tokenInfo.value)])
              && r.value[1].Mint? && r.value[1].fa2 == s.event.eventTokenFa2
              && IsMintList(r.value[1].requests, t.value.weights, tokenId.value)
              && Snapshot() == s.(
                   info := s.info.(generation := s.info.generation + 1),
                   timestamp := s.timestamp.(generationStartTime := ctx.now,
                                             generationEndTime := AddMinutes(ctx.now, s.info.generationDurationMinute)),
                   event := s.event.(eventIdList := [], events := MarkPassed(s.event.events, t.value.passed)),
                   stewardshipToken := s.stewardshipToken.(id := tokenId.value)))
    {
      var check := ReactivateCheck(Snapshot(), ctx);
      if check.Err? {
        return Err(check.code);
      }
      var tally := TallyEvents(Snapshot(), world);
      if tally.Err? {
        return Err(tally.code);
      }
      if |tally.value.weights| < threshold.minimumCount {
        return Err("NEW_ST_HOLDER_COUNT_INSUFFICIENT");
      }
      var tokenId := Open(world.getNextStewardshipTokenId(stewardshipToken.fa2), "open get_next_stewardship_token_id view Error");
      if tokenId.Err? {
        return Err(tokenId.code);
      }
      var tokenInfo := Open(world.genStewardshipToken(addresses.tokenMetadataGenerator, NextStewardshipRequest(Snapshot(), self)),
                            "open gen_stewardship_token view Error");
      if tokenInfo.Err? {
        return Err(tokenInfo.code);
      }
      var ops := StartNextGeneration(ctx, tally.value, tokenId.value, tokenInfo.value);
      r := Ok(ops);
    }

    /** The successful end of `reactivate`, once the tally and both views are in. */
    method StartNextGeneration(ctx: Context, tally: Tally, tokenId: nat, tokenInfo: TokenInfo)
      returns (ops: seq<Operation>)
      requires Valid()
      modifies this
      ensures Valid()
      ensures var s := old(Snapshot());
        && |ops| == 2
        && ops[0] == CreateToken(s.stewardshipToken.fa2, [CreateTokenRequest(true, self, tokenInfo)])
        && ops[1].Mint? && ops[1].fa2 == s.event.eventTokenFa2
        && IsMintList(ops[1].requests, tally.weights, tokenId)
        && Snapshot() == s.(
             info := s.info.(generation := s.info.generation + 1),
             timestamp := s.timestamp.(generationStartTime := ctx.now,
                                       generationEndTime := AddMinutes(ctx.now, s.info.generationDurationMinute)),
             event := s.event.(eventIdList := [], events := MarkPassed(s.event.events, tally.passed)),
             stewardshipToken := s.stewardshipToken.(id := tokenId))
    {
      var s := Snapshot();
      var create := CreateToken(s.stewardshipToken.fa2, [CreateTokenRequest(true, self, tokenInfo)]);
      var mintList := BuildMintList(tally.weights, tokenId);
      var mint := Mint(s.event.eventTokenFa2, mintList);
      Store(s.(info := s.info.(generation := s.info.generation + 1),
               timestamp := s.timestamp.(generationStartTime := ctx.now,
                                         generationEndTime := AddMinutes(ctx.now, s.info.generationDurationMinute)),
               event := s.event.(eventIdList := [], events := MarkPassed(s.event.events, tally.passed)),
               stewardshipToken := s.stewardshipToken.(id := tokenId)));
      ops := [create, mint];
    }
  }
}
