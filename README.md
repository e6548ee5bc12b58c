# A Dafny model of the DID MultiSig DAO contracts

This project models the on-chain core of a Tezos DAO written in SmartPy. It has
four contracts.

- **`MultiSig`**: one organisation's governance contract (module `Governance`,
  class `Governance.MultiSig`).
  - Members are the holders of the current generation's stewardship token.
  - Members create, sign and resolve proposals. A proposal moves tez, changes a
    URI, the quorum threshold, the generation length or a metadata key, or runs
    a lambda's operations.
  - Members create and approve events. Anyone who signed the agreement can
    claim one token of an event.
  - Generation 0 is a claiming window. `activate` starts generation 1.
  - `reactivate` closes a generation. It tallies the events that reached
    quorum, mints the next generation's stewardship token to the holders of
    those events' tokens (weighted by the number of passed events they hold),
    and starts the next generation.
- **The FA2 ledger** (TZIP-12 multi-token, module `Fa2`, class `Fa2.Ledger`).
  - Tokens can be defined only by a multisig the factory vouches for.
  - Stewardship ids and event ids come from two counters, starting at 1 and
    at 100001. Nothing keeps them apart: once 100000 stewardship tokens exist,
    the stewardship counter reaches 100001. The next stewardship `create_token`
    then overwrites event token 100001's metadata and minter and empties its
    holder set, while that token's balances stay. The model does the same.
    `Fa2.CreateAllDefines` and `Fa2.CreateAllKeeps` are stated only while the
    two counters' ranges stay apart.
  - Each token has a minter and a holder set.
  - Minting an (address, token) pair is allowed only once.
  - Transfers are allowed only to the burn address, under one of the four
    transfer policies: `NoTransfer`, `OwnerTransfer`,
    `OwnerOrOperatorTransfer`, and the `PauseTransfer` decoration.
- **The signing-payload generator** (module `Payload`). `gen_payload(params)`
  is the byte string 05 01, then a length field, then `params`. While
  `2 * |params| < 16^8`, the field is the four big-endian bytes of
  `2 * |params|`. With a nine-digit length the view aborts
  (`Payload.NineDigitLengthAborts`). From `16^9` on, the field has five or
  more bytes. This is what a wallet signs when it signs the
  agreement URI. The loops that build the length field from hex-digit tables
  are kept as loops, proved against a reference definition.
- **The token-metadata generator** (module `TokenMetadata`, class
  `TokenMetadata.Generator`). It builds a token's metadata map by copying a
  stored base map and overwriting its name, creators and, for event tokens,
  description.

Shared Michelson notions are in module `Tezos`:
- bytes, `Result` for a call that may abort with a failure message;
- `View` for the answer of an on-chain view, which is an answer, no answer, or
  the failure the view itself aborted with;
- `Operation` for the calls an entry point emits.

## How the model works

- Every entry point that changes storage is a method of its contract's class.
  It returns `Result`: `Ok` with the emitted operations, or `Err` with the
  failure message.
- SmartPy reverts all storage changes when a call aborts. So every method
  promises that on `Err` the storage is unchanged, and states the whole new
  storage on `Ok`.
- The multisig keeps its storage record as fields of `Governance.MultiSig`.
  `Snapshot()` reads them as one `Governance.Storage` value. The entry points
  that rewrite a nested record (`create_proposal`, `sign_proposal`,
  `create_event`, `claim_event`, `approve_event` and the end of `reactivate`)
  build the record the source's assignments produce. They write it back with
  `Store`. `Governance.MultiSig.ExecuteProposal`, `Activate`,
  `CreateGen0Stewardship` and `ClaimGen0Stewardship` assign the fields
  directly.
- The order of a call's checks is modelled on pure functions over a storage
  snapshot (`Governance.CreateProposalCheck`, `Fa2.TransferAll`, ...). Each
  method's `ensures` ties the method to its function. The interesting
  properties are lemmas about those functions.
- These loops of the source are loops in the model, each proved against a
  recursive reference definition:
  - `transfer`, `mint`, `create_token` and `update_operators` in the ledger;
  - the tally and mint-list loops of `reactivate`;
  - the three loops of `gen_payload`.

  Two loops are not. The loop of `check_member` is a quantifier in
  `Governance.CheckMember`. The `map` of `balance_of_batch` is the recursive
  function `Fa2.Ledger.BalanceOfBatch`.
- **What a contract call learns from the rest of the chain is an input.**
  - `Governance.World` carries each view the multisig calls, as a function of
    the target address and the parameter. It also carries
    `sp.check_signature`, and the implicit account of a key's hash.
  - `Governance.Context` carries `sp.sender`, `sp.amount` and `sp.now`.
  - `Governance.MembersAreStewardshipHolders` connects `check_member` to the
    ledger model. When the answering contract is a `Fa2.Ledger`, a member is
    exactly an address with a positive balance of the current stewardship
    token.

## Model

| member | source | states |
|---|---|---|
| Governance.PassesMonotone | smartpy/MultiSigWithFactory.py:317-319 | the quorum is monotone: more approvals or fewer holders never turn a passing vote into a failing one |
| Governance.FullApprovalPasses | smartpy/MultiSigWithFactory.py:317-334 | when minimum_count <= holders and ratio_number <= ratio_total, unanimous approval passes |
| Governance.CheckMember | smartpy/MultiSigWithFactory.py:308-311 | succeeds iff the get_balance_of view answers and every reported balance is positive; otherwise fails with the view-error or NO_OWNING_STEWARDSHIP_TOKEN message |
| Governance.CheckValidTime | smartpy/MultiSigWithFactory.py:313-315 | succeeds iff now < generation_end_time and generation > 0; OVER_GENERATION_END_TIME is checked first, then NOT_ACTIVATED_YET |
| Governance.CheckThreshold | smartpy/MultiSigWithFactory.py:317-319 | fails exactly when get_token_holders fails (with its code); otherwise answers approvals >= minimum_count and approvals * ratio_total >= holders * ratio_number |
| Governance.ValidateProposal | smartpy/MultiSigWithFactory.py:322-340 | transfer_tez is accepted iff its amount is positive (else CANNOT_SEND_ZERO_TEZ); update_threshold iff the holders view answers, minimum_count <= holders and ratio_number <= ratio_total; every other kind is accepted |
| Governance.AcceptedThresholdIsReachable | smartpy/MultiSigWithFactory.py:330-334 | a threshold that validate_proposal accepts is reached when every current holder approves |
| Governance.MembersAreStewardshipHolders | smartpy/MultiSigWithFactory.py:308-311 | with the FA2 ledger answering get_balance_of, check_member accepts exactly the holders of a positive balance of the defined current stewardship token |
| Governance.CreateProposalCheck | smartpy/MultiSigWithFactory.py:391-398 | accepted iff no tez is sent, the sender is a member, the generation window is open and the content validates |
| Governance.SignProposalCheck | smartpy/MultiSigWithFactory.py:409-419 | accepted iff zero tez, member, window open, the proposal exists, is unresolved, is of the current generation and the sender has not signed; a second signature fails PROPOSAL_APPROVED_ALREADY |
| Governance.ResolveProposalCheck | smartpy/MultiSigWithFactory.py:423-433 | accepted iff zero tez, window open, the proposal exists, is unresolved, is of the current generation and reaches the quorum; no membership check; a resolved proposal fails PROPOSAL_IS_RESOLVED |
| Governance.Execute | smartpy/MultiSigWithFactory.py:343-389 | execution marks the proposal resolved, keeps the proposal ids, the counter, the events, the stewardship token and the generation |
| Governance.ExecuteChangesOnlyTarget | smartpy/MultiSigWithFactory.py:343-389 | marks the proposal resolved; each kind of content changes only its own target (agreement_uri, dataset_uri, threshold, generation_duration_minute or one metadata key) and leaves the rest of the storage as it was; transfer_tez emits one send and lambda_ops its operations |
| Governance.ExecuteKeeps | smartpy/MultiSigWithFactory.py:343-389 | executing a proposal keeps every stored proposal and event id below its counter and every listed event id stored |
| Governance.ResolveAtMostOnce | smartpy/MultiSigWithFactory.py:423-435 | after a successful resolution every later resolution of the same proposal fails, with PROPOSAL_IS_RESOLVED whenever it gets past the tez and time checks |
| Governance.NewProposalKeeps | smartpy/MultiSigWithFactory.py:399-407 | the slot under next_proposal_id is free, and storing the new proposal there and bumping the counter keeps the ids consistent |
| Governance.NewEventKeeps | smartpy/MultiSigWithFactory.py:491-503 | the slot under next_event_id is free, and storing the event there, pushing its id on the list and bumping the counter keeps the ids consistent |
| Governance.CreateEventCheck | smartpy/MultiSigWithFactory.py:437-442 | accepted iff zero tez, the sender is a member and the window is open |
| Governance.ClaimEventCheck | smartpy/MultiSigWithFactory.py:505-523 | accepted iff zero tez, window open, the key is the sender's, the signature verifies over the payload of the agreement URI, the event exists, the sender has not claimed it, it is of the current generation and editions are not exhausted; a repeated claim with a valid signature fails CANNOT_CLAIM_TWICE; an exhausted edition Some(0) fails EVENT_EDITION_INSUFFICIENT once the earlier checks pass |
| Governance.LastEditionCloses | smartpy/MultiSigWithFactory.py:505-549 | after the claim of the last edition of a Some(1) event, every later claim fails, by any sender; another sender who passes the earlier checks gets EVENT_EDITION_INSUFFICIENT |
| Governance.AfterClaim | smartpy/MultiSigWithFactory.py:520-523 | a limited edition Some(n) with n >= 1 becomes Some(n - 1); an unlimited one stays None |
| Governance.ClaimEventOnce | smartpy/MultiSigWithFactory.py:505-549 | after a successful claim the signature is recorded, and every further claim of that event by the same sender fails, whatever its key, signature, views or time |
| Governance.ApproveEventCheck | smartpy/MultiSigWithFactory.py:551-560 | accepted iff zero tez, member, window open, the event exists, is of the current generation and the sender has not approved it |
| Governance.CreateGen0Check | smartpy/MultiSigWithFactory.py:564-572 | accepted iff zero tez, the sender is the factory, the generation is 0 and no stewardship token id is set yet; otherwise, once the other checks pass, it fails CREATE_ALREADY |
| Governance.ClaimGen0Check | smartpy/MultiSigWithFactory.py:618-631 | accepted iff zero tez, generation 0, now <= generation_end_time (inclusive), the key is the sender's, the signature verifies, and the sender has not claimed |
| Governance.ActivateCheck | smartpy/MultiSigWithFactory.py:659-669 | accepted iff zero tez, generation 0, now > generation_end_time and the stewardship holders are at least minimum_count |
| Governance.ReactivateCheck | smartpy/MultiSigWithFactory.py:676-682 | accepted iff zero tez, generation > 0 and now > generation_end_time |
| Governance.IsAlive | smartpy/MultiSigWithFactory.py:776-778 | is_alive holds exactly in the member window (check_valid_time passes) and at the end moment of an active generation |
| Governance.WindowsAreExclusive | smartpy/MultiSigWithFactory.py:313-315 | no moment admits both a member action and activate/reactivate; at now == end none of them is accepted; the generation-0 claim window and activate split time exactly; is_alive holds whenever the window is open, and also at now == end |
| Governance.TallyIsWeight | smartpy/MultiSigWithFactory.py:685-694 | the reactivate tally gives every address its reference weight: the number of listed events that pass the quorum and whose token it holds; it keeps exactly the addresses of positive weight and marks exactly the passing events |
| Governance.TallyWeightsPositive | smartpy/MultiSigWithFactory.py:685-694 | from an empty tally, every address kept in newStHolders has its reference weight, which is at least 1 |
| Governance.AddHolders | smartpy/MultiSigWithFactory.py:691-694 | the inner loop adds exactly one to the weight of each holder of a passed event, starting from 0 for a new address |
| Governance.TallyFrom | smartpy/MultiSigWithFactory.py:685-694 | the reference tally only adds: addresses already weighted stay weighted, marked events stay marked, and every newly marked id is one of the listed ids |
| Governance.TallyEvents | smartpy/MultiSigWithFactory.py:685-694 | the loop over event_id_list computes the reference tally, and fails with the first failing lookup or view |
| Governance.BuildMintList | smartpy/MultiSigWithFactory.py:743-751 | one mint entry per weighted holder, with its weight as amount and the new stewardship id, and nothing else |
| Governance.MarkPassed | smartpy/MultiSigWithFactory.py:688-689 | sets passed on exactly the events the tally marked, and keeps every other event as it was |
| Governance.MultiSig.constructor | smartpy/MultiSigWithFactory.py:128-175 | the origination storage: generation 0, a claiming window of the factory's gen0 duration from now, no proposals, no events, stewardship id 0 |
| Governance.MultiSig.CreateProposal | smartpy/MultiSigWithFactory.py:391-407 | fails exactly when its checks fail (with their code, storage unchanged); otherwise stores an unsigned, unresolved proposal of the current generation under the old next_proposal_id, which was free, and increments it by one; nothing else changes and reserve is not stored |
| Governance.MultiSig.SignProposal | smartpy/MultiSigWithFactory.py:409-421 | on success the sender is added to the proposal's approvals, which grow by exactly one; nothing else changes |
| Governance.MultiSig.ResolveProposal | smartpy/MultiSigWithFactory.py:423-435 | on success the new storage and operations are those of Execute, so the proposal is resolved |
| Governance.MultiSig.ExecuteProposal | smartpy/MultiSigWithFactory.py:343-389 | the in-place execution of a proposal's content yields exactly the storage and operations of Execute, and keeps the ids consistent |
| Governance.MultiSig.CreateEvent | smartpy/MultiSigWithFactory.py:437-503 | fails with the check's code or the view-error message of the first view that does not answer; on success emits one create_token of a non-stewardship token minted by this contract, records the event under the old next_event_id, pushes that id on the front of event_id_list and increments the counter |
| Governance.MultiSig.ClaimEvent | smartpy/MultiSigWithFactory.py:505-549 | on success emits a mint of one event token to the sender and records the signature, consuming one edition of a limited event |
| Governance.MultiSig.ApproveEvent | smartpy/MultiSigWithFactory.py:551-562 | on success the sender is added to the event's approvals, which grow by exactly one; nothing else changes |
| Governance.MultiSig.CreateGen0Stewardship | smartpy/MultiSigWithFactory.py:564-616 | on success stores the ledger's next stewardship id and emits a create_token of a stewardship token whose metadata the generator made for generation 1; once that id is nonzero no further call is accepted |
| Governance.MultiSig.ClaimGen0Stewardship | smartpy/MultiSigWithFactory.py:618-657 | on success emits a mint of one stewardship token to the sender and records the signature; the same sender can never claim again |
| Governance.MultiSig.Activate | smartpy/MultiSigWithFactory.py:659-674 | on success generation 0 becomes 1, starting now and ending generation_duration_minute minutes later |
| Governance.MultiSig.Reactivate | smartpy/MultiSigWithFactory.py:676-773 | fails with the time checks, the tally's failure, NEW_ST_HOLDER_COUNT_INSUFFICIENT when fewer than minimum_count addresses gained weight, or a view error, leaving storage unchanged; on success emits the next stewardship token's create_token and a mint of the weighted holders, marks the passed events, and starts the next generation with an empty event list |
| Governance.MultiSig.StartNextGeneration | smartpy/MultiSigWithFactory.py:699-773 | the successful end of reactivate: the new stewardship id, the two emitted operations, the passed flags, the next generation's window and the emptied event list |
| Fa2.CheckTxTransferPermissions | smartpy/tokenFA2.py:61-159 | a tx passes iff the pause decoration is not paused and, where transfers are supported, the sender is the owner or, where operators are supported, a registered operator; the failure is the pause pair, FA2_NOT_OPERATOR or FA2_NOT_OWNER |
| Fa2.CheckOperatorUpdatePermissions | smartpy/tokenFA2.py:61-166 | an operator update passes iff the pause decoration is not paused and, where operators are supported, the sender owns the permission; the failure is the pause pair or FA2_NOT_OWNER |
| Fa2.IsOperator | smartpy/tokenFA2.py:61-169 | is_operator holds iff the policy supports operators and the permission is registered |
| Fa2.Ledger.IsOperatorView | smartpy/tokenFA2.py:300-305 | the off-chain view answers true iff the ledger's policy supports operators and the permission is registered |
| Fa2.TransferNeedsOwnerOrOperator | smartpy/tokenFA2.py:61-159 | under a policy that supports transfers, a permitted tx is by its owner or by an operator registered for that owner and token; without operator support only the owner |
| Fa2.OperatorUpdateNeedsOwner | smartpy/tokenFA2.py:98-166 | under a policy that supports operators, only the owner can change its operator entries |
| Fa2.PauseIsTransparent | smartpy/tokenFA2.py:128-169 | the pause decoration rejects transfers and operator updates while paused, delegates unchanged otherwise, and never changes is_operator nor the supported features |
| Fa2.TransferTx | smartpy/tokenFA2.py:382-392 | fails FA2_INSUFFICIENT_BALANCE on underflow; otherwise moves the amount from sender to receiver (the sum of the two is conserved), touches no other balance, and removes the sender from the holder set exactly when a positive amount empties its balance |
| Fa2.TransferStep | smartpy/tokenFA2.py:279-291 | one tx fails FA2_TOKEN_UNDEFINED for an undefined token and FA2_TX_DENIED for a receiver other than the burn address once permitted; an accepted tx is permitted, on a defined token, to the burn address, and moves nothing when its amount is 0 |
| Fa2.TransferAll | smartpy/tokenFA2.py:271-291 | a policy without transfers refuses every call with FA2_TX_DENIED, even an empty one; with transfers, an empty call changes nothing |
| Fa2.AcceptedTransferIsBurns | smartpy/tokenFA2.py:271-291 | every tx of every batch of an accepted transfer call goes to the burn address, on a defined token, by its batch's owner or one of its operators |
| Fa2.ZeroTransferChangesNothing | smartpy/tokenFA2.py:271-291 | an accepted transfer call whose txs all have amount 0 returns the balances unchanged |
| Fa2.TransferCallOnlyShrinksHolders | smartpy/tokenFA2.py:271-291 | an accepted transfer call never adds an address to a holder set and keeps the set of token ids |
| Fa2.AcceptedTxsAreBurns | smartpy/tokenFA2.py:279-291 | every tx of an accepted transfer goes to the burn address, on a defined token, by the owner or one of its operators |
| Fa2.ZeroAmountsChangeNothing | smartpy/tokenFA2.py:288-289 | an accepted batch of zero-amount txs changes no balance and no holder set |
| Fa2.TransfersOnlyShrinkHolders | smartpy/tokenFA2.py:382-392 | a transfer never adds an address to a holder set |
| Fa2.TransferOne | smartpy/tokenFA2.py:280-289 | the body of the tx loop makes the checks in order and computes the reference step |
| Fa2.TransferStepKeepsValid | smartpy/tokenFA2.py:280-289 | one accepted tx keeps the ledger invariant |
| Fa2.TransferOneBatch | smartpy/tokenFA2.py:280-289 | the inner loop over one batch's txs computes the reference result, makes its checks in order (defined, permission, burn address), and keeps the ledger invariant |
| Fa2.MintOne | smartpy/tokenFA2.py:545-550 | fails FA2_NOT_MINTER unless the sender is the token's minter and FA2_CANNOT_MINT_TWICE when the pair already has an entry, even a zero one; on success sets the balance to the amount and adds the address to the holders |
| Fa2.MintBatch | smartpy/tokenFA2.py:545-550 | the loop over a mint batch computes the reference mint, failing with the first failing request, and keeps the ledger invariant |
| Fa2.MintKeepsBalances | smartpy/tokenFA2.py:545-550 | an accepted mint never changes an existing ledger entry, and none of its pairs had one |
| Fa2.MintPairsDistinct | smartpy/tokenFA2.py:545-550 | an accepted mint batch names each (address, token id) pair at most once, so a batch that repeats a pair anywhere, with any amounts, is refused |
| Fa2.MintAll | smartpy/tokenFA2.py:545-550 | an accepted mint keeps every existing ledger key, and every request in it came from its token's minter and now has a ledger entry |
| Fa2.MintOneKeepsValid | smartpy/tokenFA2.py:545-550 | a mint keeps the ledger invariant: ledger entries are of defined tokens and every holder has an entry |
| Fa2.UpdateOperatorsSpec | smartpy/tokenFA2.py:242-257 | refused with FA2_OPERATORS_UNSUPPORTED when the policy has no operators; an accepted update changes only permissions the sender owns |
| Fa2.OperatorUpdatesTouchOnlyOwn | smartpy/tokenFA2.py:243-257 | an accepted update_operators changes only entries the sender owns; a single add_operator inserts and a single remove_operator deletes exactly its permission |
| Fa2.CreateOne | smartpy/tokenFA2.py:514-528 | a stewardship request takes next_stewardship_token_id and an event request next_event_token_id; that id gets metadata, minter and an empty holder set, and only the counter used moves, by one |
| Fa2.CreateAll | smartpy/tokenFA2.py:514-528 | over a batch the two counters never decrease and every defined token stays defined |
| Fa2.CreateAllCounters | smartpy/tokenFA2.py:514-528 | over a batch, each counter grows by the number of requests of its kind |
| Fa2.CreateAllDefines | smartpy/tokenFA2.py:514-528 | the i-th request of a batch defines the id its counter gave it, with its metadata, its minter and no holders, while the two counters' ranges do not meet |
| Fa2.CreateAllKeeps | smartpy/tokenFA2.py:514-528 | ids outside the ranges a batch hands out keep their metadata, minter and holders |
| Fa2.CreateOneKeepsValid | smartpy/tokenFA2.py:514-528 | defining a token keeps the ledger invariant |
| Fa2.Ledger.constructor | smartpy/tokenFA2.py:337-352 | an empty ledger with the burn address, the factory address of the deployment, next_stewardship_token_id 1 and next_event_token_id 100001 |
| Fa2.Ledger.Balance | smartpy/tokenFA2.py:374-376 | fails FA2_TOKEN_UNDEFINED exactly for an undefined token; otherwise the ledger entry, 0 when there is none |
| Fa2.Ledger.BalanceOfBatch | smartpy/tokenFA2.py:226-238 | fails iff some request names an undefined token; otherwise one response per request, in request order, echoing the request with its balance |
| Fa2.Ledger.GetTokenHolders | smartpy/tokenFA2.py:477-479 | answers iff the token has a holder set; every holder it reports has a ledger entry |
| Fa2.Ledger.UpdateOperators | smartpy/tokenFA2.py:242-257 | fails FA2_OPERATORS_UNSUPPORTED when the policy has no operators; otherwise applies the updates in order, each after its permission check, changing only the operators |
| Fa2.Ledger.Transfer | smartpy/tokenFA2.py:271-291 | fails FA2_TX_DENIED when the policy has no transfers; otherwise the new ledger and holders are those of the reference transfer of all batches in order, changing nothing else |
| Fa2.Ledger.Mint | smartpy/tokenFA2.py:531-550 | the new ledger and holders are those of the reference mint of the batch in order; nothing else changes; a failure leaves everything unchanged |
| Fa2.Ledger.CreateToken | smartpy/tokenFA2.py:499-528 | fails "open is_multisig view error" or FA2_NOT_ALLOWED_CREATOR unless the factory answers true; then the token registry becomes the reference creation of the batch, and balances, operators and admin fields are unchanged |
| Fa2.Ledger.DefineToken | smartpy/tokenFA2.py:515-528 | one create_token request updates the registry fields in place exactly as the reference CreateOne does, keeps the invariant, and touches no balance, operator or admin field |
| Fa2.Ledger.SetAdministrator | smartpy/tokenFA2.py:412-416 | only the administrator (else FA2_NOT_ADMIN); sets the administrator and nothing else |
| Fa2.Ledger.SetMetadata | smartpy/tokenFA2.py:425-429 | only the administrator; replaces the contract metadata and nothing else |
| Fa2.Ledger.UpdateFactory | smartpy/tokenFA2.py:566-569 | only the administrator; sets the factory address and nothing else |
| Fa2.Ledger.SetPause | smartpy/tokenFA2.py:151-155 | only the administrator; sets the paused flag and nothing else |
| Payload.NatToBytesString | smartpy/payloadGenerator.py:177-181 | the nat_to_bytes_string table maps each d < 16 to one lower-case hex character whose value is d |
| Payload.StringToBytes | smartpy/payloadGenerator.py:42-175 | the string_to_bytes table holds exactly the two-character lower-case hex strings |
| Payload.GenPayload | smartpy/payloadGenerator.py:14-34 | the view's result is the reference payload; it starts with 05 01 and ends with params; for 2 * len(params) < 16^8 it is 05 01, the four big-endian bytes of 2 * len(params), then params |
| Payload.EncodeLength | smartpy/payloadGenerator.py:19-30 | the digit loops followed by the pair loop give the reference length field: the zero-padded hex digits of x read two per byte |
| Payload.PayloadEnds | smartpy/payloadGenerator.py:17-34 | whatever the length field, an answered payload starts with 05 01 and ends with params |
| Payload.PaddedLengthDigits | smartpy/payloadGenerator.py:19-27 | after the two while loops the digit list has at least eight entries, each one hex character, spelling the hex digits of x most significant first, zero-padded to eight |
| Payload.LengthDigits | smartpy/payloadGenerator.py:19-25 | the first while loop (and the "0" pushed for zero) leaves the hex digits of x, most significant first, because push prepends |
| Payload.PadDigits | smartpy/payloadGenerator.py:26-27 | the padding loop prepends zeros up to eight digits |
| Payload.PairsToBytes | smartpy/payloadGenerator.py:29-30 | the for loop reads the digit string two characters per byte through the table, and aborts when a slice is cut short |
| Payload.ConcatDigitStrings | smartpy/payloadGenerator.py:29 | concatenating the one-character digit strings gives the digit characters |
| Payload.LengthField | smartpy/payloadGenerator.py:19-30 | for a length below 16^8 the field is the four big-endian bytes of the length |
| Payload.PayloadShape | smartpy/payloadGenerator.py:17-34 | below the bound the payload is prefix, four-byte length and params, six bytes longer than params |
| Payload.EmptyPayload | smartpy/payloadGenerator.py:21-30 | the payload of empty params is exactly 05 01 00 00 00 00 |
| Payload.BigEndianRoundTrip | smartpy/payloadGenerator.py:29-30 | reading back n big-endian bytes of x < 256^n gives x |
| Payload.DecodePayload | smartpy/payloadGenerator.py:17-34 | decoding a generated payload (check the prefix and length, drop six bytes) gives params back |
| Payload.PayloadInjective | smartpy/payloadGenerator.py:17-34 | below the bound, distinct params give distinct payloads |
| Payload.NineDigitLengthAborts | smartpy/payloadGenerator.py:23-30 | when 2 * len(params) has nine hex digits the digit string has odd length, the last slice fails and the view aborts |
| Payload.OddHexAborts | smartpy/payloadGenerator.py:29-30 | a digit string of odd length always aborts the pair loop |
| TokenMetadata.Generator.constructor | smartpy/tokenMetadataGenerator.py:17-24 | the storage is the five given maps |
| TokenMetadata.Generator.IsAdmin | smartpy/tokenMetadataGenerator.py:26-27 | succeeds iff the sender is the address stored under "admin"; NOT_ADMIN otherwise, or a missing-key failure when no admin is stored |
| TokenMetadata.Generator.UpdateMetadata | smartpy/tokenMetadataGenerator.py:33-36 | admin only; upserts exactly one metadata key and leaves the other maps unchanged |
| TokenMetadata.Generator.UpdateAddress | smartpy/tokenMetadataGenerator.py:38-41 | admin only; upserts exactly one address and leaves the other maps unchanged |
| TokenMetadata.Generator.UpdateStewardshipToken | smartpy/tokenMetadataGenerator.py:43-46 | admin only; upserts exactly one key of the stewardship base map |
| TokenMetadata.Generator.UpdateEventToken | smartpy/tokenMetadataGenerator.py:48-51 | admin only; upserts exactly one key of the event base map |
| TokenMetadata.Generator.UpdateOrders | smartpy/tokenMetadataGenerator.py:53-56 | admin only; upserts exactly one ordinal |
| TokenMetadata.Generator.GenStewardshipToken | smartpy/tokenMetadataGenerator.py:58-64 | fails iff the generation has no ordinal; otherwise the stored stewardship map with only "name" (the tag, the ordinal, "] " and the organisation name) and "creators" (the packed creator) overwritten |
| TokenMetadata.Generator.GenEventToken | smartpy/tokenMetadataGenerator.py:66-74 | fails iff the generation has no ordinal; otherwise the stored event map with only "name", "description" (the event description) and "creators" overwritten |
| TokenMetadata.StewardshipNameLayout | smartpy/tokenMetadataGenerator.py:62 | the stewardship name is the fixed tag, then the ordinal, then "] " and the organisation's name |
| TokenMetadata.StewardshipNamesDiffer | smartpy/tokenMetadataGenerator.py:62 | distinct ordinals of equal length give distinct names for the same organisation |

## Left out

- The `MultiSigFactory` contract (origination, the self-call that triggers `create_gen0_stewardship`, the registry setters) is not modelled. `Governance.MultiSig.constructor` takes the storage the factory originates as parameters, and the factory's `is_multisig` view is an input of `Fa2.Ledger.CreateToken`.
- Cryptography is uninterpreted. `sp.check_signature` and the implicit account of a key's hash are the `checkSignature` and `keyAddress` fields of `Governance.World`. `sp.pack` is the `pack` function a `TokenMetadata.Generator` is built with.
- Cross-contract calls are not executed. Views are inputs, and `sp.send`, `create_token` and `mint` calls become `Tezos.Operation` records.
  - The model does not cover the operations' later effect, a failure of the called entry point (which reverts the whole chain of calls), or the `sp.contract(...).open_some()` look-ups of entry points, which it assumes succeed.
  - That `reactivate` mints through `event_token_fa2` while it creates the token on `stewardship_token.fa2` is kept as written.
- Governance.MultiSig.ResolveProposal: a `lambda_ops` proposal is represented by the operation list its lambda returns. A lambda that fails when applied, and so makes the resolution fail, is not modelled.
- Governance.BuildMintList: the contract iterates the weight map in Michelson key order and prepends each entry. The model states which entries the list holds and how many, but not their order.
- Governance.MultiSig.StartNextGeneration: the mint list it emits is constrained as in `Governance.BuildMintList`, without its order.
- Governance.MultiSig.Reactivate: the mint list it emits is constrained as in `Governance.BuildMintList`, without its order.
- Governance.TallyEvents: the contract sets each passing event's `passed` flag inside the loop. The model collects the passing ids and `Governance.MarkPassed` sets the flags after the loop. The results agree: the loop never reads `passed`, and a later failure reverts every change.
- Lookups of a missing key in a SmartPy map abort with a built-in message that SmartPy generates. The model uses the single code `MISSING_KEY` for all of them.
- Tez amounts are natural numbers of mutez, with no bound. Timestamps and `add_minutes` use unbounded integer seconds, as Michelson does.
- `sp.utils.bytes_of_string` is modelled only for ASCII text (`Tezos.Ascii`), which covers every literal the contracts use.
- The `orders` table and the two base metadata maps of the generator are storage parameters. The hex tables of the payload generator are fixed to the ones the test originates (`Payload.NatToBytesString`, `Payload.StringToBytes`).
- `multisig_description` in the `gen_stewardship_token` request: the multisig sends this field, but the generator's view does not declare it. Whether the view then answers is a property of the chain, outside the model. `Governance.World` supplies the view's answer for the request exactly as the multisig sends it (`Governance.StewardshipRequest`).
- The `default` entry points (accepting tez, or bouncing it back) and the `get_all_user` view only forward a view's answer, and are not modelled.
- The `balance_of` entry point's callback transfer is not modelled. Its response list is `Fa2.Ledger.BalanceOfBatch`.
- `get_next_stewardship_token_id` and `get_next_event_token_id` read the two counter fields of `Fa2.Ledger` directly. Their behaviour is stated through `Fa2.CreateOne` and `Fa2.CreateAllCounters`.
- These FA2 parts are construction-time code or mixins outside this deployment's core, and are not modelled:
  - the initial mint before origination;
  - the contract-metadata file generation;
  - the `_withdraw_mutez` entry point;
  - the off-chain `token_metadata` view.
- The pause decoration fails with a pair of strings, `sp.pair("FA2_TX_DENIED", "FA2_PAUSED")` and `sp.pair("FA2_OPERATORS_UNSUPPORTED", "FA2_PAUSED")`. Failure values in the model are strings, so `Fa2.TX_PAUSED` and `Fa2.OPERATORS_PAUSED` write each pair as one string.
- The FA2 policy is a constructor parameter. The `set_pause` entry point is always present as `Fa2.Ledger.SetPause`, although the source adds it only to a pause-decorated policy.
- The test scenarios are not modelled.
