/** The FA2 (TZIP-12) fungible token ledger the organisation mints into: one
    contract holding many token ids, with two id counters (stewardship tokens
    and event tokens), a per-token minter and holder set, and a transfer policy
    chosen when the contract is built. In this deployment transfers may only go
    to the burn address. */
module Fa2 {
  import opened Tezos

  // ---------------------------------------------------------------------------
  // Transfer policies.
  // ---------------------------------------------------------------------------

  datatype OperatorPermission = OperatorPermission(owner: Address, operator: Address, tokenId: nat)

  /** The policy family: `PauseTransfer` decorates another policy with the
      contract's `paused` flag. */
  datatype Policy =
    | NoTransfer
    | OwnerTransfer
    | OwnerOrOperatorTransfer
    | PauseTransfer(inner: Policy)

  /** The pause decoration fails with a pair of strings; the model writes the
      pair as one string. */
  const TX_PAUSED := "(FA2_TX_DENIED, FA2_PAUSED)"
  const OPERATORS_PAUSED := "(FA2_OPERATORS_UNSUPPORTED, FA2_PAUSED)"

  predicate SupportsTransfer(p: Policy) {
    match p
    case NoTransfer => false
    case OwnerTransfer => true
    case OwnerOrOperatorTransfer => true
    case PauseTransfer(q) => SupportsTransfer(q)
  }

  predicate SupportsOperator(p: Policy) {
    match p
    case NoTransfer => false
    case OwnerTransfer => false
    case OwnerOrOperatorTransfer => true
    case PauseTransfer(q) => SupportsOperator(q)
  }

  /** `check_tx_transfer_permissions` */
  function CheckTxTransferPermissions(p: Policy, paused: bool, operators: set<OperatorPermission>,
                                      sender: Address, from: Address, to: Address, tokenId: nat): (r: Result<()>)
    ensures r.Ok? <==> && !(p.PauseTransfer? && paused)
                       && (SupportsTransfer(p) ==>
                             sender == from || (SupportsOperator(p) && OperatorPermission(from, sender, tokenId) in operators))
    ensures p.PauseTransfer? && paused ==> r == Err(TX_PAUSED)
    ensures r.Err? && !(p.PauseTransfer? && paused) ==>
              r.code == if SupportsOperator(p) then "FA2_NOT_OPERATOR" else "FA2_NOT_OWNER"
  {
    match p
    case NoTransfer => Ok(())
    case OwnerTransfer => Verify(sender == from, "FA2_NOT_OWNER")
    case OwnerOrOperatorTransfer =>
      Verify(sender == from || OperatorPermission(from, sender, tokenId) in operators, "FA2_NOT_OPERATOR")
    case PauseTransfer(q) =>
      if paused then Err(TX_PAUSED) else CheckTxTransferPermissions(q, paused, operators, sender, from, to, tokenId)
  }

  /** `check_operator_update_permissions` */
  function CheckOperatorUpdatePermissions(p: Policy, paused: bool, sender: Address,
                                          permission: OperatorPermission): (r: Result<()>)
    ensures r.Ok? <==> !(p.PauseTransfer? && paused) && (SupportsOperator(p) ==> permission.owner == sender)
    ensures p.PauseTransfer? && paused ==> r == Err(OPERATORS_PAUSED)
    ensures r.Err? && !(p.PauseTransfer? && paused) ==> r == Err("FA2_NOT_OWNER")
  {
    match p
    case NoTransfer => Ok(())
    case OwnerTransfer => Ok(())
    case OwnerOrOperatorTransfer => Verify(permission.owner == sender, "FA2_NOT_OWNER")
    case PauseTransfer(q) =>
      if paused then Err(OPERATORS_PAUSED) else CheckOperatorUpdatePermissions(q, paused, sender, permission)
  }

  /** `is_operator` */
  function IsOperator(p: Policy, operators: set<OperatorPermission>, permission: OperatorPermission): (r: bool)
    ensures r <==> SupportsOperator(p) && permission in operators
  {
    match p
    case NoTransfer => false
    case OwnerTransfer => false
    case OwnerOrOperatorTransfer => permission in operators
    case PauseTransfer(q) => IsOperator(q, operators, permission)
  }

  /** The policy with every pause decoration taken off. */
  function Unpaused(p: Policy): (q: Policy)
    ensures !q.PauseTransfer?
  {
    if p.PauseTransfer? then Unpaused(p.inner) else p
  }

  /** Only an owner, or an operator the owner registered for that token, can
      pass a policy's transfer check (a policy that supports transfers). */
  lemma {:induction false} TransferNeedsOwnerOrOperator(p: Policy, paused: bool, operators: set<OperatorPermission>,
                                                        sender: Address, from: Address, to: Address, tokenId: nat)
    requires SupportsTransfer(p)
    requires CheckTxTransferPermissions(p, paused, operators, sender, from, to, tokenId).Ok?
    ensures sender == from || OperatorPermission(from, sender, tokenId) in operators
    ensures !IsOperator(p, operators, OperatorPermission(from, sender, tokenId)) ==> sender == from
  {
    if p.PauseTransfer? {
      TransferNeedsOwnerOrOperator(p.inner, paused, operators, sender, from, to, tokenId);
    }
  }

  /** Where operators are supported, only the owner may change its operators. */
  lemma {:induction false} OperatorUpdateNeedsOwner(p: Policy, paused: bool, sender: Address, permission: OperatorPermission)
    requires SupportsOperator(p)
    requires CheckOperatorUpdatePermissions(p, paused, sender, permission).Ok?
    ensures permission.owner == sender
  {
    if p.PauseTransfer? {
      OperatorUpdateNeedsOwner(p.inner, paused, sender, permission);
    }
  }

  /** A pause decoration rejects everything while paused and is transparent
      otherwise; `is_operator` and the supported features never see it. */
  lemma {:induction false} PauseIsTransparent(p: Policy, paused: bool, operators: set<OperatorPermission>,
                                              sender: Address, from: Address, to: Address, tokenId: nat,
                                              permission: OperatorPermission)
    ensures IsOperator(p, operators, permission) == IsOperator(Unpaused(p), operators, permission)
    ensures SupportsTransfer(p) == SupportsTransfer(Unpaused(p))
    ensures SupportsOperator(p) == SupportsOperator(Unpaused(p))
    ensures !paused ==>
              CheckTxTransferPermissions(p, paused, operators, sender, from, to, tokenId)
              == CheckTxTransferPermissions(Unpaused(p), paused, operators, sender, from, to, tokenId)
    ensures !paused ==>
              CheckOperatorUpdatePermissions(p, paused, sender, permission)
              == CheckOperatorUpdatePermissions(Unpaused(p), paused, sender, permission)
    ensures paused && p.PauseTransfer? ==>
              CheckTxTransferPermissions(p, paused, operators, sender, from, to, tokenId) == Err(TX_PAUSED)
              && CheckOperatorUpdatePermissions(p, paused, sender, permission) == Err(OPERATORS_PAUSED)
  {
    if p.PauseTransfer? {
      PauseIsTransparent(p.inner, paused, operators, sender, from, to, tokenId, permission);
    }
  }

  // ---------------------------------------------------------------------------
  // Ledger values and the pure steps of the entry points.
  // ---------------------------------------------------------------------------

  type LedgerMap = map<(Address, nat), nat>

  /** `ledger.get(key, 0)` */
  function Get(ledger: LedgerMap, key: (Address, nat)): nat {
    if key in ledger then ledger[key] else 0
  }

  datatype TokenMetadata = TokenMetadata(tokenId: nat, tokenInfo: TokenInfo)

  datatype Tx = Tx(to: Address, tokenId: nat, amount: nat)
  datatype TransferBatch = TransferBatch(from: Address, txs: seq<Tx>)
  datatype OperatorUpdate = AddOperator(permission: OperatorPermission) | RemoveOperator(permission: OperatorPermission)

  /** The part of the storage a transfer or a mint changes. */
  datatype Balances = Balances(ledger: LedgerMap, holders: map<nat, set<Address>>)

  /** What a transfer reads and does not change. */
  datatype TransferRules = TransferRules(policy: Policy, paused: bool, operators: set<OperatorPermission>,
                                         defined: set<nat>, burnAddress: Address, sender: Address)

  /** `transfer_tx_`: debit the sender (aborting on underflow), drop it from the
      holder set when that empties its balance, credit the receiver. The
      receiver is not added to the holder set. */
  function TransferTx(b: Balances, from: Address, tx: Tx): (r: Result<Balances>)
    ensures var fk, tk := (from, tx.tokenId), (tx.to, tx.tokenId);
      && (r.Err? <==> Get(b.ledger, fk) < tx.amount
                      || (Get(b.ledger, fk) == tx.amount && tx.amount > 0 && tx.tokenId !in b.holders))
      && (Get(b.ledger, fk) < tx.amount ==> r == Err("FA2_INSUFFICIENT_BALANCE"))
      && (r.Ok? ==>
            && Get(r.value.ledger, fk) + Get(r.value.ledger, tk) == Get(b.ledger, fk) + Get(b.ledger, tk)
            && (from != tx.to ==> Get(r.value.ledger, fk) == Get(b.ledger, fk) - tx.amount
                                  && Get(r.value.ledger, tk) == Get(b.ledger, tk) + tx.amount)
            && r.value.ledger.Keys == b.ledger.Keys + {fk, tk}
            && (forall k :: k in b.ledger && k != fk && k != tk ==> r.value.ledger[k] == b.ledger[k])
            && r.value.holders.Keys == b.holders.Keys
            && (forall id :: id in b.holders && id != tx.tokenId ==> r.value.holders[id] == b.holders[id])
            && (tx.tokenId in b.holders ==>
                  r.value.holders[tx.tokenId]
                  == if tx.amount > 0 && Get(b.ledger, fk) == tx.amount then b.holders[tx.tokenId] - {from}
                     else b.holders[tx.tokenId]))
  {
    var fk := (from, tx.tokenId);
    if Get(b.ledger, fk) < tx.amount then Err("FA2_INSUFFICIENT_BALANCE")
    else
      var ledger := b.ledger[fk := Get(b.ledger, fk) - tx.amount];
      var emptied := ledger[fk] == 0 && tx.amount > 0;
      if emptied && tx.tokenId !in b.holders then Err(MISSING_KEY)
      else
        var holders := if emptied then b.holders[tx.tokenId := b.holders[tx.tokenId] - {from}] else b.holders;
        var tk := (tx.to, tx.tokenId);
        Ok(Balances(ledger[tk := Get(ledger, tk) + tx.amount], holders))
  }

  /** One tx of a batch, with the checks `transfer` makes in its stated order:
      token defined, policy permission, receiver is the burn address; a tx of
      amount 0 moves nothing. */
  function TransferStep(rules: TransferRules, b: Balances, from: Address, tx: Tx): (r: Result<Balances>)
    ensures tx.tokenId !in rules.defined ==> r == Err("FA2_TOKEN_UNDEFINED")
    ensures r.Ok? ==> && tx.to == rules.burnAddress && tx.tokenId in rules.defined
                      && CheckTxTransferPermissions(rules.policy, rules.paused, rules.operators, rules.sender,
                                                    from, tx.to, tx.tokenId).Ok?
    ensures r.Ok? && tx.amount == 0 ==> r.value == b
    ensures && tx.tokenId in rules.defined
            && CheckTxTransferPermissions(rules.policy, rules.paused, rules.operators, rules.sender,
                                          from, tx.to, tx.tokenId).Ok?
            && tx.to != rules.burnAddress
            ==> r == Err("FA2_TX_DENIED")
  {
    if tx.tokenId !in rules.defined then Err("FA2_TOKEN_UNDEFINED")
    else
      match CheckTxTransferPermissions(rules.policy, rules.paused, rules.operators, rules.sender, from, tx.to, tx.tokenId)
      case Err(e) => Err(e)
      case Ok(_) =>
        if tx.to != rules.burnAddress then Err("FA2_TX_DENIED")
        else if tx.amount > 0 then TransferTx(b, from, tx)
        else Ok(b)
  }

  function TransferTxs(rules: TransferRules, b: Balances, from: Address, txs: seq<Tx>): Result<Balances>
    decreases |txs|
  {
    if txs == [] then Ok(b)
    else
      match TransferStep(rules, b, from, txs[0])
      case Err(e) => Err(e)
      case Ok(b') => TransferTxs(rules, b', from, txs[1..])
  }

  function TransferBatches(rules: TransferRules, b: Balances, batches: seq<TransferBatch>): Result<Balances>
    decreases |batches|
  {
    if batches == [] then Ok(b)
    else
      match TransferTxs(rules, b, batches[0].from, batches[0].txs)
      case Err(e) => Err(e)
      case Ok(b') => TransferBatches(rules, b', batches[1..])
  }

  /** `transfer`: refused outright when the policy has no transfers. */
  function TransferAll(rules: TransferRules, b: Balances, batches: seq<TransferBatch>): (r: Result<Balances>)
    ensures !SupportsTransfer(rules.policy) ==> r == Err("FA2_TX_DENIED")
    ensures SupportsTransfer(rules.policy) && batches == [] ==> r == Ok(b)
  {
    if !SupportsTransfer(rules.policy) then Err("FA2_TX_DENIED") else TransferBatches(rules, b, batches)
  }

  /** Every tx of an accepted transfer is to the burn address, on a defined
      token, and by the owner or one of its operators. */
  lemma {:induction false} AcceptedTxsAreBurns(rules: TransferRules, b: Balances, from: Address, txs: seq<Tx>)
    requires SupportsTransfer(rules.policy)
    requires TransferTxs(rules, b, from, txs).Ok?
    ensures forall i :: 0 <= i < |txs| ==>
              && txs[i].to == rules.burnAddress
              && txs[i].tokenId in rules.defined
              && (rules.sender == from || OperatorPermission(from, rules.sender, txs[i].tokenId) in rules.operators)
    decreases |txs|
  {
    if txs != [] {
      var tx := txs[0];
      TransferNeedsOwnerOrOperator(rules.policy, rules.paused, rules.operators, rules.sender, from, tx.to, tx.tokenId);
      var b' := TransferStep(rules, b, from, tx).value;
      AcceptedTxsAreBurns(rules, b', from, txs[1..]);
    }
  }

  /** A batch whose every tx has amount 0 changes no balance. */
  lemma {:induction false} ZeroAmountsChangeNothing(rules: TransferRules, b: Balances, from: Address, txs: seq<Tx>)
    requires forall i :: 0 <= i < |txs| ==> txs[i].amount == 0
    requires TransferTxs(rules, b, from, txs).Ok?
    ensures TransferTxs(rules, b, from, txs) == Ok(b)
    decreases |txs|
  {
    if txs != [] {
      ZeroAmountsChangeNothing(rules, b, from, txs[1..]);
    }
  }

  /** A transfer never adds a holder. */
  lemma {:induction false} TransfersOnlyShrinkHolders(rules: TransferRules, b: Balances, from: Address, txs: seq<Tx>)
    requires TransferTxs(rules, b, from, txs).Ok?
    ensures var h := TransferTxs(rules, b, from, txs).value.holders;
      h.Keys == b.holders.Keys && forall id :: id in h ==> h[id] <= b.holders[id]
    decreases |txs|
  {
    if txs != [] {
      var b' := TransferStep(rules, b, from, txs[0]).value;
      TransfersOnlyShrinkHolders(rules, b', from, txs[1..]);
    }
  }

  /** Every tx of every batch of an accepted `transfer` call is to the burn
      address, on a defined token, and by its batch's owner or one of its
      operators. */
  lemma {:induction false} AcceptedTransferIsBurns(rules: TransferRules, b: Balances, batches: seq<TransferBatch>)
    requires TransferAll(rules, b, batches).Ok?
    ensures forall k, i :: 0 <= k < |batches| && 0 <= i < |batches[k].txs| ==>
              && batches[k].txs[i].to == rules.burnAddress
              && batches[k].txs[i].tokenId in rules.defined
              && (rules.sender == batches[k].from
                  || OperatorPermission(batches[k].from, rules.sender, batches[k].txs[i].tokenId) in rules.operators)
    decreases |batches|
  {
    if batches != [] {
      AcceptedTxsAreBurns(rules, b, batches[0].from, batches[0].txs);
      var b' := TransferTxs(rules, b, batches[0].from, batches[0].txs).value;
      AcceptedTransferIsBurns(rules, b', batches[1..]);
      forall k, i | 0 < k < |batches| && 0 <= i < |batches[k].txs|
        ensures batches[k].txs[i] == batches[1..][k - 1].txs[i]
      {
      }
    }
  }

  /** An accepted `transfer` call whose every tx has amount 0 changes no
      balance and no holder set. */
  lemma {:induction false} ZeroTransferChangesNothing(rules: TransferRules, b: Balances, batches: seq<TransferBatch>)
    requires forall k, i :: 0 <= k < |batches| && 0 <= i < |batches[k].txs| ==> batches[k].txs[i].amount == 0
    requires TransferAll(rules, b, batches).Ok?
    ensures TransferAll(rules, b, batches) == Ok(b)
    decreases |batches|
  {
    if batches != [] {
      ZeroAmountsChangeNothing(rules, b, batches[0].from, batches[0].txs);
      assert forall k, i :: 0 <= k < |batches[1..]| && 0 <= i < |batches[1..][k].txs| ==>
               batches[1..][k].txs[i] == batches[k + 1].txs[i];
      ZeroTransferChangesNothing(rules, b, batches[1..]);
    }
  }

  /** An accepted `transfer` call never adds a holder. */
  lemma {:induction false} TransferCallOnlyShrinksHolders(rules: TransferRules, b: Balances, batches: seq<TransferBatch>)
    requires TransferAll(rules, b, batches).Ok?
    ensures var h := TransferAll(rules, b, batches).value.holders;
      h.Keys == b.holders.Keys && forall id :: id in h ==> h[id] <= b.holders[id]
    decreases |batches|
  {
    if batches != [] {
      TransfersOnlyShrinkHolders(rules, b, batches[0].from, batches[0].txs);
      var b' := TransferTxs(rules, b, batches[0].from, batches[0].txs).value;
      TransferCallOnlyShrinksHolders(rules, b', batches[1..]);
    }
  }

  /** One mint request: only the token's minter, and never twice for the same
      (address, token id), even when the earlier mint was of amount 0. */
  function MintOne(minters: map<nat, Address>, b: Balances, sender: Address, req: MintRequest): (r: Result<Balances>)
    ensures var key := (req.address, req.tokenId);
      && (r.Ok? <==> req.tokenId in minters && sender == minters[req.tokenId] && key !in b.ledger
                     && req.tokenId in b.holders)
      && (req.tokenId in minters && sender != minters[req.tokenId] ==> r == Err("FA2_NOT_MINTER"))
      && (req.tokenId in minters && sender == minters[req.tokenId] && key in b.ledger ==> r == Err("FA2_CANNOT_MINT_TWICE"))
      && (r.Ok? ==> r.value.ledger == b.ledger[key := req.amount]
                    && r.value.holders == b.holders[req.tokenId := b.holders[req.tokenId] + {req.address}])
  {
    var key := (req.address, req.tokenId);
    if req.tokenId !in minters then Err(MISSING_KEY)
    else if sender != minters[req.tokenId] then Err("FA2_NOT_MINTER")
    else if key in b.ledger then Err("FA2_CANNOT_MINT_TWICE")
    else if req.tokenId !in b.holders then Err(MISSING_KEY)
    else Ok(Balances(b.ledger[key := req.amount], b.holders[req.tokenId := b.holders[req.tokenId] + {req.address}]))
  }

  function MintAll(minters: map<nat, Address>, b: Balances, sender: Address, batch: seq<MintRequest>)
    : (r: Result<Balances>)
    ensures r.Ok? ==> b.ledger.Keys <= r.value.ledger.Keys
    ensures r.Ok? ==> forall i :: 0 <= i < |batch| ==>
                        && batch[i].tokenId in minters && minters[batch[i].tokenId] == sender
                        && (batch[i].address, batch[i].tokenId) in r.value.ledger
    decreases |batch|
  {
    if batch == [] then Ok(b)
    else
      match MintOne(minters, b, sender, batch[0])
      case Err(e) => Err(e)
      case Ok(b') => MintAll(minters, b', sender, batch[1..])
  }

  /** A mint never changes an existing balance: it only adds entries. */
  lemma {:induction false} MintKeepsBalances(minters: map<nat, Address>, b: Balances, sender: Address, batch: seq<MintRequest>)
    requires MintAll(minters, b, sender, batch).Ok?
    ensures var l := MintAll(minters, b, sender, batch).value.ledger;
      b.ledger.Keys <= l.Keys && forall k :: k in b.ledger ==> l[k] == b.ledger[k]
    ensures forall i :: 0 <= i < |batch| ==> (batch[i].address, batch[i].tokenId) !in b.ledger
    decreases |batch|
  {
    if batch != [] {
      var b' := MintOne(minters, b, sender, batch[0]).value;
      MintKeepsBalances(minters, b', sender, batch[1..]);
    }
  }

  /** An accepted mint batch names each (address, token id) pair at most
      once: a batch repeating a pair, with any amounts and anywhere in the
      batch, is refused. */
  lemma {:induction false} MintPairsDistinct(minters: map<nat, Address>, b: Balances, sender: Address,
                                             batch: seq<MintRequest>)
    requires MintAll(minters, b, sender, batch).Ok?
    ensures forall i, j :: 0 <= i < j < |batch| ==>
              (batch[i].address, batch[i].tokenId) != (batch[j].address, batch[j].tokenId)
    decreases |batch|
  {
    if batch != [] {
      var b' := MintOne(minters, b, sender, batch[0]).value;
      MintKeepsBalances(minters, b', sender, batch[1..]);
      MintPairsDistinct(minters, b', sender, batch[1..]);
      forall i, j | 0 <= i < j < |batch|
        ensures (batch[i].address, batch[i].tokenId) != (batch[j].address, batch[j].tokenId)
      {
        assert batch[j] == batch[1..][j - 1];
        if i > 0 {
          assert batch[i] == batch[1..][i - 1];
        }
      }
    }
  }

  function ApplyOperatorUpdates(p: Policy, paused: bool, sender: Address, operators: set<OperatorPermission>,
                                batch: seq<OperatorUpdate>): Result<set<OperatorPermission>>
    decreases |batch|
  {
    if batch == [] then Ok(operators)
    else
      match CheckOperatorUpdatePermissions(p, paused, sender, batch[0].permission)
      case Err(e) => Err(e)
      case Ok(_) =>
        var next := match batch[0]
          case AddOperator(q) => operators + {q}
          case RemoveOperator(q) => operators - {q};
        ApplyOperatorUpdates(p, paused, sender, next, batch[1..])
  }

  /** `update_operators`: refused outright when the policy has no operators. */
  function UpdateOperatorsSpec(p: Policy, paused: bool, sender: Address, operators: set<OperatorPermission>,
                               batch: seq<OperatorUpdate>): (r: Result<set<OperatorPermission>>)
    ensures !SupportsOperator(p) ==> r == Err("FA2_OPERATORS_UNSUPPORTED")
    ensures r.Ok? ==> forall q :: (q in r.value) != (q in operators) ==> q.owner == sender
  {
    if !SupportsOperator(p) then Err("FA2_OPERATORS_UNSUPPORTED")
    else if ApplyOperatorUpdates(p, paused, sender, operators, batch).Err? then
      ApplyOperatorUpdates(p, paused, sender, operators, batch)
    else
      OperatorUpdatesTouchOnlyOwn(p, paused, sender, operators, batch);
      ApplyOperatorUpdates(p, paused, sender, operators, batch)
  }

  /** An accepted operator update changes only permissions the sender owns:
      `add_operator` inserts and `remove_operator` deletes exactly its key. */
  lemma {:induction false} OperatorUpdatesTouchOnlyOwn(p: Policy, paused: bool, sender: Address,
                                                       operators: set<OperatorPermission>, batch: seq<OperatorUpdate>)
    requires SupportsOperator(p)
    requires ApplyOperatorUpdates(p, paused, sender, operators, batch).Ok?
    ensures var result := ApplyOperatorUpdates(p, paused, sender, operators, batch).value;
      forall q :: (q in result) != (q in operators) ==> q.owner == sender
    ensures var result := ApplyOperatorUpdates(p, paused, sender, operators, batch).value;
      |batch| == 1 ==> result == if batch[0].AddOperator? then operators + {batch[0].permission}
                                 else operators - {batch[0].permission}
    decreases |batch|
  {
    if batch != [] {
      OperatorUpdateNeedsOwner(p, paused, sender, batch[0].permission);
      var next := match batch[0]
        case AddOperator(q) => operators + {q}
        case RemoveOperator(q) => operators - {q};
      OperatorUpdatesTouchOnlyOwn(p, paused, sender, next, batch[1..]);
    }
  }

  /** The token-definition part of the storage `create_token` changes. */
  datatype Registry = Registry(tokenMetadata: map<nat, TokenMetadata>, tokenMinter: map<nat, Address>,
                               tokenHolders: map<nat, set<Address>>, nextStewardshipTokenId: nat,
                               nextEventTokenId: nat)

  /** One `create_token` request: the id comes from the stewardship counter or
      from the event counter, and only that counter moves. */
  function CreateOne(reg: Registry, req: CreateTokenRequest): (r: Registry)
    ensures var id := if req.isStewardship then reg.nextStewardshipTokenId else reg.nextEventTokenId;
      && r.tokenMetadata == reg.tokenMetadata[id := TokenMetadata(id, req.tokenInfo)]
      && r.tokenMinter == reg.tokenMinter[id := req.minter]
      && r.tokenHolders == reg.tokenHolders[id := {}]
      && r.nextStewardshipTokenId == reg.nextStewardshipTokenId + (if req.isStewardship then 1 else 0)
      && r.nextEventTokenId == reg.nextEventTokenId + (if req.isStewardship then 0 else 1)
  {
    if req.isStewardship then
      var id := reg.nextStewardshipTokenId;
      reg.(tokenMetadata := reg.tokenMetadata[id := TokenMetadata(id, req.tokenInfo)],
           tokenMinter := reg.tokenMinter[id := req.minter],
           tokenHolders := reg.tokenHolders[id := {}],
           nextStewardshipTokenId := id + 1)
    else
      var id := reg.nextEventTokenId;
      reg.(tokenMetadata := reg.tokenMetadata[id := TokenMetadata(id, req.tokenInfo)],
           tokenMinter := reg.tokenMinter[id := req.minter],
           tokenHolders := reg.tokenHolders[id := {}],
           nextEventTokenId := id + 1)
  }

  function CreateAll(reg: Registry, batch: seq<CreateTokenRequest>): (r: Registry)
    ensures reg.nextStewardshipTokenId <= r.nextStewardshipTokenId && reg.nextEventTokenId <= r.nextEventTokenId
    ensures reg.tokenMetadata.Keys <= r.tokenMetadata.Keys
    decreases |batch|
  {
    if batch == [] then reg else CreateAll(CreateOne(reg, batch[0]), batch[1..])
  }

  function CountStewardship(batch: seq<CreateTokenRequest>): nat {
    if batch == [] then 0 else (if batch[0].isStewardship then 1 else 0) + CountStewardship(batch[1..])
  }

  /** Each counter grows by the number of requests of its kind. */
  lemma {:induction false} CreateAllCounters(reg: Registry, batch: seq<CreateTokenRequest>)
    ensures CreateAll(reg, batch).nextStewardshipTokenId == reg.nextStewardshipTokenId + CountStewardship(batch)
    ensures CreateAll(reg, batch).nextEventTokenId == reg.nextEventTokenId + (|batch| - CountStewardship(batch))
    ensures CountStewardship(batch) <= |batch|
    decreases |batch|
  {
    if batch != [] {
      CreateAllCounters(CreateOne(reg, batch[0]), batch[1..]);
    }
  }

  /** The ids a batch assigns are defined afterwards, each with its request's
      metadata and minter and an empty holder set, as long as the two counters'
      ranges do not meet. */
  lemma {:induction false} CreateAllDefines(reg: Registry, batch: seq<CreateTokenRequest>, i: nat)
    requires i < |batch|
    requires reg.nextStewardshipTokenId + |batch| <= reg.nextEventTokenId
    ensures var id := if batch[i].isStewardship then reg.nextStewardshipTokenId + CountStewardship(batch[..i])
                      else reg.nextEventTokenId + (i - CountStewardship(batch[..i]));
      var r := CreateAll(reg, batch);
      && id in r.tokenMetadata && r.tokenMetadata[id] == TokenMetadata(id, batch[i].tokenInfo)
      && id in r.tokenMinter && r.tokenMinter[id] == batch[i].minter
      && id in r.tokenHolders && r.tokenHolders[id] == {}
    decreases i
  {
    var reg' := CreateOne(reg, batch[0]);

    if i == 0 {
      assert batch[..0] == [];
      CreateAllKeeps(reg', batch[1..], if batch[0].isStewardship then reg.nextStewardshipTokenId else reg.nextEventTokenId);
    } else {
      CreateAllDefines(reg', batch[1..], i - 1);
      CountPrefix(batch, i);
    }
  }

  lemma CountPrefix(batch: seq<CreateTokenRequest>, i: nat)
    requires 0 < i <= |batch|
    ensures CountStewardship(batch[..i])
            == (if batch[0].isStewardship then 1 else 0) + CountStewardship(batch[1..][..i - 1])
  {
    assert batch[1..][..i - 1] == batch[..i][1..];
  }

  /** An id below the stewardship counter, or between the two counters, or
      below the event counter but above the stewardship range, is not reassigned. */
  lemma {:induction false} CreateAllKeeps(reg: Registry, batch: seq<CreateTokenRequest>, id: nat)
    requires reg.nextStewardshipTokenId + |batch| <= reg.nextEventTokenId
    requires id < reg.nextStewardshipTokenId || (id >= reg.nextStewardshipTokenId + |batch| && id < reg.nextEventTokenId)
    requires id in reg.tokenMetadata && id in reg.tokenMinter && id in reg.tokenHolders
    ensures var r := CreateAll(reg, batch);
      && id in r.tokenMetadata && r.tokenMetadata[id] == reg.tokenMetadata[id]
      && id in r.tokenMinter && r.tokenMinter[id] == reg.tokenMinter[id]
      && id in r.tokenHolders && r.tokenHolders[id] == reg.tokenHolders[id]
    decreases |batch|
  {
    if batch != [] {
      CreateAllKeeps(CreateOne(reg, batch[0]), batch[1..], id);
    }
  }

  // ---------------------------------------------------------------------------
  // The contract (FungibleWithMint) and its entry points.
  // ---------------------------------------------------------------------------

  const BURN_ADDRESS: Address := "tz1burnburnburnburnburnburnburjAYjjX"

  /** The factory address the ledger is originated with, before `_update_factory`. */
  const INITIAL_FACTORY: Address := "tz1UikAq5Po4wefKL4WkzAHqmCDVnUC1AKAS"

  class Ledger {
    const policy: Policy
    const burnAddress: Address
    var ledger: LedgerMap
    var tokenMetadata: map<nat, TokenMetadata>
    var tokenHolders: map<nat, set<Address>>
    var tokenMinter: map<nat, Address>
    var factory: Address
    var nextStewardshipTokenId: nat
    var nextEventTokenId: nat
    var operators: set<OperatorPermission>
    var paused: bool
    var administrator: Address
    var metadata: map<string, Bytes>

    /** Every defined token has a minter and a holder set; every ledger entry is
        of a defined token; every holder has a ledger entry. */
    ghost predicate Valid()
      reads this
    {
      ValidRegistry(Tokens(), ledger)
    }

    /** The storage right after origination with no initial mint. */
    constructor (policy: Policy, administrator: Address, metadata: map<string, Bytes>)
      ensures Valid()
      ensures this.policy == policy && this.administrator == administrator && factory == INITIAL_FACTORY
      ensures this.metadata == metadata && burnAddress == BURN_ADDRESS
      ensures ledger == map[] && tokenMetadata == map[] && tokenHolders == map[] && tokenMinter == map[]
      ensures nextStewardshipTokenId == 1 && nextEventTokenId == 100001
      ensures operators == {} && !paused
    {
      this.policy := policy;
      this.burnAddress := BURN_ADDRESS;
      this.ledger := map[];
      this.tokenMetadata := map[];
      this.tokenHolders := map[];
      this.tokenMinter := map[];
      this.factory := INITIAL_FACTORY;
      this.nextStewardshipTokenId := 1;
      this.nextEventTokenId := 100001;
      this.operators := {};
      this.paused := false;
      this.administrator := administrator;
      this.metadata := metadata;
    }

    function Holdings(): Balances
      reads this
    {
      Balances(ledger, tokenHolders)
    }

    function Rules(sender: Address): TransferRules
      reads this
    {
      TransferRules(policy, paused, operators, tokenMetadata.Keys, burnAddress, sender)
    }

    function Tokens(): Registry
      reads this
    {
      Registry(tokenMetadata, tokenMinter, tokenHolders, nextStewardshipTokenId, nextEventTokenId)
    }

    // --- views ---

    /** `balance_`: 0 for a defined token the owner has no entry for. */
    function Balance(owner: Address, tokenId: nat): (r: Result<nat>)
      reads this
      ensures r.Ok? <==> tokenId in tokenMetadata
      ensures r.Err? ==> r.code == "FA2_TOKEN_UNDEFINED"
      ensures r.Ok? ==> r.value == Get(ledger, (owner, tokenId))
      ensures r.Ok? && (owner, tokenId) !in ledger ==> r.value == 0
    {
      if tokenId !in tokenMetadata then Err("FA2_TOKEN_UNDEFINED") else Ok(Get(ledger, (owner, tokenId)))
    }

    /** `balance_of_batch` (answered by the `get_balance_of` view): one response
        per request, in request order, each echoing its request. */
    function BalanceOfBatch(requests: seq<BalanceRequest>): (r: Result<seq<BalanceResponse>>)
      reads this
      ensures r.Ok? <==> forall i :: 0 <= i < |requests| ==> requests[i].tokenId in tokenMetadata
      ensures r.Err? ==> r.code == "FA2_TOKEN_UNDEFINED"
      ensures r.Ok? ==> |r.value| == |requests|
                        && forall i :: 0 <= i < |requests| ==>
                             r.value[i] == BalanceResponse(requests[i], Get(ledger, (requests[i].owner, requests[i].tokenId)))
      decreases |requests|
    {
      if requests == [] then Ok([])
      else
        match Balance(requests[0].owner, requests[0].tokenId)
        case Err(e) => Err(e)
        case Ok(v) =>
          match BalanceOfBatch(requests[1..])
          case Err(e) => Err(e)
          case Ok(rest) => Ok([BalanceResponse(requests[0], v)] + rest)
    }

    /** `get_token_holders`: every holder it reports has a ledger entry. */
    function GetTokenHolders(tokenId: nat): (r: Result<set<Address>>)
      reads this
      ensures r.Ok? <==> tokenId in tokenHolders
      ensures r.Err? ==> r.code == MISSING_KEY
      ensures Valid() && r.Ok? ==> forall a :: a in r.value ==> (a, tokenId) in ledger
    {
      if tokenId !in tokenHolders then Err(MISSING_KEY) else Ok(tokenHolders[tokenId])
    }

    /** The off-chain `is_operator` view. */
    function IsOperatorView(permission: OperatorPermission): (r: bool)
      reads this
      ensures r <==> SupportsOperator(policy) && permission in operators
    {
      IsOperator(policy, operators, permission)
    }

    predicate IsAdministrator(sender: Address)
      reads this
    {
      sender == administrator
    }

    // --- entry points ---

    /** `update_operators` */
    method UpdateOperators(sender: Address, batch: seq<OperatorUpdate>) returns (r: Result<()>)
      requires Valid()
      modifies this
      ensures Valid()
      ensures var spec := old(UpdateOperatorsSpec(policy, paused, sender, operators, batch));
        && r.Ok? == spec.Ok?
        && (r.Err? ==> r.code == spec.code && operators == old(operators))
        && (r.Ok? ==> operators == spec.value)
      ensures ledger == old(ledger) && tokenHolders == old(tokenHolders) && tokenMetadata == old(tokenMetadata)
      ensures tokenMinter == old(tokenMinter) && paused == old(paused) && administrator == old(administrator)
      ensures factory == old(factory) && metadata == old(metadata)
      ensures nextStewardshipTokenId == old(nextStewardshipTokenId) && nextEventTokenId == old(nextEventTokenId)
    {
      if !SupportsOperator(policy) {
        return Err("FA2_OPERATORS_UNSUPPORTED");
      }
      var ops := operators;
      var i := 0;
      while i < |batch|
        invariant 0 <= i <= |batch|
        invariant ApplyOperatorUpdates(policy, paused, sender, operators, batch)
                  == ApplyOperatorUpdates(policy, paused, sender, ops, batch[i..])
      {
        assert batch[i..][1..] == batch[i + 1..];
        var check := CheckOperatorUpdatePermissions(policy, paused, sender, batch[i].permission);
        if check.Err? {
          return Err(check.code);
        }
        match batch[i] {
          case AddOperator(q) =>
            ops := ops + {q};
          case RemoveOperator(q) =>
            ops := ops - {q};
        }
        i := i + 1;
      }
      assert batch[i..] == [];
      operators := ops;
      r := Ok(());
    }

    /** `transfer` */
    method Transfer(sender: Address, batch: seq<TransferBatch>) returns (r: Result<()>)
      requires Valid()
      modifies this
      ensures Valid()
      ensures var spec := old(TransferAll(Rules(sender), Holdings(), batch));
        && r.Ok? == spec.Ok?
        && (r.Err? ==> r.code == spec.code && ledger == old(ledger) && tokenHolders == old(tokenHolders))
        && (r.Ok? ==> ledger == spec.value.ledger && tokenHolders == spec.value.holders)
      ensures operators == old(operators) && tokenMetadata == old(tokenMetadata) && tokenMinter == old(tokenMinter)
      ensures paused == old(paused) && administrator == old(administrator) && factory == old(factory)
      ensures metadata == old(metadata)
      ensures nextStewardshipTokenId == old(nextStewardshipTokenId) && nextEventTokenId == old(nextEventTokenId)
    {
      if !SupportsTransfer(policy) {
        return Err("FA2_TX_DENIED");
      }
      var rules := Rules(sender);
      var b := Holdings();
      var i := 0;
      while i < |batch|
        invariant 0 <= i <= |batch|
        invariant unchanged(this)
        invariant ValidBalances(b, tokenMetadata.Keys)
        invariant TransferBatches(rules, old(Holdings()), batch) == TransferBatches(rules, b, batch[i..])
      {
        assert batch[i..][1..] == batch[i + 1..];
        var step := TransferOneBatch(rules, b, batch[i].from, batch[i].txs);
        if step.Err? {
          return Err(step.code);
        }
        b := step.value;
        i := i + 1;
      }
      assert batch[i..] == [];
      ledger := b.ledger;
      tokenHolders := b.holders;
      r := Ok(());
    }

    /** `mint`: every request must come from the token's minter and must not
        mint an (address, token id) pair twice. */
    method Mint(sender: Address, batch: seq<MintRequest>) returns (r: Result<()>)
      requires Valid()
      modifies this
      ensures Valid()
      ensures var spec := old(MintAll(tokenMinter, Holdings(), sender, batch));
        && r.Ok? == spec.Ok?
        && (r.Err? ==> r.code == spec.code && ledger == old(ledger) && tokenHolders == old(tokenHolders))
        && (r.Ok? ==> ledger == spec.value.ledger && tokenHolders == spec.value.holders)
      ensures operators == old(operators) && tokenMetadata == old(tokenMetadata) && tokenMinter == old(tokenMinter)
      ensures paused == old(paused) && administrator == old(administrator) && factory == old(factory)
      ensures metadata == old(metadata)
      ensures nextStewardshipTokenId == old(nextStewardshipTokenId) && nextEventTokenId == old(nextEventTokenId)
    {
      var minted := MintBatch(tokenMinter, Holdings(), tokenMetadata.Keys, sender, batch);
      if minted.Err? {
        return Err(minted.code);
      }
      ledger := minted.value.ledger;
      tokenHolders := minted.value.holders;
      r := Ok(());
    }

    /** `create_token`: only a multisig registered with the factory may define
        tokens. `isMultisig` is the factory's `is_multisig` view for the sender. */
    method CreateToken(sender: Address, isMultisig: View<bool>, batch: seq<CreateTokenRequest>) returns (r: Result<()>)
      requires Valid()
      modifies this
      ensures Valid()
      ensures r.Ok? <==> isMultisig == Answer(true)
      ensures isMultisig.NoAnswer? ==> r == Err("open is_multisig view error")
      ensures isMultisig.Failed? ==> r == Err(isMultisig.code)
      ensures isMultisig == Answer(false) ==> r == Err("FA2_NOT_ALLOWED_CREATOR")
      ensures Tokens() == if r.Ok? then CreateAll(old(Tokens()), batch) else old(Tokens())
      ensures ledger == old(ledger) && operators == old(operators) && paused == old(paused)
      ensures administrator == old(administrator) && factory == old(factory) && metadata == old(metadata)
    {
      var allowed := Open(isMultisig, "open is_multisig view error");
      if allowed.Err? {
        return Err(allowed.code);
      }
      if !allowed.value {
        return Err("FA2_NOT_ALLOWED_CREATOR");
      }
      var i := 0;
      while i < |batch|
        invariant 0 <= i <= |batch|
        invariant ValidRegistry(Tokens(), ledger)
        invariant CreateAll(old(Tokens()), batch) == CreateAll(Tokens(), batch[i..])
        invariant unchanged(this`ledger, this`operators, this`paused, this`administrator, this`factory, this`metadata)
      {
        assert batch[i..][1..] == batch[i + 1..];
        DefineToken(batch[i]);
        i := i + 1;
      }
      assert batch[i..] == [];
      r := Ok(());
    }

    /** One request of `create_token`: the token takes the next id of its kind,
        with its metadata, its minter and no holders. */
    method DefineToken(action: CreateTokenRequest)
      requires Valid()
      modifies this
      ensures Valid()
      ensures Tokens() == CreateOne(old(Tokens()), action)
      ensures ledger == old(ledger) && operators == old(operators) && paused == old(paused)
      ensures administrator == old(administrator) && factory == old(factory) && metadata == old(metadata)
    {
      CreateOneKeepsValid(Tokens(), ledger, action);
      SetTokens(CreateOne(Tokens(), action));
    }

    /** Writes a token registry value back to its fields. */
    method SetTokens(reg: Registry)
      modifies this
      ensures Tokens() == reg
      ensures ledger == old(ledger) && operators == old(operators) && paused == old(paused)
      ensures administrator == old(administrator) && factory == old(factory) && metadata == old(metadata)
    {
      tokenMetadata, tokenMinter, tokenHolders := reg.tokenMetadata, reg.tokenMinter, reg.tokenHolders;
      nextStewardshipTokenId, nextEventTokenId := reg.nextStewardshipTokenId, reg.nextEventTokenId;
    }

    /** `_set_administrator` */
    method SetAdministrator(sender: Address, a: Address) returns (r: Result<()>)
      requires Valid()
      modifies this
      ensures Valid()
      ensures r.Ok? <==> old(IsAdministrator(sender))
      ensures r.Err? ==> r.code == "FA2_NOT_ADMIN"
      ensures administrator == if r.Ok? then a else old(administrator)
      ensures Tokens() == old(Tokens()) && Holdings() == old(Holdings())
      ensures operators == old(operators) && paused == old(paused) && factory == old(factory) && metadata == old(metadata)
    {
      if !IsAdministrator(sender) {
        return Err("FA2_NOT_ADMIN");
      }
      administrator := a;
      r := Ok(());
    }

    /** `_set_metadata` */
    method SetMetadata(sender: Address, m: map<string, Bytes>) returns (r: Result<()>)
      requires Valid()
      modifies this
      ensures Valid()
      ensures r.Ok? <==> old(IsAdministrator(sender))
      ensures r.Err? ==> r.code == "FA2_NOT_ADMIN"
      ensures metadata == if r.Ok? then m else old(metadata)
      ensures Tokens() == old(Tokens()) && Holdings() == old(Holdings())
      ensures operators == old(operators) && paused == old(paused) && factory == old(factory)
      ensures administrator == old(administrator)
    {
      if !IsAdministrator(sender) {
        return Err("FA2_NOT_ADMIN");
      }
      metadata := m;
      r := Ok(());
    }

    /** `_update_factory` */
    method UpdateFactory(sender: Address, f: Address) returns (r: Result<()>)
      requires Valid()
      modifies this
      ensures Valid()
      ensures r.Ok? <==> old(IsAdministrator(sender))
      ensures r.Err? ==> r.code == "FA2_NOT_ADMIN"
      ensures factory == if r.Ok? then f else old(factory)
      ensures Tokens() == old(Tokens()) && Holdings() == old(Holdings())
      ensures operators == old(operators) && paused == old(paused) && metadata == old(metadata)
      ensures administrator == old(administrator)
    {
      if !IsAdministrator(sender) {
        return Err("FA2_NOT_ADMIN");
      }
      factory := f;
      r := Ok(());
    }

    /** `set_pause`, which the pause decoration adds. */
    method SetPause(sender: Address, p: bool) returns (r: Result<()>)
      requires Valid()
      modifies this
      ensures Valid()
      ensures r.Ok? <==> old(IsAdministrator(sender))
      ensures r.Err? ==> r.code == "FA2_NOT_ADMIN"
      ensures paused == if r.Ok? then p else old(paused)
      ensures Tokens() == old(Tokens()) && Holdings() == old(Holdings())
      ensures operators == old(operators) && factory == old(factory) && metadata == old(metadata)
      ensures administrator == old(administrator)
    {
      if !IsAdministrator(sender) {
        return Err("FA2_NOT_ADMIN");
      }
      paused := p;
      r := Ok(());
    }
  }

  /** The contract invariant on values: every defined token has a minter and a
      holder set, and the ledger part below holds. */
  ghost predicate ValidRegistry(reg: Registry, ledger: LedgerMap) {
    && reg.tokenMinter.Keys == reg.tokenMetadata.Keys
    && (forall id :: id in reg.tokenMetadata ==> reg.tokenMetadata[id].tokenId == id)
    && ValidBalances(Balances(ledger, reg.tokenHolders), reg.tokenMetadata.Keys)
  }

  /** A `create_token` request keeps the invariant (the new holder set is empty). */
  lemma CreateOneKeepsValid(reg: Registry, ledger: LedgerMap, req: CreateTokenRequest)
    requires ValidRegistry(reg, ledger)
    ensures ValidRegistry(CreateOne(reg, req), ledger)
  {
  }

  /** A mint request keeps the ledger part of the invariant. */
  lemma MintOneKeepsValid(minters: map<nat, Address>, b: Balances, defined: set<nat>, sender: Address, req: MintRequest)
    requires ValidBalances(b, defined)
    requires MintOne(minters, b, sender, req).Ok?
    ensures ValidBalances(MintOne(minters, b, sender, req).value, defined)
  {
  }

  /** The ledger part of the contract invariant, for a given set of defined ids. */
  ghost predicate ValidBalances(b: Balances, defined: set<nat>) {
    && b.holders.Keys == defined
    && (forall k :: k in b.ledger ==> k.1 in defined)
    && (forall id, a :: id in b.holders && a in b.holders[id] ==> (a, id) in b.ledger)
  }

  /** The loop of `mint`, over the requests of one call. */
  method MintBatch(minters: map<nat, Address>, b0: Balances, defined: set<nat>, sender: Address, batch: seq<MintRequest>)
    returns (r: Result<Balances>)
    requires ValidBalances(b0, defined)
    ensures r == MintAll(minters, b0, sender, batch)
    ensures r.Ok? ==> ValidBalances(r.value, defined)
  {
    var b := b0;
    var i := 0;
    while i < |batch|
      invariant 0 <= i <= |batch|
      invariant ValidBalances(b, defined)
      invariant MintAll(minters, b0, sender, batch) == MintAll(minters, b, sender, batch[i..])
    {
      assert batch[i..][1..] == batch[i + 1..];
      var step := MintOne(minters, b, sender, batch[i]);
      if step.Err? {
        return Err(step.code);
      }
      MintOneKeepsValid(minters, b, defined, sender, batch[i]);
      b := step.value;
      i := i + 1;
    }
    assert batch[i..] == [];
    r := Ok(b);
  }

  /** The inner loop of `transfer`, over the txs of one batch. */
  method TransferOneBatch(rules: TransferRules, b0: Balances, from: Address, txs: seq<Tx>) returns (r: Result<Balances>)
    requires ValidBalances(b0, rules.defined)
    ensures r == TransferTxs(rules, b0, from, txs)
    ensures r.Ok? ==> ValidBalances(r.value, rules.defined)
  {
    var b := b0;
    var j := 0;
    while j < |txs|
      invariant 0 <= j <= |txs|
      invariant ValidBalances(b, rules.defined)
      invariant TransferTxs(rules, b0, from, txs) == TransferTxs(rules, b, from, txs[j..])
    {
      assert txs[j..][1..] == txs[j + 1..];
      var step := TransferOne(rules, b, from, txs[j]);
      if step.Err? {
        return Err(step.code);
      }
      TransferStepKeepsValid(rules, b, from, txs[j]);
      b := step.value;
      j := j + 1;
    }
    assert txs[j..] == [];
    r := Ok(b);
  }

  /** The body of the inner loop of `transfer`, for one tx. */
  method TransferOne(rules: TransferRules, b: Balances, from: Address, tx: Tx) returns (r: Result<Balances>)
    ensures r == TransferStep(rules, b, from, tx)
  {
    if tx.tokenId !in rules.defined {
      return Err("FA2_TOKEN_UNDEFINED");
    }
    var permitted := CheckTxTransferPermissions(rules.policy, rules.paused, rules.operators, rules.sender,
                                                from, tx.to, tx.tokenId);
    if permitted.Err? {
      return Err(permitted.code);
    }
    if tx.to != rules.burnAddress {
      return Err("FA2_TX_DENIED");
    }
    r := Ok(b);
    if tx.amount > 0 {
      r := TransferTx(b, from, tx);
    }
  }

  /** One accepted tx keeps the ledger part of the invariant. */
  lemma TransferStepKeepsValid(rules: TransferRules, b: Balances, from: Address, tx: Tx)
    requires ValidBalances(b, rules.defined)
    requires TransferStep(rules, b, from, tx).Ok?
    ensures ValidBalances(TransferStep(rules, b, from, tx).value, rules.defined)
  {
  }
}
