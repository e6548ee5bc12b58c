/** The token-metadata generator: a contract that stores a base metadata map
    for stewardship tokens and one for event tokens, plus a table of ordinal
    labels per generation, and whose two views return a copy of a base map with
    the name, creator (and for events the description) filled in. */
module TokenMetadata {
  import opened Tezos

  /** The parameter of `gen_stewardship_token`. */
  datatype StewardshipParams = StewardshipParams(multisigName: Bytes, generation: nat, creator: Address)

  /** The parameter of `gen_event_token`. */
  datatype EventParams = EventParams(eventName: Bytes, eventDescription: Bytes, multisigName: Bytes,
                                     generation: nat, creator: Address)

  /** The name given to a stewardship token of a generation. */
  function StewardshipName(order: Bytes, multisigName: Bytes): Bytes {
    Ascii("[STEWARDSHIP TOKEN GEN-") + order + Ascii("] ") + multisigName
  }

  /** The name given to an event token. */
  function EventName(multisigName: Bytes, order: Bytes, eventName: Bytes): Bytes {
    Ascii("[") + multisigName + Ascii(" GEN-") + order + Ascii(" EVENT TOKEN] ") + eventName
  }

  /** True when m and r agree on every key outside `changed`. */
  ghost predicate SameExcept(m: TokenInfo, r: TokenInfo, changed: set<string>) {
    && (forall k :: k in m && k !in changed ==> k in r && r[k] == m[k])
    && (forall k :: k in r && k !in changed ==> k in m)
  }

  class Generator {
    var addresses: map<string, Address>
    var orders: map<nat, Bytes>
    var stewardshipToken: TokenInfo
    var eventToken: TokenInfo
    var metadata: map<string, Bytes>

    /** `sp.pack` of an address: opaque here, supplied with the contract. */
    const pack: Address -> Bytes

    constructor (addresses: map<string, Address>, orders: map<nat, Bytes>, stewardshipToken: TokenInfo,
                 eventToken: TokenInfo, metadata: map<string, Bytes>, pack: Address -> Bytes)
      ensures this.addresses == addresses && this.orders == orders
      ensures this.stewardshipToken == stewardshipToken && this.eventToken == eventToken
      ensures this.metadata == metadata && this.pack == pack
    {
      this.addresses := addresses;
      this.orders := orders;
      this.stewardshipToken := stewardshipToken;
      this.eventToken := eventToken;
      this.metadata := metadata;
      this.pack := pack;
    }

    /** `is_admin`: the sender must be the address stored under "admin". */
    function IsAdmin(sender: Address): (r: Result<()>)
      reads this
      ensures r.Ok? <==> "admin" in addresses && sender == addresses["admin"]
      ensures r.Err? ==> r.code == (if "admin" in addresses then "NOT_ADMIN" else MISSING_KEY)
    {
      if "admin" !in addresses then Err(MISSING_KEY)
      else Verify(sender == addresses["admin"], "NOT_ADMIN")
    }

    method UpdateMetadata(sender: Address, k: string, v: Bytes) returns (r: Result<()>)
      modifies this
      ensures r == old(IsAdmin(sender))
      ensures metadata == if r.Ok? then old(metadata)[k := v] else old(metadata)
      ensures addresses == old(addresses) && orders == old(orders)
      ensures stewardshipToken == old(stewardshipToken) && eventToken == old(eventToken)
    {
      r := IsAdmin(sender);
      if r.Ok? {
        metadata := metadata[k := v];
      }
    }

    method UpdateAddress(sender: Address, name: string, address: Address) returns (r: Result<()>)
      modifies this
      ensures r == old(IsAdmin(sender))
      ensures addresses == if r.Ok? then old(addresses)[name := address] else old(addresses)
      ensures metadata == old(metadata) && orders == old(orders)
      ensures stewardshipToken == old(stewardshipToken) && eventToken == old(eventToken)
    {
      r := IsAdmin(sender);
      if r.Ok? {
        addresses := addresses[name := address];
      }
    }

    method UpdateStewardshipToken(sender: Address, key: string, value: Bytes) returns (r: Result<()>)
      modifies this
      ensures r == old(IsAdmin(sender))
      ensures stewardshipToken == if r.Ok? then old(stewardshipToken)[key := value] else old(stewardshipToken)
      ensures addresses == old(addresses) && metadata == old(metadata) && orders == old(orders)
      ensures eventToken == old(eventToken)
    {
      r := IsAdmin(sender);
      if r.Ok? {
        stewardshipToken := stewardshipToken[key := value];
      }
    }

    method UpdateEventToken(sender: Address, key: string, value: Bytes) returns (r: Result<()>)
      modifies this
      ensures r == old(IsAdmin(sender))
      ensures eventToken == if r.Ok? then old(eventToken)[key := value] else old(eventToken)
      ensures addresses == old(addresses) && metadata == old(metadata) && orders == old(orders)
      ensures stewardshipToken == old(stewardshipToken)
    {
      r := IsAdmin(sender);
      if r.Ok? {
        eventToken := eventToken[key := value];
      }
    }

    method UpdateOrders(sender: Address, key: nat, value: Bytes) returns (r: Result<()>)
      modifies this
      ensures r == old(IsAdmin(sender))
      ensures orders == if r.Ok? then old(orders)[key := value] else old(orders)
      ensures addresses == old(addresses) && metadata == old(metadata)
      ensures stewardshipToken == old(stewardshipToken) && eventToken == old(eventToken)
    {
      r := IsAdmin(sender);
      if r.Ok? {
        orders := orders[key := value];
      }
    }

    /** `gen_stewardship_token`: the stored stewardship map with "name" and
        "creators" overwritten; aborts when the generation has no ordinal. */
    function GenStewardshipToken(params: StewardshipParams): (r: Result<TokenInfo>)
      reads this
      ensures r.Ok? <==> params.generation in orders
      ensures r.Err? ==> r.code == MISSING_KEY
      ensures r.Ok? ==> && SameExcept(stewardshipToken, r.value, {"name", "creators"})
                        && "name" in r.value && "creators" in r.value
                        && r.value["name"] == StewardshipName(orders[params.generation], params.multisigName)
                        && r.value["creators"] == pack(params.creator)
    {
      if params.generation !in orders then Err(MISSING_KEY)
      else
        var result := stewardshipToken;
        var result := result["name" := StewardshipName(orders[params.generation], params.multisigName)];
        var result := result["creators" := pack(params.creator)];
        Ok(result)
    }

    /** `gen_event_token`: the stored event map with "name", "description" and
        "creators" overwritten; aborts when the generation has no ordinal. */
    function GenEventToken(params: EventParams): (r: Result<TokenInfo>)
      reads this
      ensures r.Ok? <==> params.generation in orders
      ensures r.Err? ==> r.code == MISSING_KEY
      ensures r.Ok? ==> && SameExcept(eventToken, r.value, {"name", "description", "creators"})
                        && "name" in r.value && "description" in r.value && "creators" in r.value
                        && r.value["name"] == EventName(params.multisigName, orders[params.generation], params.eventName)
                        && r.value["description"] == params.eventDescription
                        && r.value["creators"] == pack(params.creator)
    {
      if params.generation !in orders then Err(MISSING_KEY)
      else
        var result := eventToken;
        var result := result["name" := EventName(params.multisigName, orders[params.generation], params.eventName)];
        var result := result["description" := params.eventDescription];
        var result := result["creators" := pack(params.creator)];
        Ok(result)
    }
  }

  /** The stewardship name starts with the fixed tag and ends with the
      organisation's name, with the ordinal in between. */
  lemma StewardshipNameLayout(order: Bytes, multisigName: Bytes)
    ensures var n := StewardshipName(order, multisigName);
      && |n| == 25 + |order| + |multisigName|
      && n[..23] == Ascii("[STEWARDSHIP TOKEN GEN-")
      && n[23..23 + |order|] == order
      && n[|n| - |multisigName|..] == multisigName
  {
  }

  /** Distinct ordinals of the same length give distinct stewardship names, so
      tokens of different generations are told apart by name. */
  lemma StewardshipNamesDiffer(o1: Bytes, o2: Bytes, name: Bytes)
    requires |o1| == |o2| && o1 != o2
    ensures StewardshipName(o1, name) != StewardshipName(o2, name)
  {
    StewardshipNameLayout(o1, name);
    StewardshipNameLayout(o2, name);
  }
}
