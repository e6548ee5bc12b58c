/** Values shared by every contract of the model: the Michelson primitive types
    the contracts use, failure-carrying results, on-chain view answers and the
    operations a contract call emits. */
module Tezos {

  /** A Michelson byte. */
  newtype byte = b: int | 0 <= b < 256

  type Bytes = seq<byte>

  /** Addresses, public keys and signatures are compared for equality only. */
  type Address = string
  type Key = string
  type Signature = string

  /** Timestamps are seconds; Michelson timestamps are unbounded integers. */
  type Timestamp = int

  /** The `token_info` map of TZIP-12 token metadata. */
  type TokenInfo = map<string, Bytes>

  datatype Option<+T> = None | Some(value: T)

  /** The outcome of a contract call or of one of its checks: a value, or the
      failure message the contract aborts with. */
  datatype Result<+T> = Ok(value: T) | Err(code: string) {
    predicate IsFailure() {
      Err?
    }

    function PropagateFailure<U>(): Result<U>
      requires Err?
    {
      Err(code)
    }

    function Extract(): T
      requires Ok?
    {
      value
    }
  }

  /** `sp.verify(condition, code)` */
  function Verify(condition: bool, code: string): (r: Result<()>)
    ensures r.Ok? <==> condition
    ensures r.Err? ==> r.code == code
  {
    if condition then Ok(()) else Err(code)
  }

  /** What an on-chain view call gives back: an answer, no answer (no such view,
      or a parameter or result type that does not match), or the failure the
      view's own code aborted with, which aborts the caller too. */
  datatype View<+T> = Answer(value: T) | NoAnswer | Failed(code: string)

  /** `sp.view(...).open_some(message)` */
  function Open<T>(v: View<T>, message: string): (r: Result<T>)
    ensures r.Ok? <==> v.Answer?
    ensures v.Answer? ==> r.value == v.value
    ensures v.NoAnswer? ==> r == Err(message)
    ensures v.Failed? ==> r == Err(v.code)
  {
    match v
    case Answer(x) => Ok(x)
    case NoAnswer => Err(message)
    case Failed(c) => Err(c)
  }

  /** The failure of a SmartPy map or big-map lookup `m[k]` of a missing key
      (SmartPy aborts with a built-in message, written here as one constant). */
  const MISSING_KEY := "MISSING_KEY"

  /** `sp.now.add_minutes(minutes)` */
  function AddMinutes(t: Timestamp, minutes: int): (r: Timestamp)
    ensures r - t == 60 * minutes
  {
    t + 60 * minutes
  }

  /** `sp.utils.bytes_of_string` for text whose characters are all ASCII (all
      the literals the contracts use): one byte per character. */
  function Ascii(s: string): (r: Bytes)
    ensures |r| == |s|
    ensures forall i :: 0 <= i < |s| && (s[i] as int) < 128 ==> r[i] as int == s[i] as int
  {
    seq(|s|, i requires 0 <= i < |s| => ((s[i] as int) % 256) as byte)
  }

  // The records exchanged with the FA2 ledger.

  datatype BalanceRequest = BalanceRequest(owner: Address, tokenId: nat)
  datatype BalanceResponse = BalanceResponse(request: BalanceRequest, balance: nat)
  datatype CreateTokenRequest = CreateTokenRequest(isStewardship: bool, minter: Address, tokenInfo: TokenInfo)
  datatype MintRequest = MintRequest(address: Address, amount: nat, tokenId: nat)

  /** An operation a contract call emits, to be run after the call returns. */
  datatype Operation =
    | SendTez(to: Address, mutez: nat)                         // sp.send
    | CreateToken(fa2: Address, batch: seq<CreateTokenRequest>) // FA2 create_token
    | Mint(fa2: Address, requests: seq<MintRequest>)           // FA2 mint
    | Call(target: Address, entrypoint: string, argument: Bytes, mutez: nat) // any other call
}
