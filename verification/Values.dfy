/** Values shared by the whole model: results, byte strings, stack elements and the ledger's records. */
module Values {

  datatype Option<+T> = None | Some(value: T)

  /** One constructor per error the runtime can raise; messages are not modelled. */
  datatype Error =
    // ledger
    | AccountDoesNotExist | AppNotFound | InvalidApprovalProgram | InvalidClearProgram
    | MaxLimitApps | MaxLimitOptIn | InvalidRound | GroupTooLarge | InvalidProgram
    | LsigValidationFailed | LsigNotFound
    | AssetNotFound | MaxLimitAssets | AssetTotalError | CannotCloseByCreator | CannotCloseByClawback
    | ManagerError | FreezeError | ClawbackError | BlankAddressError | AsaDefNotFound
    | InsufficientBalance | InsufficientAssets | AsaNotOptIn | AccountAssetFrozen
    // TEAL
    | AssertStackLength | StackOverflow | StackEmpty | Uint64Overflow | Uint64Underflow | ZeroDiv
    | IndexOutOfBound | AssertArrLength | InvalidType | InvalidUint8 | EncounteredErr | ConcatError
    | SubstringEndBeforeStart | SubstringRangeBeyond | SetBitValueError | SetBitIndexError
    | SetBitIndexBytesError | InvalidFieldType | InvalidSchema | LabelNotFound | RejectedByLogic
    | NotUint64 | BadLengthForUint64 | NoSuchDigit
    // parser
    | PragmaNotAtFirstLine | PragmaVersionError | AssertLength | InvalidLabel | UnknownOpcode | InvalidOperand | MaxCostExceeded
    // a JavaScript exception: reading a property of `undefined`, or converting it
    | JsTypeError

  datatype Result<+T> = Ok(value: T) | Err(error: Error) {
    predicate IsFailure() {
      Err?
    }
    function PropagateFailure<U>(): Result<U>
      requires Err?
    {
      Err(error)
    }
    function Extract(): T
      requires Ok?
    {
      value
    }
  }

  type byte = b: int | 0 <= b < 256
  type Bytes = seq<byte>
  type Address = string

  const MAX_UINT64: int := 0xFFFF_FFFF_FFFF_FFFF

  predicate IsUint64(n: int) {
    0 <= n <= MAX_UINT64
  }

  /** A byte array is one of a state's own, or one that the state shares with the code around it. */
  datatype Loc = Own(i: nat) | Shared(i: nat)

  /** A stack element is an integer or a reference to a byte array; arrays live in `State.heap`. */
  datatype StackElem = Int(n: int) | Ref(r: Loc)

  /** A value with its byte array already read. */
  datatype Content = Integer(n: int) | Array(b: Bytes)

  /** The byte arrays that references point to. A deep copy of a state copies its own arrays. The shared ones exist once:
      the constant table's zero address, and the argument arrays of logic signatures, which belong to the caller. */
  datatype Heap = Heap(own: seq<Bytes>, shared: seq<Bytes>)

  /** The zero address of the constant table is the first shared array. */
  const ZERO_ADDRESS := Shared(0)

  /** Before any program has run there are no arrays but the table's. */
  function TableOnly(): Heap {
    Heap([], [Zeros(32)])
  }

  function Zeros(n: nat): Bytes {
    if n == 0 then [] else Zeros(n - 1) + [0]
  }

  /** Key-value state of an application; keys are compared by their bytes. */
  type StateMap = map<Bytes, StackElem>

  datatype Schema = Schema(numUint: nat, numByteSlice: nat)

  datatype Holding = Holding(amount: int, creator: Address, frozen: bool)

  datatype AssetDef = AssetDef(
    creator: Address, total: int, decimals: int, defaultFrozen: bool,
    unitName: string, name: string, url: string, metadataHash: string,
    manager: Address, reserve: Address, freeze: Address, clawback: Address)

  /** An asset definition as loaded from the assets file, where roles may be missing. */
  datatype AsaSpec = AsaSpec(
    total: nat, decimals: nat, defaultFrozen: bool,
    unitName: string, url: string, metadataHash: string,
    manager: Option<Address>, reserve: Option<Address>, freeze: Option<Address>, clawback: Option<Address>)

  /** Fields of an asset-modification transaction. */
  datatype ModFields = ModFields(
    manager: Option<Address>, reserve: Option<Address>, freeze: Option<Address>, clawback: Option<Address>)

  datatype App = App(
    approval: string, clear: string, creator: Address,
    globals: StateMap, globalSchema: Schema, localSchema: Schema)

  datatype LocalState = LocalState(kv: StateMap, schema: Schema)

  datatype Account = Account(
    amount: int, minBalance: int,
    assets: map<nat, Holding>, appsLocalState: map<nat, LocalState>,
    createdApps: map<nat, App>, createdAssets: map<nat, AssetDef>)

  /** The state a transaction group works on. `args` are the shared arrays that the group's most recent logic signature
      got as arguments. */
  datatype State = State(
    accounts: map<Address, Account>, globalApps: map<nat, Address>, assetDefs: map<nat, Address>,
    appCounter: nat, assetCounter: nat, heap: Heap, args: seq<nat>)

  const ACCOUNT_MIN_BALANCE := 100000
  const APPLICATION_BASE_FEE := 100000
  const ASSET_CREATION_FEE := 100000
  const SSC_KEY_BYTE_SLICE := 25000
  const SSC_VALUE_UINT := 3500
  const SSC_VALUE_BYTES := 25000
  const MAX_ACCOUNT_ASSETS := 1000
  const MAX_ACCOUNT_APPS := 10
  const MAX_GROUP := 16

  /** Minimum-balance cost of a schema, the same formula for creating and for opting in. */
  function SchemaCost(s: Schema): int {
    APPLICATION_BASE_FEE
    + (SSC_KEY_BYTE_SLICE + SSC_VALUE_UINT) * s.numUint
    + (SSC_KEY_BYTE_SLICE + SSC_VALUE_BYTES) * s.numByteSlice
  }

  function FreshAccount(balance: int): Account {
    Account(balance, ACCOUNT_MIN_BALANCE, map[], map[], map[], map[])
  }
}
