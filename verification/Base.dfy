/** The vocabulary every module shares: bytes, public keys, token amounts, errors and results. */
module Base {

  type byte = n: int | 0 <= n < 0x100

  /** A public key, or any other address. The length is left open: an account's keys have 32 bytes, but
      among 32-byte strings no address could be derived injectively from two keys, which is what the
      program relies on its hash for. */
  type Key = seq<byte>

  /** How long a key is in an account's bytes. */
  const KEY_SIZE: nat := 32

  const MAX_U64: nat := 0xFFFF_FFFF_FFFF_FFFF

  type u64 = n: int | 0 <= n <= MAX_U64

  /** Unix seconds; the source's `i64`. */
  type i64 = n: int | -0x8000_0000_0000_0000 <= n <= 0x7FFF_FFFF_FFFF_FFFF

  /** The all-zero key: the SOL mint, the mark of a free slot, and "no key" in a session store. */
  const ZERO_KEY: Key := Zeros(KEY_SIZE)

  function Zeros(n: nat): (r: seq<byte>)
    ensures |r| == n && forall i :: 0 <= i < n ==> r[i] == 0
  {
    if n == 0 then [] else [0] + Zeros(n - 1)
  }

  /** `VaultError` and the `ProgramError`s the handlers raise, then three failures of the runtime. */
  datatype Error =
    | LedgerFull | NoBalance | Insufficient | Overflow | NotProgramMediated
    | MissingProgramSignature | MissingUserSignature | InsufficientReserve | MintMismatch
    | BadSlotCount | MissingTokenAccounts | NotCanonicalReserve | VaultNotInitialized
    | BadLedgerOwner | NoAuthorization | BadAuthority | OffCurveOwnerNotAllowed
    | MustFundOwnLedger | NotRentPayer | LedgerExists | NotAReceipt | OwnerNotWallet | OwnerNotPda
    | MemberProgramMismatch | BadAuthorizedKey | NotAuthorizedToConsent | ReceiptLive
    | ReceiptExpired | CallbackProgramMismatch | DuplicateLedger | SlotClaimNeedsConsent | BadExpiry
    | InvalidAccountData | AccountDataTooSmall | InvalidSeeds | InvalidArgument | IllegalOwner
    | MissingRequiredSignature | IncorrectProgramId
      /** `Custom(7000 + check * 100 + index)`, raised while a receipt's ledgers are validated. */
    | LedgerCheck(check: nat, index: nat)
      /** A CPI into the System, token or delegation program was refused. */
    | CpiFailed
      /** The account is not writable where the instruction runs. */
    | NotWritable
      /** Another transaction is still executing. */
    | Busy

  datatype Result<+T> = Success(value: T) | Failure(error: Error) {
    predicate IsFailure() {
      Failure?
    }

    function PropagateFailure<U>(): Result<U>
      requires Failure?
    {
      Failure(error)
    }

    function Extract(): T
      requires Success?
    {
      value
    }
  }

  datatype Option<+T> = None | Some(value: T)
}
