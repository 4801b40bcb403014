/**
  * Primitives shared by the pallets: accounts, hashes, call origins, dispatch results, and
  * the saturating arithmetic of Rust's fixed-width integers (u32 block numbers and counters,
  * u128 balances).
  */
module Frame {

  newtype byte = x: int | 0 <= x < 256

  /** An account: a signed user's key, or a pallet's sovereign account derived from its PalletId. */
  datatype AccountId = User(key: nat) | PalletAccount(palletId: string)

  /**
    * `T::Hashing::hash_of`, modelled as an injective function: a hash is its preimage.
    * Task ids hash (creator, task count), batch ids hash (task id, coordinator, block);
    * any other hash (a merkle root, a task id supplied by a caller) is an opaque digest.
    */
  datatype Hash =
    | HashOfTask(creator: AccountId, count: nat)
    | HashOfBatch(taskId: Hash, coordinator: AccountId, block: nat)
    | Digest(bytes: seq<byte>)

  /** The origin of a call: a signed account, or the privileged root authority. */
  datatype Origin = Signed(who: AccountId) | Root

  /** The error the currency service reports when a free balance cannot cover a withdrawal. */
  datatype BalancesError = InsufficientBalance

  /** Why a dispatchable failed: a wrong origin, a currency error, or the pallet's own error. */
  datatype DispatchError<E> = BadOrigin | Currency(currencyError: BalancesError) | Module(error: E)

  datatype DispatchResult<E> = Ok | Err(error: DispatchError<E>)

  datatype Result<T, E> = Success(value: T) | Failure(error: E)

  datatype Option<T> = None | Some(value: T)

  /** One GLIN, the native token, has 18 decimals. */
  const GLIN: nat := 1_000_000_000_000_000_000

  const U32_MAX: nat := 0xFFFF_FFFF
  const U128_MAX: nat := 0xFFFF_FFFF_FFFF_FFFF_FFFF_FFFF_FFFF_FFFF

  /** `saturating_add` on an unsigned type whose largest value is `max`. */
  function SaturatingAdd(a: nat, b: nat, max: nat): (r: nat)
    requires a <= max
    ensures r <= max && a <= r
    ensures a + b <= max ==> r == a + b
    ensures max < a + b ==> r == max
  {
    if a + b <= max then a + b else max
  }

  /** `saturating_sub` on an unsigned type. */
  function SaturatingSub(a: nat, b: nat): (r: nat)
    ensures r <= a
    ensures b <= a ==> r + b == a
    ensures a < b ==> r == 0
  {
    if b <= a then a - b else 0
  }

  /** `saturating_mul` on an unsigned type whose largest value is `max`. */
  function SaturatingMul(a: nat, b: nat, max: nat): (r: nat)
    ensures r <= max
    ensures a * b <= max ==> r == a * b
    ensures max < a * b ==> r == max
  {
    if a * b <= max then a * b else max
  }

  /** The smaller of two naturals. */
  function Min(a: nat, b: nat): nat
  {
    if a <= b then a else b
  }
}
