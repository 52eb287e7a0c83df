/** Value types shared by the email box contract model: machine integers,
    byte buffers, account addresses, the stored email summary and the
    contract's error kinds. */
module EmailTypes {

  const MAX_U32: int := 0xFFFF_FFFF
  const MAX_U64: int := 0xFFFF_FFFF_FFFF_FFFF

  /** Rust `u32`: the type of both size limits and of the pagination arguments. */
  type u32 = x: int | 0 <= x <= MAX_U32

  /** Rust `u64`: the block timestamp. */
  type u64 = x: int | 0 <= x <= MAX_U64

  /** A `ManagedBuffer`: an arbitrary-length byte string. */
  type Bytes = seq<bv8>

  /** A `ManagedAddress`: a 32-byte account address. */
  type Address = a: seq<bv8> | |a| == 32 witness seq(32, _ => 0)

  /** The record stored in both the recipient's inbox and the sender's sent list.
      The full content is not stored; `ipfsHash` locates it off-chain. */
  datatype EmailSummary = EmailSummary(
    from: Address,
    to: Address,
    subject: Bytes,
    preview: Bytes,
    timestamp: u64,
    ipfsHash: Bytes
  )

  /** Why an endpoint call was rejected. Each rejection reverts the whole call. */
  datatype Error =
    | ContentTooLarge        // `require!` in send_email
    | PreviewSizeOutOfRange  // `require!` in set_max_preview_size
    | ContentSizeOutOfRange  // `require!` in set_max_content_size
    | Unauthorized           // the `#[only_owner]` guard
  {
    /** The message the call fails with. */
    function Message(): string {
      match this
      case ContentTooLarge => "Message too large!"
      case PreviewSizeOutOfRange => "Preview size must be between 50 bytes and 500 KB"
      case ContentSizeOutOfRange => "Content size must be between 1 byte and 5MB"
      case Unauthorized => "Endpoint can only be called by owner"
    }
  }

  /** A failed call's message tells which check rejected it. */
  lemma MessageIdentifiesError(e1: Error, e2: Error)
    ensures e1.Message() == e2.Message() <==> e1 == e2
  {
  }

  datatype Result<+T> = Ok(value: T) | Err(error: Error)

  /** The outcome of an endpoint that returns nothing. */
  datatype Outcome = Pass | Fail(error: Error)

  function Min(a: int, b: int): int {
    if a <= b then a else b
  }
}
