/** The two owner-configurable size limits: their defaults, the fixed ranges
    the setters accept, and the checks the setters run before storing. */
module SizeLimits {
  import opened EmailTypes

  /** Preview limit set by `init`: 100 bytes. */
  const DEFAULT_PREVIEW_SIZE: u32 := 100
  /** Content limit set by `init`: 5 MiB. */
  const DEFAULT_CONTENT_SIZE: u32 := 5 * 1024 * 1024

  /** A closed interval `[lo, hi]` of acceptable limit values. */
  datatype Range = Range(lo: u32, hi: u32) {
    predicate Contains(size: int) {
      lo <= size <= hi
    }
  }

  /** `valid_preview_range`: 50 bytes to 500 KiB. */
  function ValidPreviewRange(): (r: Range)
    ensures r.Contains(50) && !r.Contains(49)
    ensures r.Contains(512000) && !r.Contains(512001)
  {
    Range(50, 500 * 1024)
  }

  /** `valid_content_range`: 1 byte to 5 MiB. */
  function ValidContentRange(): (r: Range)
    ensures r.Contains(1) && !r.Contains(0)
    ensures r.Contains(5242880) && !r.Contains(5242881)
  {
    Range(1, 5 * 1024 * 1024)
  }

  /** The guard of `set_max_preview_size`: the owner check of `#[only_owner]`
      runs first, then the range check. `Pass` means the size may be stored. */
  function CheckPreviewSize(caller: Address, owner: Address, size: u32): (r: Outcome)
    ensures r == Pass <==> caller == owner && 50 <= size <= 512000
    ensures caller != owner ==> r == Fail(Unauthorized)
    ensures caller == owner && !(50 <= size <= 512000) ==> r == Fail(PreviewSizeOutOfRange)
    ensures r.Fail? && caller == owner ==>
      r.error.Message() == "Preview size must be between 50 bytes and 500 KB"
  {
    if caller != owner then Fail(Unauthorized)
    else if !ValidPreviewRange().Contains(size) then Fail(PreviewSizeOutOfRange)
    else Pass
  }

  /** The guard of `set_max_content_size`, in the same order. */
  function CheckContentSize(caller: Address, owner: Address, size: u32): (r: Outcome)
    ensures r == Pass <==> caller == owner && 1 <= size <= 5242880
    ensures caller != owner ==> r == Fail(Unauthorized)
    ensures caller == owner && !(1 <= size <= 5242880) ==> r == Fail(ContentSizeOutOfRange)
    ensures r.Fail? && caller == owner ==>
      r.error.Message() == "Content size must be between 1 byte and 5MB"
  {
    if caller != owner then Fail(Unauthorized)
    else if !ValidContentRange().Contains(size) then Fail(ContentSizeOutOfRange)
    else Pass
  }

  /** The limits the contract can ever hold: both inside their valid ranges. */
  predicate ValidLimits(maxPreview: u32, maxContent: u32) {
    ValidPreviewRange().Contains(maxPreview) && ValidContentRange().Contains(maxContent)
  }

  /** The defaults `init` stores are themselves acceptable to the setters, so
      every reachable configuration satisfies `ValidLimits`. */
  lemma DefaultsValid(owner: Address)
    ensures ValidLimits(DEFAULT_PREVIEW_SIZE, DEFAULT_CONTENT_SIZE)
    ensures CheckPreviewSize(owner, owner, DEFAULT_PREVIEW_SIZE) == Pass
    ensures CheckContentSize(owner, owner, DEFAULT_CONTENT_SIZE) == Pass
  {
  }
}
