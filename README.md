# Email box contract — a Dafny model

This project models the MultiversX smart contract `EmailBox`. The contract is a
per-address, append-only mail store. Any account can send an email to another.
The contract stores a summary of it: sender, recipient, subject, a bounded
preview of the content, the block timestamp and an IPFS hash of the full
content. The same summary goes into the recipient's `inbox` and into the
sender's `sent` list. The owner can change two size limits, each within a
fixed range. The preview limit defaults to 100 bytes and the content limit to
5 MiB. The `getInbox` view returns one page of the caller's own inbox.

Layout:

- `types.dfy` (module `EmailTypes`): `u32`/`u64` as bounded integers, byte
  buffers as `seq<bv8>`, 32-byte addresses, `EmailSummary`, the error kinds
  with their messages, and `Result`/`Outcome`.
- `size_limits.dfy` (module `SizeLimits`): defaults, the valid ranges and the
  owner-then-range guard of each setter.
- `record_factory.dfy` (module `RecordFactory`): the preview truncation and
  the construction of the summary in `send_email`, with lemmas about previews.
- `pagination.dfy` (module `Pagination`): the clamped window and page of
  `get_inbox`, and lemmas relating pages to each other and to the whole inbox.
- `email_box.dfy` (module `Contract`): class `EmailBox` holding the storage.
  Its methods are the endpoints and views, and `Valid()` is the invariant
  every reachable state keeps. Two client methods replay the deploy and
  send scenarios of the contract's tests.

The caller, the owner (the deployer) and the block timestamp come from the
chain in the contract. Here they are parameters. A failed `require!` or owner
check reverts the transaction. It is modelled as an `Err`/`Fail` result, and
the method's contract states that no storage changed.

## Model

| member | source | states |
|---|---|---|
| `EmailTypes.MessageIdentifiesError` | contracts/src/email_box.rs:81-131 | The four failure messages ("Message too large!", the two range messages of the setters and the owner-only message) are pairwise different, so a revert message tells exactly which check failed. |
| `SizeLimits.ValidPreviewRange` | contracts/src/email_box.rs:51-54 | The preview range admits 50 and 512000 and rejects 49 and 512001. |
| `SizeLimits.ValidContentRange` | contracts/src/email_box.rs:56-59 | The content range admits 1 and 5242880 and rejects 0 and 5242881. |
| `SizeLimits.CheckPreviewSize` | contracts/src/email_box.rs:113-120 | Passes exactly when the caller is the owner and 50 <= size <= 512000. A non-owner gets `Unauthorized` whatever the size. The owner with an out-of-range size gets `PreviewSizeOutOfRange`, whose message is "Preview size must be between 50 bytes and 500 KB". |
| `SizeLimits.CheckContentSize` | contracts/src/email_box.rs:125-132 | Passes exactly when the caller is the owner and 1 <= size <= 5242880. Otherwise it fails with `Unauthorized` or `ContentSizeOutOfRange`, in that order of checks. The owner's failure carries the message "Content size must be between 1 byte and 5MB". |
| `SizeLimits.DefaultsValid` | contracts/src/email_box.rs:26-29 | The defaults 100 and 5242880 lie inside the valid ranges, and the setters would accept them. |
| `RecordFactory.Preview` | contracts/src/email_box.rs:83-90 | The preview is a byte prefix of the content of length min(limit, content length). Content at or under the limit is copied whole. |
| `RecordFactory.PreviewIdempotent` | contracts/src/email_box.rs:83-90 | Truncating a preview again under the same limit changes nothing. |
| `RecordFactory.PreviewMonotone` | contracts/src/email_box.rs:83-90 | A larger limit gives a preview that extends the smaller one. The smaller preview is the larger one cut again. |
| `RecordFactory.PreviewLosslessIff` | contracts/src/email_box.rs:84-90 | The preview equals the content if and only if the content fits within the preview limit. |
| `RecordFactory.BuildSummary` | contracts/src/email_box.rs:70-100 | Fails with `ContentTooLarge` (message "Message too large!") exactly when the content is longer than the content limit, so a length equal to the limit is accepted. On success the summary carries the given sender, recipient, subject, timestamp and hash, and a preview that is a prefix of min(preview limit, length) bytes. |
| `Pagination.Window` | contracts/src/email_box.rs:161-163 | start <= end <= total, and the window holds at most `limit` records. It starts at `offset` when the offset is inside the list. It is empty when offset >= total or limit == 0, and it starts and ends at total when offset >= total. It holds exactly `limit` records when offset + limit <= total, and otherwise runs to the end of the list. |
| `Pagination.Page` | contracts/src/email_box.rs:161-166 | The page holds record offset + i of the list at position i, in insertion order. It has min(limit, total - offset) records when offset < total and none when offset >= total or limit == 0. |
| `Pagination.PagesConcat` | contracts/src/email_box.rs:161-166 | The page of `a` records at `offset` followed by the page of `b` records at `offset + a` is the page of `a + b` records at `offset`. |
| `Pagination.PageStableUnderAppend` | contracts/src/email_box.rs:161-166 | Appending a record to a list does not change any page that lies wholly inside the old list. |
| `Pagination.ReadFromIsSuffix` | contracts/src/email_box.rs:161-166 | Reading consecutive pages of any positive size from `offset` returns the list's suffix from `offset`, with no record skipped or repeated. |
| `Pagination.ReadAllPages` | contracts/src/email_box.rs:161-166 | Reading every page from offset 0 returns the whole inbox in order. |
| `Contract.EmailBox.constructor` | contracts/src/email_box.rs:25-29 | After `init` the preview limit is 100 and the content limit is 5242880. All lists are empty, the deployer is the owner, and the invariant holds. |
| `Contract.EmailBox.SendEmail` | contracts/src/email_box.rs:62-108 | The result is the summary `BuildSummary` describes, built under the limits in force. On failure no list and no limit changes. On success the same summary is appended to `inbox[to]` and to `sent[caller]`, and one event is logged. Every other address's lists and both limits stay as they were. When `to == caller` that address's inbox and sent list each grow by one. The invariant is kept. |
| `Contract.EmailBox.SetMaxPreviewSize` | contracts/src/email_box.rs:112-122 | The outcome is `CheckPreviewSize` of the caller, the owner and the size. The new preview limit is the size on success and the old limit otherwise. Nothing else changes. |
| `Contract.EmailBox.SetMaxContentSize` | contracts/src/email_box.rs:124-134 | The outcome is `CheckContentSize`. The new content limit is the size on success and the old limit otherwise. Nothing else changes. |
| `Contract.EmailBox.GetMaxPreviewSize` | contracts/src/email_box.rs:138-142 | Returns the stored preview limit, which always lies in [50, 512000]. |
| `Contract.EmailBox.GetMaxContentSize` | contracts/src/email_box.rs:144-148 | Returns the stored content limit, which always lies in [1, 5242880]. |
| `Contract.EmailBox.GetInbox` | contracts/src/email_box.rs:150-175 | The view as evidently intended: the skip/take loop returns exactly `Page` of the caller's inbox for `limit` and `offset`, with every selected record's encoding appended in order. That is at most `limit` records, all addressed to the caller. |
| `Contract.EmailBox.GetInboxAsWritten` | contracts/src/email_box.rs:165-174 | The view as written: each selected record is top-encoded into the buffer, which replaces its content. The result is empty for an empty page and otherwise holds only the page's last record. |
| `Contract.DeployScenario` | contracts/tests/email_box_test.rs:38-57 | Right after deployment the two views return 100 and 5242880. |
| `Contract.SendScenario` | contracts/tests/email_box_test.rs:59-75 | The owner sends "Hello, World!" (13 bytes) as subject, content and hash to a second user. The stored preview is the whole content. The recipient's inbox and the sender's sent list each hold one record, and a page of 10 from offset 0 returns that record. |
| `Contract.OverwriteScenario` | contracts/src/email_box.rs:169-172 | With three records in one inbox, a page of 10 from offset 0 returns one record from the view as written and all three from the corrected view. The one record is the third. |

## Left out

- Contract.EmailBox.GetInbox: requires `offset + limit` to fit in a `u32`. The source adds the two without a check (line 163), and its behaviour on overflow depends on the build profile: it either aborts or wraps. Neither case is modelled.
- Contract.EmailBox.GetInbox: requires the caller's inbox to have at most 2^32 - 1 records, because the source casts the length to `u32` (line 162). Each successful send adds one record, so reaching 2^32 records would take 2^32 separate sends.
- Serialisation: the returned buffer is modelled by the sequence of records whose encodings it holds. The byte layout belongs to the MultiversX codec, which is not part of this model. The model assumes that top-encoding into a `ManagedBuffer` replaces its content. Under that reading the loop at lines 170-172 keeps only the last selected record, so the view as written returns at most one record per page; see "## Findings". `GetInbox` models the evidently intended view, which appends every selected record's encoding in order.
- The `email_sent` event (lines 107, 179) is a ghost log `events` in the class. The chain's event delivery is not modelled.
- `get_caller` and `get_block_timestamp` (lines 71-73, 157) are method parameters. The owner is the account that deploys the contract. The chain's owner-transfer mechanism is not modelled.
- `Unauthorized` stands for the framework's `#[only_owner]` check. Its message text is the framework's, not the contract's.
- `VecMapper` and `SingleValueMapper` storage are a map from address to sequence and two fields. The mappers' internal key layout and 1-based indexing are not modelled.
- The generated `email_box_proxy` module, the deployment harness and the web front end have no contract logic. They are not part of this model.
- The scenario methods use two arbitrary distinct addresses for the test accounts `owner` and `user2`. The framework's encoding of those names into addresses is not modelled.

## Findings

| source | as written | input that shows it | evidently intended | confidence | as-written member | corrected member |
|---|---|---|---|---|---|---|
| contracts/src/email_box.rs:169-172 | Each selected record is top-encoded into `serialized_emails`, and a top-level encode into a `ManagedBuffer` replaces the buffer's content. | An inbox of three records, `limit` 10, `offset` 0: the buffer returned holds only the third record's encoding. | The encodings of all selected records, one after another, in insertion order. | medium, not executed; rests on the codec's top-encode semantics, which are not part of this model | `Contract.EmailBox.GetInboxAsWritten` | `Contract.EmailBox.GetInbox` |
