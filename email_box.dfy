/** The email box contract: its storage (two size limits and, per address,
    an inbox and a sent list), its endpoints and its views. The caller and the
    block timestamp, which the contract asks the chain for, are parameters. */
module Contract {
  import opened EmailTypes
  import opened SizeLimits
  import opened RecordFactory
  import opened Pagination

  /** Every record of `s` is addressed to `user`. */
  predicate AddressedTo(s: seq<EmailSummary>, user: Address) {
    forall i :: 0 <= i < |s| ==> s[i].to == user
  }

  /** Every record of `s` was sent by `user`. */
  predicate SentBy(s: seq<EmailSummary>, user: Address) {
    forall i :: 0 <= i < |s| ==> s[i].from == user
  }

  /** No preview in `s` is longer than the largest preview limit the contract
      can hold. */
  predicate PreviewsBounded(s: seq<EmailSummary>) {
    forall i :: 0 <= i < |s| ==> |s[i].preview| <= ValidPreviewRange().hi
  }

  class EmailBox {
    /** The deployer, the only caller `#[only_owner]` lets through. */
    const owner: Address
    /** Storage `maxPreviewSize`. */
    var maxPreviewSize: u32
    /** Storage `maxContentSize`. */
    var maxContentSize: u32
    /** Storage `inbox`: the records received by each address, oldest first. */
    var inbox: map<Address, seq<EmailSummary>>
    /** Storage `sent`: the records sent by each address, oldest first. */
    var sent: map<Address, seq<EmailSummary>>
    /** The `email_sent` events emitted so far, one per successful send. */
    ghost var events: seq<EmailSummary>

    /** The inbox of `user`; an address never written to has an empty list. */
    function InboxOf(user: Address): seq<EmailSummary>
      reads this
    {
      if user in inbox then inbox[user] else []
    }

    /** The sent list of `user`. */
    function SentOf(user: Address): seq<EmailSummary>
      reads this
    {
      if user in sent then sent[user] else []
    }

    /** What every reachable state satisfies: both limits inside their valid
        ranges, and each list holds only records for its own address. */
    ghost predicate Valid()
      reads this
    {
      && ValidLimits(maxPreviewSize, maxContentSize)
      && (forall user :: user in inbox ==> AddressedTo(inbox[user], user) && PreviewsBounded(inbox[user]))
      && (forall user :: user in sent ==> SentBy(sent[user], user) && PreviewsBounded(sent[user]))
    }

    /** `init`, run once at deployment by `deployer`: default limits, empty lists. */
    constructor (deployer: Address)
      ensures Valid()
      ensures owner == deployer
      ensures maxPreviewSize == 100 && maxContentSize == 5242880
      ensures inbox == map[] && sent == map[] && events == []
    {
      DefaultsValid(deployer);
      owner := deployer;
      maxPreviewSize := DEFAULT_PREVIEW_SIZE;
      maxContentSize := DEFAULT_CONTENT_SIZE;
      inbox := map[];
      sent := map[];
      events := [];
    }

    /** Endpoint `sendEmail`, called by `caller` in a block with `timestamp`.
        On success the same summary is appended to the recipient's inbox and
        to the sender's sent list and nothing else changes; on failure the call
        reverts and no state changes. */
    method SendEmail(caller: Address, timestamp: u64, to: Address, subject: Bytes,
                     fullContent: Bytes, ipfsHash: Bytes) returns (r: Result<EmailSummary>)
      requires Valid()
      modifies this
      ensures Valid()
      ensures r == BuildSummary(caller, to, subject, fullContent, ipfsHash, timestamp,
                                old(maxPreviewSize), old(maxContentSize))
      ensures maxPreviewSize == old(maxPreviewSize) && maxContentSize == old(maxContentSize)
      ensures r.Err? ==> inbox == old(inbox) && sent == old(sent) && events == old(events)
      ensures r.Ok? ==>
        && inbox == old(inbox)[to := old(InboxOf(to)) + [r.value]]
        && sent == old(sent)[caller := old(SentOf(caller)) + [r.value]]
        && events == old(events) + [r.value]
      ensures r.Ok? ==>
        && InboxOf(to) == old(InboxOf(to)) + [r.value]
        && SentOf(caller) == old(SentOf(caller)) + [r.value]
        && (forall user :: user != to ==> InboxOf(user) == old(InboxOf(user)))
        && (forall user :: user != caller ==> SentOf(user) == old(SentOf(user)))
    {
      var contentLen := |fullContent|;
      if contentLen > maxContentSize {
        return Err(ContentTooLarge);
      }
      var preview := if contentLen > maxPreviewSize then fullContent[..maxPreviewSize] else fullContent;
      var summary := EmailSummary(caller, to, subject, preview, timestamp, ipfsHash);
      inbox := inbox[to := InboxOf(to) + [summary]];
      sent := sent[caller := SentOf(caller) + [summary]];
      events := events + [summary];
      r := Ok(summary);
    }

    /** Endpoint `setMaxPreviewSize`: the owner may store a size in [50, 512000]. */
    method SetMaxPreviewSize(caller: Address, size: u32) returns (r: Outcome)
      requires Valid()
      modifies this
      ensures Valid()
      ensures r == CheckPreviewSize(caller, owner, size)
      ensures maxPreviewSize == if r == Pass then size else old(maxPreviewSize)
      ensures maxContentSize == old(maxContentSize)
      ensures inbox == old(inbox) && sent == old(sent) && events == old(events)
    {
      if caller != owner {
        return Fail(Unauthorized);
      }
      var range := ValidPreviewRange();
      if !(size >= range.lo && size <= range.hi) {
        return Fail(PreviewSizeOutOfRange);
      }
      maxPreviewSize := size;
      r := Pass;
    }

    /** Endpoint `setMaxContentSize`: the owner may store a size in [1, 5242880]. */
    method SetMaxContentSize(caller: Address, size: u32) returns (r: Outcome)
      requires Valid()
      modifies this
      ensures Valid()
      ensures r == CheckContentSize(caller, owner, size)
      ensures maxContentSize == if r == Pass then size else old(maxContentSize)
      ensures maxPreviewSize == old(maxPreviewSize)
      ensures inbox == old(inbox) && sent == old(sent) && events == old(events)
    {
      if caller != owner {
        return Fail(Unauthorized);
      }
      var range := ValidContentRange();
      if !(size >= range.lo && size <= range.hi) {
        return Fail(ContentSizeOutOfRange);
      }
      maxContentSize := size;
      r := Pass;
    }

    /** View `getMaxPreviewSize`. */
    method GetMaxPreviewSize() returns (size: u32)
      requires Valid()
      ensures size == maxPreviewSize
      ensures 50 <= size <= 512000
    {
      size := maxPreviewSize;
    }

    /** View `getMaxContentSize`. */
    method GetMaxContentSize() returns (size: u32)
      requires Valid()
      ensures size == maxContentSize
      ensures 1 <= size <= 5242880
    {
      size := maxContentSize;
    }

    /** View `getInbox`, as evidently intended: the caller's own records
        `[start, end)` with `start = min(offset, total)` and
        `end = min(offset + limit, total)`, in insertion order, collected by
        skipping `start` records and taking `end - start`, each record's
        encoding appended to the returned buffer. The buffer is modelled by the
        records whose encodings it holds. The sum `offset + limit` is an
        unchecked `u32` addition and `total` is cast to `u32`, hence the two
        bounds required. */
    method GetInbox(caller: Address, limit: u32, offset: u32) returns (emails: seq<EmailSummary>)
      requires Valid()
      requires offset + limit <= MAX_U32
      requires |InboxOf(caller)| <= MAX_U32
      ensures emails == Page(InboxOf(caller), limit, offset)
      ensures |emails| <= limit
      ensures forall i :: 0 <= i < |emails| ==> emails[i].to == caller
    {
      var list := InboxOf(caller);
      var total: u32 := |list|;
      var start: u32 := Min(offset, total);
      var end: u32 := Min(offset + limit, total);
      var count := end - start;
      emails := [];
      var taken := 0;
      while taken < count
        invariant 0 <= taken <= count
        invariant emails == list[start..start + taken]
      {
        emails := emails + [list[start + taken]];
        taken := taken + 1;
      }
    }

    /** View `getInbox` as written: the same selection, but each record is
        top-encoded into the buffer, and a top-level encode replaces what the
        buffer held. Only the last selected record survives. */
    method GetInboxAsWritten(caller: Address, limit: u32, offset: u32) returns (serialized: seq<EmailSummary>)
      requires Valid()
      requires offset + limit <= MAX_U32
      requires |InboxOf(caller)| <= MAX_U32
      ensures var page := Page(InboxOf(caller), limit, offset);
        serialized == if page == [] then [] else [page[|page| - 1]]
    {
      var list := InboxOf(caller);
      var total: u32 := |list|;
      var start: u32 := Min(offset, total);
      var end: u32 := Min(offset + limit, total);
      var count := end - start;
      serialized := [];
      var taken := 0;
      while taken < count
        invariant 0 <= taken <= count
        invariant serialized == if taken == 0 then [] else [list[start + taken - 1]]
      {
        serialized := [list[start + taken]];
        taken := taken + 1;
      }
    }
  }

  /** "Hello, World!" as bytes. */
  const HELLO: Bytes := [0x48, 0x65, 0x6c, 0x6c, 0x6f, 0x2c, 0x20, 0x57, 0x6f, 0x72, 0x6c, 0x64, 0x21]

  /** The deploy scenario: right after `init` the views report the defaults. */
  method DeployScenario(deployer: Address) returns (preview: u32, content: u32)
    ensures preview == 100 && content == 5242880
  {
    var box := new EmailBox(deployer);
    preview := box.GetMaxPreviewSize();
    content := box.GetMaxContentSize();
  }

  /** The send scenario: the owner sends "Hello, World!" as subject, content and
      hash to a second user. The 13-byte content is under the 100-byte preview
      limit, so it is stored whole; each party's list then holds one record. */
  method SendScenario(owner: Address, user2: Address, timestamp: u64)
    returns (r: Result<EmailSummary>, inboxLen: nat, sentLen: nat, page: seq<EmailSummary>)
    requires owner != user2
    ensures r == Ok(EmailSummary(owner, user2, HELLO, HELLO, timestamp, HELLO))
    ensures inboxLen == 1 && sentLen == 1
    ensures page == [r.value]
  {
    var box := new EmailBox(owner);
    r := box.SendEmail(owner, timestamp, user2, HELLO, HELLO, HELLO);
    inboxLen := |box.InboxOf(user2)|;
    sentLen := |box.SentOf(owner)|;
    page := box.GetInbox(user2, 10, 0);
  }

  /** Three emails reach one inbox; a page of 10 from offset 0 should return
      all three. The view as written returns only the third, the corrected
      view returns all three in order. */
  method OverwriteScenario(owner: Address, user2: Address, timestamp: u64)
    returns (asWritten: seq<EmailSummary>, corrected: seq<EmailSummary>)
    ensures |asWritten| == 1 && |corrected| == 3
    ensures asWritten == [corrected[2]]
  {
    var box := new EmailBox(owner);
    var r1 := box.SendEmail(owner, timestamp, user2, HELLO, HELLO, HELLO);
    var r2 := box.SendEmail(owner, timestamp, user2, HELLO, HELLO, HELLO);
    var r3 := box.SendEmail(owner, timestamp, user2, HELLO, HELLO, HELLO);
    assert |box.InboxOf(user2)| == 3;
    asWritten := box.GetInboxAsWritten(user2, 10, 0);
    corrected := box.GetInbox(user2, 10, 0);
  }
}
