/** How `send_email` turns its arguments into an `EmailSummary`: the content
    size check against the current limit and the byte-prefix preview. */
module RecordFactory {
  import opened EmailTypes

  /** The preview of `content` under a preview limit of `maxPreview` bytes:
      content longer than the limit is cut to its first `maxPreview` bytes
      (possibly splitting a multi-byte character), shorter content is copied. */
  function Preview(content: Bytes, maxPreview: nat): (p: Bytes)
    ensures |p| == Min(maxPreview, |content|)
    ensures p <= content
    ensures |content| <= maxPreview ==> p == content
  {
    if |content| > maxPreview then content[..maxPreview] else content
  }

  /** Cutting an already cut preview again under the same limit changes nothing. */
  lemma PreviewIdempotent(content: Bytes, maxPreview: nat)
    ensures Preview(Preview(content, maxPreview), maxPreview) == Preview(content, maxPreview)
  {
  }

  /** A larger preview limit yields a preview that extends the smaller one: a
      later change of the limit never contradicts previews already stored. */
  lemma PreviewMonotone(content: Bytes, small: nat, large: nat)
    requires small <= large
    ensures Preview(content, small) <= Preview(content, large)
    ensures Preview(content, small) == Preview(Preview(content, large), small)
  {
  }

  /** The preview determines the whole content exactly when the content fits
      within the preview limit. */
  lemma PreviewLosslessIff(content: Bytes, maxPreview: nat)
    ensures Preview(content, maxPreview) == content <==> |content| <= maxPreview
  {
  }

  /** Record construction in `send_email`: rejects content longer than the
      content limit (a length equal to the limit is accepted), otherwise
      builds the summary with the given fields and the bounded preview. */
  function BuildSummary(from: Address, to: Address, subject: Bytes, fullContent: Bytes,
                        ipfsHash: Bytes, timestamp: u64, maxPreview: u32, maxContent: u32)
    : (r: Result<EmailSummary>)
    ensures r.Err? <==> |fullContent| > maxContent
    ensures r.Err? ==> r.error == ContentTooLarge && r.error.Message() == "Message too large!"
    ensures r.Ok? ==>
      && r.value.from == from && r.value.to == to
      && r.value.subject == subject && r.value.ipfsHash == ipfsHash
      && r.value.timestamp == timestamp
      && r.value.preview <= fullContent
      && |r.value.preview| == Min(maxPreview, |fullContent|)
  {
    if |fullContent| > maxContent then Err(ContentTooLarge)
    else Ok(EmailSummary(from, to, subject, Preview(fullContent, maxPreview), timestamp, ipfsHash))
  }
}
