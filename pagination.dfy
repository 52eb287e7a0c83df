/** The slice `get_inbox` selects from an inbox of `total` records for a
    `limit` and an `offset`, stated over unbounded integers. */
module Pagination {
  import opened EmailTypes

  /** The clamped bounds `[start, end)` of the page: a window that never leaves
      the list and never holds more than `limit` records. */
  function Window(total: nat, limit: nat, offset: nat): (w: (nat, nat))
    ensures w.0 <= w.1 <= total
    ensures w.1 - w.0 <= limit
    ensures offset < total ==> w.0 == offset
    ensures offset >= total ==> w.0 == w.1 == total
    ensures offset >= total || limit == 0 ==> w.0 == w.1
    ensures offset + limit <= total ==> w.1 - w.0 == limit
    ensures offset < total < offset + limit ==> w.1 == total
  {
    (Min(offset, total), Min(offset + limit, total))
  }

  /** The records of the page, in insertion order. */
  function Page<T>(s: seq<T>, limit: nat, offset: nat): (r: seq<T>)
    ensures |r| <= limit
    ensures offset >= |s| || limit == 0 ==> r == []
    ensures offset < |s| ==> |r| == Min(limit, |s| - offset)
    ensures forall i :: 0 <= i < |r| ==> r[i] == s[offset + i]
  {
    var (start, end) := Window(|s|, limit, offset);
    s[start..end]
  }

  /** Two adjacent pages read back to back equal the one page that spans both. */
  lemma PagesConcat<T>(s: seq<T>, a: nat, b: nat, offset: nat)
    ensures Page(s, a, offset) + Page(s, b, offset + a) == Page(s, a + b, offset)
  {
  }

  /** Appending to the list leaves every page that lies wholly inside the old
      list as it was: the inbox is append-only, so a page once read is stable. */
  lemma PageStableUnderAppend<T>(s: seq<T>, x: T, limit: nat, offset: nat)
    requires offset + limit <= |s|
    ensures Page(s + [x], limit, offset) == Page(s, limit, offset)
  {
  }

  /** Reading pages of `size` records from `offset` until the list is exhausted. */
  function ReadFrom<T>(s: seq<T>, size: nat, offset: nat): seq<T>
    requires size > 0
    decreases |s| - offset
  {
    if offset >= |s| then []
    else Page(s, size, offset) + ReadFrom(s, size, offset + size)
  }

  /** Paging from `offset` with any positive page size returns the list's
      suffix from `offset`: no record is skipped or repeated. */
  lemma {:induction false} ReadFromIsSuffix<T>(s: seq<T>, size: nat, offset: nat)
    requires size > 0 && offset <= |s|
    ensures ReadFrom(s, size, offset) == s[offset..]
    decreases |s| - offset
  {
    if offset < |s| {
      var p := Page(s, size, offset);
      if offset + size <= |s| {
        ReadFromIsSuffix(s, size, offset + size);
        assert p == s[offset..offset + size];
        assert s[offset..] == s[offset..offset + size] + s[offset + size..];
      } else {
        assert p == s[offset..];
        assert ReadFrom(s, size, offset + size) == [];
      }
    }
  }

  /** Hence reading every page from offset 0 returns the whole inbox in order. */
  lemma ReadAllPages<T>(s: seq<T>, size: nat)
    requires size > 0
    ensures ReadFrom(s, size, 0) == s
  {
    ReadFromIsSuffix(s, size, 0);
  }
}
