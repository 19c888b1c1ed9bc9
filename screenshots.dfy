/** The view's local mirror of the platform's screenshot list: how a
    `getScreenshots` reply is normalised into records, and how one entry is
    dropped by position once the platform has deleted it. */
module Screenshots {
  import opened McqTypes

  /** One element of a `getScreenshots` reply. */
  datatype PreviewEntry = PreviewEntry(path: string, preview: string)

  /** The shapes a `getScreenshots` reply can take: a bare array, an object
      whose `previews` field may be missing, or no value at all. */
  datatype ScreenshotsReply =
    | Bare(entries: seq<PreviewEntry>)
    | Envelope(previews: Option<seq<PreviewEntry>>)
    | Nothing

  /** A screenshot as the view keeps it; `id` is derived from `path`. */
  datatype Screenshot = Screenshot(id: string, path: string, preview: string, timestamp: int)

  /** The record made for one reply entry, stamped with the receipt time. */
  function Stamp(e: PreviewEntry, now: int): (r: Screenshot)
    ensures r.id == e.path && r.path == e.path && r.preview == e.preview && r.timestamp == now
  {
    Screenshot(e.path, e.path, e.preview, now)
  }

  /** Element-wise conversion of reply entries (the `.map` of the source). */
  function ToScreenshots(es: seq<PreviewEntry>, now: int): (r: seq<Screenshot>)
    ensures |r| == |es|
    ensures forall k :: 0 <= k < |es| ==>
      r[k].id == es[k].path && r[k].path == es[k].path &&
      r[k].preview == es[k].preview && r[k].timestamp == now
  {
    if es == [] then [] else [Stamp(es[0], now)] + ToScreenshots(es[1..], now)
  }

  /** The entries a reply carries: the array itself, the envelope's
      `previews`, or nothing when that field or the whole reply is absent. */
  function Entries(reply: ScreenshotsReply): (r: seq<PreviewEntry>)
    ensures reply.Bare? ==> r == reply.entries
    ensures reply.Envelope? && reply.previews.Some? ==> r == reply.previews.value
    ensures reply.Nothing? || (reply.Envelope? && reply.previews.None?) ==> r == []
  {
    match reply
    case Bare(es) => es
    case Envelope(Some(es)) => es
    case Envelope(None) => []
    case Nothing => []
  }

  /** The new contents of the mirror for a successful reply received at `now`. */
  function Normalize(reply: ScreenshotsReply, now: int): (r: seq<Screenshot>)
    ensures |r| == |Entries(reply)| && IdsArePaths(r)
    ensures forall k :: 0 <= k < |r| ==> r[k] == Stamp(Entries(reply)[k], now)
  {
    ToScreenshots(Entries(reply), now)
  }

  /** Every record's identifier is its path. */
  predicate IdsArePaths(s: seq<Screenshot>)
  {
    forall k :: 0 <= k < |s| ==> s[k].id == s[k].path
  }

  /** A normalised reply: a bare array and an envelope's `previews` map
      element by element, in order, with `id == path`, the preview copied and
      the receipt time stamped; a reply without entries yields the empty list. */
  lemma NormalizeCases(reply: ScreenshotsReply, now: int)
    ensures var r := Normalize(reply, now);
      match reply
      case Bare(es) =>
        |r| == |es| &&
        forall k :: 0 <= k < |es| ==> r[k] == Screenshot(es[k].path, es[k].path, es[k].preview, now)
      case Envelope(Some(es)) =>
        |r| == |es| &&
        forall k :: 0 <= k < |es| ==> r[k] == Screenshot(es[k].path, es[k].path, es[k].preview, now)
      case Envelope(None) => r == []
      case Nothing => r == []
  {
  }

  /** Every normalised list satisfies the identifier invariant. */
  lemma NormalizeIdsArePaths(reply: ScreenshotsReply, now: int)
    ensures IdsArePaths(Normalize(reply, now))
  {
  }

  /** The list with the entry at position `i` filtered out, walking the list
      as `filter((_, j) => j !== i)` does; `j` counts down to the target. */
  function Without<T>(s: seq<T>, i: int): (r: seq<T>)
    ensures 0 <= i < |s| ==> r == s[..i] + s[i + 1..]
    ensures !(0 <= i < |s|) ==> r == s
  {
    if s == [] then []
    else (if i == 0 then [] else [s[0]]) + Without(s[1..], i - 1)
  }

  /** Removing a valid position shortens the list by one and keeps every
      other entry in its original relative order; an invalid position removes
      nothing. */
  lemma WithoutKeepsOrder<T>(s: seq<T>, i: int)
    ensures 0 <= i < |s| ==>
      |Without(s, i)| == |s| - 1 &&
      (forall k :: 0 <= k < i ==> Without(s, i)[k] == s[k]) &&
      (forall k :: i <= k < |s| - 1 ==> Without(s, i)[k] == s[k + 1])
    ensures !(0 <= i < |s|) ==> Without(s, i) == s
  {
  }

  /** Filtering out a position never breaks the identifier invariant. */
  lemma WithoutIdsArePaths(s: seq<Screenshot>, i: int)
    requires IdsArePaths(s)
    ensures IdsArePaths(Without(s, i))
  {
  }
}
