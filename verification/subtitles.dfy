/**
  The subtitle document as the web UI sees it: an ordered sequence of
  timed text entries, with the grid's in-place text edit.
 */
module Subtitles {
  import opened Wrappers

  /** One subtitle line; times are milliseconds, as in pysubs2. */
  datatype Entry = Entry(start: int, end: int, text: string)

  type Doc = seq<Entry>

  /** Python sequence indexing: `-n <= i < n` is valid, a negative index
      counts from the end. */
  function PyIndex(n: nat, i: int): (r: Option<nat>)
    ensures r.Some? <==> -(n as int) <= i < n
    ensures r.Some? ==> r.value < n && (r.value as int == i || r.value as int == n + i)
  {
    if 0 <= i < n then Some(i)
    else if -(n as int) <= i < 0 then Some(n + i)
    else None
  }

  /** The start and end times of every entry. */
  function Timings(d: Doc): (ts: seq<(int, int)>)
    ensures |ts| == |d|
    ensures forall k :: 0 <= k < |d| ==> ts[k] == (d[k].start, d[k].end)
  {
    seq(|d|, k requires 0 <= k < |d| => (d[k].start, d[k].end))
  }

  /** `subs[i].text = t`: `None` when the index raises. */
  function SetText(d: Doc, i: int, t: string): (r: Option<Doc>)
    ensures r.Some? <==> -|d| <= i < |d|
    ensures r.Some? ==> |r.value| == |d| && Timings(r.value) == Timings(d)
    ensures r.Some? ==> forall k :: 0 <= k < |d| ==>
      r.value[k] == (if k == PyIndex(|d|, i).value then d[k].(text := t) else d[k])
  {
    match PyIndex(|d|, i)
    case None => None
    case Some(k) => Some(d[k := d[k].(text := t)])
  }

  /** Writing the same text twice is the same as writing it once. */
  lemma SetTextIdempotent(d: Doc, i: int, t: string)
    requires -|d| <= i < |d|
    ensures SetText(SetText(d, i, t).value, i, t) == SetText(d, i, t)
  {
    var once := SetText(d, i, t).value;
    var twice := SetText(once, i, t).value;
    assert |once| == |d| && PyIndex(|once|, i) == PyIndex(|d|, i);
    assert forall k :: 0 <= k < |d| ==> twice[k] == once[k];
    assert twice == once;
  }
}
