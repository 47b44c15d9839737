/**
 * The hourly strip: from the index-aligned hourly series returned by the
 * forecast service, the first at most twelve entries whose timestamp is at or
 * after the current instant, in source order.
 */
module Hourly {

  import opened Common

  /** The strip shows at most this many hours. */
  const MaxHours: nat := 12

  /**
   * The hourly series as parallel sequences. Timestamps are abstract integers
   * (instants on one clock); `isDay` is the service's 0/1 flag.
   */
  datatype Series = Series(
    time: seq<int>,
    temperature: seq<real>,
    code: seq<int>,
    precipitationProbability: seq<int>,
    isDay: seq<int>)
  {
    /** Every field sequence has one element per timestamp. */
    predicate Aligned() {
      && |temperature| == |time|
      && |code| == |time|
      && |precipitationProbability| == |time|
      && |isDay| == |time|
    }
  }

  /** The service answers with aligned series; the renderer relies on it. */
  type AlignedSeries = s: Series | s.Aligned() witness Series([], [], [], [], [])

  /** One hour of the strip, gathered from one index of every field. */
  datatype Entry = Entry(time: int, temperature: real, code: int, precipitationProbability: int, isDay: int)

  function EntryAt(h: AlignedSeries, i: nat): Entry
    requires i < |h.time|
  {
    Entry(h.time[i], h.temperature[i], h.code[i], h.precipitationProbability[i], h.isDay[i])
  }

  /** The entries at the given indices, in the order of the indices. */
  function EntriesAt(h: AlignedSeries, idx: seq<nat>): seq<Entry>
    requires forall k :: 0 <= k < |idx| ==> idx[k] < |h.time|
  {
    seq(|idx|, k requires 0 <= k < |idx| => EntryAt(h, idx[k]))
  }

  /** How many timestamps are at or after `now` (reference count, front to back). */
  function CountAtOrAfter(ts: seq<int>, now: int): nat
  {
    if |ts| == 0 then 0 else (if ts[0] >= now then 1 else 0) + CountAtOrAfter(ts[1..], now)
  }

  /**
   * The indices of the timestamps at or after `now`: exactly the qualifying
   * indices, each once, in increasing order.
   */
  function AtOrAfter(ts: seq<int>, now: int): (idx: seq<nat>)
    ensures forall k :: 0 <= k < |idx| ==> idx[k] < |ts| && ts[idx[k]] >= now
    ensures forall k, l :: 0 <= k < l < |idx| ==> idx[k] < idx[l]
    ensures forall i :: 0 <= i < |ts| && ts[i] >= now ==> i in idx
  {
    if |ts| == 0 then []
    else
      var prev := AtOrAfter(ts[..|ts| - 1], now);
      if ts[|ts| - 1] >= now then prev + [|ts| - 1] else prev
  }

  /** The display window: the first `MaxHours` qualifying entries. */
  function Window(h: AlignedSeries, now: int): seq<Entry>
  {
    var idx := AtOrAfter(h.time, now);
    EntriesAt(h, idx[..Min(MaxHours, |idx|)])
  }

  lemma {:induction false} CountSnoc(ts: seq<int>, x: int, now: int)
    ensures CountAtOrAfter(ts + [x], now) == CountAtOrAfter(ts, now) + (if x >= now then 1 else 0)
  {
    if |ts| > 0 {
      assert (ts + [x])[1..] == ts[1..] + [x];
      CountSnoc(ts[1..], x, now);
    }
  }

  /** The qualifying indices are as many as the reference count says. */
  lemma {:induction false} AtOrAfterCount(ts: seq<int>, now: int)
    ensures |AtOrAfter(ts, now)| == CountAtOrAfter(ts, now)
  {
    if |ts| > 0 {
      var init := ts[..|ts| - 1];
      AtOrAfterCount(init, now);
      assert ts == init + [ts[|ts| - 1]];
      CountSnoc(init, ts[|ts| - 1], now);
    }
  }

  /** Scanning a prefix of the timestamps finds a prefix of the qualifying indices. */
  lemma {:induction false} AtOrAfterPrefix(ts: seq<int>, j: nat, now: int)
    requires j <= |ts|
    ensures AtOrAfter(ts[..j], now) <= AtOrAfter(ts, now)
    decreases |ts| - j
  {
    if j < |ts| {
      AtOrAfterPrefix(ts, j + 1, now);
      assert ts[..j + 1][..j] == ts[..j];
    } else {
      assert ts[..j] == ts;
    }
  }

  /** One more timestamp adds its index when it qualifies. */
  lemma AtOrAfterStep(ts: seq<int>, i: nat, now: int)
    requires i < |ts|
    ensures AtOrAfter(ts[..i + 1], now) == AtOrAfter(ts[..i], now) + (if ts[i] >= now then [i] else [])
  {
    assert ts[..i + 1][..i] == ts[..i];
  }

  /** Looking up one more index appends that index's entry. */
  lemma EntriesAtSnoc(h: AlignedSeries, idx: seq<nat>, i: nat)
    requires forall k :: 0 <= k < |idx| ==> idx[k] < |h.time|
    requires i < |h.time|
    ensures EntriesAt(h, idx + [i]) == EntriesAt(h, idx) + [EntryAt(h, i)]
  {
  }

  /** The entries the loop has kept after scanning the first `i` timestamps. */
  function Kept(h: AlignedSeries, i: nat, now: int): seq<Entry>
    requires i <= |h.time|
  {
    EntriesAt(h, AtOrAfter(h.time[..i], now))
  }

  /** Scanning one more index appends its entry when it qualifies. */
  lemma KeptStep(h: AlignedSeries, i: nat, now: int)
    requires i < |h.time|
    ensures Kept(h, i + 1, now) == Kept(h, i, now) + (if h.time[i] >= now then [EntryAt(h, i)] else [])
  {
    AtOrAfterStep(h.time, i, now);
    if h.time[i] >= now {
      EntriesAtSnoc(h, AtOrAfter(h.time[..i], now), i);
    }
  }

  /** Once a prefix of the series has yielded twelve entries, they are the window. */
  lemma WindowOfFullPrefix(h: AlignedSeries, j: nat, now: int)
    requires j <= |h.time|
    requires |Kept(h, j, now)| == MaxHours
    ensures Window(h, now) == Kept(h, j, now)
  {
    AtOrAfterPrefix(h.time, j, now);
    assert AtOrAfter(h.time, now)[..MaxHours] == AtOrAfter(h.time[..j], now);
  }

  /** A scan of the whole series that kept fewer than twelve entries kept the window. */
  lemma WindowOfShortScan(h: AlignedSeries, now: int)
    requires |Kept(h, |h.time|, now)| < MaxHours
    ensures Window(h, now) == Kept(h, |h.time|, now)
  {
    assert h.time[..|h.time|] == h.time;
  }

  /**
   * The loop of the renderer: walk the series, keep the entries at or after
   * `now`, and stop as soon as twelve have been kept.
   */
  method SelectHourly(h: AlignedSeries, now: int) returns (next: seq<Entry>)
    ensures next == Window(h, now)
  {
    next := [];
    var i := 0;
    while i < |h.time|
      invariant 0 <= i <= |h.time|
      invariant |next| < MaxHours
      invariant next == Kept(h, i, now)
    {
      KeptStep(h, i, now);
      if h.time[i] >= now {
        next := next + [EntryAt(h, i)];
      }
      if |next| >= MaxHours {
        WindowOfFullPrefix(h, i + 1, now);
        return;
      }
      i := i + 1;
    }
    WindowOfShortScan(h, now);
  }

  /**
   * What the window is: the entries at the first qualifying indices, so each
   * entry's fields come from one index, the indices increase (a subsequence in
   * source order), every entry is at or after `now`, and there are
   * min(12, number of qualifying timestamps) of them.
   */
  lemma WindowShape(h: AlignedSeries, now: int)
    ensures |Window(h, now)| == Min(MaxHours, CountAtOrAfter(h.time, now))
    ensures forall k :: 0 <= k < |Window(h, now)| ==>
      Window(h, now)[k] == EntryAt(h, AtOrAfter(h.time, now)[k])
    ensures forall k :: 0 <= k < |Window(h, now)| ==> Window(h, now)[k].time >= now
  {
    AtOrAfterCount(h.time, now);
  }

  /**
   * The window misses no qualifying entry that comes before the twelfth: an
   * entry at or after `now` with fewer than twelve qualifying entries ahead of
   * it is shown.
   */
  lemma WindowComplete(h: AlignedSeries, now: int, i: nat)
    requires i < |h.time| && h.time[i] >= now
    requires CountAtOrAfter(h.time[..i], now) < MaxHours
    ensures EntryAt(h, i) in Window(h, now)
  {
    var ts := h.time;
    AtOrAfterPrefix(ts, i + 1, now);
    assert ts[..i + 1][..i] == ts[..i];
    AtOrAfterCount(ts[..i], now);
    var pos := CountAtOrAfter(ts[..i], now);
    assert AtOrAfter(ts[..i + 1], now)[pos] == i;
    assert AtOrAfter(ts, now)[pos] == i;
    WindowShape(h, now);
    assert Window(h, now)[pos] == EntryAt(h, i);
  }
}
