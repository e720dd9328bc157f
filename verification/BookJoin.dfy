/** The as-of join of book snapshots onto bars. */
module BookJoin {
  import opened Models
  import opened History
  import Sorting

  /** The bar carries the snapshot when it is not too old. */
  function Carry(bar: HistoricalBar, latest: Option<BookSnapshot>, maxAgeMs: int): HistoricalBar {
    if latest.None? || bar.closeTimeMs - latest.value.timestampMs > maxAgeMs then bar
    else
      var s := latest.value;
      bar.(bestBid := Some(s.bestBid), bestAsk := Some(s.bestAsk), bidDepth := Some(s.bidDepth),
           askDepth := Some(s.askDepth))
  }

  /** The first bar that closes at or after a time, or the number of bars. */
  function FirstClosing(bars: seq<HistoricalBar>, time: int): (k: nat)
    ensures k <= |bars|
    ensures forall i | 0 <= i < k :: bars[i].closeTimeMs < time
    ensures k < |bars| ==> bars[k].closeTimeMs >= time
  {
    if bars == [] then 0
    else
      var k := FirstClosing(bars[..|bars| - 1], time);
      assert forall i | 0 <= i < |bars| - 1 :: bars[..|bars| - 1][i] == bars[i];
      if k < |bars| - 1 || bars[|bars| - 1].closeTimeMs >= time then k else |bars|
  }

  /** The one cursor drops a snapshot unless it belongs to the first bar that closes after it. */
  predicate Credited(bars: seq<HistoricalBar>, s: BookSnapshot) {
    var k := FirstClosing(bars, s.timestampMs);
    k < |bars| && s.symbol == bars[k].symbol
  }

  /** The last credited snapshot at or before a time. */
  function LatestCredited(bars: seq<HistoricalBar>, snaps: seq<BookSnapshot>, time: int): Option<BookSnapshot> {
    if snaps == [] then None
    else
      var s := snaps[|snaps| - 1];
      if s.timestampMs <= time && Credited(bars, s) then Some(s) else LatestCredited(bars, snaps[..|snaps| - 1], time)
  }

  function ByClose(bars: seq<HistoricalBar>): seq<HistoricalBar> {
    Sorting.SortBy(bars, CloseTime)
  }

  function ByTime(snaps: seq<BookSnapshot>): seq<BookSnapshot> {
    Sorting.SortBy(snaps, SnapshotTime)
  }

  /** What the join returns for ordered bars and snapshots. */
  ghost predicate Joined(bars: seq<HistoricalBar>, snaps: seq<BookSnapshot>, maxAgeMs: int, out: seq<HistoricalBar>) {
    && |out| == |bars|
    && forall i | 0 <= i < |bars| ::
        out[i] == Carry(bars[i], LatestCredited(bars, snaps, bars[i].closeTimeMs), maxAgeMs)
  }

  /** The cursor stands behind every snapshot of the bars before `i`. */
  ghost predicate CursorAt(bars: seq<HistoricalBar>, snaps: seq<BookSnapshot>, i: nat, j: nat) {
    && j <= |snaps| && i <= |bars|
    && (i < |bars| ==> forall k | 0 <= k < j :: snaps[k].timestampMs <= bars[i].closeTimeMs)
    && (i > 0 && j < |snaps| ==> snaps[j].timestampMs > bars[i - 1].closeTimeMs)
  }

  /** The inner loop: consumes the snapshots up to the close of bar `i`. */
  method Advance(bars: seq<HistoricalBar>, snaps: seq<BookSnapshot>, i: nat, from: nat, before: Option<BookSnapshot>)
    returns (j: nat, latest: Option<BookSnapshot>)
    requires i < |bars| && CursorAt(bars, snaps, i, from)
    requires Sorting.Ascending(bars, CloseTime) && Sorting.Ascending(snaps, SnapshotTime)
    requires before == LatestCredited(bars, snaps[..from], bars[i].closeTimeMs)
    ensures from <= j <= |snaps|
    ensures forall k | 0 <= k < j :: snaps[k].timestampMs <= bars[i].closeTimeMs
    ensures j < |snaps| ==> snaps[j].timestampMs > bars[i].closeTimeMs
    ensures latest == LatestCredited(bars, snaps, bars[i].closeTimeMs)
            == LatestCredited(bars, snaps[..j], bars[i].closeTimeMs)
  {
    hide Credited, FirstClosing;
    var bar := bars[i];
    j, latest := from, before;
    while j < |snaps| && snaps[j].timestampMs <= bar.closeTimeMs
      invariant from <= j <= |snaps|
      invariant forall k | 0 <= k < j :: snaps[k].timestampMs <= bar.closeTimeMs
      invariant i > 0 && j < |snaps| ==> snaps[j].timestampMs > bars[i - 1].closeTimeMs
      invariant latest == LatestCredited(bars, snaps[..j], bar.closeTimeMs)
    {
      ConsumedHere(bars, snaps[j], i);
      assert snaps[..j + 1][..j] == snaps[..j];
      if snaps[j].symbol == bar.symbol {
        latest := Some(snaps[j]);
      }
      assert j + 1 < |snaps| ==> SnapshotTime(snaps[j]) <= SnapshotTime(snaps[j + 1]);
      j := j + 1;
    }
    LaterOnes(bars, snaps, j, bar.closeTimeMs);
  }

  method AttachBookSnapshots(bars: seq<HistoricalBar>, snaps: seq<BookSnapshot>, maxAgeMs: int)
    returns (out: seq<HistoricalBar>)
    ensures Joined(ByClose(bars), ByTime(snaps), maxAgeMs, out)
  {
    hide Credited, Carry, FirstClosing, LatestCredited;
    var bs, ss := ByClose(bars), ByTime(snaps);
    Sorting.SortAscending(bars, CloseTime);
    Sorting.SortAscending(snaps, SnapshotTime);
    hide Sorting.SortBy;
    out := [];
    var j := 0;
    var latest: Option<BookSnapshot> := None;
    assert forall time :: LatestCredited(bs, ss[..0], time) == None by { NoneYet(bs, ss); }
    for i := 0 to |bs|
      invariant CursorAt(bs, ss, i, j)
      invariant i < |bs| ==> latest == LatestCredited(bs, ss[..j], bs[i].closeTimeMs)
      invariant |out| == i && forall k | 0 <= k < i ::
                  out[k] == Carry(bs[k], LatestCredited(bs, ss, bs[k].closeTimeMs), maxAgeMs)
    {
      j, latest := Advance(bs, ss, i, j, latest);
      out := out + [Carry(bs[i], latest, maxAgeMs)];
      if i + 1 < |bs| {
        assert CloseTime(bs[i]) <= CloseTime(bs[i + 1]);
        SameUpTo(bs, ss[..j], bs[i].closeTimeMs, bs[i + 1].closeTimeMs);
      }
    }
  }

  lemma NoneYet(bars: seq<HistoricalBar>, snaps: seq<BookSnapshot>)
    ensures forall time :: LatestCredited(bars, snaps[..0], time) == None
  {
  }

  /** A snapshot the cursor meets at bar `i` is consumed there: no earlier bar closes after it. */
  lemma ConsumedHere(bars: seq<HistoricalBar>, s: BookSnapshot, i: nat)
    requires Sorting.Ascending(bars, CloseTime) && i < |bars| && s.timestampMs <= bars[i].closeTimeMs
    requires i > 0 ==> s.timestampMs > bars[i - 1].closeTimeMs
    ensures Credited(bars, s) <==> s.symbol == bars[i].symbol
  {
    var k := FirstClosing(bars, s.timestampMs);
    assert forall m | 0 <= m < i :: CloseTime(bars[m]) <= CloseTime(bars[i - 1]);
    assert k == i;
  }

  /** Snapshots after a time have no say in the latest one at that time. */
  lemma {:induction false} LaterOnes(bars: seq<HistoricalBar>, snaps: seq<BookSnapshot>, j: nat, time: int)
    requires Sorting.Ascending(snaps, SnapshotTime) && j <= |snaps| && (j < |snaps| ==> snaps[j].timestampMs > time)
    ensures LatestCredited(bars, snaps, time) == LatestCredited(bars, snaps[..j], time)
    decreases |snaps|
  {
    if j == |snaps| {
      assert snaps[..j] == snaps;
    } else {
      var front := snaps[..|snaps| - 1];
      assert SnapshotTime(snaps[j]) <= SnapshotTime(snaps[|snaps| - 1]);
      assert front[..j] == snaps[..j];
      LaterOnes(bars, front, j, time);
    }
  }

  lemma {:induction false} SameUpTo(bars: seq<HistoricalBar>, snaps: seq<BookSnapshot>, a: int, b: int)
    requires forall k | 0 <= k < |snaps| :: snaps[k].timestampMs <= a
    requires a <= b
    ensures LatestCredited(bars, snaps, a) == LatestCredited(bars, snaps, b)
  {
    hide Credited;
    if snaps != [] {
      SameUpTo(bars, snaps[..|snaps| - 1], a, b);
    }
  }

  // ---- Against the intended join ----

  /** The last snapshot of a symbol at or before a time. */
  function LatestOf(snaps: seq<BookSnapshot>, symbol: string, time: int): Option<BookSnapshot> {
    if snaps == [] then None
    else
      var s := snaps[|snaps| - 1];
      if s.timestampMs <= time && s.symbol == symbol then Some(s) else LatestOf(snaps[..|snaps| - 1], symbol, time)
  }

  /** In ordered snapshots that is one no other of the symbol at or before the time is newer than. */
  lemma {:induction false} LatestIsNewest(snaps: seq<BookSnapshot>, symbol: string, time: int)
    requires Sorting.Ascending(snaps, SnapshotTime)
    ensures
      var r := LatestOf(snaps, symbol, time);
      && (r.None? ==> forall s | s in snaps && s.symbol == symbol :: s.timestampMs > time)
      && (r.Some? ==>
            && r.value in snaps && r.value.symbol == symbol && r.value.timestampMs <= time
            && forall s | s in snaps && s.symbol == symbol && s.timestampMs <= time ::
                s.timestampMs <= r.value.timestampMs)
  {
    if snaps != [] {
      var front, last := snaps[..|snaps| - 1], snaps[|snaps| - 1];
      LatestIsNewest(front, symbol, time);
      assert forall s | s in snaps :: s in front || s == last;
      forall s | s in front ensures s.timestampMs <= last.timestampMs {
        var k :| 0 <= k < |front| && front[k] == s;
        assert SnapshotTime(snaps[k]) <= SnapshotTime(last);
      }
    }
  }

  /** Every bar carries the latest snapshot of its own symbol at or before its close, unless that is too old. */
  ghost predicate JoinedAsOf(bars: seq<HistoricalBar>, snaps: seq<BookSnapshot>, maxAgeMs: int,
                             out: seq<HistoricalBar>) {
    && |out| == |bars|
    && forall i | 0 <= i < |bars| ::
        out[i] == Carry(bars[i], LatestOf(snaps, bars[i].symbol, bars[i].closeTimeMs), maxAgeMs)
  }

  /** Neighbouring bars of different symbols close further apart than a snapshot may be old. */
  ghost predicate Separated(bars: seq<HistoricalBar>, maxAgeMs: int) {
    forall k | 0 < k < |bars| && bars[k - 1].symbol != bars[k].symbol ::
        bars[k].closeTimeMs - bars[k - 1].closeTimeMs > maxAgeMs
  }

  /** Separated bars within the allowed age of each other share their symbol. */
  lemma {:induction false} NearBarsShareSymbol(bars: seq<HistoricalBar>, maxAgeMs: int, i: nat, j: nat)
    requires Sorting.Ascending(bars, CloseTime) && Separated(bars, maxAgeMs)
    requires i <= j < |bars| && bars[j].closeTimeMs - bars[i].closeTimeMs <= maxAgeMs
    ensures bars[i].symbol == bars[j].symbol
    decreases j
  {
    if i < j {
      assert CloseTime(bars[i]) <= CloseTime(bars[j - 1]) <= CloseTime(bars[j]);
      NearBarsShareSymbol(bars, maxAgeMs, i, j - 1);
    }
  }

  /** A snapshot fresh enough for bar `i` is credited exactly when it is of the bar's symbol. */
  lemma FreshIsCredited(bars: seq<HistoricalBar>, maxAgeMs: int, i: nat, s: BookSnapshot)
    requires Sorting.Ascending(bars, CloseTime) && Separated(bars, maxAgeMs) && i < |bars|
    requires s.timestampMs <= bars[i].closeTimeMs && bars[i].closeTimeMs - s.timestampMs <= maxAgeMs
    ensures Credited(bars, s) <==> s.symbol == bars[i].symbol
  {
    hide Separated;
    NearBarsShareSymbol(bars, maxAgeMs, FirstClosing(bars, s.timestampMs), i);
  }

  /** On separated bars both choices agree on everything fresh. */
  lemma {:induction false} ChoicesAgree(bars: seq<HistoricalBar>, snaps: seq<BookSnapshot>, maxAgeMs: int, i: nat)
    requires Sorting.Ascending(bars, CloseTime) && Sorting.Ascending(snaps, SnapshotTime) && Separated(bars, maxAgeMs)
             && i < |bars|
    ensures Carry(bars[i], LatestCredited(bars, snaps, bars[i].closeTimeMs), maxAgeMs)
         == Carry(bars[i], LatestOf(snaps, bars[i].symbol, bars[i].closeTimeMs), maxAgeMs)
    decreases |snaps|
  {
    hide Credited, Separated;
    if snaps != [] {
      var front, last := snaps[..|snaps| - 1], snaps[|snaps| - 1];
      var close := bars[i].closeTimeMs;
      ChoicesAgree(bars, front, maxAgeMs, i);
      if last.timestampMs <= close && close - last.timestampMs <= maxAgeMs {
        FreshIsCredited(bars, maxAgeMs, i, last);
      } else if last.timestampMs <= close {
        StaleStays(bars, snaps, maxAgeMs, i);
      }
    }
  }

  /** When even the newest snapshot is too old, neither choice is carried. */
  lemma StaleStays(bars: seq<HistoricalBar>, snaps: seq<BookSnapshot>, maxAgeMs: int, i: nat)
    requires Sorting.Ascending(snaps, SnapshotTime) && i < |bars| && snaps != []
    requires bars[i].closeTimeMs - snaps[|snaps| - 1].timestampMs > maxAgeMs
    ensures Carry(bars[i], LatestCredited(bars, snaps, bars[i].closeTimeMs), maxAgeMs) == bars[i]
    ensures Carry(bars[i], LatestOf(snaps, bars[i].symbol, bars[i].closeTimeMs), maxAgeMs) == bars[i]
  {
    CreditedListed(bars, snaps, bars[i].closeTimeMs);
    LatestIsNewest(snaps, bars[i].symbol, bars[i].closeTimeMs);
    OldestToNewest(snaps);
    hide LatestCredited, LatestOf;
  }

  lemma {:induction false} CreditedListed(bars: seq<HistoricalBar>, snaps: seq<BookSnapshot>, time: int)
    ensures LatestCredited(bars, snaps, time).Some? ==> LatestCredited(bars, snaps, time).value in snaps
  {
    hide Credited;
    if snaps != [] {
      CreditedListed(bars, snaps[..|snaps| - 1], time);
    }
  }

  lemma OldestToNewest(snaps: seq<BookSnapshot>)
    requires Sorting.Ascending(snaps, SnapshotTime) && snaps != []
    ensures forall s | s in snaps :: s.timestampMs <= snaps[|snaps| - 1].timestampMs
  {
    forall s | s in snaps ensures s.timestampMs <= snaps[|snaps| - 1].timestampMs {
      var k :| 0 <= k < |snaps| && snaps[k] == s;
      assert SnapshotTime(snaps[k]) <= SnapshotTime(snaps[|snaps| - 1]);
    }
  }

  lemma SeparatedJoins(bars: seq<HistoricalBar>, snaps: seq<BookSnapshot>, maxAgeMs: int, out: seq<HistoricalBar>)
    requires Sorting.Ascending(bars, CloseTime) && Sorting.Ascending(snaps, SnapshotTime) && Separated(bars, maxAgeMs)
    requires Joined(bars, snaps, maxAgeMs, out)
    ensures JoinedAsOf(bars, snaps, maxAgeMs, out)
  {
    hide LatestCredited, LatestOf, Carry, Separated;
    forall i | 0 <= i < |bars|
      ensures out[i] == Carry(bars[i], LatestOf(snaps, bars[i].symbol, bars[i].closeTimeMs), maxAgeMs)
    {
      ChoicesAgree(bars, snaps, maxAgeMs, i);
    }
  }

  /** A price neither bar shows. */
  function OtherBid(a: Option<real>, b: Option<real>): (r: real)
    ensures Some(r) != a && Some(r) != b
  {
    if a != Some(1.0) && b != Some(1.0) then 1.0 else if a != Some(2.0) && b != Some(2.0) then 2.0 else 3.0
  }

  /** Two near neighbours of different symbols: some snapshot is then credited to the wrong bar or lost. */
  lemma MixedNeighboursGoWrong(bars: seq<HistoricalBar>, maxAgeMs: int, k: nat)
    returns (snaps: seq<BookSnapshot>, out: seq<HistoricalBar>)
    requires Sorting.Ascending(bars, CloseTime) && 0 < k < |bars| && bars[k - 1].symbol != bars[k].symbol
    requires bars[k].closeTimeMs - bars[k - 1].closeTimeMs <= maxAgeMs
    ensures Sorting.Ascending(snaps, SnapshotTime) && Joined(bars, snaps, maxAgeMs, out)
            && !JoinedAsOf(bars, snaps, maxAgeMs, out)
  {
    hide Credited, FirstClosing;
    var a, b := bars[k - 1], bars[k];
    var s := BookSnapshot(a.symbol, a.closeTimeMs, OtherBid(a.bestBid, b.bestBid), 1.0, 1.0, 1.0);
    snaps := [s];
    assert snaps[..0] == [];
    out := seq(|bars|, i requires 0 <= i < |bars| =>
                         Carry(bars[i], LatestCredited(bars, snaps, bars[i].closeTimeMs), maxAgeMs));
    assert CloseTime(a) <= CloseTime(b);
    if Credited(bars, s) {
      assert LatestCredited(bars, snaps, b.closeTimeMs) == Some(s) && LatestOf(snaps, b.symbol, b.closeTimeMs) == None;
      assert out[k] != Carry(b, LatestOf(snaps, b.symbol, b.closeTimeMs), maxAgeMs);
    } else {
      assert LatestCredited(bars, snaps, a.closeTimeMs) == None && LatestOf(snaps, a.symbol, a.closeTimeMs) == Some(s);
      assert out[k - 1] != Carry(a, LatestOf(snaps, a.symbol, a.closeTimeMs), maxAgeMs);
    }
  }

  ghost predicate AlwaysAsOf(bars: seq<HistoricalBar>, maxAgeMs: int) {
    forall snaps, out | Sorting.Ascending(snaps, SnapshotTime) && Joined(bars, snaps, maxAgeMs, out) ::
        JoinedAsOf(bars, snaps, maxAgeMs, out)
  }

  lemma SeparatedAlways(bars: seq<HistoricalBar>, maxAgeMs: int)
    requires Sorting.Ascending(bars, CloseTime) && Separated(bars, maxAgeMs)
    ensures AlwaysAsOf(bars, maxAgeMs)
  {
    hide Separated, Joined, JoinedAsOf;
    forall snaps, out | Sorting.Ascending(snaps, SnapshotTime) && Joined(bars, snaps, maxAgeMs, out)
      ensures JoinedAsOf(bars, snaps, maxAgeMs, out)
    {
      SeparatedJoins(bars, snaps, maxAgeMs, out);
    }
  }

  lemma MixedNotAlways(bars: seq<HistoricalBar>, maxAgeMs: int, k: nat)
    requires Sorting.Ascending(bars, CloseTime) && 0 < k < |bars| && bars[k - 1].symbol != bars[k].symbol
    requires bars[k].closeTimeMs - bars[k - 1].closeTimeMs <= maxAgeMs
    ensures !AlwaysAsOf(bars, maxAgeMs)
  {
    hide Joined, JoinedAsOf;
    var snaps, out := MixedNeighboursGoWrong(bars, maxAgeMs, k);
  }

  /** The join is the intended one for all snapshots exactly when the bars are separated. */
  lemma AsOfIffSeparated(bars: seq<HistoricalBar>, maxAgeMs: int)
    requires Sorting.Ascending(bars, CloseTime)
    ensures AlwaysAsOf(bars, maxAgeMs) <==> Separated(bars, maxAgeMs)
  {
    hide AlwaysAsOf;
    if Separated(bars, maxAgeMs) {
      SeparatedAlways(bars, maxAgeMs);
    } else {
      var k :| 0 < k < |bars| && bars[k - 1].symbol != bars[k].symbol
        && bars[k].closeTimeMs - bars[k - 1].closeTimeMs <= maxAgeMs;
      MixedNotAlways(bars, maxAgeMs, k);
    }
  }

  /** Bars of one symbol always get the intended join, whatever their order and the snapshots' were. */
  lemma SingleSymbolJoins(bars: seq<HistoricalBar>, snaps: seq<BookSnapshot>, maxAgeMs: int, out: seq<HistoricalBar>)
    requires forall i | 0 <= i < |bars| :: bars[i].symbol == bars[0].symbol
    requires Joined(ByClose(bars), ByTime(snaps), maxAgeMs, out)
    ensures JoinedAsOf(ByClose(bars), ByTime(snaps), maxAgeMs, out)
    ensures |out| == |bars|
  {
    Sorting.SortAscending(bars, CloseTime);
    Sorting.SortAscending(snaps, SnapshotTime);
    Sorting.SortedMembers(bars, CloseTime);
    hide Sorting.SortBy;
    var bs := ByClose(bars);
    forall i | 0 <= i < |bs| ensures bs[i].symbol == bars[0].symbol {
      assert bs[i] in bars;
      var k :| 0 <= k < |bars| && bars[k] == bs[i];
      assert bars[k].symbol == bars[0].symbol;
    }
    SeparatedJoins(bs, ByTime(snaps), maxAgeMs, out);
  }

  // ---- No future data ----

  /** The snapshots at or before a time, wherever they stand. */
  function UpTo(snaps: seq<BookSnapshot>, time: int): seq<BookSnapshot> {
    if snaps == [] then []
    else
      var front, last := UpTo(snaps[..|snaps| - 1], time), snaps[|snaps| - 1];
      if last.timestampMs <= time then front + [last] else front
  }

  /** The choice once one more snapshot is known. */
  function Newer(bars: seq<HistoricalBar>, latest: Option<BookSnapshot>, s: BookSnapshot,
                 time: int): Option<BookSnapshot> {
    if s.timestampMs <= time && Credited(bars, s) && (latest.None? || latest.value.timestampMs <= s.timestampMs)
    then Some(s) else latest
  }

  lemma {:induction false} InsertedCredited(bars: seq<HistoricalBar>, snaps: seq<BookSnapshot>, s: BookSnapshot,
                                            time: int)
    requires Sorting.Ascending(snaps, SnapshotTime)
    ensures LatestCredited(bars, Sorting.Insert(snaps, s, SnapshotTime), time)
            == Newer(bars, LatestCredited(bars, snaps, time), s, time)
  {
    hide Credited;
    if snaps == [] {
      assert [s][..0] == [];
    } else {
      var front, last := snaps[..|snaps| - 1], snaps[|snaps| - 1];
      if SnapshotTime(last) <= SnapshotTime(s) {
        assert (snaps + [s])[..|snaps|] == snaps;
        CreditedListed(bars, snaps, time);
        OldestToNewest(snaps);
      } else {
        InsertedCredited(bars, front, s, time);
        var r := Sorting.Insert(front, s, SnapshotTime);
        assert (r + [last])[..|r|] == r;
      }
    }
  }

  /** Snapshots after a time never affect the choice for it, wherever they stand in the input and whatever the
      bars: it is the choice among those at or before it. */
  lemma {:induction false} FutureSnapshotsIgnored(bars: seq<HistoricalBar>, snaps: seq<BookSnapshot>, time: int)
    ensures LatestCredited(bars, ByTime(snaps), time) == LatestCredited(bars, ByTime(UpTo(snaps, time)), time)
  {
    hide Credited, Sorting.Insert;
    if snaps != [] {
      var front, last := snaps[..|snaps| - 1], snaps[|snaps| - 1];
      FutureSnapshotsIgnored(bars, front, time);
      Sorting.SortAscending(front, SnapshotTime);
      Sorting.SortAscending(UpTo(front, time), SnapshotTime);
      InsertedCredited(bars, ByTime(front), last, time);
      if last.timestampMs <= time {
        assert (UpTo(front, time) + [last])[..|UpTo(front, time)|] == UpTo(front, time);
        InsertedCredited(bars, ByTime(UpTo(front, time)), last, time);
      }
    }
  }

  /** So two inputs that differ only in later snapshots give a bar the same book. */
  lemma SameUpToSameChoice(bars: seq<HistoricalBar>, snaps: seq<BookSnapshot>, others: seq<BookSnapshot>, time: int)
    requires UpTo(snaps, time) == UpTo(others, time)
    ensures LatestCredited(bars, ByTime(snaps), time) == LatestCredited(bars, ByTime(others), time)
  {
    hide ByTime, LatestCredited, UpTo;
    FutureSnapshotsIgnored(bars, snaps, time);
    FutureSnapshotsIgnored(bars, others, time);
  }

  // ---- The join in fields ----

  /** The snapshot is of the symbol, at or before the close, at most so old, and no other such one is newer. */
  ghost predicate NewestFor(snaps: seq<BookSnapshot>, bar: HistoricalBar, maxAgeMs: int, s: BookSnapshot) {
    && s in snaps && s.symbol == bar.symbol && bar.closeTimeMs - maxAgeMs <= s.timestampMs <= bar.closeTimeMs
    && forall t | t in snaps && t.symbol == bar.symbol && t.timestampMs <= bar.closeTimeMs ::
        t.timestampMs <= s.timestampMs
  }

  /** The bar as it was, but for the four book fields, which are the snapshot's. */
  predicate CarriesBook(bar: HistoricalBar, out: HistoricalBar, s: BookSnapshot) {
    && out.bestBid == Some(s.bestBid) && out.bestAsk == Some(s.bestAsk)
    && out.bidDepth == Some(s.bidDepth) && out.askDepth == Some(s.askDepth)
    && out == bar.(bestBid := out.bestBid, bestAsk := out.bestAsk, bidDepth := out.bidDepth, askDepth := out.askDepth)
  }

  /** In an as-of join a bar carries the book of a newest fresh snapshot of its symbol, and is left as it is exactly
      when there is no fresh one. */
  lemma AsOfBooks(bars: seq<HistoricalBar>, snaps: seq<BookSnapshot>, maxAgeMs: int, out: seq<HistoricalBar>, i: nat)
    requires Sorting.Ascending(snaps, SnapshotTime) && JoinedAsOf(bars, snaps, maxAgeMs, out) && i < |bars|
    ensures
      if exists s :: NewestFor(snaps, bars[i], maxAgeMs, s)
      then exists s :: NewestFor(snaps, bars[i], maxAgeMs, s) && CarriesBook(bars[i], out[i], s)
      else out[i] == bars[i]
  {
    var bar := bars[i];
    LatestIsNewest(snaps, bar.symbol, bar.closeTimeMs);
    hide LatestOf;
    var latest := LatestOf(snaps, bar.symbol, bar.closeTimeMs);
    if latest.Some? && bar.closeTimeMs - latest.value.timestampMs <= maxAgeMs {
      assert NewestFor(snaps, bar, maxAgeMs, latest.value) && CarriesBook(bar, out[i], latest.value);
    } else {
      forall s ensures !NewestFor(snaps, bar, maxAgeMs, s) {
      }
    }
  }

  /** The same for the bars and snapshots of one symbol as they come in, in any order. */
  lemma SingleSymbolBooks(bars: seq<HistoricalBar>, snaps: seq<BookSnapshot>, maxAgeMs: int, out: seq<HistoricalBar>,
                          i: nat)
    requires forall k | 0 <= k < |bars| :: bars[k].symbol == bars[0].symbol
    requires Joined(ByClose(bars), ByTime(snaps), maxAgeMs, out) && i < |bars|
    ensures |ByClose(bars)| == |out| == |bars|
    ensures
      var bar := ByClose(bars)[i];
      if exists s :: NewestFor(snaps, bar, maxAgeMs, s)
      then exists s :: NewestFor(snaps, bar, maxAgeMs, s) && CarriesBook(bar, out[i], s)
      else out[i] == bar
  {
    SingleSymbolJoins(bars, snaps, maxAgeMs, out);
    Sorting.SortAscending(snaps, SnapshotTime);
    Sorting.SortedMembers(snaps, SnapshotTime);
    assert ByTime(snaps) == Sorting.SortBy(snaps, SnapshotTime);
    hide ByTime, Joined, Carry, LatestOf, CarriesBook;
    AsOfBooks(ByClose(bars), ByTime(snaps), maxAgeMs, out, i);
    var bar := ByClose(bars)[i];
    hide JoinedAsOf;
    forall s ensures NewestFor(snaps, bar, maxAgeMs, s) <==> NewestFor(ByTime(snaps), bar, maxAgeMs, s) {
    }
    hide NewestFor;
  }
}
