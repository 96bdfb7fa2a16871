/** Several uploads ticking at once. The order in which the runtime fires
    the intervals of different records is unspecified, so a schedule is any
    sequence of record indices, each one a firing of that record's ticker. */
module Schedule {
  import opened Records
  import opened Progress

  /** One emitted snapshot, tagged with the index of the record whose ticker
      sent it (the tag is for reasoning only; clients receive the snapshot). */
  datatype Emission = Emission(record: nat, snapshot: Video)

  /** The tickers of all records and the emitted-events log. */
  datatype Board = Board(tickers: seq<Ticker>, log: seq<Emission>)

  predicate InRange(sched: seq<nat>, size: nat)
  {
    forall j :: 0 <= j < |sched| ==> sched[j] < size
  }

  /** The firings of `sched`, in order, applied to the tickers `ts`. */
  function RunSchedule(ts: seq<Ticker>, sched: seq<nat>): (r: Board)
    requires InRange(sched, |ts|)
    ensures |r.tickers| == |ts|
    decreases |sched|
  {
    if sched == [] then Board(ts, [])
    else
      var prev := RunSchedule(ts, sched[..|sched| - 1]);
      var i := sched[|sched| - 1];
      var step := TickStep(prev.tickers[i]);
      Board(prev.tickers[i := step.next], prev.log + Tagged(i, step.emit))
  }

  function Tagged(i: nat, e: Option<Video>): seq<Emission>
  {
    match e
    case None => []
    case Some(v) => [Emission(i, v)]
  }

  /** How many times record k fires in `sched`. */
  function Count(sched: seq<nat>, k: nat): (c: nat)
    ensures c <= |sched|
  {
    if sched == [] then 0
    else Count(sched[..|sched| - 1], k) + (if sched[|sched| - 1] == k then 1 else 0)
  }

  /** The snapshots record k sent, in the order they were emitted. */
  function SnapshotsOf(log: seq<Emission>, k: nat): (s: seq<Video>)
    ensures |s| <= |log|
  {
    if log == [] then []
    else SnapshotsOf(log[..|log| - 1], k)
         + (if log[|log| - 1].record == k then [log[|log| - 1].snapshot] else [])
  }

  /** A firing of record i adds to record k's snapshots exactly what it
      emitted when i is k, and nothing otherwise. */
  lemma {:induction false} SnapshotsOfTagged(log: seq<Emission>, i: nat, e: Option<Video>, k: nat)
    ensures SnapshotsOf(log + Tagged(i, e), k) == SnapshotsOf(log, k) + (if i == k then Emits(e) else [])
  {
    match e
    case None =>
      assert log + Tagged(i, e) == log;
    case Some(v) =>
      assert (log + Tagged(i, e))[..|log|] == log;
  }

  /** Interleaving does not corrupt any single record: whatever the
      schedule, each record ends where its own ticker alone would after as
      many firings, and the snapshots it sent are exactly the ones its own
      ticker alone would emit. */
  lemma {:induction false} Noninterference(ts: seq<Ticker>, sched: seq<nat>, k: nat)
    requires InRange(sched, |ts|) && k < |ts|
    ensures RunSchedule(ts, sched).tickers[k] == Run(ts[k], Count(sched, k)).final
    ensures SnapshotsOf(RunSchedule(ts, sched).log, k) == Run(ts[k], Count(sched, k)).emits
    decreases |sched|
  {
    if sched != [] {
      var init := sched[..|sched| - 1];
      Noninterference(ts, init, k);
      if sched[|sched| - 1] == k {
        FiringOfRecord(ts, sched, k);
        var prev := RunSchedule(ts, init);
        OwnFiring(ts[k], Count(init, k), prev.tickers[k], SnapshotsOf(prev.log, k));
      } else {
        FiringOfOther(ts, sched, k);
      }
    }
  }

  /** The last firing of a schedule, when it is one of record k: it is one
      more tick of k's ticker, and k's snapshots grow by what it emitted. */
  lemma {:induction false} FiringOfRecord(ts: seq<Ticker>, sched: seq<nat>, k: nat)
    requires InRange(sched, |ts|) && k < |ts| && sched != [] && sched[|sched| - 1] == k
    ensures var init := sched[..|sched| - 1];
      var prev := RunSchedule(ts, init);
      && RunSchedule(ts, sched).tickers[k] == TickStep(prev.tickers[k]).next
      && SnapshotsOf(RunSchedule(ts, sched).log, k) == SnapshotsOf(prev.log, k) + Emits(TickStep(prev.tickers[k]).emit)
      && Count(sched, k) == Count(init, k) + 1
  {
    var init := sched[..|sched| - 1];
    var prev := RunSchedule(ts, init);
    SnapshotsOfTagged(prev.log, k, TickStep(prev.tickers[k]).emit, k);
  }

  /** The last firing of a schedule, when it is one of another record:
      record k's state, snapshots and count of firings are unchanged. */
  lemma {:induction false} FiringOfOther(ts: seq<Ticker>, sched: seq<nat>, k: nat)
    requires InRange(sched, |ts|) && k < |ts| && sched != [] && sched[|sched| - 1] != k
    ensures var init := sched[..|sched| - 1];
      var prev := RunSchedule(ts, init);
      && RunSchedule(ts, sched).tickers[k] == prev.tickers[k]
      && SnapshotsOf(RunSchedule(ts, sched).log, k) == SnapshotsOf(prev.log, k)
      && Count(sched, k) == Count(init, k)
  {
    var init := sched[..|sched| - 1];
    var i := sched[|sched| - 1];
    var prev := RunSchedule(ts, init);
    SnapshotsOfTagged(prev.log, i, TickStep(prev.tickers[i]).emit, k);
  }

  /** The step of `Noninterference` for a firing of record k itself. */
  lemma {:induction false} OwnFiring(t: Ticker, c: nat, cur: Ticker, sent: seq<Video>)
    requires cur == Run(t, c).final && sent == Run(t, c).emits
    ensures TickStep(cur).next == Run(t, c + 1).final
    ensures sent + Emits(TickStep(cur).emit) == Run(t, c + 1).emits
  {
  }

  /** Uploads started fresh and ticked in any interleaving: each record's
      snapshots carry its own id, their progress values are 20, 40, ...
      strictly increasing up to at most 100, there are at most five of them,
      all but the last are "processing", and once five have been sent the
      record is safe at 100 and its ticker has stopped. */
  lemma {:induction false} ScheduledRecordTrace(ts: seq<Ticker>, sched: seq<nat>, k: nat)
    requires InRange(sched, |ts|) && k < |ts|
    requires forall j :: 0 <= j < |ts| ==> ts[j] == Start(ts[j].video)
    requires forall j :: 0 <= j < |ts| ==> ts[j].video.status == Processing && ts[j].video.progress == 0
    ensures var s := SnapshotsOf(RunSchedule(ts, sched).log, k);
      && |s| <= 5
      && (forall j :: 0 <= j < |s| ==> s[j].id == ts[k].video.id && s[j].progress == 20 * (j + 1))
      && StrictlyIncreasing(s)
      && (forall j :: 0 <= j < |s| - 1 ==> s[j].status == Processing)
      && (|s| == 5 ==> s[4].status == Safe && RunSchedule(ts, sched).tickers[k].stopped)
  {
    Noninterference(ts, sched, k);
    assert WellFormed(ts[k]);
    RunTrace(ts[k], Count(sched, k));
  }
}
