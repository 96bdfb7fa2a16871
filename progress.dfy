/** The per-record progress ticker of the upload handler (backend/index.js),
    as a pure state machine: one `TickStep` is one firing of the interval
    callback, and `Run` is the first n firings. */
module Progress {
  import opened Records

  /** The amount the ticker adds on every firing. */
  const Increment: int := 20
  /** The value at which the ticker clamps, marks the record safe and stops. */
  const Done: int := 100

  /** The state one ticker works on: the record object it mutates, its own
      closure variable `progress`, and whether `clearInterval` has run. */
  datatype Ticker = Ticker(video: Video, progress: int, stopped: bool)

  /** The result of one firing: the new state and the snapshot it emitted, if any. */
  datatype Tick = Tick(next: Ticker, emit: Option<Video>)

  /** The first n firings of a ticker: its final state and every snapshot
      emitted, in order. */
  datatype Trace = Trace(final: Ticker, emits: seq<Video>)

  /** The record the upload handler builds for a stored file. */
  function NewRecord(id: string, file: string): Video
  {
    Video(id, file, Processing, 0)
  }

  /** The ticker the upload handler starts for a record: counter at 0, running. */
  function Start(v: Video): Ticker
  {
    Ticker(v, 0, false)
  }

  /** The states a ticker can reach from `Start(NewRecord(..))`: the counter
      is one of 0, 20, ..., 100 and agrees with the record, and the record is
      safe exactly when the ticker has stopped, which is exactly at 100. */
  predicate WellFormed(t: Ticker)
  {
    && 0 <= t.progress <= Done
    && t.progress % Increment == 0
    && t.video.progress == t.progress
    && (t.stopped <==> t.progress == Done)
    && (t.video.status == Safe <==> t.stopped)
  }

  /** One firing of the interval callback. A stopped ticker never fires again,
      so its state is left alone and nothing is emitted. */
  function TickStep(t: Ticker): (r: Tick)
    // a cleared interval changes nothing and emits nothing
    ensures t.stopped ==> r.next == t && r.emit == None
    // a live firing always emits a copy of the record as it now stands
    ensures !t.stopped ==> r.emit == Some(r.next.video)
    ensures !t.stopped ==> r.next.video.progress == r.next.progress
    // the record keeps its identity
    ensures r.next.video.id == t.video.id && r.next.video.file == t.video.file
    // below the clamp, progress strictly rises and never passes 100
    ensures !t.stopped && t.progress < Done ==> t.progress < r.next.progress <= Done
    // the ticker stops exactly when the raised counter reaches 100, and then the record is safe at 100
    ensures !t.stopped ==> (r.next.stopped <==> t.progress + Increment >= Done)
    ensures !t.stopped && r.next.stopped ==> r.next.progress == Done && r.next.video.status == Safe
  {
    if t.stopped then Tick(t, None)
    else
      var p := t.progress + Increment;
      if p >= Done then
        var v := t.video.(progress := Done, status := Safe);
        Tick(Ticker(v, Done, true), Some(v))
      else
        var v := t.video.(progress := p);
        Tick(Ticker(v, p, false), Some(v))
  }

  /** The snapshots a firing appends to the emitted-events log. */
  function Emits(e: Option<Video>): (s: seq<Video>)
    ensures |s| <= 1
    ensures e.None? ==> s == []
    ensures e.Some? ==> s == [e.value]
  {
    match e
    case None => []
    case Some(v) => [v]
  }

  /** A freshly created record is a well-formed, running ticker state at 0. */
  lemma NewRecordStartsWellFormed(id: string, file: string)
    ensures WellFormed(Start(NewRecord(id, file)))
    ensures NewRecord(id, file).status == Processing && NewRecord(id, file).progress == 0
    ensures !Start(NewRecord(id, file)).stopped
  {
  }

  /** A non-terminal firing raises the progress by exactly 20 and leaves the
      status "processing". */
  lemma LiveTick(t: Ticker)
    requires WellFormed(t) && !t.stopped && t.progress + Increment < Done
    ensures TickStep(t).next == Ticker(t.video.(progress := t.progress + Increment), t.progress + Increment, false)
    ensures TickStep(t).next.video.status == Processing
    ensures TickStep(t).emit == Some(TickStep(t).next.video)
  {
  }

  /** The terminal firing clamps to 100, marks the record safe, emits the
      final snapshot and stops the ticker. */
  lemma FinalTick(t: Ticker)
    requires WellFormed(t) && !t.stopped && t.progress + Increment >= Done
    ensures TickStep(t).next == Ticker(t.video.(progress := Done, status := Safe), Done, true)
    ensures TickStep(t).emit == Some(TickStep(t).next.video)
  {
  }

  /** Every firing keeps a ticker among its reachable states. */
  lemma TickPreservesWellFormed(t: Ticker)
    requires WellFormed(t)
    ensures WellFormed(TickStep(t).next)
  {
  }

  /** The first n firings of ticker t. */
  function Run(t: Ticker, n: nat): (r: Trace)
    ensures r.final.video.id == t.video.id && r.final.video.file == t.video.file
    ensures |r.emits| <= n
    ensures forall j :: 0 <= j < |r.emits| ==> r.emits[j].id == t.video.id && r.emits[j].file == t.video.file
    decreases n
  {
    if n == 0 then Trace(t, [])
    else
      var prev := Run(t, n - 1);
      var step := TickStep(prev.final);
      Trace(step.next, prev.emits + Emits(step.emit))
  }

  /** The record at the end of a run is the last snapshot it emitted, or
      the record it started from when it emitted none. */
  lemma {:induction false} RunEndsWithLastEmit(t: Ticker, n: nat)
    ensures var r := Run(t, n);
      r.final.video == (if r.emits == [] then t.video else r.emits[|r.emits| - 1])
  {
    if n > 0 {
      RunEndsWithLastEmit(t, n - 1);
      var prev := Run(t, n - 1);
      var step := TickStep(prev.final);
      assert Run(t, n) == Trace(step.next, prev.emits + Emits(step.emit));
      if step.emit == None {
        assert prev.final.stopped && step.next == prev.final;
        assert prev.emits + Emits(step.emit) == prev.emits;
      }
    }
  }

  /** The number of firings a well-formed ticker still emits before it stops. */
  function Remaining(t: Ticker): nat
    requires WellFormed(t)
  {
    (Done - t.progress) / Increment
  }

  /** The progress values carried by a list of snapshots. */
  function Progresses(s: seq<Video>): (r: seq<int>)
    ensures |r| == |s|
    ensures forall j :: 0 <= j < |s| ==> r[j] == s[j].progress
  {
    if s == [] then [] else [s[0].progress] + Progresses(s[1..])
  }

  /** The statuses carried by a list of snapshots. */
  function Statuses(s: seq<Video>): (r: seq<Status>)
    ensures |r| == |s|
    ensures forall j :: 0 <= j < |s| ==> r[j] == s[j].status
  {
    if s == [] then [] else [s[0].status] + Statuses(s[1..])
  }

  predicate StrictlyIncreasing(s: seq<Video>)
  {
    forall j, k :: 0 <= j < k < |s| ==> s[j].progress < s[k].progress
  }

  /** Once cleared, the interval never fires again: any number of further
      ticks changes nothing and emits nothing, so `safe` is final. */
  lemma {:induction false} StoppedIsFinal(t: Ticker, n: nat)
    requires t.stopped
    ensures Run(t, n) == Trace(t, [])
  {
    if n > 0 {
      StoppedIsFinal(t, n - 1);
    }
  }

  /** What the first n firings of a well-formed ticker t have done: they
      emitted the values start + 20, start + 40, ..., strictly increasing
      and at most 100, every snapshot but the last one "processing", the last one
      equal to the record at the end, exactly min(n, Remaining(t)) of them,
      each one raising the counter by 20; and the ticker has stopped exactly
      when all of them have been emitted. */
  predicate TraceFacts(t: Ticker, n: nat, r: Trace)
    requires WellFormed(t)
  {
    && WellFormed(r.final)
    && StrictlyIncreasing(r.emits)
    && (forall j :: 0 <= j < |r.emits| ==> r.emits[j].progress == t.progress + Increment * (j + 1))
    && (forall j :: 0 <= j < |r.emits| ==> t.progress < r.emits[j].progress <= r.final.progress)
    && (forall j :: 0 <= j < |r.emits| - 1 ==> r.emits[j].status == Processing)
    && (|r.emits| > 0 ==> r.emits[|r.emits| - 1] == r.final.video)
    && r.final.progress == t.progress + Increment * |r.emits|
    && |r.emits| == (if n <= Remaining(t) then n else Remaining(t))
    && (r.final.stopped <==> n >= Remaining(t))
  }

  /** The facts of n firings follow from those of n - 1 firings. */
  lemma {:induction false} RunTraceStep(t: Ticker, n: nat)
    requires WellFormed(t) && n > 0
    requires TraceFacts(t, n - 1, Run(t, n - 1))
    ensures TraceFacts(t, n, Run(t, n))
  {
    var prev := Run(t, n - 1);
    var step := TickStep(prev.final);
    if !prev.final.stopped {
      assert Run(t, n) == Trace(step.next, prev.emits + [step.next.video]);
      LiveStepFacts(t, n, prev);
    } else {
      assert Run(t, n) == prev;
    }
  }

  /** `RunTraceStep` when the trace of n - 1 firings is still running: one
      more firing appends its snapshot. */
  lemma {:induction false} LiveStepFacts(t: Ticker, n: nat, prev: Trace)
    requires WellFormed(t) && n > 0
    requires !prev.final.stopped
    requires TraceFacts(t, n - 1, prev)
    ensures var next := TickStep(prev.final).next;
      TraceFacts(t, n, Trace(next, prev.emits + [next.video]))
  {
    var step := TickStep(prev.final);
    TickPreservesWellFormed(prev.final);
    var v := step.next.video;
    var e := prev.emits + [v];
    assert |prev.emits| == n - 1;
    assert v.progress == prev.final.progress + Increment;
    assert StrictlyIncreasing(e);
  }

  /** Induction over the number of firings for `TraceFacts`. */
  lemma {:induction false} RunTrace(t: Ticker, n: nat)
    requires WellFormed(t)
    ensures TraceFacts(t, n, Run(t, n))
  {
    if n > 0 {
      RunTrace(t, n - 1);
      RunTraceStep(t, n);
    } else {
      assert Run(t, n) == Trace(t, []);
    }
  }

  /** The scenario of a fresh upload: its ticker emits exactly five
      snapshots with progress 20, 40, 60, 80, 100, only the last of them
      "safe", and no tick after the fifth emits anything more. */
  lemma {:induction false} FreshUploadTrace(id: string, file: string, n: nat)
    requires n >= 5
    ensures Progresses(Run(Start(NewRecord(id, file)), n).emits) == [20, 40, 60, 80, 100]
    ensures Statuses(Run(Start(NewRecord(id, file)), n).emits) == [Processing, Processing, Processing, Processing, Safe]
    ensures Run(Start(NewRecord(id, file)), n) == Run(Start(NewRecord(id, file)), 5)
  {
    var t := Start(NewRecord(id, file));
    NewRecordStartsWellFormed(id, file);
    RunAfterStop(t, 5, n);
    RunTrace(t, 5);
    var e := Run(t, 5).emits;
    assert |e| == 5;
    assert e[0].progress == 20 && e[1].progress == 40 && e[2].progress == 60 && e[3].progress == 80 && e[4].progress == 100;
    assert e[4].status == Safe;
  }

  /** Running past the stop adds nothing: the trace of n >= m firings equals
      the trace of m firings once m firings have stopped the ticker. */
  lemma {:induction false} RunAfterStop(t: Ticker, m: nat, n: nat)
    requires m <= n
    requires Run(t, m).final.stopped
    ensures Run(t, n) == Run(t, m)
  {
    if n > m {
      RunAfterStop(t, m, n - 1);
      assert Run(t, n).emits == Run(t, m).emits + [];
    }
  }
}
