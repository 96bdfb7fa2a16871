/** The upload handler of backend/index.js as an object: the module-level
    `videos` list, the closure state of every record's interval, and the log
    of `progress` events the socket server broadcast. */
module Server {
  import opened Records
  import opened Progress

  /** Why an upload request fails inside the handler. */
  datatype UploadError = MissingPayload

  class UploadServer {
    /** Every record created so far, in creation order. */
    var videos: seq<Video>
    /** The closure variable `progress` of each record's interval. */
    var counters: seq<int>
    /** Whether each record's interval has been cleared. */
    var stopped: seq<bool>
    /** Every snapshot broadcast as a `progress` event, in order. */
    var emitted: seq<Video>

    /** The per-record tables line up and each record is in a state its
        ticker can reach. */
    ghost predicate Valid()
      reads this
    {
      && |counters| == |videos|
      && |stopped| == |videos|
      && forall i :: 0 <= i < |videos| ==> WellFormed(Ticker(videos[i], counters[i], stopped[i]))
    }

    /** The ticker state of record i. */
    function TickerAt(i: nat): Ticker
      reads this
      requires i < |videos| && |counters| == |videos| && |stopped| == |videos|
    {
      Ticker(videos[i], counters[i], stopped[i])
    }

    constructor ()
      ensures Valid()
      ensures videos == [] && emitted == []
    {
      videos, counters, stopped, emitted := [], [], [], [];
    }

    /** The `/upload` handler. `id` stands for `Date.now().toString()` and
        `file` for the stored file name multer reports, `None` when the
        request carried no file: reading its name then throws before
        anything is recorded. Otherwise the new record is appended, its
        interval starts at 0, and the record is returned as the response. */
    method Upload(id: string, file: Option<string>) returns (r: Result<Video, UploadError>)
      requires Valid()
      modifies this
      ensures Valid()
      ensures file == None ==> r == Failure(MissingPayload) && unchanged(this)
      ensures file.Some? ==> && r == Success(NewRecord(id, file.value))
                             && r.value.status == Processing && r.value.progress == 0
                             && videos == old(videos) + [r.value]
                             && counters == old(counters) + [0]
                             && stopped == old(stopped) + [false]
                             && emitted == old(emitted)
    {
      if file == None {
        return Failure(MissingPayload);
      }
      var video := NewRecord(id, file.value);
      videos := videos + [video];
      counters := counters + [0];
      stopped := stopped + [false];
      NewRecordStartsWellFormed(id, file.value);
      r := Success(video);
    }

    /** One firing of record i's interval callback. A cleared interval never
        fires, so then nothing changes; otherwise the counter rises by 20 and
        the record is updated, clamped to 100 and marked safe (and the
        interval cleared) once the counter reaches 100, and a copy of the
        record is broadcast. No other record is touched. */
    method Tick(i: nat)
      requires Valid() && i < |videos|
      modifies this
      ensures Valid()
      ensures |videos| == old(|videos|)
      ensures var step := TickStep(old(TickerAt(i)));
        && videos == old(videos)[i := step.next.video]
        && counters == old(counters)[i := step.next.progress]
        && stopped == old(stopped)[i := step.next.stopped]
        && emitted == old(emitted) + Emits(step.emit)
    {
      ghost var before := TickerAt(i);
      if stopped[i] {
        return;
      }
      var progress := counters[i] + Increment;
      if progress >= Done {
        progress := Done;
        var video := videos[i].(progress := Done, status := Safe);
        videos := videos[i := video];
        emitted := emitted + [video];
        stopped := stopped[i := true];
      } else {
        var video := videos[i].(progress := progress);
        videos := videos[i := video];
        emitted := emitted + [video];
      }
      counters := counters[i := progress];
      TickPreservesWellFormed(before);
      assert TickerAt(i) == TickStep(before).next;
    }
  }
}
