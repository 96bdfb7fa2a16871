/** The client's list against the server's record. The lemmas here apply
    one record's snapshots, all of them and in order, to a list whose last
    entry is that record: the entry then shows exactly the record the server
    holds. Snapshots that arrive before the upload response is appended,
    later appends, and other records' events in between are not covered. */
module Sync {
  import opened Records
  import opened Progress
  import opened Dashboard

  /** A list ending in record t.video, after the snapshots of n firings of
      its ticker: the last entry is the record as the server now holds it,
      and entries with another id are untouched. */
  lemma {:induction false} ClientMirrorsTicker(prev: seq<Video>, t: Ticker, n: nat)
    ensures var view := ApplyAll(prev + [t.video], Run(t, n).emits);
      && view[|prev|] == Run(t, n).final.video
      && forall k :: 0 <= k < |prev| && prev[k].id != t.video.id ==> view[k] == prev[k]
  {
    var r := Run(t, n);
    MirrorAll(prev, t.video, r.emits);
    RunEndsWithLastEmit(t, n);
  }

  /** A list ending in a record with some id, after events that all carry
      that id: the last entry is the latest event (or the record itself if
      there were none), and entries with other ids are untouched. */
  lemma {:induction false} MirrorAll(prev: seq<Video>, start: Video, events: seq<Video>)
    requires forall j :: 0 <= j < |events| ==> events[j].id == start.id
    ensures var view := ApplyAll(prev + [start], events);
      && view[|prev|] == (if events == [] then start else events[|events| - 1])
      && forall k :: 0 <= k < |prev| && prev[k].id != start.id ==> view[k] == prev[k]
    decreases |events|
  {
    if events != [] {
      var init := events[..|events| - 1];
      var v := events[|events| - 1];
      MirrorAll(prev, start, init);
      var view := ApplyAll(prev + [start], init);
      assert view[|prev|].id == start.id;
      assert init + [v] == events;
      AppendEvent(prev + [start], init, v);
      MirrorStep(prev, start.id, view, v);
    }
  }

  /** One delivered snapshot of the record keeps the client's view in step:
      the last entry becomes the snapshot, entries with other ids stay. */
  lemma {:induction false} MirrorStep(prev: seq<Video>, id: string, view: seq<Video>, v: Video)
    requires |view| == |prev| + 1 && view[|prev|].id == id && v.id == id
    requires forall k :: 0 <= k < |prev| && prev[k].id != id ==> view[k] == prev[k]
    ensures var next := ApplyProgress(view, v);
      && next[|prev|] == v
      && forall k :: 0 <= k < |prev| && prev[k].id != id ==> next[k] == prev[k]
  {
  }

  /** Delivering one more event is one more `ApplyProgress`. */
  lemma {:induction false} AppendEvent(list: seq<Video>, events: seq<Video>, v: Video)
    ensures ApplyAll(list, events + [v]) == ApplyProgress(ApplyAll(list, events), v)
  {
    assert (events + [v])[..|events|] == events;
  }

  /** The whole flow for one upload: the client uploads with a file
      selected, the server creates the record and returns it, and its ticker
      fires n times. The entry the client appended then shows the server's
      record; after five or more ticks that is progress 100, "safe". */
  lemma {:induction false} UploadAndFollow(c: Client, id: string, file: string, n: nat)
    requires c.file != None
    ensures var t := Start(NewRecord(id, file));
      var view := ApplyAll(Upload(c, Some(NewRecord(id, file))).videos, Run(t, n).emits);
      && view[|c.videos|] == Run(t, n).final.video
      && (n >= 5 ==> view[|c.videos|].progress == 100 && view[|c.videos|].status == Safe)
  {
    var t := Start(NewRecord(id, file));
    ClientMirrorsTicker(c.videos, t, n);
    NewRecordStartsWellFormed(id, file);
    RunTrace(t, n);
  }
}
