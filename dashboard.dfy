/** The dashboard client's list of uploads (frontend/src/App.jsx): how a
    `progress` event and a finished upload change it. */
module Dashboard {
  import opened Records

  /** The client's state that the modelled handlers touch: the selected
      file, if any, and the list of records shown. */
  datatype Client = Client(file: Option<string>, videos: seq<Video>)

  /** The `progress` handler: every entry with the incoming record's id is
      replaced by it, every other entry is kept, and the list keeps its
      length and order. */
  function ApplyProgress(prev: seq<Video>, video: Video): (r: seq<Video>)
    ensures |r| == |prev|
    ensures forall k :: 0 <= k < |prev| && prev[k].id != video.id ==> r[k] == prev[k]
    ensures forall k :: 0 <= k < |prev| && prev[k].id == video.id ==> r[k] == video
  {
    if prev == [] then []
    else [if prev[0].id == video.id then video else prev[0]] + ApplyProgress(prev[1..], video)
  }

  /** The ids of a list, in order. */
  function Ids(s: seq<Video>): (r: seq<string>)
    ensures |r| == |s|
    ensures forall k :: 0 <= k < |s| ==> r[k] == s[k].id
  {
    if s == [] then [] else [s[0].id] + Ids(s[1..])
  }

  /** The upload button. With no file selected it returns early and the
      state is unchanged. Otherwise the file is posted and `response` is the
      outcome: `None` when the request fails, which throws out of the
      handler before either state update, leaving the state unchanged;
      `Some(v)` when the server answered with record v, which is appended to
      the end of the list, after which the selection is cleared. */
  function Upload(c: Client, response: Option<Video>): (r: Client)
    ensures c.file == None || response == None ==> r == c
    ensures c.file != None && response != None ==>
              && r.file == None
              && |r.videos| == |c.videos| + 1
              && r.videos[..|c.videos|] == c.videos
              && r.videos[|c.videos|] == response.value
  {
    if c.file == None then c
    else
      match response
      case None => c
      case Some(v) => Client(None, c.videos + [v])
  }

  /** A progress event keeps the ids of the list, and so its order. */
  lemma ApplyProgressKeepsIds(prev: seq<Video>, video: Video)
    ensures Ids(ApplyProgress(prev, video)) == Ids(prev)
  {
  }

  /** An event for an id the list does not hold leaves the list unchanged. */
  lemma ApplyProgressNoMatch(prev: seq<Video>, video: Video)
    requires forall k :: 0 <= k < |prev| ==> prev[k].id != video.id
    ensures ApplyProgress(prev, video) == prev
  {
  }

  /** Delivering the same event twice gives the list that delivering it once gives. */
  lemma ApplyProgressIdempotent(prev: seq<Video>, video: Video)
    ensures ApplyProgress(ApplyProgress(prev, video), video) == ApplyProgress(prev, video)
  {
  }

  /** A later event for the same id overrides an earlier one. */
  lemma ApplyProgressLatestWins(prev: seq<Video>, older: Video, newer: Video)
    requires older.id == newer.id
    ensures ApplyProgress(ApplyProgress(prev, older), newer) == ApplyProgress(prev, newer)
  {
  }

  /** Events for different records do not interfere: they can be applied in
      either order. */
  lemma ApplyProgressCommutes(prev: seq<Video>, a: Video, b: Video)
    requires a.id != b.id
    ensures ApplyProgress(ApplyProgress(prev, a), b) == ApplyProgress(ApplyProgress(prev, b), a)
  {
  }

  /** The progress events delivered one after the other, in order. */
  function ApplyAll(prev: seq<Video>, events: seq<Video>): (r: seq<Video>)
    ensures |r| == |prev|
    decreases |events|
  {
    if events == [] then prev
    else ApplyProgress(ApplyAll(prev, events[..|events| - 1]), events[|events| - 1])
  }

  /** Uploading appends the server's record, and a later progress event for
      it updates that last entry. */
  lemma UploadThenProgress(c: Client, response: Video, video: Video)
    requires c.file != None && video.id == response.id
    ensures ApplyProgress(Upload(c, Some(response)).videos, video)[|c.videos|] == video
  {
  }
}
