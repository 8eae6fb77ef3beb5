/** The silence-stop recording loop: chunks are read one after another
    and kept until the chunk that makes the run of consecutive silent
    chunks longer than the allowed maximum; that chunk is dropped and
    recording ends. An empty read also ends it. Whether a chunk is silent
    (its RMS level below the calibrated threshold) is given with the chunk. */
module Recorder {

  newtype byte = x: int | 0 <= x < 256

  /** One read from the microphone stream and whether it is silent. */
  datatype Chunk = Chunk(data: seq<byte>, silent: bool)

  /** Why recording ended. `StreamEnded` only arises because a stream here
      is a finite list; the microphone stream never runs out. */
  datatype Stop = EmptyRead | SilenceDetected | StreamEnded

  const DefaultMaxSilentChunks := 15

  /** The number of silent chunks at the end of `chunks`. */
  function TrailingSilent(chunks: seq<Chunk>): (n: nat)
    ensures n <= |chunks|
  {
    if chunks == [] || !chunks[|chunks| - 1].silent then 0
    else 1 + TrailingSilent(chunks[..|chunks| - 1])
  }

  /** The count is exactly the silent run at the end: the last `n` chunks
      are silent and the chunk before them, if any, is not. */
  lemma {:induction false} TrailingRun(chunks: seq<Chunk>)
    ensures var n := TrailingSilent(chunks);
      && (forall i :: |chunks| - n <= i < |chunks| ==> chunks[i].silent)
      && (n < |chunks| ==> !chunks[|chunks| - 1 - n].silent)
  {
    if chunks != [] && chunks[|chunks| - 1].silent {
      var init := chunks[..|chunks| - 1];
      TrailingRun(init);
      assert forall i :: 0 <= i < |init| ==> init[i] == chunks[i];
    }
  }

  /** Chunk `j` of the stream may be kept: it is not empty, and if it is
      silent the silent run it ends is within the maximum. */
  predicate Keepable(stream: seq<Chunk>, j: int, maxSilentChunks: int)
    requires 0 <= j < |stream|
  {
    stream[j].data != [] && (stream[j].silent ==> TrailingSilent(stream[..j + 1]) <= maxSilentChunks)
  }

  /** How the silent run changes when the stream is read one chunk further. */
  lemma TrailingStep(stream: seq<Chunk>, i: int)
    requires 0 <= i < |stream|
    ensures TrailingSilent(stream[..i + 1]) == if stream[i].silent then TrailingSilent(stream[..i]) + 1 else 0
  {
    assert stream[..i + 1][..i] == stream[..i];
  }

  /** The recording loop over `stream`. Every kept chunk is non-empty and
      kept in order, so the frames are the data of a prefix of the stream;
      no kept silent chunk ends a silent run longer than the maximum; and
      the stop reason says which chunk ended the loop: an empty one, or a
      silent one ending a run of exactly one more than the maximum, which
      is not kept. */
  method RecordAudio(stream: seq<Chunk>, maxSilentChunks: int := DefaultMaxSilentChunks)
    returns (frames: seq<seq<byte>>, stop: Stop)
    ensures |frames| <= |stream|
    ensures forall j :: 0 <= j < |frames| ==> frames[j] == stream[j].data
    ensures forall j :: 0 <= j < |frames| ==> Keepable(stream, j, maxSilentChunks)
    ensures stop == EmptyRead ==> |frames| < |stream| && stream[|frames|].data == []
    ensures stop == SilenceDetected ==>
      && |frames| < |stream|
      && stream[|frames|].data != [] && stream[|frames|].silent
      && TrailingSilent(stream[..|frames| + 1]) > maxSilentChunks
      && (maxSilentChunks >= 0 ==> TrailingSilent(stream[..|frames| + 1]) == maxSilentChunks + 1)
    ensures stop == StreamEnded ==> |frames| == |stream|
  {
    frames := [];
    stop := StreamEnded;
    var silentChunkCount := 0;
    var i := 0;
    while i < |stream|
      invariant 0 <= i <= |stream| && |frames| == i
      invariant silentChunkCount == TrailingSilent(stream[..i])
      invariant silentChunkCount == 0 || silentChunkCount <= maxSilentChunks
      invariant forall j :: 0 <= j < i ==> frames[j] == stream[j].data
      invariant forall j :: 0 <= j < i ==> Keepable(stream, j, maxSilentChunks)
      invariant stop == StreamEnded
    {
      var chunk := stream[i];
      if chunk.data == [] {
        stop := EmptyRead;
        break;
      }
      TrailingStep(stream, i);
      if chunk.silent {
        silentChunkCount := silentChunkCount + 1;
        if silentChunkCount > maxSilentChunks {
          stop := SilenceDetected;
          break;
        }
      } else {
        silentChunkCount := 0;
      }
      assert Keepable(stream, i, maxSilentChunks);
      frames := frames + [chunk.data];
      i := i + 1;
    }
  }
}
