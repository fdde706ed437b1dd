/** The linear-channel timeline: the ordered videos play back to back from
    the broadcast start time, and an epoch is resolved to the video airing at
    that instant, the offset into it, and a window of neighbours. */
module Timeline {
  import opened Wrappers
  import opened Feed

  /** Length of the channel made of `vs` played back to back. */
  function TotalDuration(vs: seq<Video>): nat {
    if vs == [] then 0 else vs[0].duration + TotalDuration(vs[1..])
  }

  /** When video `i` starts on the channel: the durations of the videos before it. */
  function StartOf(vs: seq<Video>, i: nat): nat
    requires i <= |vs|
  {
    TotalDuration(vs[..i])
  }

  /** When video `i` stops airing. */
  function EndOf(vs: seq<Video>, i: nat): nat
    requires i < |vs|
  {
    StartOf(vs, i) + vs[i].duration
  }

  lemma {:induction false} TotalDurationAppend(a: seq<Video>, b: seq<Video>)
    ensures TotalDuration(a + b) == TotalDuration(a) + TotalDuration(b)
  {
    if a == [] {
      assert a + b == b;
    } else {
      assert (a + b)[1..] == a[1..] + b;
      TotalDurationAppend(a[1..], b);
    }
  }

  /** Video `i + 1` starts when video `i` ends. */
  lemma StartOfNext(vs: seq<Video>, i: nat)
    requires i < |vs|
    ensures StartOf(vs, i + 1) == EndOf(vs, i)
  {
    assert vs[..i + 1] == vs[..i] + [vs[i]];
    TotalDurationAppend(vs[..i], [vs[i]]);
    assert [vs[i]][1..] == [];
  }

  /** Start times in the list without its first video are shifted by that video's length. */
  lemma StartOfTail(vs: seq<Video>, j: nat)
    requires 0 < |vs| && j < |vs|
    ensures StartOf(vs, j + 1) == vs[0].duration + StartOf(vs[1..], j)
  {
    assert vs[..j + 1][1..] == vs[1..][..j];
  }

  /** The response's `current`: the video, its id, the offset into it and its index. */
  datatype Position = Position(videoId: string, timestamp: int, video: Video, currentIndex: nat)

  function Shift(p: Option<Position>, n: nat): Option<Position> {
    match p
    case None => None
    case Some(q) => Some(q.(currentIndex := q.currentIndex + n))
  }

  /** Reference definition of the video airing `elapsed` seconds after the
      start: the first video airs over `[0, duration)`, and after it the rest of
      the list airs as a channel of its own.  `None` is the source's `null`. */
  function Locate(vs: seq<Video>, elapsed: int): Option<Position> {
    if vs == [] then None
    else if elapsed < vs[0].duration then Some(Position(vs[0].id, elapsed, vs[0], 0))
    else Shift(Locate(vs[1..], elapsed - vs[0].duration), 1)
  }

  /** The scan of the source: walk the list with the running total of the
      durations seen so far and stop at the first video that ends after `elapsed`. */
  method GetVideoAtEpoch(videos: seq<Video>, epoch: int, startTime: int) returns (r: Option<Position>)
    ensures r == Locate(videos, epoch - startTime)
  {
    var elapsedSeconds := epoch - startTime;
    var accumulatedTime := 0;
    for i := 0 to |videos|
      invariant accumulatedTime == StartOf(videos, i)
      invariant Locate(videos, elapsedSeconds) == Shift(Locate(videos[i..], elapsedSeconds - accumulatedTime), i)
    {
      var video := videos[i];
      var videoEndTime := accumulatedTime + video.duration;
      assert videos[i..][0] == video && videos[i..][1..] == videos[i + 1..];
      if elapsedSeconds < videoEndTime {
        return Some(Position(video.id, elapsedSeconds - accumulatedTime, video, i));
      }
      StartOfNext(videos, i);
      accumulatedTime := videoEndTime;
    }
    assert videos[|videos|..] == [];
    return None;
  }

  /** A found position is the first video whose end lies after `elapsed`, and
      the timestamp is the offset from that video's start. */
  lemma {:induction false} LocateFound(vs: seq<Video>, elapsed: int)
    requires Locate(vs, elapsed).Some?
    ensures var p := Locate(vs, elapsed).value;
      && p.currentIndex < |vs|
      && p.video == vs[p.currentIndex] && p.videoId == vs[p.currentIndex].id
      && p.timestamp == elapsed - StartOf(vs, p.currentIndex)
      && elapsed < EndOf(vs, p.currentIndex)
      && forall j :: 0 <= j < p.currentIndex ==> elapsed >= EndOf(vs, j)
  {
    if elapsed >= vs[0].duration {
      var rest := vs[1..];
      var e := elapsed - vs[0].duration;
      LocateFound(rest, e);
      var q := Locate(rest, e).value;
      var i := q.currentIndex + 1;
      StartOfTail(vs, q.currentIndex);
      forall j | 0 <= j < i
        ensures elapsed >= EndOf(vs, j)
      {
        if j > 0 {
          StartOfTail(vs, j - 1);
          StartOfNext(vs, j);
          StartOfNext(rest, j - 1);
        } else {
          StartOfNext(vs, 0);
        }
      }
      StartOfNext(vs, q.currentIndex);
      StartOfNext(rest, q.currentIndex);
      StartOfTail(vs, i);
    }
  }

  /** `null` comes back exactly when the list is empty or `elapsed` is at or
      past the end of the whole channel. */
  lemma {:induction false} LocateNotFound(vs: seq<Video>, elapsed: int)
    ensures Locate(vs, elapsed).None? <==> vs == [] || elapsed >= TotalDuration(vs)
  {
    if vs != [] && elapsed >= vs[0].duration {
      LocateNotFound(vs[1..], elapsed - vs[0].duration);
    }
  }

  /** From the start time on, the offset lies inside the video, so a
      zero-length video is never the one airing. */
  lemma LocateContained(vs: seq<Video>, elapsed: int)
    requires elapsed >= 0 && Locate(vs, elapsed).Some?
    ensures var p := Locate(vs, elapsed).value;
      p.currentIndex < |vs| && 0 <= p.timestamp < vs[p.currentIndex].duration
    ensures vs[Locate(vs, elapsed).value.currentIndex].duration > 0
  {
    LocateFound(vs, elapsed);
    var i := Locate(vs, elapsed).value.currentIndex;
    if i > 0 {
      StartOfNext(vs, i - 1);
    }
  }

  /** Before the start time the first video airs with a negative, unclamped offset. */
  lemma LocateBeforeStart(vs: seq<Video>, elapsed: int)
    requires |vs| > 0 && elapsed < 0
    ensures Locate(vs, elapsed) == Some(Position(vs[0].id, elapsed, vs[0], 0))
  {
  }

  /** After the scan: past the end, park on the last video at offset 0. */
  function Fallback(videos: seq<Video>, found: Option<Position>): Position
    requires |videos| > 0
  {
    match found
    case Some(p) => p
    case None =>
      var last := videos[|videos| - 1];
      Position(last.id, 0, last, |videos| - 1)
  }

  /** The resolved position is always a real index of the list; it is the
      located one while the channel is still airing, and the last video at
      offset 0 once it is over. */
  lemma ResolvedPosition(videos: seq<Video>, elapsed: int)
    requires |videos| > 0
    ensures var p := Fallback(videos, Locate(videos, elapsed));
      && p.currentIndex < |videos|
      && p.video == videos[p.currentIndex] && p.videoId == p.video.id
      && (elapsed >= TotalDuration(videos) ==> p.currentIndex == |videos| - 1 && p.timestamp == 0)
      && (elapsed < TotalDuration(videos) ==> Locate(videos, elapsed) == Some(p))
  {
    LocateNotFound(videos, elapsed);
    if Locate(videos, elapsed).Some? {
      LocateFound(videos, elapsed);
    }
  }

  /** The neighbours of the current video and the true count after it. */
  datatype Window = Window(before: seq<Video>, after: seq<Video>, afterCount: int)

  const WindowRadius: nat := 5

  function Max(a: int, b: int): int { if a >= b then a else b }
  function Min(a: int, b: int): int { if a <= b then a else b }

  /** At most five videos on each side, clipped at both ends of the list;
      `afterCount` counts every video after the current one. */
  function Neighbours(videos: seq<Video>, currentIndex: nat): (w: Window)
    requires currentIndex < |videos|
    ensures |w.before| == Min(WindowRadius, currentIndex)
    ensures |w.after| == Min(WindowRadius, |videos| - currentIndex - 1)
    ensures forall k :: 0 <= k < |w.before| ==> w.before[k] == videos[currentIndex - |w.before| + k]
    ensures forall k :: 0 <= k < |w.after| ==> w.after[k] == videos[currentIndex + 1 + k]
    ensures w.afterCount == |videos| - currentIndex - 1 && 0 <= |w.after| <= w.afterCount
  {
    var beforeStartIndex := Max(0, currentIndex - 5);
    var afterEndIndex := Min(|videos|, currentIndex + 6);
    Window(videos[beforeStartIndex..currentIndex], videos[currentIndex + 1..afterEndIndex],
           |videos| - currentIndex - 1)
  }

  /** Three videos of 100, 200 and 300 seconds: 150 seconds in, the second
      video is 50 seconds along. */
  lemma ScenarioInsideSecond(vs: seq<Video>)
    requires |vs| == 3 && vs[0].duration == 100 && vs[1].duration == 200 && vs[2].duration == 300
    ensures Locate(vs, 1150 - 1000) == Some(Position(vs[1].id, 50, vs[1], 1))
  {
    assert vs[1..][0] == vs[1];
  }

  /** Past the 600-second channel, park on the third video at 0. */
  lemma ScenarioPastEnd(vs: seq<Video>)
    requires |vs| == 3 && vs[0].duration == 100 && vs[1].duration == 200 && vs[2].duration == 300
    ensures Fallback(vs, Locate(vs, 2000 - 1000)) == Position(vs[2].id, 0, vs[2], 2)
  {
    assert vs[1..][1..] == vs[2..];
    assert vs[2..][1..] == [];
    assert TotalDuration(vs[2..]) == 300;
    assert TotalDuration(vs[1..]) == 500;
    ResolvedPosition(vs, 1000);
  }

  /** Twelve videos with the current one at index 8: five before, three after. */
  lemma ScenarioWindow(vs: seq<Video>)
    requires |vs| == 12
    ensures var w := Neighbours(vs, 8);
      w.before == vs[3..8] && w.after == vs[9..12] && w.afterCount == 3
  {
  }

  /** One video of 50 seconds, 10 seconds in: it airs at 10 and has no neighbours. */
  lemma ScenarioSingleVideo(vs: seq<Video>)
    requires |vs| == 1 && vs[0].duration == 50
    ensures Locate(vs, 10) == Some(Position(vs[0].id, 10, vs[0], 0))
    ensures Neighbours(vs, 0) == Window([], [], 0)
  {
  }
}
