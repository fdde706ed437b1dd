/** The feed refresh: for every enabled subscription the latest uploads found
    by the search call become `Video` records, each with the duration its
    details item gives, and each with one upsert into the feed collection. */
module Feed {
  import opened IsoDuration

  /** A cached video as the timeline reads it back; `duration` is in seconds. */
  datatype Video = Video(
    id: string,
    title: string,
    description: string,
    channelId: string,
    channelTitle: string,
    publishedAt: int,
    duration: nat)

  /** One item of the search result: its video id, snippet fields, and the
      publish time already converted to whole seconds since the epoch. */
  datatype SearchItem = SearchItem(
    videoId: string,
    title: string,
    description: string,
    channelId: string,
    publishedAt: int)

  /** One item of the video details result: an id and its ISO 8601 duration text. */
  datatype DetailItem = DetailItem(id: string, duration: string)

  /** `updateOne` with `filter: {id}`, `$set: video` and `upsert: true`. */
  datatype FeedUpdate = FeedUpdate(filterId: string, update: Video, upsert: bool)

  function UpsertOf(v: Video): FeedUpdate {
    FeedUpdate(v.id, v, true)
  }

  /** One enabled subscription as the refresh loop sees it: the subscription
      document's `title` (which every video of it gets as `channelTitle`) with
      what the network calls produced, a search result and its details items;
      or nothing, because the channel, its uploads playlist or the items were
      missing, or a call failed. */
  datatype ChannelFetch =
    | Fetched(channelTitle: string, items: seq<SearchItem>, details: seq<DetailItem>)
    | Skipped

  /** The dictionary the details loop fills: later items with the same id overwrite earlier ones. */
  function DurationMapOf(details: seq<DetailItem>): map<string, nat> {
    if details == [] then map[]
    else
      var last := details[|details| - 1];
      DurationMapOf(details[..|details| - 1])[last.id := DurationSeconds(last.duration)]
  }

  /** Index `j` is the last details item (before `n`) with its id. */
  ghost predicate LastWithId(details: seq<DetailItem>, j: int, n: int)
    requires 0 <= j < n <= |details|
  {
    forall k :: j < k < n ==> details[k].id != details[j].id
  }

  /** The map holds exactly the ids of the details items. */
  lemma {:induction false} DurationMapOfKeys(details: seq<DetailItem>)
    ensures forall id :: id in DurationMapOf(details) <==> exists j :: 0 <= j < |details| && details[j].id == id
  {
    if details != [] {
      var n := |details|;
      var init := details[..n - 1];
      var m := DurationMapOf(details);
      DurationMapOfKeys(init);
      assert m.Keys == DurationMapOf(init).Keys + {details[n - 1].id};
      forall id | id in m
        ensures exists j :: 0 <= j < n && details[j].id == id
      {
        if id != details[n - 1].id {
          var j :| 0 <= j < n - 1 && init[j].id == id;
          assert details[j].id == id;
        }
      }
      forall id | exists j :: 0 <= j < n && details[j].id == id
        ensures id in m
      {
        var j :| 0 <= j < n && details[j].id == id;
        if j < n - 1 { assert init[j].id == id; }
      }
    }
  }

  /** Each id's entry is the parsed duration of the last item carrying it. */
  lemma {:induction false} DurationMapOfLastWins(details: seq<DetailItem>, j: int)
    requires 0 <= j < |details| && LastWithId(details, j, |details|)
    ensures details[j].id in DurationMapOf(details)
    ensures DurationMapOf(details)[details[j].id] == DurationSeconds(details[j].duration)
  {
    var n := |details|;
    if j < n - 1 {
      var init := details[..n - 1];
      assert details[n - 1].id != details[j].id;
      assert init[j] == details[j];
      assert LastWithId(init, j, n - 1);
      DurationMapOfLastWins(init, j);
    }
  }

  /** The details loop of the refresh, item by item into the dictionary. */
  method BuildDurationMap(details: seq<DetailItem>) returns (durations: map<string, nat>)
    ensures durations == DurationMapOf(details)
  {
    durations := map[];
    for i := 0 to |details|
      invariant durations == DurationMapOf(details[..i])
    {
      assert details[..i + 1][..i] == details[..i];
      durations := durations[details[i].id := DurationSeconds(details[i].duration)];
    }
    assert details[..|details|] == details;
  }

  /** `durationMap[id] || 0`: a missing id (and a zero entry) gives 0. */
  function DurationFor(durations: map<string, nat>, id: string): nat {
    if id in durations && durations[id] != 0 then durations[id] else 0
  }

  lemma DurationForMeaning(durations: map<string, nat>, id: string)
    ensures id !in durations ==> DurationFor(durations, id) == 0
    ensures id in durations ==> DurationFor(durations, id) == durations[id]
  {
  }

  function MakeVideo(item: SearchItem, durations: map<string, nat>, channelTitle: string): Video {
    Video(item.videoId, item.title, item.description, item.channelId, channelTitle,
          item.publishedAt, DurationFor(durations, item.videoId))
  }

  /** The videos of one search result, in search-result order. */
  function MakeVideos(items: seq<SearchItem>, durations: map<string, nat>, channelTitle: string): (vs: seq<Video>)
    ensures |vs| == |items|
    ensures forall k :: 0 <= k < |items| ==> vs[k] == MakeVideo(items[k], durations, channelTitle)
  {
    if items == [] then []
    else MakeVideos(items[..|items| - 1], durations, channelTitle)
         + [MakeVideo(items[|items| - 1], durations, channelTitle)]
  }

  function ChannelVideos(f: ChannelFetch): seq<Video> {
    match f
    case Skipped => []
    case Fetched(title, items, details) => MakeVideos(items, DurationMapOf(details), title)
  }

  /** All videos of a refresh, subscription by subscription. */
  function FeedVideos(fetches: seq<ChannelFetch>): seq<Video> {
    if fetches == [] then []
    else FeedVideos(fetches[..|fetches| - 1]) + ChannelVideos(fetches[|fetches| - 1])
  }

  lemma FeedVideosStep(fetches: seq<ChannelFetch>, i: nat)
    requires i < |fetches|
    ensures FeedVideos(fetches[..i + 1]) == FeedVideos(fetches[..i]) + ChannelVideos(fetches[i])
  {
    assert fetches[..i + 1][..i] == fetches[..i];
  }

  /** A refresh that skips every subscription collects nothing, so no bulk write happens. */
  lemma {:induction false} AllSkippedCollectsNothing(fetches: seq<ChannelFetch>)
    requires forall k :: 0 <= k < |fetches| ==> fetches[k].Skipped?
    ensures FeedVideos(fetches) == []
  {
    if fetches != [] {
      AllSkippedCollectsNothing(fetches[..|fetches| - 1]);
    }
  }

  /** The two arrays the refresh pushes onto: the videos it returns and the
      upserts it writes, one upsert per video, in the same order. */
  class FeedBatch {
    var videos: seq<Video>
    var feedUpdates: seq<FeedUpdate>

    ghost predicate Valid()
      reads this
    {
      && |feedUpdates| == |videos|
      && forall k :: 0 <= k < |videos| ==> feedUpdates[k] == UpsertOf(videos[k])
    }

    constructor ()
      ensures Valid() && videos == [] && feedUpdates == []
    {
      videos := [];
      feedUpdates := [];
    }

    /** `videos.push(video)` and `feedUpdates.push({updateOne: ...})`. */
    method Push(video: Video)
      requires Valid()
      modifies this
      ensures Valid()
      ensures videos == old(videos) + [video]
      ensures feedUpdates == old(feedUpdates) + [UpsertOf(video)]
    {
      videos := videos + [video];
      feedUpdates := feedUpdates + [UpsertOf(video)];
    }

    /** The `forEach` over one search result. */
    method AddSearchResults(items: seq<SearchItem>, durations: map<string, nat>, channelTitle: string)
      requires Valid()
      modifies this
      ensures Valid()
      ensures videos == old(videos) + MakeVideos(items, durations, channelTitle)
    {
      for i := 0 to |items|
        invariant Valid()
        invariant videos == old(videos) + MakeVideos(items[..i], durations, channelTitle)
      {
        assert items[..i + 1][..i] == items[..i];
        Push(MakeVideo(items[i], durations, channelTitle));
      }
      assert items[..|items|] == items;
    }

    /** One subscription: its search results, with durations from its details. */
    method AddChannel(fetch: ChannelFetch)
      requires Valid()
      modifies this
      ensures Valid()
      ensures videos == old(videos) + ChannelVideos(fetch)
    {
      match fetch
      case Skipped =>
      case Fetched(title, items, details) =>
        var durations := BuildDurationMap(details);
        AddSearchResults(items, durations, title);
    }

    /** The `for` loop over the enabled subscriptions. */
    method AddChannels(fetches: seq<ChannelFetch>)
      requires Valid()
      modifies this
      ensures Valid()
      ensures videos == old(videos) + FeedVideos(fetches)
    {
      ghost var start := videos;
      for i := 0 to |fetches|
        invariant Valid()
        invariant videos == start + FeedVideos(fetches[..i])
      {
        FeedVideosStep(fetches, i);
        AddChannel(fetches[i]);
      }
      assert fetches[..|fetches|] == fetches;
    }
  }

  /** In a consistent batch every video has exactly the upsert keyed by its own id,
      at its own position. */
  lemma UpsertKeyedById(b: FeedBatch, k: int)
    requires b.Valid() && 0 <= k < |b.videos|
    ensures b.feedUpdates[k].filterId == b.videos[k].id
    ensures b.feedUpdates[k].update == b.videos[k] && b.feedUpdates[k].upsert
  {
  }
}
