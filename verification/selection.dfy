/** `select_videos`: which catalog videos an ingest run takes. `latest`
    takes the newest `limit` videos by publication date, `playlist` takes
    the videos of a playlist (by an explicit id list, or by each video's
    playlist memberships), and `manual` takes an explicit id list. */
module Selection {
  import opened Wrappers
  import opened Sorting

  datatype VideoInfo = VideoInfo(
    videoId: string, title: string, url: string, publishedAt: Option<string>,
    durationSec: int, description: string, playlistIds: seq<string>)

  datatype SelectionSpec = SelectionSpec(
    mode: string, limit: int, playlistId: Option<string>,
    playlistVideoIds: Option<seq<string>>, videoIds: Option<seq<string>>)

  /** Python truthiness of an optional list or string: present and non-empty. */
  predicate Given<T>(o: Option<seq<T>>) {
    o.Some? && o.value != []
  }

  // ---------------------------------------------------------------------
  // latest

  /** The sort key `v.published_at or ""`. */
  function PublishedKey(v: VideoInfo): string {
    match v.publishedAt
    case Some(s) => s
    case None => ""
  }

  /** All videos, newest first; equal dates keep catalog order. */
  function NewestFirst(videos: seq<VideoInfo>): seq<VideoInfo> {
    StrDescendingTotal();
    SortBy(videos, PublishedKey, StrDescending())
  }

  /** `_select_latest`. */
  function SelectLatest(videos: seq<VideoInfo>, limit: int): (r: seq<VideoInfo>)
    ensures limit <= 0 ==> r == []
    ensures limit > 0 ==> |r| == if limit < |videos| then limit else |videos|
  {
    if limit <= 0 then [] else PyTake(NewestFirst(videos), limit)
  }

  /** The latest selection is a sub-multiset of the catalog, newest first,
      no video left out is newer than a video taken, and videos with the
      same date come in catalog order (the ones with a given date are a
      prefix of the catalog's ones with that date). */
  lemma LatestSelection(videos: seq<VideoInfo>, limit: int)
    ensures multiset(SelectLatest(videos, limit)) <= multiset(videos)
    ensures SortedBy(SelectLatest(videos, limit), PublishedKey, StrDescending())
    ensures forall i, v ::
              0 <= i < |SelectLatest(videos, limit)| && v in multiset(videos) - multiset(SelectLatest(videos, limit))
              ==> !StrLess(PublishedKey(SelectLatest(videos, limit)[i]), PublishedKey(v))
    ensures forall k ::
              WithKey(SelectLatest(videos, limit), PublishedKey, k) <= WithKey(videos, PublishedKey, k)
  {
    StrDescendingTotal();
    var s := NewestFirst(videos);
    TakeOfSorted(s, videos, PublishedKey, StrDescending(), |SelectLatest(videos, limit)|);
  }

  /** A prefix of a stable sort: what it keeps and what it leaves out. */
  lemma TakeOfSorted<T, K(!new)>(s: seq<T>, xs: seq<T>, key: T -> K, lt: (K, K) -> bool, m: nat)
    requires multiset(s) == multiset(xs) && SortedBy(s, key, lt)
    requires forall k :: WithKey(s, key, k) == WithKey(xs, key, k)
    requires m <= |s|
    ensures multiset(s[..m]) <= multiset(xs)
    ensures SortedBy(s[..m], key, lt)
    ensures forall i, v :: 0 <= i < m && v in multiset(xs) - multiset(s[..m]) ==> !lt(key(v), key(s[..m][i]))
    ensures forall k :: WithKey(s[..m], key, k) <= WithKey(xs, key, k)
  {
    assert s == s[..m] + s[m..];
    assert multiset(s) == multiset(s[..m]) + multiset(s[m..]);
    TakeLeavesLater(s, xs, key, lt, m);
    forall k ensures WithKey(s[..m], key, k) <= WithKey(xs, key, k) {
      WithKeyConcat(s[..m], s[m..], key, k);
    }
  }

  /** What a prefix of a sorted permutation leaves out sorts after
      everything it keeps. */
  lemma TakeLeavesLater<T, K>(s: seq<T>, xs: seq<T>, key: T -> K, lt: (K, K) -> bool, m: nat)
    requires multiset(s) == multiset(xs) && SortedBy(s, key, lt)
    requires m <= |s|
    ensures forall i, v :: 0 <= i < m && v in multiset(xs) - multiset(s[..m]) ==> !lt(key(v), key(s[..m][i]))
  {
    assert s == s[..m] + s[m..];
    assert multiset(xs) - multiset(s[..m]) == multiset(s[m..]);
    forall i, v | 0 <= i < m && v in multiset(xs) - multiset(s[..m])
      ensures !lt(key(v), key(s[..m][i]))
    {
      assert v in s[m..];
      var j :| m <= j < |s| && s[j] == v;
      assert s[..m][i] == s[i];
    }
  }

  // ---------------------------------------------------------------------
  // playlist and manual: look-up by id

  /** `{v.video_id: v for v in videos}`: a later video with the same id
      replaces an earlier one. */
  function VideoMap(videos: seq<VideoInfo>): map<string, VideoInfo> {
    if videos == [] then map[]
    else VideoMap(videos[..|videos| - 1])[videos[|videos| - 1].videoId := videos[|videos| - 1]]
  }

  /** `videos[i]` is the last video whose id is `id`. */
  predicate LastWithId(videos: seq<VideoInfo>, i: int, id: string) {
    0 <= i < |videos| && videos[i].videoId == id && forall j :: i < j < |videos| ==> videos[j].videoId != id
  }

  /** An id is a key of the map exactly when some video has it, and it maps
      to the last video with that id. */
  lemma {:induction false} VideoMapSpec(videos: seq<VideoInfo>, id: string)
    ensures id in VideoMap(videos) <==> exists i :: 0 <= i < |videos| && videos[i].videoId == id
    ensures id in VideoMap(videos) ==> exists i :: LastWithId(videos, i, id) && videos[i] == VideoMap(videos)[id]
    decreases |videos|
  {
    if videos != [] {
      var init := videos[..|videos| - 1];
      var last := videos[|videos| - 1];
      VideoMapSpec(init, id);
      assert forall i :: 0 <= i < |init| ==> init[i] == videos[i];
      if last.videoId != id && id in VideoMap(videos) {
        var i :| LastWithId(init, i, id) && init[i] == VideoMap(init)[id];
        assert LastWithId(videos, i, id) && videos[i] == VideoMap(videos)[id];
      }
    }
  }

  /** `[video_map[vid] for vid in ids if vid in video_map]`. */
  function Pick(ids: seq<string>, m: map<string, VideoInfo>): (r: seq<VideoInfo>)
    ensures |r| <= |ids|
  {
    if ids == [] then []
    else Pick(ids[..|ids| - 1], m) + (if ids[|ids| - 1] in m then [m[ids[|ids| - 1]]] else [])
  }

  /** The ids of `ids` that are keys of `m`, in order, repeats kept. */
  function Known(ids: seq<string>, m: map<string, VideoInfo>): (r: seq<string>)
  {
    if ids == [] then []
    else Known(ids[..|ids| - 1], m) + (if ids[|ids| - 1] in m then [ids[|ids| - 1]] else [])
  }

  /** The picked videos are, in order, the map's values for the known ids. */
  lemma {:induction false} PickKnown(ids: seq<string>, m: map<string, VideoInfo>)
    ensures |Pick(ids, m)| == |Known(ids, m)|
    ensures forall k :: 0 <= k < |Known(ids, m)| ==> Known(ids, m)[k] in m && Pick(ids, m)[k] == m[Known(ids, m)[k]]
    decreases |ids|
  {
    if ids != [] {
      PickKnown(ids[..|ids| - 1], m);
    }
  }

  /** Every known id is one of the given ids, and every given id that is a
      key is kept. */
  lemma {:induction false} KnownMembers(ids: seq<string>, m: map<string, VideoInfo>)
    ensures forall x :: x in Known(ids, m) <==> x in ids && x in m
    decreases |ids|
  {
    if ids != [] {
      KnownMembers(ids[..|ids| - 1], m);
      assert ids == ids[..|ids| - 1] + [ids[|ids| - 1]];
    }
  }

  /** Picking by id from the catalog: the `k`-th video taken is the last
      catalog video whose id is the `k`-th known id, and it is an element
      of the catalog. */
  lemma PickFromCatalog(videos: seq<VideoInfo>, ids: seq<string>)
    ensures |Pick(ids, VideoMap(videos))| == |Known(ids, VideoMap(videos))|
    ensures forall k :: 0 <= k < |Pick(ids, VideoMap(videos))| ==>
      Pick(ids, VideoMap(videos))[k].videoId == Known(ids, VideoMap(videos))[k]
      && Pick(ids, VideoMap(videos))[k] in videos
  {
    var m := VideoMap(videos);
    PickKnown(ids, m);
    forall k | 0 <= k < |Pick(ids, m)|
      ensures Pick(ids, m)[k].videoId == Known(ids, m)[k] && Pick(ids, m)[k] in videos
    {
      VideoMapSpec(videos, Known(ids, m)[k]);
    }
  }

  /** `[v for v in videos if playlist_id in v.playlist_ids]`. */
  function InPlaylist(videos: seq<VideoInfo>, playlistId: string): (r: seq<VideoInfo>)
    ensures |r| <= |videos|
  {
    if videos == [] then []
    else
      var last := videos[|videos| - 1];
      InPlaylist(videos[..|videos| - 1], playlistId) + (if playlistId in last.playlistIds then [last] else [])
  }

  /** `a` is `b` with some elements removed, order kept. */
  predicate Subsequence<T(==)>(a: seq<T>, b: seq<T>)
    decreases |b|
  {
    if a == [] then true
    else if b == [] then false
    else if a[|a| - 1] == b[|b| - 1] then Subsequence(a[..|a| - 1], b[..|b| - 1])
    else Subsequence(a, b[..|b| - 1])
  }

  lemma {:induction false} SubsequenceEmpty<T>(b: seq<T>)
    ensures Subsequence([], b)
  {
  }

  /** How often the playlist filter should keep `v`. */
  function Listed(videos: seq<VideoInfo>, playlistId: string, v: VideoInfo): nat {
    if playlistId in v.playlistIds then multiset(videos)[v] else 0
  }

  /** The playlist filter keeps, in catalog order, exactly the videos that
      list the playlist, each as often as the catalog has it. */
  lemma InPlaylistSpec(videos: seq<VideoInfo>, playlistId: string)
    ensures Subsequence(InPlaylist(videos, playlistId), videos)
    ensures forall v :: multiset(InPlaylist(videos, playlistId))[v] == Listed(videos, playlistId, v)
  {
    InPlaylistOrder(videos, playlistId);
    InPlaylistCounts(videos, playlistId);
  }

  lemma {:induction false} InPlaylistListed(videos: seq<VideoInfo>, playlistId: string)
    ensures forall v <- InPlaylist(videos, playlistId) :: playlistId in v.playlistIds
    decreases |videos|
  {
    if videos != [] {
      InPlaylistListed(videos[..|videos| - 1], playlistId);
    }
  }

  lemma {:induction false} InPlaylistOrder(videos: seq<VideoInfo>, playlistId: string)
    ensures Subsequence(InPlaylist(videos, playlistId), videos)
    decreases |videos|
  {
    if videos != [] {
      var init := videos[..|videos| - 1];
      var last := videos[|videos| - 1];
      InPlaylistOrder(init, playlistId);
      var p := InPlaylist(init, playlistId);
      var r := InPlaylist(videos, playlistId);
      if playlistId in last.playlistIds {
        assert r == p + [last];
        assert r[..|r| - 1] == p;
      } else {
        assert r == p;
        assert videos[..|videos| - 1] == init;
        if p != [] {
          InPlaylistListed(init, playlistId);
          assert playlistId in p[|p| - 1].playlistIds;
          assert p[|p| - 1] != last;
        }
      }
    }
  }

  lemma {:induction false} InPlaylistCounts(videos: seq<VideoInfo>, playlistId: string)
    ensures forall v :: multiset(InPlaylist(videos, playlistId))[v] == Listed(videos, playlistId, v)
    decreases |videos|
  {
    if videos != [] {
      var init := videos[..|videos| - 1];
      var last := videos[|videos| - 1];
      InPlaylistCounts(init, playlistId);
      assert videos == init + [last];
      assert multiset(videos) == multiset(init) + multiset{last};
    }
  }

  // ---------------------------------------------------------------------
  // The modes

  /** `_select_playlist`. */
  function SelectPlaylist(videos: seq<VideoInfo>, spec: SelectionSpec): Result<seq<VideoInfo>> {
    if Given(spec.playlistVideoIds) then Ok(Pick(spec.playlistVideoIds.value, VideoMap(videos)))
    else if !Given(spec.playlistId) then
      Err(ValueError("playlist_id or playlist_video_ids is required for playlist selection"))
    else Ok(InPlaylist(videos, spec.playlistId.value))
  }

  /** `_select_manual`. */
  function SelectManual(videos: seq<VideoInfo>, videoIds: Option<seq<string>>): Result<seq<VideoInfo>> {
    if !Given(videoIds) then Err(ValueError("video_ids is required for manual selection"))
    else Ok(Pick(videoIds.value, VideoMap(videos)))
  }

  /** `select_videos`. */
  function SelectVideos(videos: seq<VideoInfo>, spec: SelectionSpec): Result<seq<VideoInfo>> {
    if spec.mode == "latest" then Ok(SelectLatest(videos, spec.limit))
    else if spec.mode == "playlist" then SelectPlaylist(videos, spec)
    else if spec.mode == "manual" then SelectManual(videos, spec.videoIds)
    else Err(ValueError("Unknown selection mode: " + spec.mode))
  }

  // ---------------------------------------------------------------------
  // Properties of the dispatch

  /** The errors: an unknown mode, a playlist selection with neither ids
      nor a playlist id, and a manual selection without ids are refused,
      and nothing else is. */
  lemma SelectErrors(videos: seq<VideoInfo>, spec: SelectionSpec)
    ensures SelectVideos(videos, spec).Err? <==>
      (spec.mode !in {"latest", "playlist", "manual"})
      || (spec.mode == "playlist" && !Given(spec.playlistVideoIds) && !Given(spec.playlistId))
      || (spec.mode == "manual" && !Given(spec.videoIds))
    ensures spec.mode !in {"latest", "playlist", "manual"} ==>
      SelectVideos(videos, spec) == Err(ValueError("Unknown selection mode: " + spec.mode))
  {
  }

  /** Every selected video is a catalog video, whatever the mode. */
  lemma SelectedFromCatalog(videos: seq<VideoInfo>, spec: SelectionSpec)
    ensures SelectVideos(videos, spec).Ok? ==> forall v <- SelectVideos(videos, spec).value :: v in videos
  {
    var r := SelectVideos(videos, spec);
    if r.Ok? {
      if spec.mode == "latest" {
        LatestSelection(videos, spec.limit);
        forall v | v in r.value ensures v in videos {
          assert v in multiset(r.value);
        }
      } else if spec.mode == "playlist" && Given(spec.playlistVideoIds) {
        PickedFromCatalog(videos, spec.playlistVideoIds.value);
      } else if spec.mode == "playlist" {
        InPlaylistSpec(videos, spec.playlistId.value);
        forall v | v in r.value ensures v in videos {
          assert v in multiset(r.value);
        }
      } else {
        PickedFromCatalog(videos, spec.videoIds.value);
      }
    }
  }

  lemma PickedFromCatalog(videos: seq<VideoInfo>, ids: seq<string>)
    ensures forall v <- Pick(ids, VideoMap(videos)) :: v in videos
  {
    PickFromCatalog(videos, ids);
  }

  /** With an explicit id list (playlist ids, or manual ids), the selection
      follows that list: unknown ids are skipped and repeated ids repeat. */
  lemma SelectByIds(videos: seq<VideoInfo>, spec: SelectionSpec)
    requires (spec.mode == "playlist" && Given(spec.playlistVideoIds)) || (spec.mode == "manual" && Given(spec.videoIds))
    ensures SelectVideos(videos, spec).Ok?
    ensures var ids := if spec.mode == "playlist" then spec.playlistVideoIds.value else spec.videoIds.value;
      |SelectVideos(videos, spec).value| == |Known(ids, VideoMap(videos))|
      && forall k :: 0 <= k < |SelectVideos(videos, spec).value| ==>
        SelectVideos(videos, spec).value[k].videoId == Known(ids, VideoMap(videos))[k]
  {
    var ids := if spec.mode == "playlist" then spec.playlistVideoIds.value else spec.videoIds.value;
    PickFromCatalog(videos, ids);
  }
}
