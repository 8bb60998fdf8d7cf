/** The persisted playlist queue store (playlistQueueStore.ts): the queue
    being played, the playlist's own order kept for un-shuffling, the current
    position and the shuffle flag. Every action replaces some of the store's
    fields; the transitions are stated as functions on a snapshot of the
    store, and the QueueStore class performs them in place. The random order
    a shuffle produces is a parameter that must be a permutation of the
    entries it shuffles. */
module PlaylistQueue {

  import opened Options

  /** A playlist entry; `id` is the video's `_id`. */
  datatype Video = Video(id: string, title: string)

  datatype QueueState = QueueState(
    playlistId: Option<string>,
    playlistName: Option<string>,
    queue: seq<Video>,
    originalQueue: seq<Video>,
    currentIndex: int,
    isShuffled: bool)

  /** The store's initial contents, which clearQueue also restores. */
  const EmptyQueue := QueueState(None, None, [], [], 0, false)

  /** s without its i-th entry (filter by position). */
  function Without(s: seq<Video>, i: int): (r: seq<Video>)
    requires 0 <= i < |s|
    ensures |r| == |s| - 1
    ensures multiset(r) + multiset{s[i]} == multiset(s)
  {
    assert s == s[..i] + [s[i]] + s[i + 1..];
    s[..i] + s[i + 1..]
  }

  /** The entries of s whose id differs from `id` (None, an absent current
      video, matches no entry). */
  function WithoutId(s: seq<Video>, id: Option<string>): (r: seq<Video>)
    ensures forall k :: 0 <= k < |r| ==> Some(r[k].id) != id
    ensures forall v: Video :: Some(v.id) != id ==> multiset(r)[v] == multiset(s)[v]
    ensures multiset(r) <= multiset(s)
    ensures id.None? ==> r == s
  {
    if s == [] then []
    else
      assert s == [s[0]] + s[1..];
      if Some(s[0].id) == id then WithoutId(s[1..], id) else [s[0]] + WithoutId(s[1..], id)
  }

  /** Position of the first entry with the given id, or -1 (findIndex). */
  function FindIndex(s: seq<Video>, id: Option<string>): (r: int)
    ensures -1 <= r < |s|
    ensures r >= 0 ==> Some(s[r].id) == id
    ensures forall k :: 0 <= k < |s| && (r == -1 || k < r) ==> Some(s[k].id) != id
  {
    if s == [] then -1
    else if Some(s[0].id) == id then 0
    else var rest := FindIndex(s[1..], id); if rest == -1 then -1 else rest + 1
  }

  /** The entry at the current position, if there is one (getCurrentVideo). */
  function CurrentVideo(s: QueueState): (r: Option<Video>)
    ensures r.Some? <==> 0 <= s.currentIndex < |s.queue|
  {
    if 0 <= s.currentIndex < |s.queue| then Some(s.queue[s.currentIndex]) else None
  }

  function IdOf(v: Option<Video>): Option<string>
  {
    if v.Some? then Some(v.value.id) else None
  }

  predicate HasNext(s: QueueState)
  {
    s.currentIndex < |s.queue| - 1
  }

  predicate HasPrevious(s: QueueState)
  {
    s.currentIndex > 0
  }

  /** The random order a shuffle may produce of `others`. */
  predicate IsShuffleOf(shuffled: seq<Video>, others: seq<Video>)
  {
    multiset(shuffled) == multiset(others)
  }

  /** setPlaylistQueue: the playlist's own order is always kept; with
      shuffle the start video leads a random order of the other entries and
      the position is 0, without it the queue is the playlist and the
      position is startIndex (not checked). */
  function Loaded(s: QueueState, id: string, name: string, videos: seq<Video>, startIndex: int, shuffle: bool,
                  shuffled: seq<Video>): QueueState
    requires shuffle ==> 0 <= startIndex < |videos| && IsShuffleOf(shuffled, Without(videos, startIndex))
  {
    if shuffle then QueueState(Some(id), Some(name), [videos[startIndex]] + shuffled, videos, 0, true)
    else QueueState(Some(id), Some(name), videos, videos, startIndex, false)
  }

  /** A shuffled load plays the start video first and holds exactly the
      playlist's entries; an unshuffled load plays the playlist in order from
      startIndex. */
  lemma LoadedPlaysStartVideo(s: QueueState, id: string, name: string, videos: seq<Video>, startIndex: int,
                              shuffle: bool, shuffled: seq<Video>)
    requires shuffle ==> 0 <= startIndex < |videos| && IsShuffleOf(shuffled, Without(videos, startIndex))
    ensures var t := Loaded(s, id, name, videos, startIndex, shuffle, shuffled);
            && t.originalQueue == videos && t.playlistId == Some(id) && t.isShuffled == shuffle
            && multiset(t.queue) == multiset(videos)
            && (0 <= startIndex < |videos| ==> CurrentVideo(t) == Some(videos[startIndex]))
            && (!shuffle ==> t.queue == videos && t.currentIndex == startIndex)
  {
    if shuffle {
      var t := Loaded(s, id, name, videos, startIndex, shuffle, shuffled);
      assert t.queue == [videos[startIndex]] + shuffled;
      assert multiset(t.queue) == multiset{videos[startIndex]} + multiset(shuffled);
    }
  }

  /** setCurrentIndex: only a position inside the queue is accepted. */
  function WithIndex(s: QueueState, index: int): (t: QueueState)
    ensures 0 <= index < |s.queue| ==> t.currentIndex == index && CurrentVideo(t) == Some(s.queue[index])
    ensures !(0 <= index < |s.queue|) ==> t == s
    ensures t.(currentIndex := s.currentIndex) == s
  {
    if 0 <= index < |s.queue| then s.(currentIndex := index) else s
  }

  /** nextVideo: the new state and the video it returns. */
  function Advanced(s: QueueState): (QueueState, Option<Video>)
  {
    if s.currentIndex < |s.queue| - 1 then
      var t := s.(currentIndex := s.currentIndex + 1);
      (t, CurrentVideo(t))
    else (s, None)
  }

  /** previousVideo: the new state and the video it returns. */
  function Retreated(s: QueueState): (QueueState, Option<Video>)
  {
    if s.currentIndex > 0 then
      var t := s.(currentIndex := s.currentIndex - 1);
      (t, CurrentVideo(t))
    else (s, None)
  }

  /** nextVideo moves one place forward exactly when hasNext holds, returns
      the video now current, and changes nothing else; previousVideo
      likewise backwards with hasPrevious. */
  lemma StepsFollowHasNextAndHasPrevious(s: QueueState)
    ensures Advanced(s).0 == (if HasNext(s) then s.(currentIndex := s.currentIndex + 1) else s)
    ensures Advanced(s).1 == (if HasNext(s) then CurrentVideo(Advanced(s).0) else None)
    ensures 0 <= s.currentIndex && HasNext(s) ==> Advanced(s).1.Some?
    ensures Retreated(s).0 == (if HasPrevious(s) then s.(currentIndex := s.currentIndex - 1) else s)
    ensures Retreated(s).1 == (if HasPrevious(s) then CurrentVideo(Retreated(s).0) else None)
    ensures HasPrevious(s) && s.currentIndex <= |s.queue| ==> Retreated(s).1.Some?
  {
  }

  /** Going forward and then back (or back and then forward) from a position
      inside the queue returns to the same state. */
  lemma NextThenPreviousRestores(s: QueueState)
    requires 0 <= s.currentIndex < |s.queue|
    ensures HasNext(s) ==> Retreated(Advanced(s).0).0 == s && Retreated(Advanced(s).0).1 == CurrentVideo(s)
    ensures HasPrevious(s) ==> Advanced(Retreated(s).0).0 == s && Advanced(Retreated(s).0).1 == CurrentVideo(s)
  {
  }

  /** toggleShuffle. Turning shuffle off restores the playlist's order at the
      current video's first position by id (0 when absent); turning it on puts
      the current video first, followed by a random order of the playlist's
      entries with another id. */
  function Toggled(s: QueueState, shuffled: seq<Video>): QueueState
    requires !s.isShuffled ==> IsShuffleOf(shuffled, WithoutId(s.originalQueue, IdOf(CurrentVideo(s))))
  {
    var current := CurrentVideo(s);
    if s.isShuffled then
      var index := FindIndex(s.originalQueue, IdOf(current));
      s.(queue := s.originalQueue, currentIndex := if index >= 0 then index else 0, isShuffled := false)
    else
      s.(queue := (if current.Some? then [current.value] else []) + shuffled, currentIndex := 0, isShuffled := true)
  }

  /** Toggling keeps the playlist's order and flips the flag. Turning
      shuffle on keeps the very video that was playing, now at position 0;
      turning it off keeps a video with the same id whenever the playlist
      has one. With no current video, turning shuffle on starts the random
      order at position 0. */
  lemma ToggledKeepsCurrentVideo(s: QueueState, shuffled: seq<Video>)
    requires !s.isShuffled ==> IsShuffleOf(shuffled, WithoutId(s.originalQueue, IdOf(CurrentVideo(s))))
    ensures var t := Toggled(s, shuffled);
            && t.originalQueue == s.originalQueue && t.isShuffled == !s.isShuffled
            && (!s.isShuffled ==> t.currentIndex == 0)
            && (!s.isShuffled && CurrentVideo(s).Some? ==> CurrentVideo(t) == CurrentVideo(s))
            && (s.isShuffled && FindIndex(s.originalQueue, IdOf(CurrentVideo(s))) >= 0 ==>
                  IdOf(CurrentVideo(t)) == IdOf(CurrentVideo(s)))
  {
  }

  /** No two entries of s share an id. */
  predicate UniqueIds(s: seq<Video>)
  {
    forall i, j :: 0 <= i < j < |s| ==> s[i].id != s[j].id
  }

  /** With distinct ids, shuffling a queue that plays in the playlist's order
      and un-shuffling it again restores the store exactly. */
  lemma ShuffleThenUnshuffleRestores(s: QueueState, shuffled: seq<Video>, reshuffled: seq<Video>)
    requires !s.isShuffled && s.queue == s.originalQueue && UniqueIds(s.queue)
    requires 0 <= s.currentIndex < |s.queue|
    requires IsShuffleOf(shuffled, WithoutId(s.originalQueue, IdOf(CurrentVideo(s))))
    ensures Toggled(Toggled(s, shuffled), reshuffled) == s
  {
    var t := Toggled(s, shuffled);
    assert CurrentVideo(t) == CurrentVideo(s);
    var index := FindIndex(s.originalQueue, IdOf(CurrentVideo(s)));
  }

  /** With distinct ids, a video of s occurs in it once, and no other entry
      carries its id. */
  lemma {:induction false} UniqueIdOccursOnce(s: seq<Video>, v: Video, w: Video)
    requires UniqueIds(s) && v in s && w.id == v.id
    ensures multiset(s)[w] == if w == v then 1 else 0
  {
    assert s == [s[0]] + s[1..];
    assert UniqueIds(s[1..]) by {
      forall i, j | 0 <= i < j < |s[1..]|
        ensures s[1..][i].id != s[1..][j].id
      {
        assert s[1..][i] == s[i + 1] && s[1..][j] == s[j + 1];
      }
    }
    if s[0] == v {
      assert w !in s[1..] by {
        forall k | 0 <= k < |s[1..]|
          ensures s[1..][k] != w
        {
          assert s[1..][k] == s[k + 1];
        }
      }
    } else {
      assert v in s[1..];
      var k :| 0 <= k < |s[1..]| && s[1..][k] == v;
      assert s[k + 1] == v;
      UniqueIdOccursOnce(s[1..], v, w);
    }
  }

  /** With distinct ids in the playlist, turning shuffle on keeps exactly
      the playlist's entries: the current video (when the playlist holds it)
      first, every other entry once in the random order. */
  lemma ShuffledQueueHoldsPlaylist(s: QueueState, shuffled: seq<Video>)
    requires !s.isShuffled && IsShuffleOf(shuffled, WithoutId(s.originalQueue, IdOf(CurrentVideo(s))))
    requires UniqueIds(s.originalQueue)
    requires CurrentVideo(s).Some? ==> CurrentVideo(s).value in s.originalQueue
    ensures multiset(Toggled(s, shuffled).queue) == multiset(s.originalQueue)
  {
    var t := Toggled(s, shuffled);
    var r := WithoutId(s.originalQueue, IdOf(CurrentVideo(s)));
    if CurrentVideo(s).Some? {
      var v := CurrentVideo(s).value;
      assert t.queue == [v] + shuffled;
      forall w: Video
        ensures multiset(t.queue)[w] == multiset(s.originalQueue)[w]
      {
        if w.id == v.id {
          UniqueIdOccursOnce(s.originalQueue, v, w);
          assert w !in r;
        }
      }
      assert multiset(t.queue) == multiset(s.originalQueue);
    }
  }

  /** The store, updated in place by its actions. */
  class QueueStore {
    var playlistId: Option<string>
    var playlistName: Option<string>
    var queue: seq<Video>
    var originalQueue: seq<Video>
    var currentIndex: int
    var isShuffled: bool

    function State(): QueueState
      reads this
    {
      QueueState(playlistId, playlistName, queue, originalQueue, currentIndex, isShuffled)
    }

    constructor ()
      ensures State() == EmptyQueue
    {
      playlistId, playlistName := None, None;
      queue, originalQueue := [], [];
      currentIndex, isShuffled := 0, false;
    }

    method SetPlaylistQueue(id: string, name: string, videos: seq<Video>, startIndex: int, shuffle: bool,
                            shuffled: seq<Video>)
      requires shuffle ==> 0 <= startIndex < |videos| && IsShuffleOf(shuffled, Without(videos, startIndex))
      modifies this
      ensures State() == Loaded(old(State()), id, name, videos, startIndex, shuffle, shuffled)
    {
      var q := videos;
      var start := startIndex;
      if shuffle {
        q := [videos[startIndex]] + shuffled;
        start := 0;
      }
      playlistId, playlistName := Some(id), Some(name);
      queue, originalQueue := q, videos;
      currentIndex, isShuffled := start, shuffle;
    }

    method ClearQueue()
      modifies this
      ensures State() == EmptyQueue
    {
      playlistId, playlistName := None, None;
      queue, originalQueue := [], [];
      currentIndex, isShuffled := 0, false;
    }

    method SetCurrentIndex(index: int)
      modifies this
      ensures State() == WithIndex(old(State()), index)
    {
      if index >= 0 && index < |queue| {
        currentIndex := index;
      }
    }

    method NextVideo() returns (video: Option<Video>)
      modifies this
      ensures (State(), video) == Advanced(old(State()))
    {
      if currentIndex < |queue| - 1 {
        currentIndex := currentIndex + 1;
        return CurrentVideo(State());
      }
      return None;
    }

    method PreviousVideo() returns (video: Option<Video>)
      modifies this
      ensures (State(), video) == Retreated(old(State()))
    {
      if currentIndex > 0 {
        currentIndex := currentIndex - 1;
        return CurrentVideo(State());
      }
      return None;
    }

    method ToggleShuffle(shuffled: seq<Video>)
      requires !isShuffled ==> IsShuffleOf(shuffled, WithoutId(originalQueue, IdOf(CurrentVideo(State()))))
      modifies this
      ensures State() == Toggled(old(State()), shuffled)
    {
      var current := CurrentVideo(State());
      if isShuffled {
        var index := FindIndex(originalQueue, IdOf(current));
        queue := originalQueue;
        currentIndex := if index >= 0 then index else 0;
        isShuffled := false;
      } else {
        queue := (if current.Some? then [current.value] else []) + shuffled;
        currentIndex := 0;
        isShuffled := true;
      }
    }
  }
}
