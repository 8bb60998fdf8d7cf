/** Play order of the embedded playlist player (PlaylistPlayer.tsx): the
    order is 0..n-1, or a shuffled order of it, the displayed position is the
    current index's place in that order, and next / previous move along the
    order under three repeat modes. The random picks of the shuffle are a
    parameter. */
module PlaylistPlayer {

  import opened Options

  datatype Repeat = NoRepeat | RepeatOne | RepeatAll

  /** The mode after `mode` in the cycle none, one, all (toggleRepeat). */
  function NextRepeat(mode: Repeat): (r: Repeat)
    ensures r != mode
    ensures mode == NoRepeat <==> r == RepeatOne
  {
    match mode
    case NoRepeat => RepeatOne
    case RepeatOne => RepeatAll
    case RepeatAll => NoRepeat
  }

  /** Three presses of the repeat button come back to the starting mode, and
      each mode is reached from exactly one other. */
  lemma RepeatCycles(mode: Repeat, other: Repeat)
    ensures NextRepeat(NextRepeat(NextRepeat(mode))) == mode
    ensures NextRepeat(mode) == NextRepeat(other) ==> mode == other
  {
  }

  /** The component's state: the playlist's video ids once loaded. */
  datatype PlayerState = PlayerState(
    playlist: Option<seq<string>>,
    currentIndex: int,
    isShuffled: bool,
    repeatMode: Repeat,
    shuffledOrder: seq<int>)

  /** 0, 1, ..., n - 1. */
  function Range(n: nat): (r: seq<int>)
    ensures |r| == n && forall k :: 0 <= k < n ==> r[k] == k
  {
    if n == 0 then [] else Range(n - 1) + [n - 1]
  }

  /** `order` lists 0..n-1, each once. */
  predicate IsOrderOf(order: seq<int>, n: nat)
  {
    multiset(order) == multiset(Range(n))
  }

  /** An order of 0..n-1 has n entries, all in range and distinct. */
  lemma OrderFacts(order: seq<int>, n: nat)
    requires IsOrderOf(order, n)
    ensures |order| == n
    ensures forall k :: 0 <= k < |order| ==> 0 <= order[k] < n
    ensures forall i, j :: 0 <= i < j < |order| ==> order[i] != order[j]
  {
    assert |order| == |multiset(order)| == |multiset(Range(n))| == n;
    forall k | 0 <= k < |order|
      ensures 0 <= order[k] < n
    {
      assert order[k] in multiset(order);
      assert order[k] in Range(n);
    }
    forall i, j | 0 <= i < j < |order|
      ensures order[i] != order[j]
    {
      if order[i] == order[j] {
        RangeCountsOnce(n, order[i]);
        CountAtLeastTwo(order, i, j);
      }
    }
  }

  /** Every value occurs at most once in Range(n). */
  lemma {:induction false} RangeCountsOnce(n: nat, x: int)
    ensures multiset(Range(n))[x] <= 1
  {
    if n > 0 {
      RangeCountsOnce(n - 1, x);
      assert Range(n) == Range(n - 1) + [n - 1];
      if x == n - 1 {
        assert x !in Range(n - 1);
      }
    }
  }

  /** A value at two positions occurs at least twice. */
  lemma CountAtLeastTwo(s: seq<int>, i: int, j: int)
    requires 0 <= i < j < |s| && s[i] == s[j]
    ensures multiset(s)[s[i]] >= 2
  {
    assert s == s[..i] + [s[i]] + s[i + 1..j] + [s[j]] + s[j + 1..];
  }

  /** getVideoOrder. */
  function VideoOrder(p: PlayerState): seq<int>
  {
    if p.playlist.None? then []
    else if p.isShuffled then p.shuffledOrder
    else Range(|p.playlist.value|)
  }

  /** Position of the first x in s, or -1 (indexOf). */
  function IndexOf(s: seq<int>, x: int): (r: int)
    ensures -1 <= r < |s|
    ensures r >= 0 ==> s[r] == x
    ensures r == -1 <==> x !in s
    ensures forall k :: 0 <= k < r ==> s[k] != x
  {
    if s == [] then -1
    else if s[0] == x then 0
    else var rest := IndexOf(s[1..], x); if rest == -1 then -1 else rest + 1
  }

  /** getCurrentVideoIndex: the displayed position. */
  function OrderPosition(p: PlayerState): int
  {
    IndexOf(VideoOrder(p), p.currentIndex)
  }

  /** The state loaded components keep: the shuffled order is an order of
      the playlist's videos (it is reset with every playlist and rebuilt on
      every shuffle). */
  predicate Consistent(p: PlayerState)
  {
    p.playlist.Some? ==> IsOrderOf(p.shuffledOrder, |p.playlist.value|)
  }

  /** What pressing next or previous does: nothing, select the video at an
      index, or throw, because the chosen index names no video and reading
      its `_id` fails. */
  datatype Move = Stay | Go(index: int) | Throws

  /** The index a press selects, if the press selects one. */
  function Target(p: PlayerState, forward: bool): Option<int>
    requires p.playlist.Some?
  {
    var order := VideoOrder(p);
    var position := OrderPosition(p);
    if p.repeatMode == RepeatOne then Some(p.currentIndex)
    else if forward && position < |order| - 1 then Some(order[position + 1])
    else if !forward && position > 0 then Some(order[position - 1])
    else if p.repeatMode == RepeatAll then
      // order[0] and order[order.length - 1] are `undefined` for an empty order
      if |order| == 0 then Some(-1) else Some(if forward then order[0] else order[|order| - 1])
    else None
  }

  /** playNext (forward) and playPrevious, as written. */
  function PressAsWritten(p: PlayerState, forward: bool): Move
  {
    if p.playlist.None? then Stay
    else
      var target := Target(p, forward);
      if target.None? then Stay
      else if 0 <= target.value < |p.playlist.value| then Go(target.value)
      else Throws
  }

  /** The state after a move. */
  function After(p: PlayerState, m: Move): PlayerState
  {
    if m.Go? then p.(currentIndex := m.index) else p
  }

  /** On a loaded playlist with no videos, next in repeat-all mode (whose
      button stays enabled) and previous in repeat-one or repeat-all mode
      (whose button is enabled because the position -1 is not 0) throw. */
  lemma EmptyPlaylistThrows(p: PlayerState)
    requires p.playlist == Some([]) && Consistent(p)
    ensures p.repeatMode == RepeatAll ==> PressAsWritten(p, true) == Throws
    ensures p.repeatMode != NoRepeat ==> PressAsWritten(p, false) == Throws
  {
    OrderFacts(p.shuffledOrder, 0);
  }

  /** After a reload to a shorter playlist the current index is kept
      (fetchPlaylist resets only the order), so it can name no video. In
      repeat-one mode both presses then select that index and throw, while
      in the other modes the position is -1 and next starts the order
      afresh. */
  lemma StaleIndexThrows(p: PlayerState, ids: seq<string>)
    requires Consistent(p) && |ids| > 0 && p.currentIndex >= |ids|
    ensures var q := p.(playlist := Some(ids), shuffledOrder := Range(|ids|));
            && Consistent(q)
            && OrderPosition(q) == -1
            && (p.repeatMode == RepeatOne ==> PressAsWritten(q, true) == Throws && PressAsWritten(q, false) == Throws)
            && (p.repeatMode != RepeatOne ==> PressAsWritten(q, true) == Go(VideoOrder(q)[0]))
  {
    var q := p.(playlist := Some(ids), shuffledOrder := Range(|ids|));
    var order := VideoOrder(q);
    assert order == Range(|ids|);
    assert p.currentIndex !in order;
  }

  /** A three-video playlist playing its last video in repeat-one mode,
      reloaded with two videos, throws on next. */
  lemma ReloadedShorterPlaylistThrows()
    ensures var q := PlayerState(Some(["a", "b"]), 2, false, RepeatOne, Range(2));
            Consistent(q) && PressAsWritten(q, true) == Throws
  {
    StaleIndexThrows(PlayerState(Some(["a", "b", "c"]), 2, false, RepeatOne, Range(3)), ["a", "b"]);
  }

  /** playNext and playPrevious with the evidently intended guards: a
      playlist without videos has nothing to play, and repeat-one mode
      replays only a current index that names a video. */
  function Press(p: PlayerState, forward: bool): Move
  {
    if p.playlist.Some? && |p.playlist.value| == 0 then Stay
    else if p.playlist.Some? && p.repeatMode == RepeatOne && !(0 <= p.currentIndex < |p.playlist.value|) then Stay
    else PressAsWritten(p, forward)
  }

  /** With the guards, a press never throws, every selected index names a
      video, and the press agrees with the code as written wherever that
      does not throw. */
  lemma PressNeverThrows(p: PlayerState, forward: bool)
    requires Consistent(p)
    ensures Press(p, forward) != Throws
    ensures Press(p, forward).Go? ==> 0 <= Press(p, forward).index < |p.playlist.value|
    ensures PressAsWritten(p, forward) != Throws ==> Press(p, forward) == PressAsWritten(p, forward)
  {
    if p.playlist.Some? && |p.playlist.value| > 0 {
      var n := |p.playlist.value|;
      OrderFacts(p.shuffledOrder, n);
      var order := VideoOrder(p);
      assert forall k :: 0 <= k < |order| ==> 0 <= order[k] < n;
      var t := Target(p, forward);
      assert p.repeatMode != RepeatOne && t.Some? ==> 0 <= t.value < n;
    } else if p.playlist.Some? {
      OrderFacts(p.shuffledOrder, 0);
    }
  }

  /** Outside repeat-one mode, next moves to the entry after the current one
      in the play order, wrapping to the first only in repeat-all mode, and
      previous undoes a next that did not wrap. */
  lemma PreviousUndoesNext(p: PlayerState)
    requires Consistent(p) && p.playlist.Some? && p.repeatMode != RepeatOne
    requires 0 <= OrderPosition(p) < |VideoOrder(p)| - 1
    ensures Press(p, true) == Go(VideoOrder(p)[OrderPosition(p) + 1])
    ensures Press(After(p, Press(p, true)), false) == Go(p.currentIndex)
  {
    var n := |p.playlist.value|;
    var order := VideoOrder(p);
    var i := OrderPosition(p);
    if p.isShuffled {
      OrderFacts(p.shuffledOrder, n);
    }
    assert 0 <= order[i + 1] < n;
    var q := After(p, Press(p, true));
    assert VideoOrder(q) == order;
    assert IndexOf(order, order[i + 1]) == i + 1 by {
      if p.isShuffled {
        assert forall k :: 0 <= k < i + 1 ==> order[k] != order[i + 1];
      }
    }
    assert 0 <= order[i] < n;
  }

  /** At the end of the play order next stays put unless repeat-all mode
      wraps it to the first entry; repeat-one mode always replays. */
  lemma NextAtEnd(p: PlayerState)
    requires Consistent(p) && p.playlist.Some? && |p.playlist.value| > 0
    requires 0 <= p.currentIndex < |p.playlist.value|
    requires OrderPosition(p) == |VideoOrder(p)| - 1
    ensures p.repeatMode == NoRepeat ==> Press(p, true) == Stay
    ensures p.repeatMode == RepeatAll ==> Press(p, true) == Go(VideoOrder(p)[0])
    ensures p.repeatMode == RepeatOne ==> Press(p, true) == Go(p.currentIndex)
  {
    var n := |p.playlist.value|;
    if p.isShuffled {
      OrderFacts(p.shuffledOrder, n);
    }
    assert 0 <= VideoOrder(p)[0] < n;
  }

  /** The order after the swap loop for i = top down to 1, swapping entry i
      with entry picks[i]. */
  function Swapped(order: seq<int>, picks: seq<int>, top: int): (r: seq<int>)
    requires top < |order| && top < |picks|
    requires forall i :: 0 < i <= top ==> 0 <= picks[i] <= i
    ensures |r| == |order|
    decreases top
  {
    if top <= 0 then order
    else
      var j := picks[top];
      Swapped(order[top := order[j]][j := order[top]], picks, top - 1)
  }

  /** Swapping never adds or loses an entry. */
  lemma {:induction false} SwappedKeepsEntries(order: seq<int>, picks: seq<int>, top: int)
    requires top < |order| && top < |picks|
    requires forall i :: 0 < i <= top ==> 0 <= picks[i] <= i
    ensures multiset(Swapped(order, picks, top)) == multiset(order)
    decreases top
  {
    if top > 0 {
      var j := picks[top];
      SwapKeepsMultiset(order, top, j);
      SwappedKeepsEntries(order[top := order[j]][j := order[top]], picks, top - 1);
    }
  }

  lemma SwapKeepsMultiset(s: seq<int>, i: int, j: int)
    requires 0 <= i < |s| && 0 <= j < |s|
    ensures multiset(s[i := s[j]][j := s[i]]) == multiset(s)
  {
    if i != j {
      var t := s[i := s[j]];
      assert multiset(t) == multiset(s) - multiset{s[i]} + multiset{s[j]};
      assert multiset(t[j := s[i]]) == multiset(t) - multiset{t[j]} + multiset{s[i]};
    }
  }

  /** The shuffle's picks: Math.floor(Math.random() * (i + 1)) for each i. */
  predicate ValidPicks(picks: seq<int>, n: nat)
  {
    |picks| >= n && forall i :: 0 < i < n ==> 0 <= picks[i] <= i
  }

  /** The order a shuffle of n videos builds: a permutation of 0..n-1. */
  function ShuffledOrder(n: nat, picks: seq<int>): (r: seq<int>)
    requires ValidPicks(picks, n)
    ensures IsOrderOf(r, n)
  {
    SwappedKeepsEntries(Range(n), picks, n - 1);
    Swapped(Range(n), picks, n - 1)
  }

  /** toggleShuffle: switching on rebuilds the shuffled order; switching
      off keeps it for the next time. */
  function ShuffleToggled(p: PlayerState, picks: seq<int>): PlayerState
    requires p.playlist.Some? ==> ValidPicks(picks, |p.playlist.value|)
  {
    if p.playlist.None? then p
    else if !p.isShuffled then p.(shuffledOrder := ShuffledOrder(|p.playlist.value|, picks), isShuffled := true)
    else p.(isShuffled := false)
  }

  /** Every action keeps the shuffled order an order of the playlist. */
  lemma ActionsStayConsistent(p: PlayerState, picks: seq<int>, forward: bool, ids: seq<string>)
    requires Consistent(p)
    requires p.playlist.Some? ==> ValidPicks(picks, |p.playlist.value|)
    ensures Consistent(ShuffleToggled(p, picks))
    ensures Consistent(After(p, PressAsWritten(p, forward)))
    ensures Consistent(p.(repeatMode := NextRepeat(p.repeatMode)))
    ensures Consistent(p.(playlist := Some(ids), shuffledOrder := Range(|ids|)))
  {
  }

  /** The component's state, updated in place by its handlers. */
  class Player {
    var playlist: Option<seq<string>>
    var currentIndex: int
    var isShuffled: bool
    var repeatMode: Repeat
    var shuffledOrder: seq<int>

    function State(): PlayerState
      reads this
    {
      PlayerState(playlist, currentIndex, isShuffled, repeatMode, shuffledOrder)
    }

    constructor ()
      ensures State() == PlayerState(None, 0, false, NoRepeat, [])
    {
      playlist, currentIndex, isShuffled := None, 0, false;
      repeatMode, shuffledOrder := NoRepeat, [];
    }

    /** A successful fetch: the playlist and an unshuffled order. */
    method Loaded(ids: seq<string>)
      modifies this
      ensures State() == old(State()).(playlist := Some(ids), shuffledOrder := Range(|ids|))
    {
      playlist := Some(ids);
      var order := RangeArray(|ids|);
      shuffledOrder := order[..];
    }

    method PlayNext() returns (m: Move)
      modifies this
      ensures m == PressAsWritten(old(State()), true)
      ensures State() == After(old(State()), m)
    {
      m := PressAsWritten(State(), true);
      if m.Go? {
        currentIndex := m.index;
      }
    }

    method PlayPrevious() returns (m: Move)
      modifies this
      ensures m == PressAsWritten(old(State()), false)
      ensures State() == After(old(State()), m)
    {
      m := PressAsWritten(State(), false);
      if m.Go? {
        currentIndex := m.index;
      }
    }

    method ToggleRepeat()
      modifies this
      ensures State() == old(State()).(repeatMode := NextRepeat(old(repeatMode)))
    {
      repeatMode := NextRepeat(repeatMode);
    }

    /** toggleShuffle, with the swap loop run in place on a fresh array. */
    method ToggleShuffle(picks: seq<int>)
      requires playlist.Some? ==> ValidPicks(picks, |playlist.value|)
      modifies this
      ensures State() == ShuffleToggled(old(State()), picks)
    {
      if playlist.None? {
        return;
      }
      if !isShuffled {
        var order := RangeArray(|playlist.value|);
        SwapDown(order, picks);
        shuffledOrder := order[..];
      }
      isShuffled := !isShuffled;
    }
  }

  /** Array.from({ length: n }, (_, i) => i). */
  method RangeArray(n: nat) returns (order: array<int>)
    ensures fresh(order) && order[..] == Range(n)
  {
    order := new int[n];
    for k := 0 to n
      invariant forall i :: 0 <= i < k ==> order[i] == i
    {
      order[k] := k;
    }
  }

  lemma SwappedStep(s: seq<int>, picks: seq<int>, i: int)
    requires 0 < i < |s| && ValidPicks(picks, |s|)
    ensures Swapped(s, picks, i) == Swapped(s[i := s[picks[i]]][picks[i] := s[i]], picks, i - 1)
  {
  }

  /** The swap loop for i = length - 1 down to 1, in place. */
  method SwapDown(order: array<int>, picks: seq<int>)
    requires ValidPicks(picks, order.Length)
    modifies order
    ensures order[..] == Swapped(old(order[..]), picks, order.Length - 1)
  {
    ghost var goal := Swapped(order[..], picks, order.Length - 1);
    var i := order.Length - 1;
    while i > 0
      invariant -1 <= i < order.Length
      invariant i < 0 ==> order.Length == 0
      invariant Swapped(order[..], picks, i) == goal
    {
      var j := picks[i];
      ghost var before := order[..];
      var t := order[i];
      order[i] := order[j];
      order[j] := t;
      assert order[..] == before[i := before[j]][j := before[i]];
      SwappedStep(before, picks, i);
      i := i - 1;
    }
  }
}
