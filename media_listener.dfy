/**
 * The track-change detector. It remembers the last adopted (artist, title)
 * pair and, on each poll, adopts a new pair only when one is present, both of
 * its fields are non-empty, and it differs from the stored pair; adopting
 * fires the new-track callback once, if one is set. The operating system's
 * media-session query is an input of the poll.
 */
module Media {
  import opened Common

  /** A playing track; two tracks are equal when both fields are equal, case included. */
  datatype Track = Track(artist: string, title: string)

  /** A poll result that the listener adopts. */
  predicate IsNewTrack(current: Option<Track>, polled: Option<Track>)
  {
    polled.Some? && polled.value.artist != "" && polled.value.title != "" && polled != current
  }

  /** The stored track and whether a callback is set. */
  datatype ListenerState = ListenerState(current: Option<Track>, hasCallback: bool)

  /** The state after a poll and the call made to the callback, if any. */
  datatype PollOutcome = PollOutcome(state: ListenerState, fired: Option<Track>)

  /** One poll. */
  function Check(s: ListenerState, polled: Option<Track>): (o: PollOutcome)
    ensures o.state.hasCallback == s.hasCallback
  {
    if IsNewTrack(s.current, polled)
    then PollOutcome(s.(current := polled), if s.hasCallback then polled else None)
    else PollOutcome(s, None)
  }

  /** A poll that is absent, has an empty field, or repeats the stored track changes nothing and fires nothing. */
  lemma IgnoredPollChangesNothing(s: ListenerState, polled: Option<Track>)
    requires polled.None? || polled.value.artist == "" || polled.value.title == "" || polled == s.current
    ensures Check(s, polled) == PollOutcome(s, None)
  {
  }

  /**
   * Any other poll replaces the stored track, and the callback fires exactly
   * when one is set, with that track. Without a callback the track is still
   * adopted.
   */
  lemma NewTrackIsAdopted(s: ListenerState, t: Track)
    requires t.artist != "" && t.title != "" && Some(t) != s.current
    ensures Check(s, Some(t)).state.current == Some(t)
    ensures Check(s, Some(t)).fired == if s.hasCallback then Some(t) else None
  {
  }

  /** The state after a series of polls. */
  function After(s: ListenerState, polls: seq<Option<Track>>): ListenerState
    decreases |polls|
  {
    if polls == [] then s else After(Check(s, polls[0]).state, polls[1..])
  }

  /** The calls made to the callback over a series of polls, in order. */
  function Fired(s: ListenerState, polls: seq<Option<Track>>): seq<Track>
    decreases |polls|
  {
    if polls == [] then []
    else
      var o := Check(s, polls[0]);
      (if o.fired.Some? then [o.fired.value] else []) + Fired(o.state, polls[1..])
  }

  /** Polling the same valid track twice in a row fires once at most: once when it is new and a callback is set. */
  lemma SameTrackTwiceFiresOnce(s: ListenerState, t: Track)
    requires t.artist != "" && t.title != ""
    ensures Fired(s, [Some(t), Some(t)]) == if s.hasCallback && Some(t) != s.current then [t] else []
    ensures After(s, [Some(t), Some(t)]).current == Some(t)
  {
    var s1 := Check(s, Some(t)).state;
    assert [Some(t), Some(t)][1..] == [Some(t)];
    assert s1.current == Some(t);
    assert Fired(s1, [Some(t)]) == [] && After(s1, [Some(t)]) == s1 by {
      assert [Some(t)][1..] == [];
    }
  }

  /** Polling two different valid tracks in turn, the first new, fires twice with a callback set. */
  lemma DistinctTracksFireTwice(s: ListenerState, t1: Track, t2: Track)
    requires t1.artist != "" && t1.title != "" && t2.artist != "" && t2.title != ""
    requires t1 != t2 && Some(t1) != s.current && s.hasCallback
    ensures Fired(s, [Some(t1), Some(t2)]) == [t1, t2]
    ensures After(s, [Some(t1), Some(t2)]).current == Some(t2)
  {
    var s1 := Check(s, Some(t1)).state;
    assert [Some(t1), Some(t2)][1..] == [Some(t2)];
    assert s1.current == Some(t1) && s1.hasCallback;
    assert Fired(s1, [Some(t2)]) == [t2] && After(s1, [Some(t2)]).current == Some(t2) by {
      assert [Some(t2)][1..] == [];
    }
  }

  /** Polls that are absent or have an empty field never fire and never move the stored track, whatever came before. */
  lemma {:induction false} IncompletePollsNeverFire(s: ListenerState, polls: seq<Option<Track>>)
    requires forall i :: 0 <= i < |polls| ==> polls[i].None? || polls[i].value.artist == "" || polls[i].value.title == ""
    ensures Fired(s, polls) == [] && After(s, polls) == s
    decreases |polls|
  {
    if polls != [] {
      IgnoredPollChangesNothing(s, polls[0]);
      IncompletePollsNeverFire(s, polls[1..]);
    }
  }

  /** `n` copies of the same poll. */
  function Repeat(p: Option<Track>, n: nat): (ps: seq<Option<Track>>)
    ensures |ps| == n && forall i :: 0 <= i < n ==> ps[i] == p
  {
    if n == 0 then [] else [p] + Repeat(p, n - 1)
  }

  /** However often a track is polled in a row, the callback fires for it at most once. */
  lemma {:induction false} RepeatedPollFiresAtMostOnce(s: ListenerState, p: Option<Track>, n: nat)
    ensures |Fired(s, Repeat(p, n))| <= 1
    ensures n > 0 ==> (|Fired(s, Repeat(p, n))| == 1 <==> s.hasCallback && IsNewTrack(s.current, p))
  {
    if n > 0 {
      var o := Check(s, p);
      assert Repeat(p, n)[1..] == Repeat(p, n - 1);
      if IsNewTrack(s.current, p) {
        assert o.state.current == p;
        IgnoredPolls(o.state, p, n - 1);
      } else {
        assert o.state == s;
        IgnoredPolls(s, p, n - 1);
      }
    }
  }

  /** A poll the listener does not adopt, repeated, fires nothing. */
  lemma {:induction false} IgnoredPolls(s: ListenerState, p: Option<Track>, n: nat)
    requires !IsNewTrack(s.current, p)
    ensures Fired(s, Repeat(p, n)) == []
  {
    if n > 0 {
      assert Repeat(p, n)[1..] == Repeat(p, n - 1);
      IgnoredPolls(s, p, n - 1);
    }
  }

  /** The listener object: the stored track and whether a callback is set. */
  class MediaListener {
    var currentTrack: Option<Track>
    var hasCallback: bool

    function State(): ListenerState
      reads this
    {
      ListenerState(currentTrack, hasCallback)
    }

    constructor ()
      ensures currentTrack == None && !hasCallback
    {
      currentTrack := None;
      hasCallback := false;
    }

    /** Sets the callback; `callback` is whether a (truthy) callable is given. */
    method SetOnNewTrackCallback(callback: bool)
      modifies this
      ensures hasCallback == callback && currentTrack == old(currentTrack)
    {
      hasCallback := callback;
    }

    /** One poll with the media query's answer `polled`; `fired` is the call made to the callback. */
    method CheckNewTrack(polled: Option<Track>) returns (fired: Option<Track>)
      modifies this
      ensures PollOutcome(State(), fired) == Check(old(State()), polled)
    {
      fired := None;
      if polled.Some? && polled.value.artist != "" && polled.value.title != "" && polled != currentTrack {
        currentTrack := polled;
        if hasCallback {
          fired := currentTrack;
        }
      }
    }
  }
}
