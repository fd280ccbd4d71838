/**
 * Properties of the simulation manager's audio policy over several calls.
 */
module SimulationProperties {
  import opened Wrappers
  import opened Simulation

  /** The start-up filter keeps order: filtering a concatenation filters each part. */
  lemma {:induction false} ClipsForConcat(a: seq<AudioClipEntry>, b: seq<AudioClipEntry>, e: SimulationEvent)
    ensures ClipsFor(a + b, e) == ClipsFor(a, e) + ClipsFor(b, e)
    decreases |b|
  {
    if b == [] {
      assert a + b == a;
    } else {
      var b', last := b[..|b| - 1], b[|b| - 1];
      assert (a + b)[..|a + b| - 1] == a + b';
      assert (a + b)[|a + b| - 1] == last;
      ClipsForConcat(a, b', e);
    }
  }

  /** Each wrapper requests its own event, and every event has exactly one wrapper. */
  lemma RequestsAreOneToOne(w: Request, e: SimulationEvent)
    ensures RequestFor(RequestedEvent(w)) == w
    ensures RequestedEvent(RequestFor(e)) == e
  {
  }

  /** One play request with its random draw. */
  datatype Ask = Ask(eventType: SimulationEvent, pick: nat)

  predicate PicksInRange(s: AudioState, asks: seq<Ask>)
  {
    forall i :: 0 <= i < |asks| ==> PickInRange(s, asks[i].eventType, asks[i].pick)
  }

  /** Several play requests in a row (no table change in between). */
  function PlayAll(s: AudioState, asks: seq<Ask>): (r: AudioState)
    requires PicksInRange(s, asks)
    ensures r.eventToClips == s.eventToClips && r.audioClips == s.audioClips
    ensures r.trackingEnabled == s.trackingEnabled
    ensures s.log <= r.log
    decreases |asks|
  {
    if asks == [] then s
    else
      var s1 := AfterPlay(s, asks[0].eventType, asks[0].pick).state;
      assert PicksInRange(s1, asks[1..]) by {
        forall i | 0 <= i < |asks[1..]|
          ensures PickInRange(s1, asks[1..][i].eventType, asks[1..][i].pick)
        {
          assert asks[1..][i] == asks[i + 1];
        }
      }
      PlayAll(s1, asks[1..])
  }

  /** How many playbacks of event `e` the log holds. */
  function Plays(log: seq<Playback>, e: SimulationEvent): nat
  {
    if log == [] then 0
    else Plays(log[..|log| - 1], e) + (if log[|log| - 1].eventType == e then 1 else 0)
  }

  /** One request adds a playback of `e` exactly when it plays `e`. */
  lemma PlayOnce(s: AudioState, ask: Ask, e: SimulationEvent)
    requires PickInRange(s, ask.eventType, ask.pick)
    ensures var r := AfterPlay(s, ask.eventType, ask.pick);
      Plays(r.state.log, e) == Plays(s.log, e) + (if r.outcome.Played? && ask.eventType == e then 1 else 0)
  {
  }

  /**
   * Once per session: after any run of requests, an event other than
   * WrongAnswerFx that was not yet played has been played at most once, and
   * exactly once when it is now recorded as played. An event already
   * recorded plays no more.
   */
  lemma {:induction false} AtMostOncePerSession(s: AudioState, asks: seq<Ask>, e: SimulationEvent)
    requires PicksInRange(s, asks)
    requires e != WrongAnswerFx
    ensures var r := PlayAll(s, asks);
      && s.playedEvents <= r.playedEvents
      && Plays(r.log, e) == Plays(s.log, e) + (if e in r.playedEvents && e !in s.playedEvents then 1 else 0)
    decreases |asks|
  {
    if asks != [] {
      var res := AfterPlay(s, asks[0].eventType, asks[0].pick);
      PlayOnce(s, asks[0], e);
      assert PlayAll(s, asks) == PlayAll(res.state, asks[1..]);
      AtMostOncePerSession(res.state, asks[1..], e);
    }
  }

  /** Every request in `asks` is for WrongAnswerFx and draws an entry of its list that has a clip. */
  predicate WrongAnswerAsks(s: AudioState, asks: seq<Ask>)
  {
    && WrongAnswerFx in s.eventToClips
    && forall i :: 0 <= i < |asks| ==>
         && asks[i].eventType == WrongAnswerFx
         && asks[i].pick < |s.eventToClips[WrongAnswerFx]|
         && s.eventToClips[WrongAnswerFx][asks[i].pick].clip.Some?
  }

  /**
   * WrongAnswerFx is never recorded, so every request for it plays, whatever
   * index each call draws, as long as each drawn entry has a clip.
   */
  lemma {:induction false} WrongAnswerFxAlwaysReplays(s: AudioState, asks: seq<Ask>)
    requires Consistent(s) && WrongAnswerAsks(s, asks)
    ensures PicksInRange(s, asks)
    ensures var r := PlayAll(s, asks);
      && WrongAnswerFx !in r.playedEvents
      && Plays(r.log, WrongAnswerFx) == Plays(s.log, WrongAnswerFx) + |asks|
    decreases |asks|
  {
    if asks != [] {
      var res := AfterPlay(s, WrongAnswerFx, asks[0].pick);
      PlayOnce(s, asks[0], WrongAnswerFx);
      assert WrongAnswerAsks(res.state, asks[1..]) by {
        forall i | 0 <= i < |asks[1..]|
          ensures asks[1..][i] == asks[i + 1]
        {
        }
      }
      assert PlayAll(s, asks) == PlayAll(res.state, asks[1..]);
      WrongAnswerFxAlwaysReplays(res.state, asks[1..]);
    }
  }

  /**
   * An event without clips plays nothing and is not recorded, so it plays
   * as soon as a clip has been added for it.
   */
  lemma PlayableAfterAddingClip(s: AudioState, e: SimulationEvent, clip: AudioClip, volume: real)
    requires Consistent(s) && !HasClips(s, e)
    ensures !AlreadyPlayed(s, e)
    ensures AfterPlay(s, e, 0).state == s
    ensures var s2 := AfterAddClip(AfterPlay(s, e, 0).state, e, Some(clip), volume);
      var r := AfterPlay(s2, e, 0);
      r.outcome == Played(0) && r.state.log == s.log + [Playback(e, AudioClipEntry(e, Some(clip), volume))]
  {
  }

  /** Unlike Start, AddAudioClip keeps a null clip, so the table no longer is what Start would build. */
  lemma AddedNullClipIsKept(configured: seq<AudioClipEntry>, e: SimulationEvent, volume: real)
    ensures var r := AfterAddClip(Started(configured), e, None, volume);
      && r.eventToClips[e][|r.eventToClips[e]| - 1].clip.None?
      && r.eventToClips[e] != ClipsFor(r.audioClips, e)
  {
  }

  /** A reset makes every event playable again and is idempotent. */
  lemma ResetIsIdempotent(s: AudioState, e: SimulationEvent)
    ensures AfterReset(AfterReset(s)) == AfterReset(s)
    ensures !AlreadyPlayed(AfterReset(s), e)
  {
  }
}
