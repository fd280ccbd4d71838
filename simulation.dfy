/**
 * The audio-event table, the "play each event at most once per session"
 * policy and the shared barcode-tracking switch of the simulation manager.
 *
 * The manager's state is described by the value `AudioState`; the pure
 * functions `Started`, `AfterPlay`, `AfterAddClip` and `AfterReset` say what
 * each operation does to it, and class `SimulationManager` implements the
 * operations imperatively and is proved against those functions.
 */
module Simulation {
  import opened Wrappers

  datatype SimulationEvent =
    | Intro
    | BGMusic
    | ReAssembly
    | SelectBrakeFan
    | SelectTorqueWrench
    | SelectStandardWrench
    | WrongAnswerFx
    | CorrectAnswerFx
    | Completion

  /** Every event, in declaration order (the order the enum is enumerated in). */
  const AllEvents: seq<SimulationEvent> :=
    [Intro, BGMusic, ReAssembly, SelectBrakeFan, SelectTorqueWrench,
     SelectStandardWrench, WrongAnswerFx, CorrectAnswerFx, Completion]

  lemma AllEventsListed(e: SimulationEvent)
    ensures e in AllEvents
  {
  }

  /** An audio asset; only its identity matters here. */
  datatype AudioClip = AudioClip(name: string)

  /** One configured entry; `clip` is `None` where the reference is null. */
  datatype AudioClipEntry = AudioClipEntry(eventType: SimulationEvent, clip: Option<AudioClip>, volume: real := 1.0)

  /** One call of the audio source's one-shot playback. */
  datatype Playback = Playback(eventType: SimulationEvent, entry: AudioClipEntry)

  type EventTable = map<SimulationEvent, seq<AudioClipEntry>>

  datatype AudioState = AudioState(
    audioClips: seq<AudioClipEntry>,  // the configured list
    eventToClips: EventTable,          // the lookup table built from it
    playedEvents: set<SimulationEvent>,
    trackingEnabled: bool,             // the barcode reader's enabled flag
    log: seq<Playback>)                // every clip played so far

  /**
   * What holds of the manager between calls: the table has a key for every
   * event, each list holds only entries of its own event that are also in
   * the configured list, the always-replayable WrongAnswerFx is never
   * recorded as played, and only an event with clips is ever recorded.
   */
  predicate Consistent(s: AudioState): (r: bool)
    // under the invariant the play guard is plain membership in the played set
    ensures r ==> forall e :: AlreadyPlayed(s, e) <==> e in s.playedEvents
  {
    && (forall e :: e in s.eventToClips)
    && (forall e, x :: e in s.eventToClips && x in s.eventToClips[e] ==> x.eventType == e && x in s.audioClips)
    && WrongAnswerFx !in s.playedEvents
    && (forall e :: e in s.playedEvents ==> HasClips(s, e))
  }

  // ----- Start ---------------------------------------------------------------

  /** The entries of `entries` for event `e` whose clip is not null, in their original order. */
  function ClipsFor(entries: seq<AudioClipEntry>, e: SimulationEvent): (r: seq<AudioClipEntry>)
    ensures |r| <= |entries|
    ensures forall x :: x in r <==> x in entries && x.eventType == e && x.clip.Some?
  {
    if entries == [] then []
    else
      var init, last := entries[..|entries| - 1], entries[|entries| - 1];
      assert entries == init + [last];
      ClipsFor(init, e) + (if last.eventType == e && last.clip.Some? then [last] else [])
  }

  /**
   * Builds the event table the way Start does: first an empty list for every
   * event, then one pass over the configured entries appending each entry
   * with a clip to the list of its event.
   */
  method BuildEventToClips(audioClips: seq<AudioClipEntry>) returns (table: EventTable)
    ensures forall e :: e in table && table[e] == ClipsFor(audioClips, e)
  {
    table := map[];
    for k := 0 to |AllEvents|
      invariant forall j :: 0 <= j < k ==> AllEvents[j] in table
      invariant forall e :: e in table ==> table[e] == []
    {
      table := table[AllEvents[k] := []];
    }
    forall e ensures e in table {
      AllEventsListed(e);
    }
    for i := 0 to |audioClips|
      invariant forall e :: e in table && table[e] == ClipsFor(audioClips[..i], e)
    {
      var entry := audioClips[i];
      assert audioClips[..i + 1][..i] == audioClips[..i];
      if entry.clip.Some? {
        table := table[entry.eventType := table[entry.eventType] + [entry]];
      }
    }
    assert audioClips[..|audioClips|] == audioClips;
  }

  /** The table Start builds, as a value. */
  function TableFor(audioClips: seq<AudioClipEntry>): (t: EventTable)
    ensures forall e :: e in t && t[e] == ClipsFor(audioClips, e)
  {
    var t := map e | e in AllEvents :: ClipsFor(audioClips, e);
    assert forall e :: e in t by {
      forall e ensures e in t { AllEventsListed(e); }
    }
    t
  }

  /**
   * The state right after Start (and the start instructions it shows, which
   * switch tracking on): nothing played yet.
   */
  function Started(audioClips: seq<AudioClipEntry>): (r: AudioState)
    ensures Consistent(r)
    ensures forall e :: r.eventToClips[e] == ClipsFor(audioClips, e)
    ensures r.audioClips == audioClips && r.playedEvents == {} && r.log == [] && r.trackingEnabled
  {
    AudioState(audioClips, TableFor(audioClips), {}, true, [])
  }

  // ----- PlayAudioForEvent ---------------------------------------------------

  /** The dedup guard: every event except WrongAnswerFx plays at most once. */
  predicate AlreadyPlayed(s: AudioState, e: SimulationEvent): (r: bool)
    // WrongAnswerFx is never held back, and no event is held back before it is recorded
    ensures e == WrongAnswerFx ==> !r
    ensures r ==> e in s.playedEvents
  {
    e != WrongAnswerFx && e in s.playedEvents
  }

  /** The event has a list in the table with at least one entry to draw. */
  predicate HasClips(s: AudioState, e: SimulationEvent): (r: bool)
    ensures r ==> e in s.eventToClips
    // otherwise there is no entry the draw could select
    ensures !r ==> forall x :: e in s.eventToClips ==> x !in s.eventToClips[e]
  {
    e in s.eventToClips && |s.eventToClips[e]| > 0
  }

  /** What the random draw from 0 up to the count guarantees about the chosen index. */
  function PickInRange(s: AudioState, e: SimulationEvent, pick: nat): (r: bool)
    // whenever the event has clips, the drawn index selects one of its entries
    ensures r && HasClips(s, e) ==> pick < |s.eventToClips[e]| && s.eventToClips[e][pick] in s.eventToClips[e]
    // with no clips there is no draw, and any index will do
    ensures !HasClips(s, e) ==> r
  {
    (HasClips(s, e) ==> pick < |s.eventToClips[e]|)
  }

  datatype PlayOutcome =
    | Skipped          // already played in this session
    | NoClips          // nothing configured for the event
    | Played(index: nat)
    | NullClip(index: nat)  // the chosen entry has a null clip: the call fails before recording anything

  function PickOf(o: PlayOutcome): nat
  {
    match o
    case Played(i) => i
    case NullClip(i) => i
    case _ => 0
  }

  datatype PlayResult = PlayResult(state: AudioState, outcome: PlayOutcome)

  /** One request to play event `e`, the random draw being `pick`. */
  function AfterPlay(s: AudioState, e: SimulationEvent, pick: nat): (r: PlayResult)
    requires PickInRange(s, e, pick)
    // an event already played (other than WrongAnswerFx) plays nothing and changes nothing
    ensures AlreadyPlayed(s, e) ==> r.state == s && r.outcome == Skipped
    // an event without clips plays nothing and changes nothing
    ensures !AlreadyPlayed(s, e) && !HasClips(s, e) ==> r.state == s && r.outcome == NoClips
    // a play only ever uses an index inside the event's list
    ensures (r.outcome.Played? || r.outcome.NullClip?) ==>
              HasClips(s, e) && r.outcome.index == pick < |s.eventToClips[e]|
    // a play happens exactly when the guard passes and the chosen entry has a clip
    ensures r.outcome.Played? <==>
              !AlreadyPlayed(s, e) && HasClips(s, e) && s.eventToClips[e][pick].clip.Some?
    // a play appends the chosen entry to the log; otherwise the log is unchanged
    ensures r.state.log == if r.outcome.Played? then s.log + [Playback(e, s.eventToClips[e][pick])] else s.log
    // a play records the event, except WrongAnswerFx, which is never recorded
    ensures r.state.playedEvents == if r.outcome.Played? && e != WrongAnswerFx then s.playedEvents + {e} else s.playedEvents
    // nothing else changes
    ensures r.state.(log := s.log, playedEvents := s.playedEvents) == s
    ensures Consistent(s) ==> Consistent(r.state)
  {
    if AlreadyPlayed(s, e) then PlayResult(s, Skipped)
    else if !HasClips(s, e) then PlayResult(s, NoClips)
    else
      var selected := s.eventToClips[e][pick];
      if selected.clip.None? then PlayResult(s, NullClip(pick))
      else
        var played := if e != WrongAnswerFx then s.playedEvents + {e} else s.playedEvents;
        PlayResult(s.(log := s.log + [Playback(e, selected)], playedEvents := played), Played(pick))
  }

  // ----- AddAudioClip, ResetState ----------------------------------------------

  /** Appends a new entry (its clip may be null: nothing is filtered here). */
  function AfterAddClip(s: AudioState, e: SimulationEvent, clip: Option<AudioClip>, volume: real): (r: AudioState)
    requires e in s.eventToClips
    ensures r.audioClips == s.audioClips + [AudioClipEntry(e, clip, volume)]
    ensures r.eventToClips.Keys == s.eventToClips.Keys
    ensures r.eventToClips[e] == s.eventToClips[e] + [AudioClipEntry(e, clip, volume)]
    ensures forall e' :: e' in s.eventToClips && e' != e ==> r.eventToClips[e'] == s.eventToClips[e']
    ensures r.playedEvents == s.playedEvents && r.trackingEnabled == s.trackingEnabled && r.log == s.log
    ensures Consistent(s) ==> Consistent(r)
  {
    var entry := AudioClipEntry(e, clip, volume);
    s.(audioClips := s.audioClips + [entry], eventToClips := s.eventToClips[e := s.eventToClips[e] + [entry]])
  }

  /** Tracking back on and every event playable again; the table is kept. */
  function AfterReset(s: AudioState): (r: AudioState)
    ensures r.trackingEnabled && r.playedEvents == {}
    ensures r.audioClips == s.audioClips && r.eventToClips == s.eventToClips && r.log == s.log
    ensures Consistent(s) ==> Consistent(r)
  {
    s.(trackingEnabled := true, playedEvents := {})
  }

  // ----- The fixed-event wrappers ----------------------------------------------

  datatype Request =
    | TriggerIntro
    | TriggerReAssembly
    | TriggerWrongAnswerOne
    | TriggerWrongAnswerTwo
    | TriggerCorrectAnswer
    | TriggerCompletion
    | WrongAnswerSound
    | CorrectAnswerSound
    | PlayBGMusic

  /** The wrapper that requests each event. */
  function RequestFor(e: SimulationEvent): Request
  {
    match e
    case Intro => TriggerIntro
    case BGMusic => PlayBGMusic
    case ReAssembly => TriggerReAssembly
    case SelectBrakeFan => TriggerWrongAnswerOne
    case SelectTorqueWrench => TriggerWrongAnswerTwo
    case SelectStandardWrench => TriggerCorrectAnswer
    case WrongAnswerFx => WrongAnswerSound
    case CorrectAnswerFx => CorrectAnswerSound
    case Completion => TriggerCompletion
  }

  /** The one event each wrapper asks to play; no two wrappers ask for the same event. */
  function RequestedEvent(w: Request): (r: SimulationEvent)
    ensures RequestFor(r) == w
  {
    match w
    case TriggerIntro => Intro
    case TriggerReAssembly => ReAssembly
    case TriggerWrongAnswerOne => SelectBrakeFan
    case TriggerWrongAnswerTwo => SelectTorqueWrench
    case TriggerCorrectAnswer => SelectStandardWrench
    case TriggerCompletion => Completion
    case WrongAnswerSound => WrongAnswerFx
    case CorrectAnswerSound => CorrectAnswerFx
    case PlayBGMusic => BGMusic
  }

  // ----- The manager object ------------------------------------------------------

  class SimulationManager {
    var audioClips: seq<AudioClipEntry>
    var eventToClips: EventTable
    var playedEvents: set<SimulationEvent>
    var trackingEnabled: bool
    var log: seq<Playback>

    function Abs(): AudioState
      reads this
    {
      AudioState(audioClips, eventToClips, playedEvents, trackingEnabled, log)
    }

    ghost predicate Valid()
      reads this
    {
      Consistent(Abs())
    }

    /** Start: builds the table from the configured entries, then switches tracking on. */
    constructor (configured: seq<AudioClipEntry>)
      ensures Valid()
      ensures Abs() == Started(configured)
    {
      audioClips := configured;
      var table := BuildEventToClips(configured);
      eventToClips := table;
      playedEvents := {};
      log := [];
      trackingEnabled := true;
      new;
      assert table == TableFor(configured);
    }

    method PlayAudioForEvent(eventType: SimulationEvent) returns (outcome: PlayOutcome)
      requires Valid()
      modifies this
      ensures Valid()
      ensures PickInRange(old(Abs()), eventType, PickOf(outcome))
      ensures AfterPlay(old(Abs()), eventType, PickOf(outcome)) == PlayResult(Abs(), outcome)
    {
      if eventType != WrongAnswerFx && eventType in playedEvents {
        outcome := Skipped;
        return;
      }
      if eventType in eventToClips && |eventToClips[eventType]| > 0 {
        var clipsForEvent := eventToClips[eventType];
        var i :| 0 <= i < |clipsForEvent|;
        var selectedEntry := clipsForEvent[i];
        if selectedEntry.clip.None? {
          outcome := NullClip(i);
          return;
        }
        log := log + [Playback(eventType, selectedEntry)];
        if eventType != WrongAnswerFx {
          playedEvents := playedEvents + {eventType};
        }
        outcome := Played(i);
      } else {
        outcome := NoClips;
      }
    }

    method DisableTracking()
      modifies this`trackingEnabled
      ensures !trackingEnabled
    {
      trackingEnabled := false;
    }

    method EnableTracking()
      modifies this`trackingEnabled
      ensures trackingEnabled
    {
      trackingEnabled := true;
    }

    /** Each Trigger*, *Sound and PlayBGMusic wrapper: one request for its fixed event. */
    method Trigger(w: Request) returns (outcome: PlayOutcome)
      requires Valid()
      modifies this
      ensures Valid()
      ensures PickInRange(old(Abs()), RequestedEvent(w), PickOf(outcome))
      ensures AfterPlay(old(Abs()), RequestedEvent(w), PickOf(outcome)) == PlayResult(Abs(), outcome)
    {
      outcome := PlayAudioForEvent(RequestedEvent(w));
    }

    method ResetState()
      requires Valid()
      modifies this
      ensures Valid()
      ensures Abs() == AfterReset(old(Abs()))
    {
      EnableTracking();
      playedEvents := {};
    }

    method AddAudioClip(eventType: SimulationEvent, clip: Option<AudioClip>, volume: real := 1.0)
      requires Valid()
      modifies this
      ensures Valid()
      ensures Abs() == AfterAddClip(old(Abs()), eventType, clip, volume)
    {
      var newEntry := AudioClipEntry(eventType, clip, volume);
      audioClips := audioClips + [newEntry];
      eventToClips := eventToClips[eventType := eventToClips[eventType] + [newEntry]];
    }
  }
}
