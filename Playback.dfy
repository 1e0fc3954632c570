/**
 * One verse row's recitation player (`VerseItem`): a sound handle that is
 * created on the first toggle and then kept, an `isPlaying` flag, and the
 * engine calls the row issues. The awaited engine calls (`createAsync`,
 * `playAsync`, `pauseAsync`) change state only after they settle, so their
 * outcome is an argument: `ok` says whether the call succeeded, and
 * `created` is the handle a successful load yields. `unloadAsync` is fired
 * without `await`, so the model only records that it was issued.
 *
 * `RowState` and the functions over it specify the row; class `VerseItem`
 * holds the same state in fields and its methods are proved to follow them.
 */
module Playback {
  import opened Wrappers
  import opened QuranTypes

  /** Server every verse's recitation path is resolved against (`BASE_AUDIO_URL`). */
  const BaseAudioUrl: string := "https://verses.quran.com/"

  /** A sound handle created by the audio engine. */
  type Handle = nat

  /** The engine call a row operation issues, if any. */
  datatype EngineCall =
    | NoCall
    | PauseAsync(paused: Handle)
    | PlayAsync(played: Handle)
    | CreateAsync(uri: string)
    | UnloadAsync(unloaded: Handle)

  /**
   * The row's state: the `sound` and `isPlaying` hooks, how many handles
   * were created and how many unload calls were issued, and whether the
   * row is still mounted.
   */
  datatype RowState = RowState(
    sound: Option<Handle>,
    isPlaying: bool,
    loads: nat,
    unloads: nat,
    mounted: bool)

  /** A freshly mounted row: nothing loaded, nothing playing. */
  const Fresh: RowState := RowState(None, false, 0, 0, true)

  /**
   * The address the row loads its recitation from: the base server
   * followed by the verse's relative path.
   */
  function AudioUri(verse: Verse): (uri: string)
    ensures |uri| == |BaseAudioUrl| + |verse.audio.url|
    ensures uri[..|BaseAudioUrl|] == BaseAudioUrl
    ensures uri[|BaseAudioUrl|..] == verse.audio.url
  {
    BaseAudioUrl + verse.audio.url
  }

  /** Verses with different recitation paths are never loaded from the same address. */
  lemma AudioUriInjective(v: Verse, w: Verse)
    ensures AudioUri(v) == AudioUri(w) <==> v.audio.url == w.audio.url
  {
    if AudioUri(v) == AudioUri(w) {
      assert v.audio.url == AudioUri(v)[|BaseAudioUrl|..];
      assert w.audio.url == AudioUri(w)[|BaseAudioUrl|..];
    }
  }

  /**
   * The row invariant: playing implies loaded; a row holds at most one
   * handle, counted once; no unload is issued while the row is mounted, and
   * once it is not, an unload has been issued for everything loaded.
   */
  ghost predicate Inv(r: RowState)
    ensures Inv(r) ==> r.loads <= 1 && r.unloads <= r.loads
  {
    (r.isPlaying ==> r.sound.Some?) &&
    r.loads == (if r.sound.Some? then 1 else 0) &&
    r.unloads == (if r.mounted then 0 else r.loads)
  }

  /**
   * The engine call `togglePlayback` issues: pause a playing sound, resume
   * a loaded one, load (and start) otherwise. An unmounted row has no
   * button left to press.
   */
  function ToggleCall(r: RowState, uri: string): (call: EngineCall)
    ensures call.CreateAsync? <==> r.mounted && r.sound == None
    ensures call.CreateAsync? ==> call.uri == uri
    ensures call.PauseAsync? <==> r.mounted && r.isPlaying && r.sound.Some?
    ensures call.PlayAsync? <==> r.mounted && !r.isPlaying && r.sound.Some?
    ensures call.PauseAsync? ==> r.sound == Some(call.paused)
    ensures call.PlayAsync? ==> r.sound == Some(call.played)
    ensures !call.UnloadAsync?
  {
    if !r.mounted then NoCall
    else if r.isPlaying && r.sound.Some? then PauseAsync(r.sound.value)
    else if r.sound.Some? then PlayAsync(r.sound.value)
    else CreateAsync(uri)
  }

  /**
   * The state after `togglePlayback` once its engine call settled: on
   * success pause, resume, or keep the created handle and play; on failure
   * nothing changes.
   */
  function Toggle(r: RowState, ok: bool, created: Handle): (next: RowState)
    ensures !ok ==> next == r
    ensures r.sound.Some? ==> next.sound == r.sound && next.loads == r.loads
    ensures next.loads != r.loads ==>
      r.sound == None && next.sound == Some(created) && next.loads == r.loads + 1 && next.isPlaying
    ensures next.unloads == r.unloads && next.mounted == r.mounted
    ensures ok && r.mounted && (r.isPlaying ==> r.sound.Some?) ==>
      next.isPlaying == !r.isPlaying && next.sound.Some?
    ensures ok && r.mounted && r.sound == None ==>
      next.sound == Some(created) && next.loads == r.loads + 1
  {
    if !r.mounted || !ok then r
    else if r.isPlaying && r.sound.Some? then r.(isPlaying := false)
    else if r.sound.Some? then r.(isPlaying := true)
    else r.(sound := Some(created), isPlaying := true, loads := r.loads + 1)
  }

  /**
   * A playback status update from the loaded sound: one that reports the
   * end of playback stops `isPlaying` and keeps the handle.
   */
  function StatusUpdate(r: RowState, didJustFinish: bool): (next: RowState)
    ensures next.sound == r.sound && next.loads == r.loads
    ensures next.unloads == r.unloads && next.mounted == r.mounted
    ensures next.isPlaying ==> r.isPlaying
    ensures !didJustFinish ==> next == r
    ensures didJustFinish && r.mounted && r.sound.Some? ==> !next.isPlaying
  {
    if r.mounted && r.sound.Some? && didJustFinish then r.(isPlaying := false) else r
  }

  /** The engine call the unmount cleanup issues: unload the loaded handle, if any. */
  function TeardownCall(r: RowState): (call: EngineCall)
    ensures call != NoCall <==> r.mounted && r.sound.Some?
    ensures call != NoCall ==> call.UnloadAsync? && r.sound == Some(call.unloaded)
  {
    if r.mounted && r.sound.Some? then UnloadAsync(r.sound.value) else NoCall
  }

  /**
   * Unmounting the row: the effect cleanup issues an unload for the loaded
   * handle, if any. The unload is not awaited, so it has no outcome here.
   */
  function Teardown(r: RowState): (next: RowState)
    ensures !next.mounted
    ensures next.sound == r.sound && next.isPlaying == r.isPlaying && next.loads == r.loads
    ensures r.mounted ==> next.unloads == r.unloads + (if TeardownCall(r).UnloadAsync? then 1 else 0)
    ensures !r.mounted ==> next == r
  {
    if !r.mounted then r
    else r.(mounted := false, unloads := r.unloads + (if r.sound.Some? then 1 else 0))
  }

  /** Everything that can happen to a row, one atomic step at a time. */
  datatype Event =
    | Press(ok: bool, created: Handle)
    | Status(didJustFinish: bool)
    | Unmount

  /** One event applied to a row; an unmounted row no longer changes. */
  function Step(r: RowState, e: Event): (next: RowState)
    ensures r.sound.Some? ==> next.sound == r.sound
    ensures r.loads <= next.loads <= r.loads + 1
    ensures !r.mounted ==> next == r
  {
    match e
    case Press(ok, created) => Toggle(r, ok, created)
    case Status(finished) => StatusUpdate(r, finished)
    case Unmount => Teardown(r)
  }

  /** The row after a sequence of events, in order. */
  function Run(r: RowState, events: seq<Event>): (last: RowState)
    ensures last.loads >= r.loads
    ensures !r.mounted ==> last == r
    decreases |events|
  {
    if events == [] then r else Run(Step(r, events[0]), events[1..])
  }

  /** Every single step keeps the row invariant. */
  lemma StepKeepsInv(r: RowState, e: Event)
    requires Inv(r)
    ensures Inv(Step(r, e))
  {
  }

  /** Any sequence of presses, status updates and an unmount keeps the invariant. */
  lemma {:induction false} RunKeepsInv(r: RowState, events: seq<Event>)
    requires Inv(r)
    ensures Inv(Run(r, events))
    decreases |events|
  {
    if events != [] {
      StepKeepsInv(r, events[0]);
      RunKeepsInv(Step(r, events[0]), events[1..]);
    }
  }

  /** Once a handle is loaded, no event ever replaces or drops it. */
  lemma {:induction false} RunKeepsHandle(r: RowState, events: seq<Event>)
    requires r.sound.Some?
    ensures Run(r, events).sound == r.sound
    decreases |events|
  {
    if events != [] {
      RunKeepsHandle(Step(r, events[0]), events[1..]);
    }
  }

  /** Once a row has loaded its sound, no later press asks the engine to load again. */
  lemma NoReloadAfterLoad(r: RowState, events: seq<Event>, uri: string)
    requires r.sound.Some?
    ensures !ToggleCall(Run(r, events), uri).CreateAsync?
  {
    RunKeepsHandle(r, events);
  }

  /** Whatever a row goes through, it creates at most one sound handle. */
  lemma AtMostOneLoad(events: seq<Event>)
    ensures Run(Fresh, events).loads <= 1
    ensures Run(Fresh, events).isPlaying ==> Run(Fresh, events).sound.Some?
  {
    RunKeepsInv(Fresh, events);
  }

  /**
   * Unmounting a row issues one unload, for exactly the handle it loaded, and
   * nothing when it never loaded one.
   */
  lemma TeardownReleasesLoaded(events: seq<Event>)
    ensures var r := Run(Fresh, events);
      r.mounted ==>
        Teardown(r).unloads == Teardown(r).loads &&
        (TeardownCall(r) == NoCall <==> r.sound == None) &&
        (r.sound.Some? ==> TeardownCall(r) == UnloadAsync(r.sound.value))
  {
    RunKeepsInv(Fresh, events);
  }

  /**
   * On a mounted row a successful toggle flips `isPlaying` and leaves a
   * sound loaded, keeping the handle it already had.
   */
  lemma ToggleFlips(r: RowState, created: Handle)
    requires Inv(r) && r.mounted
    ensures Toggle(r, true, created).isPlaying == !r.isPlaying
    ensures Toggle(r, true, created).sound.Some?
    ensures r.sound.Some? ==> Toggle(r, true, created).sound == r.sound
  {
  }

  /** A finished playback pauses the row; it never unloads it. */
  lemma FinishKeepsHandle(r: RowState)
    requires Inv(r) && r.mounted && r.sound.Some?
    ensures !StatusUpdate(r, true).isPlaying
    ensures StatusUpdate(r, true).sound == r.sound
    ensures StatusUpdate(r, true).loads == r.loads
  {
  }

  /**
   * Play, pause, play again: the second play resumes the handle the first
   * one created, so only one handle is ever created.
   */
  lemma PlayPausePlay(h: Handle, other: Handle, uri: string)
    ensures var r := Run(Fresh, [Press(true, h), Press(true, other), Press(true, other)]);
      r.isPlaying && r.sound == Some(h) && r.loads == 1
    ensures ToggleCall(Toggle(Toggle(Fresh, true, h), true, other), uri) == PlayAsync(h)
  {
    var r1 := Toggle(Fresh, true, h);
    var r2 := Toggle(r1, true, other);
    var r3 := Toggle(r2, true, other);
    assert Run(Fresh, [Press(true, h), Press(true, other), Press(true, other)]) == Run(r1, [Press(true, other), Press(true, other)]);
    assert Run(r1, [Press(true, other), Press(true, other)]) == Run(r2, [Press(true, other)]);
    assert Run(r2, [Press(true, other)]) == Run(r3, []);
  }

  /** One verse row, holding the player state in fields. */
  class VerseItem {
    /** Where this row's recitation is loaded from. */
    const uri: string
    /** The loaded sound handle (`sound`); never reset once set. */
    var sound: Option<Handle>
    /** Whether the sound is playing (`isPlaying`). */
    var isPlaying: bool
    /** How many handles this row created. */
    var loads: nat
    /** How many unload calls this row issued. */
    var unloads: nat
    /** Whether the row is still mounted. */
    var mounted: bool

    function State(): RowState
      reads this
    {
      RowState(sound, isPlaying, loads, unloads, mounted)
    }

    ghost predicate Valid()
      reads this
      ensures Valid() ==> loads <= 1 && unloads <= loads && (isPlaying ==> sound.Some?)
    {
      Inv(State())
    }

    /** Mounting a row for `verse`: nothing loaded, nothing playing. */
    constructor (verse: Verse)
      ensures Valid() && State() == Fresh && uri == AudioUri(verse)
    {
      uri := AudioUri(verse);
      sound := None;
      isPlaying := false;
      loads := 0;
      unloads := 0;
      mounted := true;
    }

    /**
     * `togglePlayback`: `call` is the engine call issued; the state changes
     * as `Toggle` says only when that awaited call succeeded (`ok`).
     */
    method TogglePlayback(ok: bool, created: Handle) returns (call: EngineCall)
      requires Valid()
      modifies this
      ensures Valid()
      ensures call == ToggleCall(old(State()), uri)
      ensures State() == Toggle(old(State()), ok, created)
      ensures !ok ==> unchanged(this)
    {
      if !mounted {
        return NoCall;
      }
      if isPlaying && sound.Some? {
        call := PauseAsync(sound.value);
        if ok {
          isPlaying := false;
        }
        return;
      }
      if sound.Some? {
        call := PlayAsync(sound.value);
        if ok {
          isPlaying := true;
        }
        return;
      }
      call := CreateAsync(uri);
      if ok {
        sound := Some(created);
        isPlaying := true;
        loads := loads + 1;
      }
    }

    /** The status callback registered on the loaded sound. */
    method OnPlaybackStatusUpdate(didJustFinish: bool)
      requires Valid()
      modifies this
      ensures Valid()
      ensures State() == StatusUpdate(old(State()), didJustFinish)
      ensures sound == old(sound)
    {
      if mounted && sound.Some? && didJustFinish {
        isPlaying := false;
      }
    }

    /** The effect cleanup run when the row unmounts. */
    method Unmount() returns (call: EngineCall)
      requires Valid()
      modifies this
      ensures Valid()
      ensures call == TeardownCall(old(State()))
      ensures State() == Teardown(old(State()))
      ensures !mounted && unloads == loads
    {
      call := NoCall;
      if mounted {
        if sound.Some? {
          call := UnloadAsync(sound.value);
          unloads := unloads + 1;
        }
        mounted := false;
      }
    }
  }
}
