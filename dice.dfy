/** The playback scheduler of one dice (src/client/shared/Dice.js): it owns at most one
    voice, a buffer source with its gain node, and programs the audio engine with
    scheduled commands. The audio engine itself is not modelled; the commands the
    dice issues to it are recorded, in order, in `schedule`. */
module SharedDice {
  import opened Optional
  import opened DiceGrid

  /** A decoded audio fragment, known here only by its handle. */
  datatype AudioBuffer = AudioBuffer(handle: nat)

  /** The two conversions of the clock-synchronisation service (`sync`), which is an
      external collaborator: audio time to shared time and back. */
  datatype SyncClock = SyncClock(getSyncTime: real -> real, getAudioTime: real -> real)

  /** One voice: a buffer source and the gain node it feeds, both created by one
      `startSound`; `id` tells the audio nodes of different voices apart. A buffer index
      outside the buffer set yields `undefined`, which leaves the source without a buffer
      (`None`): it plays silence. */
  datatype Voice = Voice(id: nat, buffer: Option<AudioBuffer>, looping: bool, loopStart: real, loopEnd: real)

  /** The calls the dice makes on the audio nodes of voice `voice`. */
  datatype Command =
    | SourceStart(voice: nat, at: real, offset: real)   // bufferSource.start(at, offset)
    | SourceStop(voice: nat, at: real)                  // bufferSource.stop(at)
    | GainValue(voice: nat, value: real)                // gain.gain.value = value
    | GainSetValueAt(voice: nat, value: real, at: real) // gain.gain.setValueAtTime(value, at)
    | GainRampTo(voice: nat, value: real, at: real)     // gain.gain.linearRampToValueAtTime(value, at)

  /** The observable state of a dice: the active voice (`bufferSource`/`gain`, or null),
      the commands issued so far, and how many voices were ever created. */
  datatype DiceState = DiceState(voice: Option<Voice>, schedule: seq<Command>, created: nat)

  /** `this.buffers[edge - 1]`. */
  function BufferFor(buffers: seq<AudioBuffer>, edge: int): (b: Option<AudioBuffer>)
    ensures b.Some? <==> 1 <= edge <= |buffers|
    ensures b.Some? ==> b.value == buffers[edge - 1]
  {
    if 1 <= edge <= |buffers| then Some(buffers[edge - 1]) else None
  }

  /** The release of voice `id` at time `t`: fade from full gain to silence over the
      release time, and stop the source when the fade ends. */
  function ReleaseCommands(id: nat, t: real): (r: seq<Command>)
    ensures forall k :: 0 <= k < |r| ==> r[k].voice == id
    ensures Stopped(r, id)
  {
    var r := [SourceStop(id, t + ReleaseTime), GainSetValueAt(id, 1.0, t), GainRampTo(id, 0.0, t + ReleaseTime)];
    assert r[0].SourceStop? && r[0].voice == id;
    r
  }

  /** The attack and start of voice `id` at audio time `at`, `offset` seconds into the pattern. */
  function AttackCommands(id: nat, at: real, offset: real): (r: seq<Command>)
    ensures forall k :: 0 <= k < |r| ==> r[k].voice == id
    ensures !Stopped(r, id)
    ensures |r| == 4 && r[3] == SourceStart(id, at, offset)
  {
    [GainValue(id, 0.0), GainSetValueAt(id, 0.0, at), GainRampTo(id, 1.0, at + AttackTime), SourceStart(id, at, offset)]
  }

  /** `stopSound(time)`. */
  function Stop(s: DiceState, time: real): (r: DiceState)
    ensures r.voice.None? && r.created == s.created
    ensures |s.schedule| <= |r.schedule| && r.schedule[..|s.schedule|] == s.schedule
    ensures s.voice.Some? ==> Stopped(r.schedule, s.voice.value.id)
  {
    match s.voice
    case None => s
    case Some(v) => DiceState(None, s.schedule + ReleaseCommands(v.id, time), s.created)
  }

  /** Audio time of the first sixteenth tick at or after audio time `now`. */
  function QuantizedAudioTime(sync: SyncClock, now: real): (at: real)
    ensures var t := sync.getSyncTime(now);
            exists q :: at == sync.getAudioTime(q) && t <= q < t + SixteenthBeatDuration
  {
    sync.getAudioTime(QuantizedSyncTime(sync.getSyncTime(now)))
  }

  /** `startSound(edge)`, requested at audio time `now`. */
  function Start(s: DiceState, sync: SyncClock, buffers: seq<AudioBuffer>, edge: int, now: real): (r: DiceState)
    ensures r.voice.Some? && r.voice.value.id == s.created && r.created == s.created + 1
    ensures r.voice.value.buffer == BufferFor(buffers, edge) && r.voice.value.looping
    ensures |s.schedule| <= |r.schedule| && r.schedule[..|s.schedule|] == s.schedule
  {
    var syncTime := sync.getSyncTime(now);
    var at := QuantizedAudioTime(sync, now);
    var stopped := Stop(s, at);
    var id := stopped.created;
    DiceState(Some(Voice(id, BufferFor(buffers, edge), true, 0.0, PatternDuration)),
              stopped.schedule + AttackCommands(id, at, StartTime(syncTime)),
              id + 1)
  }

  /** Voice `id` has been told to stop. */
  ghost predicate Stopped(schedule: seq<Command>, id: nat)
  {
    exists k :: 0 <= k < |schedule| && schedule[k].SourceStop? && schedule[k].voice == id
  }

  /** Voice `id` has been created and not yet told to stop. A released voice stays audible
      for the release time after its stop is scheduled; this predicate does not count it. */
  ghost predicate Unreleased(s: DiceState, id: nat)
  {
    id < s.created && !Stopped(s.schedule, id)
  }

  /** The invariant of a dice: the active voice is the last one created; every command
      addresses a created voice; and every created voice except the active one has been
      stopped, while the active one has not. */
  ghost predicate Consistent(s: DiceState)
  {
    && (s.voice.Some? ==> s.voice.value.id + 1 == s.created)
    && (forall k :: 0 <= k < |s.schedule| ==> s.schedule[k].voice < s.created)
    && (forall id: nat :: id < s.created ==> (Stopped(s.schedule, id) <==> !(s.voice.Some? && s.voice.value.id == id)))
  }

  /** At most one voice of a consistent dice is unreleased, and it is the active one. */
  lemma AtMostOneUnreleased(s: DiceState, a: nat, b: nat)
    requires Consistent(s)
    requires Unreleased(s, a) && Unreleased(s, b)
    ensures a == b
    ensures s.voice.Some? && s.voice.value.id == a
  {
  }

  /** Appending commands never un-stops a voice. */
  lemma AppendKeepsStopped(schedule: seq<Command>, extra: seq<Command>, id: nat)
    requires Stopped(schedule, id)
    ensures Stopped(schedule + extra, id)
  {
    var k :| 0 <= k < |schedule| && schedule[k].SourceStop? && schedule[k].voice == id;
    assert (schedule + extra)[k] == schedule[k];
  }

  /** A freshly constructed dice is consistent. */
  lemma InitialConsistent()
    ensures Consistent(DiceState(None, [], 0))
  {
  }

  /** `stopSound` keeps the invariant, and afterwards no voice is unreleased. */
  lemma {:induction false} StopConsistent(s: DiceState, time: real)
    requires Consistent(s)
    ensures Consistent(Stop(s, time))
    ensures forall id: nat :: !Unreleased(Stop(s, time), id)
  {
    if s.voice.Some? {
      var v := s.voice.value;
      var s' := Stop(s, time);
      var extra := ReleaseCommands(v.id, time);
      assert s'.schedule[|s.schedule|] == SourceStop(v.id, time + ReleaseTime);
      forall k | 0 <= k < |s'.schedule| ensures s'.schedule[k].voice < s'.created {
        if k < |s.schedule| { assert s'.schedule[k] == s.schedule[k]; }
      }
      forall id: nat | id < s'.created ensures Stopped(s'.schedule, id) {
        if id != v.id {
          AppendKeepsStopped(s.schedule, extra, id);
        }
      }
    }
  }

  /** `startSound` keeps the invariant, and afterwards exactly the new voice is unreleased. */
  lemma {:induction false} StartConsistent(s: DiceState, sync: SyncClock, buffers: seq<AudioBuffer>, edge: int, now: real)
    requires Consistent(s)
    ensures Consistent(Start(s, sync, buffers, edge, now))
    ensures forall id: nat :: Unreleased(Start(s, sync, buffers, edge, now), id) <==> id == s.created
  {
    var at := QuantizedAudioTime(sync, now);
    var stopped := Stop(s, at);
    StopConsistent(s, at);
    var s' := Start(s, sync, buffers, edge, now);
    var extra := AttackCommands(stopped.created, at, StartTime(sync.getSyncTime(now)));
    assert s'.schedule == stopped.schedule + extra;
    forall k | 0 <= k < |s'.schedule| ensures s'.schedule[k].voice < s'.created {
      if k < |stopped.schedule| { assert s'.schedule[k] == stopped.schedule[k]; }
    }
    forall id: nat | id < s'.created
      ensures Stopped(s'.schedule, id) <==> id != s.created
    {
      if id < s.created {
        assert Stopped(stopped.schedule, id) by { assert !Unreleased(stopped, id); }
        AppendKeepsStopped(stopped.schedule, extra, id);
      }
    }
  }

  /** `stopSound` with an active voice schedules its release at `time` and leaves no
      active voice; without one it changes nothing. */
  lemma StopReleases(s: DiceState, time: real)
    ensures Stop(s, time).voice == None
    ensures Stop(s, time).created == s.created
    ensures s.voice.Some? ==> Stop(s, time).schedule == s.schedule + [
              SourceStop(s.voice.value.id, time + ReleaseTime),
              GainSetValueAt(s.voice.value.id, 1.0, time),
              GainRampTo(s.voice.value.id, 0.0, time + ReleaseTime)]
    ensures s.voice.None? ==> Stop(s, time) == s
  {
  }

  /** Stopping twice schedules the same as stopping once, whatever the second time. */
  lemma StopIdempotent(s: DiceState, t1: real, t2: real)
    ensures Stop(Stop(s, t1), t2) == Stop(s, t1)
  {
  }

  /** `startSound`: the previous voice is released at the quantized audio time, and a new
      voice with buffer `buffers[edge - 1]`, looping over the whole pattern, fades in from
      silence over the attack time and starts there at the phase-aligned offset. */
  lemma StartSchedules(s: DiceState, sync: SyncClock, buffers: seq<AudioBuffer>, edge: int, now: real)
    ensures var at := QuantizedAudioTime(sync, now);
            var s' := Start(s, sync, buffers, edge, now);
            && s'.voice.Some?
            && s'.voice.value.id == s.created
            && s'.voice.value.buffer == BufferFor(buffers, edge)
            && s'.voice.value.looping
            && s'.voice.value.loopStart == 0.0 && s'.voice.value.loopEnd == PatternDuration
            && s'.created == s.created + 1
            && s'.schedule == Stop(s, at).schedule + [
                 GainValue(s.created, 0.0),
                 GainSetValueAt(s.created, 0.0, at),
                 GainRampTo(s.created, 1.0, at + AttackTime),
                 SourceStart(s.created, at, StartTime(sync.getSyncTime(now)))]
  {
  }

  /** The crossfade of `startSound`: the old voice's release and the new voice's attack
      both begin at the quantized audio time. */
  lemma StartCrossfades(s: DiceState, sync: SyncClock, buffers: seq<AudioBuffer>, edge: int, now: real)
    requires s.voice.Some?
    ensures var at := QuantizedAudioTime(sync, now);
            var n := |s.schedule|;
            var sched := Start(s, sync, buffers, edge, now).schedule;
            && |sched| == n + 7
            && sched[n + 1] == GainSetValueAt(s.voice.value.id, 1.0, at)
            && sched[n + 4] == GainSetValueAt(s.created, 0.0, at)
            && sched[n] == SourceStop(s.voice.value.id, at + ReleaseTime)
            && sched[n + 6] == SourceStart(s.created, at, StartTime(sync.getSyncTime(now)))
  {
  }

  /** A proof step for `StartSound` only: `Start` unfolded into the stop at the quantized
      audio time and the new voice. It states nothing beyond `Start`'s definition. */
  lemma StartAfterStop(s: DiceState, sync: SyncClock, buffers: seq<AudioBuffer>, edge: int, now: real)
    ensures var at := QuantizedAudioTime(sync, now);
            var stopped := Stop(s, at);
            Start(s, sync, buffers, edge, now)
              == DiceState(Some(Voice(stopped.created, BufferFor(buffers, edge), true, 0.0, PatternDuration)),
                           stopped.schedule + AttackCommands(stopped.created, at, StartTime(sync.getSyncTime(now))),
                           stopped.created + 1)
  {
  }

  /** A dice object: `sync` and `buffers` are fixed at construction; `startSound` and
      `stopSound` replace and release the voice. */
  class Dice {
    const sync: SyncClock
    const buffers: seq<AudioBuffer>
    var voice: Option<Voice>
    var schedule: seq<Command>
    var created: nat

    function State(): DiceState
      reads this
    {
      DiceState(voice, schedule, created)
    }

    ghost predicate Valid()
      reads this
    {
      Consistent(State())
    }

    constructor (sync: SyncClock, buffers: seq<AudioBuffer>)
      ensures this.sync == sync && this.buffers == buffers
      ensures State() == DiceState(None, [], 0)
      ensures Valid()
    {
      this.sync := sync;
      this.buffers := buffers;
      voice := None;
      schedule := [];
      created := 0;
    }

    method StopSound(time: real)
      requires Valid()
      modifies this
      ensures State() == Stop(old(State()), time)
      ensures Valid()
    {
      StopConsistent(State(), time);
      if voice.Some? {
        var id := voice.value.id;
        schedule := schedule + [SourceStop(id, time + ReleaseTime)];
        schedule := schedule + [GainSetValueAt(id, 1.0, time)];
        schedule := schedule + [GainRampTo(id, 0.0, time + ReleaseTime)];
        voice := None;
      }
    }

    /** The start-playback half of `startSound`: a new voice numbered by the voice count
        fades in from silence at `at` and starts `offset` seconds into the pattern. */
    method Attack(buffer: Option<AudioBuffer>, at: real, offset: real)
      modifies this
      ensures voice == Some(Voice(old(created), buffer, true, 0.0, PatternDuration))
      ensures schedule == old(schedule) + AttackCommands(old(created), at, offset)
      ensures created == old(created) + 1
    {
      var id := created;
      created := created + 1;
      schedule := schedule + [GainValue(id, 0.0)];
      schedule := schedule + [GainSetValueAt(id, 0.0, at)];
      schedule := schedule + [GainRampTo(id, 1.0, at + AttackTime)];
      schedule := schedule + [SourceStart(id, at, offset)];
      voice := Some(Voice(id, buffer, true, 0.0, PatternDuration));
    }

    /** `startSound(edge)` at audio time `now` (`audioContext.currentTime`). */
    method StartSound(edge: int, now: real)
      requires Valid()
      modifies this
      ensures State() == Start(old(State()), sync, buffers, edge, now)
      ensures Valid()
    {
      ghost var target := Start(State(), sync, buffers, edge, now);
      StartConsistent(State(), sync, buffers, edge, now);
      StartAfterStop(State(), sync, buffers, edge, now);
      var audioTime := now;
      var syncTime := sync.getSyncTime(audioTime);
      var numSixteenthBeats := Ceil(syncTime / SixteenthBeatDuration);
      var quantizedSyncTime := numSixteenthBeats as real * SixteenthBeatDuration;
      var quantizedAudioTime := sync.getAudioTime(quantizedSyncTime);
      var startTime := PatternRemainder(quantizedSyncTime);

      assert quantizedAudioTime == QuantizedAudioTime(sync, now);
      assert startTime == StartTime(syncTime);

      StopSound(quantizedAudioTime);
      ghost var stopped := State();
      assert stopped == Stop(old(State()), QuantizedAudioTime(sync, now));

      var buffer := BufferFor(buffers, edge);
      Attack(buffer, quantizedAudioTime, startTime);
      assert schedule == stopped.schedule + AttackCommands(stopped.created, quantizedAudioTime, startTime);
      assert State() == target;
    }
  }
}
