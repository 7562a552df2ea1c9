/** The display client (src/client/display/DisplayExperience.js): one dice per sensor
    device, driven by the gestures the server relays, and a mute flag. */
module DisplayClient {
  import opened Optional
  import opened SharedDice

  /** `numDices`. */
  const NumDices: nat := 3

  class DisplayExperience {
    var dices: seq<Dice>
    var isMuted: bool

    /** The dice are distinct objects, each keeping its own invariant. */
    ghost predicate Valid()
      reads this, dices
    {
      && (forall i, j :: 0 <= i < j < |dices| ==> dices[i] != dices[j])
      && (forall i :: 0 <= i < |dices| ==> dices[i].Valid())
    }

    constructor ()
      ensures Valid()
      ensures dices == [] && !isMuted
    {
      dices := [];
      isMuted := false;
    }

    /** `start()`: one dice per device `i`, playing buffer set `bufferSets[i]`
        (`audioBufferManager.data[i]`), appended to `dices`. */
    method Start(sync: SyncClock, bufferSets: seq<seq<AudioBuffer>>)
      requires Valid()
      requires |bufferSets| >= NumDices
      modifies this
      ensures Valid()
      ensures isMuted == old(isMuted)
      ensures |dices| == |old(dices)| + NumDices
      ensures dices[..|old(dices)|] == old(dices)
      ensures forall j :: |old(dices)| <= j < |dices| ==>
                && fresh(dices[j]) && dices[j].sync == sync
                && dices[j].buffers == bufferSets[j - |old(dices)|]
                && dices[j].State() == DiceState(None, [], 0)
    {
      for i := 0 to NumDices
        invariant isMuted == old(isMuted)
        invariant |dices| == |old(dices)| + i
        invariant dices[..|old(dices)|] == old(dices)
        invariant forall j :: 0 <= j < |dices| ==> dices[j].Valid()
        invariant forall j, m :: 0 <= j < m < |dices| ==> dices[j] != dices[m]
        invariant forall j :: 0 <= j < |old(dices)| ==> dices[j].State() == old(dices[j].State())
        invariant forall j :: |old(dices)| <= j < |dices| ==>
                    && fresh(dices[j]) && dices[j].sync == sync
                    && dices[j].buffers == bufferSets[j - |old(dices)|]
                    && dices[j].State() == DiceState(None, [], 0)
      {
        var buffers := bufferSets[i];
        var dice := new Dice(sync, buffers);
        ghost var before := dices;
        dices := dices + [dice];
        assert forall j :: 0 <= j < |before| ==> dices[j] == before[j];
      }
    }

    /** `onEdge(index, e)` at audio time `now`: unless muted, the dice `index` (if there is
        one) starts the sound of edge `e`; no other dice is touched. */
    method OnEdge(index: int, e: int, now: real)
      requires Valid()
      modifies dices
      ensures Valid()
      ensures forall j :: 0 <= j < |dices| ==>
                dices[j].State() == if j == index && !isMuted
                                    then SharedDice.Start(old(dices[j].State()), dices[j].sync, dices[j].buffers, e, now)
                                    else old(dices[j].State())
    {
      if 0 <= index < |dices| {
        var dice := dices[index];
        if !isMuted {
          dice.StartSound(e, now);
        }
      }
    }

    /** `onStop(index)`; `None` stands for a missing index (`undefined`). */
    method OnStop(index: Option<int>, now: real)
      requires Valid()
      modifies dices
      ensures Valid()
      ensures forall j :: 0 <= j < |dices| ==>
                dices[j].State() == if index.None? || index.value == j
                                    then Stop(old(dices[j].State()), now)
                                    else old(dices[j].State())
    {
      if index.Some? {
        if 0 <= index.value < |dices| {
          var dice := dices[index.value];
          dice.StopSound(now);
        }
      } else {
        StopAllDices(now);
      }
    }

    /** The loop `for (let dice of this.dices) dice.stopSound()`. */
    method StopAllDices(now: real)
      requires Valid()
      modifies dices
      ensures Valid()
      ensures forall j :: 0 <= j < |dices| ==> dices[j].State() == Stop(old(dices[j].State()), now)
      ensures forall j :: 0 <= j < |dices| ==> dices[j].voice == None
    {
      for i := 0 to |dices|
        invariant Valid()
        invariant forall j :: 0 <= j < i ==> dices[j].State() == Stop(old(dices[j].State()), now)
        invariant forall j :: i <= j < |dices| ==> dices[j].State() == old(dices[j].State())
      {
        var dice := dices[i];
        assert forall j :: 0 <= j < |dices| && j != i ==> dices[j] != dice;
        dice.StopSound(now);
      }
    }

    /** `onMute(mute)`: only a change of value acts; a change to muted stops every dice. */
    method OnMute(mute: bool, now: real)
      requires Valid()
      modifies this, dices
      ensures Valid()
      ensures dices == old(dices)
      ensures isMuted == mute
      ensures forall j :: 0 <= j < |dices| ==>
                dices[j].State() == if mute && !old(isMuted) then Stop(old(dices[j].State()), now)
                                    else old(dices[j].State())
    {
      if mute != isMuted {
        if mute {
          StopAllDices(now);
        }
        isMuted := mute;
      }
    }
  }
}
