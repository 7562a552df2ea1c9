/** The server side of the sensor role (src/server/SensorExperience.js): it relays
    gestures from sensor clients to the displays and aggregates the per-device
    stillness reports into the collective `stop-all` fade-out.

    Outgoing broadcasts are recorded, in order, in `sent`; delivery is not modelled. */
module ServerSensorExperience {
  import opened Optional

  /** One element of the JavaScript array `stillClients`. Writing past the end of a
      JavaScript array grows it and leaves holes, which read as `undefined`. */
  datatype Slot = Hole | Flag(still: bool)

  datatype Role = SensorRole | DisplayRole

  datatype Body =
    | StopAll(fadeoutTime: real)
    | ExitOf(index: nat)
    | EdgeOf(index: nat, edge: int)
    | StartOf(index: nat)

  /** A broadcast of `body` to every client of the roles in `to`. */
  datatype Message = Message(to: seq<Role>, body: Body)

  /** The aggregator's state: the stillness vector, the fade-out time carried by the next
      `stop-all`, the number of connected sensor clients (`this.clients.length`), and the
      broadcasts sent so far. */
  datatype Server = Server(stillClients: seq<Slot>, fadeoutTime: real, clients: nat, sent: seq<Message>)

  const InitialFadeoutTime: real := 7.5

  function AllStillVector(): seq<Slot>
  {
    [Flag(true), Flag(true), Flag(true)]
  }

  function Initial(): (r: Server)
    ensures |r.stillClients| == 3 && AllSlots(r.stillClients, true)
    ensures r.clients == 0 && r.sent == [] && AllClientsStill(r)
  {
    Server(AllStillVector(), InitialFadeoutTime, 0, [])
  }

  ghost predicate NoHoles(v: seq<Slot>)
  {
    forall i :: 0 <= i < |v| ==> v[i] != Hole
  }

  ghost predicate AllSlots(v: seq<Slot>, b: bool)
  {
    forall i :: 0 <= i < |v| ==> v[i] == Flag(b)
  }

  /** Number of true slots of `v`. */
  function TrueSlots(v: seq<Slot>): nat
  {
    if v == [] then 0 else TrueSlots(v[..|v| - 1]) + (if v[|v| - 1] == Flag(true) then 1 else 0)
  }

  /** One step of `numStillClients += still`: a boolean adds 0 or 1, `undefined` gives NaN
      (`NaN` is `None`), and NaN stays NaN. */
  function AddSlot(acc: Option<nat>, slot: Slot): Option<nat>
  {
    if acc.None? || slot.Hole? then None
    else Some(acc.value + (if slot.still then 1 else 0))
  }

  /** The sum computed by the counting loop of `setClientStill`. */
  function Count(v: seq<Slot>): (n: Option<nat>)
    ensures n.Some? <==> NoHoles(v)
    ensures n.Some? ==> n.value == TrueSlots(v) <= |v|
    ensures n == Some(|v|) <==> AllSlots(v, true)
    ensures n == Some(0) <==> AllSlots(v, false)
  {
    if v == [] then Some(0)
    else
      var prefix := v[..|v| - 1];
      assert forall i :: 0 <= i < |prefix| ==> prefix[i] == v[i];
      AddSlot(Count(prefix), v[|v| - 1])
  }

  /** `allClientsStill`: `NaN >= n` is false. */
  predicate AllClientsStill(s: Server): (b: bool)
    ensures b <==> NoHoles(s.stillClients) && TrueSlots(s.stillClients) >= s.clients
  {
    var n := Count(s.stillClients);
    n.Some? && n.value >= s.clients
  }

  /** `v` with every slot set to `b`, as the two `for` loops do. */
  function Filled(v: seq<Slot>, b: bool): (r: seq<Slot>)
    ensures |r| == |v| && AllSlots(r, b)
  {
    seq(|v|, _ => Flag(b))
  }

  /** The JavaScript assignment `v[index] = still`. */
  function Assigned(v: seq<Slot>, index: nat, still: bool): (r: seq<Slot>)
    ensures |r| == if index < |v| then |v| else index + 1
    ensures r[index] == Flag(still)
    ensures forall j :: 0 <= j < |v| && j != index ==> r[j] == v[j]
    ensures forall j :: |v| <= j < index ==> r[j] == Hole
  {
    if index < |v| then v[index := Flag(still)]
    else v + seq(index - |v|, _ => Hole) + [Flag(still)]
  }

  function FadeMessage(fadeoutTime: real): Message
  {
    Message([SensorRole, DisplayRole], StopAll(fadeoutTime))
  }

  /** `setClientStill(index, still)`. */
  function AfterSetClientStill(s: Server, index: nat, still: bool): (r: Server)
    ensures r.fadeoutTime == s.fadeoutTime && r.clients == s.clients
    ensures r.sent == s.sent || r.sent == s.sent + [FadeMessage(s.fadeoutTime)]
    ensures |r.stillClients| >= |s.stillClients|
    ensures index < |s.stillClients| ==> |r.stillClients| == |s.stillClients|
  {
    var all := AllClientsStill(s);
    if still && !all then
      s.(stillClients := Filled(s.stillClients, true), sent := s.sent + [FadeMessage(s.fadeoutTime)])
    else if !still && all then
      s.(stillClients := Filled(s.stillClients, false))
    else
      s.(stillClients := Assigned(s.stillClients, index, still))
  }

  /** A new sensor client joins (`super.enter`). */
  function AfterEnter(s: Server): (r: Server)
    ensures r.clients == s.clients + 1
    ensures r.stillClients == s.stillClients && r.fadeoutTime == s.fadeoutTime && r.sent == s.sent
  {
    s.(clients := s.clients + 1)
  }

  /** `exit(client)`: the client leaves, the displays are told, and it counts as still. */
  function AfterExit(s: Server, index: nat): (r: Server)
    requires s.clients > 0
    ensures r.clients == s.clients - 1 && r.fadeoutTime == s.fadeoutTime
    ensures var exit := s.sent + [Message([DisplayRole], ExitOf(index))];
            r.sent == exit || r.sent == exit + [FadeMessage(s.fadeoutTime)]
  {
    var left := s.(clients := s.clients - 1, sent := s.sent + [Message([DisplayRole], ExitOf(index))]);
    AfterSetClientStill(left, index, true)
  }

  /** The `edge` message of client `index`. */
  function AfterEdge(s: Server, index: nat, e: int): (r: Server)
    ensures r.sent == s.sent + [Message([DisplayRole], EdgeOf(index, e))]
    ensures r.stillClients == s.stillClients && r.fadeoutTime == s.fadeoutTime && r.clients == s.clients
  {
    s.(sent := s.sent + [Message([DisplayRole], EdgeOf(index, e))])
  }

  /** The `start` message of client `index`. */
  function AfterStart(s: Server, index: nat): (r: Server)
    ensures r.sent == s.sent + [Message([DisplayRole], StartOf(index))]
    ensures r.fadeoutTime == s.fadeoutTime && r.clients == s.clients
  {
    AfterSetClientStill(s.(sent := s.sent + [Message([DisplayRole], StartOf(index))]), index, false)
  }

  /** The `still` message of client `index`. */
  function AfterStill(s: Server, index: nat): (r: Server)
    ensures r.sent == s.sent || r.sent == s.sent + [FadeMessage(s.fadeoutTime)]
    ensures r.fadeoutTime == s.fadeoutTime && r.clients == s.clients
    ensures index < |r.stillClients| ==> r.stillClients[index] == Flag(true)
  {
    AfterSetClientStill(s, index, true)
  }

  /** The `fadeout-time` parameter changed. */
  function AfterFadeoutTime(s: Server, value: real): (r: Server)
    ensures r.fadeoutTime == value
    ensures r.stillClients == s.stillClients && r.clients == s.clients && r.sent == s.sent
  {
    s.(fadeoutTime := value)
  }

  /** The `stop-all` trigger parameter fired. */
  function AfterStopAll(s: Server): (r: Server)
    ensures |r.stillClients| == 3 && AllSlots(r.stillClients, true)
    ensures r.fadeoutTime == s.fadeoutTime && r.clients == s.clients && r.sent == s.sent
  {
    s.(stillClients := AllStillVector())
  }

  // ---------------------------------------------------------------------------
  // The three branches of setClientStill

  /** A still report while not everyone was still marks every slot still and broadcasts
      exactly one `stop-all`, carrying the current fade-out time, to sensors and displays. */
  lemma StillReportFadesAll(s: Server, index: nat)
    requires !AllClientsStill(s)
    ensures var s' := AfterSetClientStill(s, index, true);
            && |s'.stillClients| == |s.stillClients|
            && AllSlots(s'.stillClients, true)
            && s'.sent == s.sent + [Message([SensorRole, DisplayRole], StopAll(s.fadeoutTime))]
            && s'.fadeoutTime == s.fadeoutTime && s'.clients == s.clients
  {
  }

  /** A not-still report while everyone was still clears every slot and sends nothing. */
  lemma NotStillReportClearsAll(s: Server, index: nat)
    requires AllClientsStill(s)
    ensures var s' := AfterSetClientStill(s, index, false);
            && |s'.stillClients| == |s.stillClients|
            && AllSlots(s'.stillClients, false)
            && s'.sent == s.sent
            && s'.fadeoutTime == s.fadeoutTime && s'.clients == s.clients
  {
  }

  /** In every other case only slot `index` changes, to `still`, and nothing is sent. */
  lemma OtherReportWritesSlot(s: Server, index: nat, still: bool)
    requires still == AllClientsStill(s)
    requires index < |s.stillClients|
    ensures var s' := AfterSetClientStill(s, index, still);
            && s'.stillClients == s.stillClients[index := Flag(still)]
            && s'.sent == s.sent
            && s'.fadeoutTime == s.fadeoutTime && s'.clients == s.clients
  {
  }

  /** `stop-all` is never broadcast for a not-still report, and a still report broadcasts
      it exactly when not everyone was still before the update. */
  lemma FadeOnlyOnStillReport(s: Server, index: nat, still: bool)
    ensures var s' := AfterSetClientStill(s, index, still);
            && (!still ==> s'.sent == s.sent)
            && (still ==> (s'.sent != s.sent <==> !AllClientsStill(s)))
  {
  }

  // ---------------------------------------------------------------------------
  // The vector keeps three slots

  /** The three-slot vector with no holes, uniformly still or uniformly not still. */
  ghost predicate Uniform(v: seq<Slot>)
  {
    |v| == 3 && (AllSlots(v, true) || AllSlots(v, false))
  }

  /** With one to three connected clients and indices below 3, every report keeps the
      vector at three uniform slots: all still or all not still. */
  lemma UniformPreserved(s: Server, index: nat, still: bool)
    requires Uniform(s.stillClients)
    requires 1 <= s.clients <= 3
    requires index < 3
    ensures Uniform(AfterSetClientStill(s, index, still).stillClients)
    ensures AllSlots(AfterSetClientStill(s, index, still).stillClients, still)
  {
    if AllSlots(s.stillClients, true) {
      assert Count(s.stillClients) == Some(3);
    } else {
      assert Count(s.stillClients) == Some(0);
    }
  }

  /** A client index at or beyond the vector's length grows it and leaves holes, after
      which the sum is NaN and no count of clients is "all still". */
  lemma OutOfRangeIndexLeavesHoles(s: Server, still: bool)
    requires |s.stillClients| == 3
    requires still == AllClientsStill(s)
    ensures var v := AfterSetClientStill(s, 4, still).stillClients;
            && |v| == 5 && v[3] == Hole && v[4] == Flag(still)
            && Count(v).None?
            && !AllClientsStill(AfterSetClientStill(s, 4, still))
  {
  }

  // ---------------------------------------------------------------------------
  // Runs of reports

  datatype Report = Report(index: nat, still: bool)

  /** The state after the reports `rs`, handled in order. */
  function Run(s: Server, rs: seq<Report>): Server
    decreases |rs|
  {
    if rs == [] then s else Run(AfterSetClientStill(s, rs[0].index, rs[0].still), rs[1..])
  }

  /** Number of `stop-all` broadcasts in `ms`. */
  function FadeCount(ms: seq<Message>): nat
  {
    if ms == [] then 0 else FadeCount(ms[..|ms| - 1]) + (if ms[|ms| - 1].body.StopAll? then 1 else 0)
  }

  lemma FadeCountAppend(ms: seq<Message>, m: Message)
    ensures FadeCount(ms + [m]) == FadeCount(ms) + (if m.body.StopAll? then 1 else 0)
  {
    assert (ms + [m])[..|ms|] == ms;
  }

  ghost predicate StillReportsWithin(rs: seq<Report>, n: nat)
  {
    forall k :: 0 <= k < |rs| ==> rs[k].still && rs[k].index < n
  }

  /** Once every slot is still and the vector covers every client, further still reports
      inside the vector change nothing at all. */
  lemma {:induction false} AllStillAbsorbsStillReports(s: Server, rs: seq<Report>)
    requires AllSlots(s.stillClients, true) && s.clients <= |s.stillClients|
    requires StillReportsWithin(rs, |s.stillClients|)
    ensures Run(s, rs) == s
    decreases |rs|
  {
    if rs != [] {
      assert Count(s.stillClients) == Some(|s.stillClients|);
      var s1 := AfterSetClientStill(s, rs[0].index, true);
      assert s1.stillClients == s.stillClients;
      assert s1 == s;
      assert StillReportsWithin(rs[1..], |s.stillClients|) by {
        forall k | 0 <= k < |rs[1..]| ensures rs[1..][k].still && rs[1..][k].index < |s.stillClients| {
          assert rs[1..][k] == rs[k + 1];
        }
      }
      AllStillAbsorbsStillReports(s1, rs[1..]);
    }
  }

  /** However long a run of still reports (inside the vector, with no more clients than
      slots), it broadcasts `stop-all` at most once. */
  lemma {:induction false} StillRunFadesAtMostOnce(s: Server, rs: seq<Report>)
    requires s.clients <= |s.stillClients|
    requires StillReportsWithin(rs, |s.stillClients|)
    ensures FadeCount(Run(s, rs).sent) <= FadeCount(s.sent) + 1
    decreases |rs|
  {
    if rs != [] {
      var s1 := AfterSetClientStill(s, rs[0].index, true);
      assert rs[0].still;
      assert |s1.stillClients| == |s.stillClients|;
      assert StillReportsWithin(rs[1..], |s.stillClients|) by {
        forall k | 0 <= k < |rs[1..]| ensures rs[1..][k].still && rs[1..][k].index < |s.stillClients| {
          assert rs[1..][k] == rs[k + 1];
        }
      }
      if !AllClientsStill(s) {
        FadeCountAppend(s.sent, FadeMessage(s.fadeoutTime));
        AllStillAbsorbsStillReports(s1, rs[1..]);
      } else {
        assert s1.sent == s.sent;
        StillRunFadesAtMostOnce(s1, rs[1..]);
      }
    }
  }

  /** The fade does not wait until every device is still: with three clients, once a
      not-still report has cleared the vector, ONE still report from any device fades
      everything out, although the other two devices last reported motion. */
  lemma OneStillReportFadesAll(s: Server, index: nat)
    requires s.clients == 3 && s.stillClients == Filled(AllStillVector(), false)
    requires index < 3
    ensures AfterSetClientStill(s, index, true).sent == s.sent + [FadeMessage(s.fadeoutTime)]
    ensures AfterSetClientStill(s, index, true).stillClients == AllStillVector()
  {
    assert Count(s.stillClients) == Some(0);
  }

  /** Consequently a device that moves and then holds still again re-triggers the fade:
      from the all-still state, a not-still report followed by a still report from the
      same device broadcasts `stop-all` once more. */
  lemma MoveThenHoldRefades(s: Server, index: nat)
    requires s.clients == 3 && s.stillClients == AllStillVector()
    requires index < 3
    ensures FadeCount(Run(s, [Report(index, false), Report(index, true)]).sent) == FadeCount(s.sent) + 1
  {
    assert Count(s.stillClients) == Some(3);
    var s1 := AfterSetClientStill(s, index, false);
    assert s1.stillClients == Filled(AllStillVector(), false);
    OneStillReportFadesAll(s1, index);
    var s2 := AfterSetClientStill(s1, index, true);
    FadeCountAppend(s.sent, FadeMessage(s.fadeoutTime));
    var rs := [Report(index, false), Report(index, true)];
    assert rs[0] == Report(index, false) && rs[1..] == [Report(index, true)];
    assert Run(s, rs) == Run(s1, [Report(index, true)]);
    assert [Report(index, true)][1..] == [];
    assert Run(s1, [Report(index, true)]) == Run(s2, []) == s2;
  }

  /** With more connected clients than slots (say four sensors on the three-slot vector),
      during a run of still reports (which never grows the vector) the count of still
      slots stays below the number of clients, so EVERY still report takes the fill branch
      and broadcasts `stop-all` again. */
  lemma {:induction false} MoreClientsThanSlotsFadeOnEveryStill(s: Server, rs: seq<Report>)
    requires s.clients > |s.stillClients|
    requires forall k :: 0 <= k < |rs| ==> rs[k].still
    ensures |Run(s, rs).stillClients| == |s.stillClients|
    ensures FadeCount(Run(s, rs).sent) == FadeCount(s.sent) + |rs|
    decreases |rs|
  {
    if rs != [] {
      assert !AllClientsStill(s);
      var s1 := AfterSetClientStill(s, rs[0].index, rs[0].still);
      assert rs[0].still;
      assert s1.sent == s.sent + [FadeMessage(s.fadeoutTime)];
      FadeCountAppend(s.sent, FadeMessage(s.fadeoutTime));
      assert forall k :: 0 <= k < |rs[1..]| ==> rs[1..][k].still by {
        forall k | 0 <= k < |rs[1..]| ensures rs[1..][k].still { assert rs[1..][k] == rs[k + 1]; }
      }
      MoreClientsThanSlotsFadeOnEveryStill(s1, rs[1..]);
    }
  }

  /** Reports from indices inside the vector never change its length, whatever the
      client count and whatever mix of still and not-still reports: the three-slot vector
      stays three slots for indices 0..2. */
  lemma {:induction false} InRangeRunKeepsLength(s: Server, rs: seq<Report>)
    requires forall k :: 0 <= k < |rs| ==> rs[k].index < |s.stillClients|
    ensures |Run(s, rs).stillClients| == |s.stillClients|
    decreases |rs|
  {
    if rs != [] {
      var s1 := AfterSetClientStill(s, rs[0].index, rs[0].still);
      assert forall k :: 0 <= k < |rs[1..]| ==> rs[1..][k].index < |s1.stillClients| by {
        forall k | 0 <= k < |rs[1..]| ensures rs[1..][k].index < |s1.stillClients| { assert rs[1..][k] == rs[k + 1]; }
      }
      InRangeRunKeepsLength(s1, rs[1..]);
    }
  }

  /** A not-still report from past the end can grow the vector until it has a slot per
      client: with four clients on three still slots, a report (3, false) appends a fourth
      slot, the next still report fills all four and fades once, and from then on still
      reports are absorbed. */
  lemma GrowthLetsFourClientsSettle()
    ensures var s0 := Server(AllStillVector(), InitialFadeoutTime, 4, []);
            var s1 := AfterSetClientStill(s0, 3, false);
            var s2 := AfterSetClientStill(s1, 0, true);
            && |s1.stillClients| == 4 && s1.sent == []
            && s2.sent == [FadeMessage(InitialFadeoutTime)]
            && Count(s2.stillClients) == Some(4)
            && AfterSetClientStill(s2, 1, true) == s2
  {
    var s0 := Server(AllStillVector(), InitialFadeoutTime, 4, []);
    assert Count(s0.stillClients) == Some(3);
    var s1 := AfterSetClientStill(s0, 3, false);
    assert s1.stillClients == [Flag(true), Flag(true), Flag(true), Flag(false)];
    assert Count(s1.stillClients) == Some(3);
    var s2 := AfterSetClientStill(s1, 0, true);
    assert s2.stillClients == [Flag(true), Flag(true), Flag(true), Flag(true)];
    assert Count(s2.stillClients) == Some(4);
    assert s2.stillClients[1 := Flag(true)] == s2.stillClients;
  }

  /** Every `stop-all` in `ms` from position `from` on carries fade-out time `v`. */
  ghost predicate FadesCarry(ms: seq<Message>, from: nat, v: real)
  {
    forall k :: from <= k < |ms| && ms[k].body.StopAll? ==> ms[k].body.fadeoutTime == v
  }

  /** Reports do not change the fade-out time, so every `stop-all` a run of reports sends
      carries the fade-out time in force before the run. */
  lemma {:induction false} RunCarriesFadeoutTime(s: Server, rs: seq<Report>)
    ensures Run(s, rs).fadeoutTime == s.fadeoutTime && Run(s, rs).clients == s.clients
    ensures |Run(s, rs).sent| >= |s.sent| && Run(s, rs).sent[..|s.sent|] == s.sent
    ensures FadesCarry(Run(s, rs).sent, |s.sent|, s.fadeoutTime)
    decreases |rs|
  {
    if rs != [] {
      var s1 := AfterSetClientStill(s, rs[0].index, rs[0].still);
      RunCarriesFadeoutTime(s1, rs[1..]);
      var out := Run(s1, rs[1..]).sent;
      assert out[..|s1.sent|] == s1.sent;
      assert out[..|s.sent|] == s1.sent[..|s.sent|] == s.sent;
      forall k | |s.sent| <= k < |out| && out[k].body.StopAll?
        ensures out[k].body.fadeoutTime == s.fadeoutTime
      {
        if k < |s1.sent| {
          assert out[k] == s1.sent[k] == FadeMessage(s.fadeoutTime);
        }
      }
    }
  }

  /** `onFadeoutTime(v)` sets the value carried by every later `stop-all` caused by reports,
      however many reports come in between. */
  lemma FadeoutTimeCarriedThroughRun(s: Server, v: real, rs: seq<Report>)
    ensures FadesCarry(Run(AfterFadeoutTime(s, v), rs).sent, |s.sent|, v)
  {
    RunCarriesFadeoutTime(AfterFadeoutTime(s, v), rs);
  }

  // ---------------------------------------------------------------------------
  // The handlers

  /** `onStopAll` makes every slot still and broadcasts nothing; with no more clients than
      slots, the next still report then broadcasts nothing either. */
  lemma StopAllRearms(s: Server, index: nat)
    requires s.clients <= 3 && index < 3
    ensures AfterStopAll(s).stillClients == AllStillVector()
    ensures AfterStopAll(s).sent == s.sent
    ensures AfterStill(AfterStopAll(s), index) == AfterStopAll(s)
  {
    assert Count(AllStillVector()) == Some(3);
  }

  /** The `stop-all` triggered after `onFadeoutTime(value)` carries `value`. */
  lemma FadeoutTimeCarried(s: Server, value: real, index: nat)
    requires !AllClientsStill(s)
    ensures AfterStill(AfterFadeoutTime(s, value), index).sent == s.sent + [FadeMessage(value)]
  {
  }

  /** A departing client counts as still: when the vector was cleared and at least one
      other client remains, its departure fades everything out. */
  lemma ExitOfMovingClientFades(s: Server, index: nat)
    requires s.clients >= 2
    requires AllSlots(s.stillClients, false)
    ensures AfterExit(s, index).sent
         == s.sent + [Message([DisplayRole], ExitOf(index)), FadeMessage(s.fadeoutTime)]
    ensures AllSlots(AfterExit(s, index).stillClients, true)
  {
    assert Count(s.stillClients) == Some(0);
  }

  /** The server object. Its handlers are those the framework calls for each sensor client. */
  class SensorExperience {
    var stillClients: seq<Slot>
    var fadeoutTime: real
    var clients: nat
    var sent: seq<Message>

    function State(): Server
      reads this
    {
      Server(stillClients, fadeoutTime, clients, sent)
    }

    constructor ()
      ensures State() == Initial()
    {
      stillClients := AllStillVector();
      fadeoutTime := InitialFadeoutTime;
      clients := 0;
      sent := [];
    }

    /** The `for (let still of this.stillClients)` loop: the sum of the vector, or NaN. */
    method CountStill() returns (numStillClients: Option<nat>)
      ensures numStillClients == Count(stillClients)
    {
      numStillClients := Some(0);
      var i := 0;
      while i < |stillClients|
        invariant 0 <= i <= |stillClients|
        invariant numStillClients == Count(stillClients[..i])
      {
        assert stillClients[..i + 1][..i] == stillClients[..i];
        numStillClients := AddSlot(numStillClients, stillClients[i]);
        i := i + 1;
      }
      assert stillClients[..i] == stillClients;
    }

    /** One of the two `for` loops over the indices: every slot, holes included, becomes `b`. */
    method Fill(b: bool)
      modifies this
      ensures stillClients == Filled(old(stillClients), b)
      ensures sent == old(sent) && fadeoutTime == old(fadeoutTime) && clients == old(clients)
    {
      var j := 0;
      while j < |stillClients|
        invariant 0 <= j <= |stillClients| == |old(stillClients)|
        invariant forall m :: 0 <= m < j ==> stillClients[m] == Flag(b)
        invariant sent == old(sent) && fadeoutTime == old(fadeoutTime) && clients == old(clients)
      {
        stillClients := stillClients[j := Flag(b)];
        j := j + 1;
      }
    }

    method SetClientStill(index: nat, still: bool)
      modifies this
      ensures State() == AfterSetClientStill(old(State()), index, still)
    {
      var numStillClients := CountStill();
      var allClientsStill := numStillClients.Some? && numStillClients.value >= clients;
      assert allClientsStill == AllClientsStill(State());

      if still && !allClientsStill {
        Fill(true);
        sent := sent + [Message([SensorRole, DisplayRole], StopAll(fadeoutTime))];
      } else if !still && allClientsStill {
        Fill(false);
      } else {
        stillClients := Assigned(stillClients, index, still);
      }
    }

    /** `enter(client)`: the framework adds the client to `this.clients`. */
    method Enter()
      modifies this
      ensures State() == AfterEnter(old(State()))
    {
      clients := clients + 1;
    }

    /** `exit(client)` for the client with index `index`. */
    method Exit(index: nat)
      requires clients > 0
      modifies this
      ensures State() == AfterExit(old(State()), index)
    {
      clients := clients - 1;
      sent := sent + [Message([DisplayRole], ExitOf(index))];
      SetClientStill(index, true);
    }

    method OnFadeoutTime(value: real)
      modifies this
      ensures State() == AfterFadeoutTime(old(State()), value)
    {
      fadeoutTime := value;
    }

    method OnStopAll()
      modifies this
      ensures State() == AfterStopAll(old(State()))
    {
      stillClients := AllStillVector();
    }

    /** The handler `getClientOnEdge(client)` installs, applied to `e`. */
    method ClientOnEdge(index: nat, e: int)
      modifies this
      ensures State() == AfterEdge(old(State()), index, e)
    {
      sent := sent + [Message([DisplayRole], EdgeOf(index, e))];
    }

    /** The handler `getClientOnStart(client)` installs. */
    method ClientOnStart(index: nat)
      modifies this
      ensures State() == AfterStart(old(State()), index)
    {
      sent := sent + [Message([DisplayRole], StartOf(index))];
      SetClientStill(index, false);
    }

    /** The handler `getClientOnStill(client)` installs. */
    method ClientOnStill(index: nat)
      modifies this
      ensures State() == AfterStill(old(State()), index)
    {
      SetClientStill(index, true);
    }
  }
}
