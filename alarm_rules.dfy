/**
 The transition rules of the security service as pure functions.

 Each entry point of the service makes at most one alarm-status write, and
 the write it makes depends only on the stored alarm status, the stored
 arming status, the remembered cat-detection flag and what the call observes
 (the sensor's flag before the call, whether every sensor is inactive).
 `Decide` gives that write; `Step` gives the state that follows; `Run` and
 `Trace` extend both to a sequence of calls, and the lemmas at the end state
 what holds of every such sequence.
 */
module AlarmRules {
  import opened CatpointData

  datatype Option<T> = None | Some(value: T)

  /** Any arming status other than disarmed counts as armed. */
  predicate Armed(arming: ArmingStatus)
  {
    arming != Disarmed
  }

  /** The severity ladder NO_ALARM < PENDING_ALARM < ALARM. */
  const Ladder: seq<AlarmStatus> := [NoAlarm, PendingAlarm, Alarm]

  /** The position of a status on the severity ladder. */
  function Rank(a: AlarmStatus): (r: nat)
    ensures r < |Ladder| && Ladder[r] == a
  {
    match a
    case NoAlarm => 0
    case PendingAlarm => 1
    case Alarm => 2
  }

  /**
   The write made by the two-argument `changeSensorActivationStatus(sensor,
   active)`, given the sensor's flag before the call.
   */
  function SensorChangeWrite(alarm: AlarmStatus, arming: ArmingStatus, wasActive: bool, active: bool)
    : (w: Option<AlarmStatus>)
    // alarm logic is bypassed while disarmed, and ALARM is sticky for sensor events
    ensures alarm == Alarm || !Armed(arming) ==> w == None
    // a call that leaves the flag where it was writes nothing, except a re-activation while pending
    ensures wasActive == active && !(active && alarm == PendingAlarm) ==> w == None
    // activating an inactive sensor while armed always raises the alarm status
    ensures active && !wasActive && Armed(arming) && alarm != Alarm ==> w.Some?
    // activating a sensor while armed and pending raises ALARM, even if it was already active
    ensures active && Armed(arming) && alarm == PendingAlarm ==> w == Some(Alarm)
    // an activation raises by exactly one level; a deactivation only clears a pending alarm
    ensures w.Some? && active ==> Rank(w.value) == Rank(alarm) + 1
    ensures w.Some? && !active ==> wasActive && alarm == PendingAlarm && w.value == NoAlarm
    ensures !active && wasActive && Armed(arming) && alarm == PendingAlarm ==> w == Some(NoAlarm)
  {
    if alarm == Alarm || !Armed(arming) then None
    else if active then
      if !wasActive || alarm == PendingAlarm then
        Some(if alarm == NoAlarm then PendingAlarm else Alarm)
      else None
    else if wasActive && alarm == PendingAlarm then Some(NoAlarm)
    else None
  }

  /**
   The write made by the one-argument `changeSensorActivationStatus(sensor)`,
   which re-evaluates a sensor at its current flag without changing it.
   */
  function ReevaluateWrite(alarm: AlarmStatus, active: bool): (w: Option<AlarmStatus>)
    ensures w.Some? <==> alarm == PendingAlarm && !active
    ensures w.Some? ==> w.value == NoAlarm
  {
    if alarm == PendingAlarm && !active then Some(NoAlarm) else None
  }

  /**
   The write made by `processImage` once the image analyzer has answered
   `cat`; `allInactive` says whether every registered sensor is inactive.
   */
  function ImageWrite(arming: ArmingStatus, cat: bool, allInactive: bool): (w: Option<AlarmStatus>)
    // a cat raises ALARM exactly when armed-home
    ensures cat ==> (w.Some? <==> arming == ArmedHome)
    // no cat clears the alarm status exactly when every sensor is inactive
    ensures !cat ==> (w.Some? <==> allInactive)
    ensures w.Some? ==> w.value == (if cat then Alarm else NoAlarm)
  {
    if cat && arming == ArmedHome then Some(Alarm)
    else if !cat && allInactive then Some(NoAlarm)
    else None
  }

  /**
   The write made by `setArmingStatus(status)`, given the remembered
   cat-detection flag. The sensors that arming deactivates are deactivated in
   bulk and make no write of their own.
   */
  function ArmingWrite(status: ArmingStatus, catDetected: bool): (w: Option<AlarmStatus>)
    ensures status == Disarmed ==> w == Some(NoAlarm)
    ensures Armed(status) ==> (w.Some? <==> status == ArmedHome && catDetected)
    ensures Armed(status) && w.Some? ==> w.value == Alarm
  {
    if status == Disarmed then Some(NoAlarm)
    else if status == ArmedHome && catDetected then Some(Alarm)
    else None
  }

  /** What the service keeps between calls: the two stored statuses and the cat flag. */
  datatype Snapshot = Snapshot(alarm: AlarmStatus, arming: ArmingStatus, catDetected: bool)

  /** One call into the service, with what that call observes. */
  datatype Event =
    | SensorChanged(wasActive: bool, active: bool)
    | SensorReevaluated(active: bool)
    | ImageProcessed(cat: bool, allInactive: bool)
    | ArmingChanged(status: ArmingStatus)

  /** The write, if any, that `e` makes from state `s`. */
  function Decide(s: Snapshot, e: Event): Option<AlarmStatus>
  {
    match e
    case SensorChanged(wasActive, active) => SensorChangeWrite(s.alarm, s.arming, wasActive, active)
    case SensorReevaluated(active) => ReevaluateWrite(s.alarm, active)
    case ImageProcessed(cat, allInactive) => ImageWrite(s.arming, cat, allInactive)
    case ArmingChanged(status) => ArmingWrite(status, s.catDetected)
  }

  /** The writes, as a (zero- or one-element) sequence. */
  function Written(w: Option<AlarmStatus>): seq<AlarmStatus>
  {
    if w.Some? then [w.value] else []
  }

  predicate SensorEvent(e: Event)
  {
    e.SensorChanged? || e.SensorReevaluated?
  }

  /** The two events that bring the alarm status down to NO_ALARM from anywhere. */
  predicate Clears(e: Event)
  {
    e == ArmingChanged(Disarmed) || (e.ImageProcessed? && !e.cat && e.allInactive)
  }

  /** While disarmed the alarm status is NO_ALARM. */
  predicate Consistent(s: Snapshot)
  {
    s.arming == Disarmed ==> s.alarm == NoAlarm
  }

  /** The state after event `e` from state `s`. */
  function Step(s: Snapshot, e: Event): (t: Snapshot)
    ensures Consistent(s) ==> Consistent(t)
    ensures Clears(e) ==> t.alarm == NoAlarm
    // the alarm status goes down only by a clearing event or a sensor event while pending
    ensures Rank(t.alarm) < Rank(s.alarm) ==>
              Clears(e) || (SensorEvent(e) && s.alarm == PendingAlarm && t.alarm == NoAlarm)
    // the cat flag changes only by processing an image, the arming status only by setting it
    ensures t.catDetected == (if e.ImageProcessed? then e.cat else s.catDetected)
    ensures t.arming == (if e.ArmingChanged? then e.status else s.arming)
  {
    var alarm := match Decide(s, e) case Some(a) => a case None => s.alarm;
    match e
    case ImageProcessed(cat, _) => Snapshot(alarm, s.arming, cat)
    case ArmingChanged(status) => Snapshot(alarm, status, s.catDetected)
    case _ => s.(alarm := alarm)
  }

  /** The state after the events `es`, in order. */
  function Run(s: Snapshot, es: seq<Event>): Snapshot
    decreases |es|
  {
    if es == [] then s else Run(Step(s, es[0]), es[1..])
  }

  /** Every alarm-status write made by the events `es`, in order. */
  function Trace(s: Snapshot, es: seq<Event>): seq<AlarmStatus>
    decreases |es|
  {
    if es == [] then [] else Written(Decide(s, es[0])) + Trace(Step(s, es[0]), es[1..])
  }

  function Min(a: int, b: int): int
  {
    if a < b then a else b
  }

  /** Running one more event extends the run by one step and the trace by that step's write. */
  lemma {:induction false} RunAppend(s: Snapshot, es: seq<Event>, e: Event)
    ensures Run(s, es + [e]) == Step(Run(s, es), e)
    ensures Trace(s, es + [e]) == Trace(s, es) + Written(Decide(Run(s, es), e))
    decreases |es|
  {
    if es == [] {
      assert [] + [e] == [e];
    } else {
      assert (es + [e])[0] == es[0];
      assert (es + [e])[1..] == es[1..] + [e];
      RunAppend(Step(s, es[0]), es[1..], e);
    }
  }

  /** "Disarmed implies NO_ALARM" holds after any sequence of calls that starts with it. */
  lemma {:induction false} RunKeepsConsistent(s: Snapshot, es: seq<Event>)
    requires Consistent(s)
    ensures Consistent(Run(s, es))
    decreases |es|
  {
    if es != [] {
      RunKeepsConsistent(Step(s, es[0]), es[1..]);
    }
  }

  /** Disarming writes NO_ALARM last and leaves NO_ALARM, whatever came before. */
  lemma DisarmEndsInNoAlarm(s: Snapshot, es: seq<Event>)
    ensures Run(s, es + [ArmingChanged(Disarmed)]).alarm == NoAlarm
    ensures Run(s, es + [ArmingChanged(Disarmed)]).arming == Disarmed
    ensures Trace(s, es + [ArmingChanged(Disarmed)]) == Trace(s, es) + [NoAlarm]
  {
    RunAppend(s, es, ArmingChanged(Disarmed));
  }

  /**
   While armed, successive activations of inactive sensors climb the ladder
   one level each and stop at ALARM: from NO_ALARM, the first writes
   PENDING_ALARM, the second ALARM, and any further one writes nothing.
   */
  lemma {:induction false} ActivationLadder(s: Snapshot, es: seq<Event>)
    requires Armed(s.arming)
    requires forall i :: 0 <= i < |es| ==> es[i] == SensorChanged(false, true)
    ensures Run(s, es).alarm == Ladder[Min(Rank(s.alarm) + |es|, 2)]
    ensures Trace(s, es) == Ladder[Rank(s.alarm) + 1 .. Min(Rank(s.alarm) + |es|, 2) + 1]
    decreases |es|
  {
    if es != [] {
      var t := Step(s, es[0]);
      var r := Rank(s.alarm);
      assert Rank(t.alarm) == Min(r + 1, 2);
      ActivationLadder(t, es[1..]);
      if r < 2 {
        assert Written(Decide(s, es[0])) == [Ladder[r + 1]];
        assert Ladder[r + 1 .. Min(r + |es|, 2) + 1]
            == [Ladder[r + 1]] + Ladder[r + 2 .. Min(r + |es|, 2) + 1];
      }
    }
  }

  /** From NO_ALARM while armed: two activations reach ALARM, a third changes nothing. */
  lemma TwoActivationsRaiseAlarm(s: Snapshot)
    requires Armed(s.arming) && s.alarm == NoAlarm
    ensures Trace(s, [SensorChanged(false, true)]) == [PendingAlarm]
    ensures Run(s, [SensorChanged(false, true), SensorChanged(false, true)]).alarm == Alarm
    ensures Trace(s, [SensorChanged(false, true), SensorChanged(false, true), SensorChanged(false, true)])
         == [PendingAlarm, Alarm]
  {
    ActivationLadder(s, [SensorChanged(false, true)]);
    ActivationLadder(s, [SensorChanged(false, true), SensorChanged(false, true)]);
    ActivationLadder(s, [SensorChanged(false, true), SensorChanged(false, true), SensorChanged(false, true)]);
  }

  /**
   ALARM is left only by disarming or by an image without a cat while every
   sensor is inactive: until one of those happens the alarm status stays
   ALARM, and every write made meanwhile is ALARM.
   */
  lemma {:induction false} AlarmHeldUntilCleared(s: Snapshot, es: seq<Event>)
    requires s.alarm == Alarm
    requires forall i :: 0 <= i < |es| ==> !Clears(es[i])
    ensures Run(s, es).alarm == Alarm
    ensures forall w :: w in Trace(s, es) ==> w == Alarm
    decreases |es|
  {
    if es != [] {
      var t := Step(s, es[0]);
      assert Rank(t.alarm) == 2;
      AlarmHeldUntilCleared(t, es[1..]);
    }
  }

  /** Sensor events never write while ALARM is stored. */
  lemma {:induction false} SensorEventsSilentInAlarm(s: Snapshot, es: seq<Event>)
    requires s.alarm == Alarm
    requires forall i :: 0 <= i < |es| ==> SensorEvent(es[i])
    ensures Run(s, es) == s
    ensures Trace(s, es) == []
    decreases |es|
  {
    if es != [] {
      assert Step(s, es[0]) == s;
      SensorEventsSilentInAlarm(s, es[1..]);
    }
  }

  /** Sensor events never change the remembered cat flag. */
  lemma {:induction false} SensorEventsKeepCat(s: Snapshot, es: seq<Event>)
    requires forall i :: 0 <= i < |es| ==> SensorEvent(es[i])
    ensures Run(s, es).catDetected == s.catDetected
    decreases |es|
  {
    if es != [] {
      SensorEventsKeepCat(Step(s, es[0]), es[1..]);
    }
  }

  /**
   A cat seen while disarmed is remembered: after any sensor events, arming
   to ARMED_HOME writes ALARM, and that is the only write of the sequence.
   */
  lemma CatRememberedUntilArmedHome(s: Snapshot, allInactive: bool, es: seq<Event>)
    requires s.arming == Disarmed && s.alarm == NoAlarm
    requires forall i :: 0 <= i < |es| ==> SensorEvent(es[i])
    ensures Run(s, [ImageProcessed(true, allInactive)] + es + [ArmingChanged(ArmedHome)]).alarm == Alarm
    ensures Trace(s, [ImageProcessed(true, allInactive)] + es + [ArmingChanged(ArmedHome)]) == [Alarm]
  {
    var t := Step(s, ImageProcessed(true, allInactive));
    assert t == s.(catDetected := true);
    var pre := [ImageProcessed(true, allInactive)] + es;
    assert pre[0] == ImageProcessed(true, allInactive) && pre[1..] == es;
    SensorEventsKeepCat(t, es);
    SensorsSilentWhileDisarmed(t, es);
    RunAppend(s, pre, ArmingChanged(ArmedHome));
  }

  /** While disarmed and NO_ALARM, sensor events change nothing and write nothing. */
  lemma {:induction false} SensorsSilentWhileDisarmed(s: Snapshot, es: seq<Event>)
    requires s.arming == Disarmed && s.alarm == NoAlarm
    requires forall i :: 0 <= i < |es| ==> SensorEvent(es[i])
    ensures Run(s, es) == s
    ensures Trace(s, es) == []
    decreases |es|
  {
    if es != [] {
      assert Step(s, es[0]) == s;
      SensorsSilentWhileDisarmed(s, es[1..]);
    }
  }
}
