/**
 The security service: it reads the repository's current state, decides the
 alarm-status write with the rules of `AlarmRules`, performs it, and updates
 sensors in place. The only state of its own is the flag remembering whether
 the last analyzed image showed a cat.
 */
module SecurityServices {
  import opened CatpointData
  import opened AlarmRules

  class SecurityService {
    const repo: Repository
    var catDetected: bool

    ghost predicate Valid()
      reads this, repo
    {
      repo.Valid()
    }

    /** The state the transition rules look at. */
    ghost function Snap(): Snapshot
      reads this, repo
    {
      Snapshot(repo.alarm, repo.arming, catDetected)
    }

    /** Whether every registered sensor is inactive (true when none is registered). */
    predicate AllSensorsInactive()
      reads repo, repo.sensors
    {
      forall s :: s in repo.sensors ==> !s.active
    }

    /** The service starts without having seen a cat. */
    constructor (repo: Repository)
      requires repo.Valid()
      ensures Valid()
      ensures this.repo == repo && !catDetected
    {
      this.repo := repo;
      catDetected := false;
    }

    /** The registered sensors, as the repository holds them. */
    method GetSensors() returns (sensors: set<Sensor>)
      ensures sensors == repo.sensors
    {
      sensors := repo.sensors;
    }

    /**
     Sets `sensor`'s flag to `active`, first making the alarm-status write the
     rules call for given the flag it had before.
     */
    method ChangeSensorActivationStatus(sensor: Sensor, active: bool)
      requires Valid()
      modifies repo, sensor
      ensures Valid()
      ensures sensor.active == active
      ensures repo.alarmWrites
           == old(repo.alarmWrites) + Written(Decide(old(Snap()), SensorChanged(old(sensor.active), active)))
      ensures Snap() == Step(old(Snap()), SensorChanged(old(sensor.active), active))
      ensures repo.sensors == old(repo.sensors)
    {
      var w := SensorChangeWrite(repo.alarm, repo.arming, sensor.active, active);
      if w.Some? {
        repo.SetAlarmStatus(w.value);
      }
      sensor.SetActive(active);
    }

    /**
     The one-argument form of changeSensorActivationStatus: re-evaluates
     `sensor` at its current flag, which it leaves as it is.
     */
    method ReevaluateSensor(sensor: Sensor)
      requires Valid()
      modifies repo
      ensures Valid()
      ensures repo.alarmWrites
           == old(repo.alarmWrites) + Written(Decide(old(Snap()), SensorReevaluated(sensor.active)))
      ensures Snap() == Step(old(Snap()), SensorReevaluated(sensor.active))
      ensures repo.sensors == old(repo.sensors)
    {
      var w := ReevaluateWrite(repo.alarm, sensor.active);
      if w.Some? {
        repo.SetAlarmStatus(w.value);
      }
    }

    /**
     Handles the image analyzer's answer `cat` for a new camera image: makes
     the write the rules call for and remembers the answer.
     */
    method ProcessImage(cat: bool)
      requires Valid()
      modifies this, repo
      ensures Valid()
      ensures catDetected == cat
      ensures repo.alarmWrites
           == old(repo.alarmWrites) + Written(Decide(old(Snap()), ImageProcessed(cat, old(AllSensorsInactive()))))
      ensures Snap() == Step(old(Snap()), ImageProcessed(cat, old(AllSensorsInactive())))
      ensures repo.sensors == old(repo.sensors)
    {
      var w := ImageWrite(repo.arming, cat, AllSensorsInactive());
      catDetected := cat;
      if w.Some? {
        repo.SetAlarmStatus(w.value);
      }
    }

    /**
     Stores the new arming status. Disarming writes NO_ALARM; arming
     deactivates every registered sensor (without any alarm-status write of
     its own) and, when arming home with a cat remembered, writes ALARM.
     */
    method SetArmingStatus(status: ArmingStatus)
      requires Valid()
      modifies repo, repo.sensors
      ensures Valid()
      ensures repo.alarmWrites == old(repo.alarmWrites) + Written(Decide(old(Snap()), ArmingChanged(status)))
      ensures Snap() == Step(old(Snap()), ArmingChanged(status))
      ensures repo.sensors == old(repo.sensors)
      ensures Armed(status) ==> AllSensorsInactive()
      ensures status == Disarmed ==> forall s :: s in repo.sensors ==> s.active == old(s.active)
    {
      if Armed(status) {
        var rest := repo.sensors;
        while rest != {}
          invariant rest <= repo.sensors
          invariant forall s :: s in repo.sensors && s !in rest ==> !s.active
          modifies repo.sensors
          decreases rest
        {
          var s :| s in rest;
          s.SetActive(false);
          rest := rest - {s};
        }
      }
      var w := ArmingWrite(status, catDetected);
      if w.Some? {
        repo.SetAlarmStatus(w.value);
      }
      repo.SetArmingStatus(status);
    }
  }
}
