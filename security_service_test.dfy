/**
 The unit tests of the security service, as client methods: each builds a
 repository in the state the test stubs, runs the service call under test and
 returns what the test inspects (the ghost record of alarm-status writes,
 or the sensors). A status the test leaves unstubbed is a parameter here; an
 unstubbed arming status is modelled as any armed status, since the service
 treats everything other than DISARMED as armed.
 */
module SecurityServiceTest {
  import opened CatpointData
  import opened AlarmRules
  import opened SecurityServices

  /** Test 1: armed, NO_ALARM, an inactive sensor is activated: PENDING_ALARM is written once. */
  method ArmedActivationFromNoAlarmWritesPending(arming: ArmingStatus) returns (ghost writes: seq<AlarmStatus>)
    requires Armed(arming)
    ensures writes == [PendingAlarm]
  {
    var repo := new Repository(NoAlarm, arming, {});
    var service := new SecurityService(repo);
    var sensor := new Sensor();
    service.ChangeSensorActivationStatus(sensor, true);
    writes := repo.alarmWrites;
  }

  /** Test 2: armed, PENDING_ALARM, an inactive sensor is activated: ALARM is written once. */
  method ArmedActivationFromPendingWritesAlarm(arming: ArmingStatus) returns (ghost writes: seq<AlarmStatus>)
    requires Armed(arming)
    ensures writes == [Alarm]
  {
    var repo := new Repository(PendingAlarm, arming, {});
    var service := new SecurityService(repo);
    var sensor := new Sensor();
    service.ChangeSensorActivationStatus(sensor, true);
    writes := repo.alarmWrites;
  }

  /** Test 3: PENDING_ALARM, an inactive sensor is re-evaluated: NO_ALARM is written once. */
  method PendingReevaluationOfInactiveWritesNoAlarm(arming: ArmingStatus) returns (ghost writes: seq<AlarmStatus>)
    ensures writes == [NoAlarm]
  {
    var repo := new Repository(PendingAlarm, arming, {});
    var service := new SecurityService(repo);
    var sensor := new Sensor();
    sensor.SetActive(false);
    service.ReevaluateSensor(sensor);
    writes := repo.alarmWrites;
  }

  /** Test 4: ALARM, a sensor is set active or inactive: nothing is written. */
  method AlarmIgnoresSensorChanges(arming: ArmingStatus, status: bool) returns (ghost writes: seq<AlarmStatus>)
    ensures writes == []
  {
    var repo := new Repository(Alarm, arming, {});
    var service := new SecurityService(repo);
    var sensor := new Sensor();
    service.ChangeSensorActivationStatus(sensor, status);
    writes := repo.alarmWrites;
  }

  /** Test 5: armed, PENDING_ALARM, an already active sensor is activated again: ALARM is written once. */
  method PendingReactivationWritesAlarm(arming: ArmingStatus) returns (ghost writes: seq<AlarmStatus>)
    requires Armed(arming)
    ensures writes == [Alarm]
  {
    var repo := new Repository(PendingAlarm, arming, {});
    var service := new SecurityService(repo);
    var sensor := new Sensor();
    sensor.SetActive(true);
    service.ChangeSensorActivationStatus(sensor, true);
    writes := repo.alarmWrites;
  }

  /** Test 6: any alarm status, an inactive sensor is deactivated: nothing is written. */
  method DeactivatingInactiveWritesNothing(alarm: AlarmStatus, arming: ArmingStatus) returns (ghost writes: seq<AlarmStatus>)
    ensures writes == []
  {
    var repo := new Repository(alarm, arming, {});
    var service := new SecurityService(repo);
    var sensor := new Sensor();
    sensor.SetActive(false);
    service.ChangeSensorActivationStatus(sensor, false);
    writes := repo.alarmWrites;
  }

  /** Test 7: armed-home, the image shows a cat: ALARM is written once. */
  method ArmedHomeCatWritesAlarm(alarm: AlarmStatus) returns (ghost writes: seq<AlarmStatus>)
    ensures writes == [Alarm]
  {
    var repo := new Repository(alarm, ArmedHome, {});
    var service := new SecurityService(repo);
    service.ProcessImage(true);
    writes := repo.alarmWrites;
  }

  /** Test 8: three inactive sensors, the image shows no cat: exactly one write, NO_ALARM. */
  method NoCatAllInactiveWritesNoAlarm(alarm: AlarmStatus, arming: ArmingStatus) returns (ghost writes: seq<AlarmStatus>)
    ensures writes == [NoAlarm]
  {
    var a := new Sensor();
    var b := new Sensor();
    var c := new Sensor();
    var repo := new Repository(alarm, arming, {a, b, c});
    var service := new SecurityService(repo);
    service.ProcessImage(false);
    writes := repo.alarmWrites;
  }

  /** Test 9: disarming writes NO_ALARM once, whatever the prior state. */
  method DisarmingWritesNoAlarm(alarm: AlarmStatus, arming: ArmingStatus) returns (ghost writes: seq<AlarmStatus>)
    ensures writes == [NoAlarm]
  {
    var repo := new Repository(alarm, arming, {});
    var service := new SecurityService(repo);
    service.SetArmingStatus(Disarmed);
    writes := repo.alarmWrites;
  }

  /** Test 10: three active sensors, the system is armed home or away: every sensor ends inactive. */
  method ArmingResetsSensors(alarm: AlarmStatus, arming: ArmingStatus, status: ArmingStatus)
    returns (sensors: set<Sensor>)
    requires Armed(status)
    ensures |sensors| == 3
    ensures forall s :: s in sensors ==> !s.active
  {
    var a := new Sensor();
    a.SetActive(true);
    var b := new Sensor();
    b.SetActive(true);
    var c := new Sensor();
    c.SetActive(true);
    var repo := new Repository(alarm, arming, {a, b, c});
    var service := new SecurityService(repo);
    service.SetArmingStatus(status);
    sensors := service.GetSensors();
  }

  /** Test 11: a cat seen while disarmed, then armed home: ALARM is written exactly once. */
  method CatWhileDisarmedThenArmedHomeWritesAlarm(alarm: AlarmStatus) returns (ghost writes: seq<AlarmStatus>)
    ensures writes == [Alarm]
  {
    var repo := new Repository(alarm, Disarmed, {});
    var service := new SecurityService(repo);
    service.ProcessImage(true);
    service.SetArmingStatus(ArmedHome);
    writes := repo.alarmWrites;
  }
}
