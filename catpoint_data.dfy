/**
 The data layer of Catpoint: the two status enumerations, the sensor entity,
 and an in-memory stand-in for the security repository that the service reads
 and writes.
 */
module CatpointData {

  /** Severity of the detected intrusion condition, in increasing order. */
  datatype AlarmStatus = NoAlarm | PendingAlarm | Alarm

  /** Whether the premises are disarmed or armed in one of two modes. */
  datatype ArmingStatus = Disarmed | ArmedHome | ArmedAway

  /**
   A door, window or motion detector. Its identity is the object itself; its
   only state is the `active` flag, which the service flips in place.
   */
  class Sensor {
    var active: bool

    /** A new sensor starts inactive. */
    constructor ()
      ensures !active
    {
      active := false;
    }

    /** A plain field update with no side effects of its own. */
    method SetActive(active: bool)
      modifies this
      ensures this.active == active
    {
      this.active := active;
    }
  }

  /**
   The repository holds the current alarm status, the current arming status
   and the set of registered sensors. The ghost field `alarmWrites` is not
   part of the repository; it records, in order, every status handed to
   `SetAlarmStatus`, so that "setAlarmStatus(X) was called once" and
   "setAlarmStatus was never called" become statements about this record.
   */
  class Repository {
    var alarm: AlarmStatus
    var arming: ArmingStatus
    var sensors: set<Sensor>
    ghost var alarmWrites: seq<AlarmStatus>

    /**
     The stored alarm status is the one written last, if any was written.
     It only ties the ghost write record to the stored status; no contract
     relies on it.
     */
    ghost predicate Valid()
      reads this
    {
      alarmWrites != [] ==> alarm == alarmWrites[|alarmWrites| - 1]
    }

    constructor (alarm: AlarmStatus, arming: ArmingStatus, sensors: set<Sensor>)
      ensures Valid()
      ensures this.alarm == alarm && this.arming == arming && this.sensors == sensors
      ensures alarmWrites == []
    {
      this.alarm := alarm;
      this.arming := arming;
      this.sensors := sensors;
      alarmWrites := [];
    }

    method SetAlarmStatus(status: AlarmStatus)
      modifies this
      ensures Valid()
      ensures alarm == status && alarmWrites == old(alarmWrites) + [status]
      ensures arming == old(arming) && sensors == old(sensors)
    {
      alarm := status;
      alarmWrites := alarmWrites + [status];
    }

    method SetArmingStatus(status: ArmingStatus)
      requires Valid()
      modifies this
      ensures Valid()
      ensures arming == status
      ensures alarm == old(alarm) && sensors == old(sensors) && alarmWrites == old(alarmWrites)
    {
      arming := status;
    }
  }
}
