# Catpoint security service: alarm-status state machine

Catpoint watches a home through door, window and motion sensors and a camera.
Its `SecurityService` combines three kinds of input into one alarm status:
`NO_ALARM`, `PENDING_ALARM` or `ALARM`. The inputs are sensor activation
changes, the image analyzer's verdict on a camera image (cat or no cat) and
arming changes (`DISARMED`, `ARMED_HOME`, `ARMED_AWAY`). When the system is
armed, the service also deactivates every registered sensor.

The service's own source file is not part of this model. Its behaviour is
taken from its unit tests (`SecurityServiceTest.java`, tests 1-11), and each
test becomes a verified client method. Cases that no test pins are settled
by the rules stated under "Modelling choices".

Layout:

- `catpoint_data.dfy` (module `CatpointData`): the two status enumerations,
  `Sensor` (a class whose `active` flag is flipped in place) and `Repository`,
  an in-memory stand-in for the mocked `SecurityRepository`. The repository's
  ghost field `alarmWrites` records every `setAlarmStatus` call in order, so
  "called once with X" reads `alarmWrites == [X]` and "never called" reads
  `alarmWrites == []`.
- `alarm_rules.dfy` (module `AlarmRules`): the transition rules as pure
  functions. There is one decision function per entry point; each gives the
  single alarm-status write, if any, that the call makes. `Step`, `Run` and
  `Trace` give the resulting state for one call or a sequence of calls, and
  lemmas state what holds for every sequence of calls.
- `security_service.dfy` (module `SecurityServices`): the `SecurityService`
  class. It keeps one flag of its own, the last cat verdict. Each method is
  proved to make exactly the writes, and reach exactly the state, that
  `Decide` and `Step` give for the state before the call. `SetArmingStatus`
  deactivates the sensors with a loop over the sensor set.
- `security_service_test.dfy` (module `SecurityServiceTest`): tests 1-11 as
  methods that return what each test inspects (the write record as a ghost
  out-parameter, or the sensor set).

Modelling choices:

- A missing (unstubbed) arming status counts as armed. It behaves exactly
  like `ARMED_AWAY` in every rule: armed, but not armed-home.
- Activating an already-active sensor while `PENDING_ALARM` writes `ALARM`
  (test 5). Otherwise a call that leaves the flag where it was (activating
  an active sensor, deactivating an inactive one) writes nothing. In
  particular, re-activating an active sensor while `NO_ALARM` writes nothing.
- No test deactivates an active sensor through the two-argument call: test 3
  uses the one-argument form, and tests 4 and 6 deactivate a sensor that is
  already inactive. When an active sensor is deactivated while armed and
  `PENDING_ALARM`, the model writes `NO_ALARM`, by analogy with test 3's
  one-argument case. It does not look at the other sensors.
- The one-argument `changeSensorActivationStatus(sensor)` (`ReevaluateSensor`)
  writes `NO_ALARM` when the sensor is inactive and the status is
  `PENDING_ALARM`. In every other case it writes nothing, because test 3 is
  the only evidence for it.
- `ALARM` is sticky for sensor calls. It is not sticky for images: an image
  without a cat while every sensor is inactive writes `NO_ALARM` whatever the
  current status, as test 8 (which leaves the alarm status unstubbed)
  allows. `AlarmHeldUntilCleared` names exactly the two events that leave
  `ALARM`: disarming and that image.
- Arming deactivates the sensors in bulk, without any alarm-status write of
  its own. The service as tested probably does otherwise; see the
  `SetArmingStatus` line under "Left out".

## Model

| member | source | states |
|---|---|---|
| `CatpointData.Sensor.constructor` | SecurityService/src/test/java/com/udacity/catpoint/SecurityServiceTest.java:50-52 | a new sensor starts inactive |
| `CatpointData.Sensor.SetActive` | SecurityService/src/test/java/com/udacity/catpoint/SecurityServiceTest.java:54-62 | sets the sensor's flag to the given value and changes nothing else |
| `CatpointData.Repository.constructor` | SecurityService/src/test/java/com/udacity/catpoint/SecurityServiceTest.java:73-74 | the repository starts with the given alarm status, arming status and sensors, and no recorded writes |
| `CatpointData.Repository.SetAlarmStatus` | SecurityService/src/test/java/com/udacity/catpoint/SecurityServiceTest.java:76 | stores the status and appends it to the write record; the stored status is always the last one written |
| `CatpointData.Repository.SetArmingStatus` | SecurityService/src/test/java/com/udacity/catpoint/SecurityServiceTest.java:155-159 | stores the arming status; the alarm status, the sensors and the write record are unchanged |
| `AlarmRules.Rank` | SecurityService/src/test/java/com/udacity/catpoint/SecurityServiceTest.java:71-87 | the position of a status on the ladder NO_ALARM < PENDING_ALARM < ALARM |
| `AlarmRules.SensorChangeWrite` | SecurityService/src/test/java/com/udacity/catpoint/SecurityServiceTest.java:71-126 | no write while disarmed or in ALARM; a no-op toggle writes nothing unless it re-activates while pending; activating while armed raises by exactly one level, and gives ALARM from pending even for an already active sensor; deactivating writes only NO_ALARM, and only from pending |
| `AlarmRules.ReevaluateWrite` | SecurityService/src/test/java/com/udacity/catpoint/SecurityServiceTest.java:91-97 | writes exactly when the sensor is inactive and the status is pending, and what it writes is NO_ALARM |
| `AlarmRules.ImageWrite` | SecurityService/src/test/java/com/udacity/catpoint/SecurityServiceTest.java:129-152 | a cat writes ALARM exactly when armed-home; no cat writes NO_ALARM exactly when every sensor is inactive |
| `AlarmRules.ArmingWrite` | SecurityService/src/test/java/com/udacity/catpoint/SecurityServiceTest.java:155-181 | disarming always writes NO_ALARM; arming writes only when arming home with a cat remembered, and then writes ALARM |
| `AlarmRules.Step` | SecurityService/src/test/java/com/udacity/catpoint/SecurityServiceTest.java:71-181 | keeps "disarmed implies NO_ALARM"; a clearing event leaves NO_ALARM; the status drops only by a clearing event or by a sensor event from pending to NO_ALARM; only images change the cat flag and only arming calls change the arming status |
| `AlarmRules.RunAppend` | SecurityService/src/test/java/com/udacity/catpoint/SecurityServiceTest.java:172-181 | one more call extends the run by one step and the write record by that call's write |
| `AlarmRules.RunKeepsConsistent` | SecurityService/src/test/java/com/udacity/catpoint/SecurityServiceTest.java:155-159 | "disarmed implies NO_ALARM" holds after any sequence of calls that starts with it |
| `AlarmRules.DisarmEndsInNoAlarm` | SecurityService/src/test/java/com/udacity/catpoint/SecurityServiceTest.java:155-159 | after any history, disarming appends exactly NO_ALARM to the writes and leaves NO_ALARM and DISARMED |
| `AlarmRules.ActivationLadder` | SecurityService/src/test/java/com/udacity/catpoint/SecurityServiceTest.java:71-87 | while armed, n activations of inactive sensors raise the status min(n, levels left) steps, writing each new level once in order |
| `AlarmRules.TwoActivationsRaiseAlarm` | SecurityService/src/test/java/com/udacity/catpoint/SecurityServiceTest.java:71-87 | from NO_ALARM while armed: one activation writes PENDING_ALARM, two reach ALARM, and a third writes nothing more |
| `AlarmRules.AlarmHeldUntilCleared` | SecurityService/src/test/java/com/udacity/catpoint/SecurityServiceTest.java:100-107 | from ALARM, until a disarm or a no-cat image with every sensor inactive, the status stays ALARM and every write is ALARM |
| `AlarmRules.SensorEventsSilentInAlarm` | SecurityService/src/test/java/com/udacity/catpoint/SecurityServiceTest.java:100-107 | from ALARM, any sequence of sensor calls writes nothing and changes no state |
| `AlarmRules.SensorEventsKeepCat` | SecurityService/src/test/java/com/udacity/catpoint/SecurityServiceTest.java:172-181 | sensor calls never change the remembered cat flag |
| `AlarmRules.SensorsSilentWhileDisarmed` | SecurityService/src/test/java/com/udacity/catpoint/SecurityServiceTest.java:172-181 | disarmed with NO_ALARM, sensor calls write nothing and change no state |
| `AlarmRules.CatRememberedUntilArmedHome` | SecurityService/src/test/java/com/udacity/catpoint/SecurityServiceTest.java:172-181 | a cat seen while disarmed, then any sensor calls, then arming home: the only write of the whole sequence is one ALARM |
| `SecurityServices.SecurityService.constructor` | SecurityService/src/test/java/com/udacity/catpoint/SecurityServiceTest.java:64-68 | the service is bound to its repository and starts with no cat remembered |
| `SecurityServices.SecurityService.GetSensors` | SecurityService/src/test/java/com/udacity/catpoint/SecurityServiceTest.java:169 | returns the repository's registered sensors |
| `SecurityServices.SecurityService.ChangeSensorActivationStatus` | SecurityService/src/test/java/com/udacity/catpoint/SecurityServiceTest.java:71-126 | makes exactly the write `SensorChangeWrite` gives for the sensor's previous flag, sets the flag, and leaves the sensor set alone |
| `SecurityServices.SecurityService.ReevaluateSensor` | SecurityService/src/test/java/com/udacity/catpoint/SecurityServiceTest.java:91-97 | makes exactly the write `ReevaluateWrite` gives for the sensor's current flag and leaves the flag alone |
| `SecurityServices.SecurityService.ProcessImage` | SecurityService/src/test/java/com/udacity/catpoint/SecurityServiceTest.java:129-152 | makes exactly the write `ImageWrite` gives for the verdict and the sensors' state before the call, and remembers the verdict |
| `SecurityServices.SecurityService.SetArmingStatus` | SecurityService/src/test/java/com/udacity/catpoint/SecurityServiceTest.java:155-181 | makes exactly the write `ArmingWrite` gives and stores the new arming status; when arming, every registered sensor ends inactive; when disarming, no sensor changes |
| `SecurityServiceTest.ArmedActivationFromNoAlarmWritesPending` | SecurityService/src/test/java/com/udacity/catpoint/SecurityServiceTest.java:70-77 | armed, NO_ALARM, an inactive sensor is activated: setAlarmStatus(PENDING_ALARM) is the only write |
| `SecurityServiceTest.ArmedActivationFromPendingWritesAlarm` | SecurityService/src/test/java/com/udacity/catpoint/SecurityServiceTest.java:80-87 | armed, PENDING_ALARM, an inactive sensor is activated: setAlarmStatus(ALARM) is the only write |
| `SecurityServiceTest.PendingReevaluationOfInactiveWritesNoAlarm` | SecurityService/src/test/java/com/udacity/catpoint/SecurityServiceTest.java:90-97 | PENDING_ALARM, any arming status, an inactive sensor is re-evaluated: setAlarmStatus(NO_ALARM) is the only write |
| `SecurityServiceTest.AlarmIgnoresSensorChanges` | SecurityService/src/test/java/com/udacity/catpoint/SecurityServiceTest.java:100-107 | ALARM, a sensor is set active or inactive: setAlarmStatus is never called |
| `SecurityServiceTest.PendingReactivationWritesAlarm` | SecurityService/src/test/java/com/udacity/catpoint/SecurityServiceTest.java:109-116 | armed, PENDING_ALARM, an active sensor is activated again: setAlarmStatus(ALARM) is the only write |
| `SecurityServiceTest.DeactivatingInactiveWritesNothing` | SecurityService/src/test/java/com/udacity/catpoint/SecurityServiceTest.java:118-126 | for every alarm status, deactivating an inactive sensor never calls setAlarmStatus |
| `SecurityServiceTest.ArmedHomeCatWritesAlarm` | SecurityService/src/test/java/com/udacity/catpoint/SecurityServiceTest.java:129-137 | armed-home, the image shows a cat: setAlarmStatus(ALARM) is the only write |
| `SecurityServiceTest.NoCatAllInactiveWritesNoAlarm` | SecurityService/src/test/java/com/udacity/catpoint/SecurityServiceTest.java:142-152 | three inactive sensors, no cat: exactly one write, and it is NO_ALARM |
| `SecurityServiceTest.DisarmingWritesNoAlarm` | SecurityService/src/test/java/com/udacity/catpoint/SecurityServiceTest.java:154-159 | from any state, disarming calls setAlarmStatus(NO_ALARM) exactly once |
| `SecurityServiceTest.ArmingResetsSensors` | SecurityService/src/test/java/com/udacity/catpoint/SecurityServiceTest.java:161-170 | three active sensors, armed home or away: every sensor in the service's sensor set is inactive; the set still holds three sensors because the model tells sensors apart by object identity (the test itself does not check the size) |
| `SecurityServiceTest.CatWhileDisarmedThenArmedHomeWritesAlarm` | SecurityService/src/test/java/com/udacity/catpoint/SecurityServiceTest.java:172-181 | a cat seen while disarmed, then armed home: setAlarmStatus(ALARM) is called exactly once, and it is the only write |

## Left out

- SetArmingStatus: the tested service reads the alarm status while arming. Test 10 (SecurityServiceTest.java:161-170) stubs `getAlarmStatus` strictly, and calls only `setArmingStatus` and `getSensors`; under strict stubbing an unused stub fails the test. So the source most likely deactivates each sensor through the two-argument `changeSensorActivationStatus(sensor, false)`, which writes `NO_ALARM` when an active sensor is deactivated while `PENDING_ALARM` and armed. The model deactivates in bulk with no write, so what arming does to a pending alarm is not captured. The model, and `Step`'s clause on how the status drops, leave a pending alarm pending when re-arming with active sensors.

- Image classification: `ProcessImage` takes the analyzer's boolean verdict as input. The analyzer is a foreign call that scores images with floating-point confidence against a fixed threshold.
- Status listeners and the UI: neither `notify` of alarm changes nor `catDetected` events to listeners are modelled, because no test observes them.
- Persistence: the repository is in memory. `updateSensor`, `addSensor` and `removeSensor` are not modelled. The repository holds sensor objects by reference, so `updateSensor` would have nothing to do.
- Sensor identity: a sensor's name, type (door, window, motion) and identity-based equality are replaced by object identity.
- Concurrency and locking around the repository's read-modify-write: every call runs to completion on its own.
- Collaborator failures (repository or analyzer errors propagating to the caller) are not modelled.
- Mockito's stubbing mechanics are not modelled. Each stubbed status becomes the repository's initial state, and `verify`/`then(...).should()` become statements about the write record.
