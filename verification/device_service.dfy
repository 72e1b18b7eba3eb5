/** goyo-backend/app/services/device_service.py over an abstract `devices`
    table: the rows in primary-key order and the next key the database will
    hand out. Queries return matches in that order; `first()` is the first
    match. Redis status writes are left out. */
module DeviceService {
  import opened Wrappers
  import opened Search

  /** The JSON the calibration stores, as a value. */
  datatype Calibration = Calibration(timeDelay: real, frequencyResponse: seq<real>,
                                     spatialTransferFunction: seq<real>, calibratedAt: string)

  /** One row of `devices` (goyo-backend/app/models/device.py). */
  datatype Device = Device(id: nat, userId: int, deviceId: string, deviceType: string, deviceName: string,
                           isConnected: bool, connectionType: string, isCalibrated: bool,
                           calibrationData: Option<Calibration>)

  /** The `device_data` a pairing request carries. */
  datatype PairRequest = PairRequest(deviceId: string, deviceName: string, deviceType: string, connectionType: string)

  datatype DeviceError =
    | PairedWithAnotherUser   // "Device already paired with another user"
    | DeviceNotFound          // "Device not found"
    | InvalidRole             // "Invalid role. Must be 'microphone_source' or 'microphone_reference'"
    | MicrophoneNotFound      // "One or both microphones not found"

  datatype Devices = Devices(rows: seq<Device>, nextId: nat)

  /** What the schema guarantees: `device_id` is unique, keys increase in row
      order and lie below the next key. */
  predicate Valid(t: Devices)
  {
    && (forall i, j :: 0 <= i < j < |t.rows| ==> t.rows[i].deviceId != t.rows[j].deviceId)
    && (forall i, j :: 0 <= i < j < |t.rows| ==> t.rows[i].id < t.rows[j].id)
    && (forall i :: 0 <= i < |t.rows| ==> t.rows[i].id < t.nextId)
  }

  /** `filter(Device.device_id == deviceId).first()`, as a row position. */
  function Find(rows: seq<Device>, deviceId: string): (r: Option<nat>)
    ensures r.Some? ==> r.value < |rows| && rows[r.value].deviceId == deviceId
    ensures r.Some? ==> forall j :: 0 <= j < r.value ==> rows[j].deviceId != deviceId
    ensures r.None? <==> forall j :: 0 <= j < |rows| ==> rows[j].deviceId != deviceId
  {
    First(rows, (d: Device) => d.deviceId == deviceId)
  }

  /** With unique `device_id`s the row found is the only one carrying it. */
  lemma FindUnique(t: Devices, deviceId: string, i: nat)
    requires Valid(t) && i < |t.rows| && t.rows[i].deviceId == deviceId
    ensures Find(t.rows, deviceId) == Some(i)
  {
  }

  // ---------------------------------------------------------------------------
  // pair_device
  // ---------------------------------------------------------------------------

  /** `pair_device` on table `t`: the device returned and the table after. */
  function Pairing(t: Devices, userId: int, req: PairRequest): (r: (Result<Device, DeviceError>, Devices))
    ensures r.0.Failure? ==> r.1 == t && r.0.error == PairedWithAnotherUser
    ensures r.0.Success? ==> r.0.value.deviceId == req.deviceId && r.0.value.userId == userId
    ensures r.0.Success? ==> r.1 == t || r.1 == Devices(t.rows + [r.0.value], t.nextId + 1)
    // a new row is inserted exactly when no row carries the id
    ensures r.1 != t <==> forall j :: 0 <= j < |t.rows| ==> t.rows[j].deviceId != req.deviceId
  {
    match Find(t.rows, req.deviceId)
    case Some(i) =>
      if t.rows[i].userId != userId then (Failure(PairedWithAnotherUser), t)
      else (Success(t.rows[i]), t)
    case None =>
      var d := Device(t.nextId, userId, req.deviceId, req.deviceType, req.deviceName, true,
                      req.connectionType, false, None);
      (Success(d), Devices(t.rows + [d], t.nextId + 1))
  }

  /** A device already in the table: another owner's is refused, the same
      owner's is returned as it is; the table does not change. */
  lemma PairingKnownDevice(t: Devices, userId: int, req: PairRequest, i: nat)
    requires Valid(t) && i < |t.rows| && t.rows[i].deviceId == req.deviceId
    ensures Pairing(t, userId, req).1 == t
    ensures t.rows[i].userId != userId ==> Pairing(t, userId, req).0 == Failure(PairedWithAnotherUser)
    ensures t.rows[i].userId == userId ==> Pairing(t, userId, req).0 == Success(t.rows[i])
  {
    FindUnique(t, req.deviceId, i);
  }

  /** A new device is stored connected, uncalibrated, under the next key,
      with the request's fields. */
  lemma PairingNewDevice(t: Devices, userId: int, req: PairRequest)
    requires forall j :: 0 <= j < |t.rows| ==> t.rows[j].deviceId != req.deviceId
    ensures var (r, t') := Pairing(t, userId, req);
      && r.Success? && t'.rows == t.rows + [r.value]
      && r.value == Device(t.nextId, userId, req.deviceId, req.deviceType, req.deviceName, true,
                           req.connectionType, false, None)
  {
  }

  /** Pairing twice is pairing once. */
  lemma PairingIdempotent(t: Devices, userId: int, req: PairRequest)
    requires Valid(t)
    ensures var (r, t') := Pairing(t, userId, req);
      Pairing(t', userId, req) == (r, t')
  {
    var (r, t') := Pairing(t, userId, req);
    match Find(t.rows, req.deviceId)
    case Some(i) =>
    case None =>
      assert t'.rows[|t.rows|].deviceId == req.deviceId;
      assert Find(t'.rows, req.deviceId) == Some(|t.rows|);
  }

  /** Pairing keeps `device_id` unique and keys increasing. */
  lemma PairingKeepsValid(t: Devices, userId: int, req: PairRequest)
    requires Valid(t)
    ensures Valid(Pairing(t, userId, req).1)
  {
  }

  // ---------------------------------------------------------------------------
  // assign_microphone_role
  // ---------------------------------------------------------------------------

  /** The two roles a microphone may be given. */
  function IsRole(role: string): (ok: bool)
    // only microphone types are roles; "speaker" is not one
    ensures ok ==> |role| > 10 && role[..10] == "microphone"
  {
    role == "microphone_source" || role == "microphone_reference"
  }

  /** `assign_microphone_role`: an unknown device is reported before a bad
      role; on success only the device's `device_type` changes. */
  function RoleAssignment(t: Devices, deviceId: string, role: string): (r: (Result<Device, DeviceError>, Devices))
    ensures r.0.Failure? ==> r.1 == t
    ensures (forall j :: 0 <= j < |t.rows| ==> t.rows[j].deviceId != deviceId) <==> r.0 == Failure(DeviceNotFound)
    ensures r.0 == Failure(InvalidRole) <==>
      (exists j :: 0 <= j < |t.rows| && t.rows[j].deviceId == deviceId) && !IsRole(role)
    ensures r.0.Success? ==>
      var i := Find(t.rows, deviceId).value;
      && r.1 == Devices(t.rows[i := t.rows[i].(deviceType := role)], t.nextId)
      && r.0.value == r.1.rows[i] && IsRole(role)
  {
    match Find(t.rows, deviceId)
    case None => (Failure(DeviceNotFound), t)
    case Some(i) =>
      if !IsRole(role) then (Failure(InvalidRole), t)
      else
        var d := t.rows[i].(deviceType := role);
        (Success(d), Devices(t.rows[i := d], t.nextId))
  }

  /** Changing a role keeps the table valid. */
  lemma RoleAssignmentKeepsValid(t: Devices, deviceId: string, role: string)
    requires Valid(t)
    ensures Valid(RoleAssignment(t, deviceId, role).1)
  {
  }

  // ---------------------------------------------------------------------------
  // Queries
  // ---------------------------------------------------------------------------

  /** `get_user_devices`: the user's devices, in table order. */
  function UserDevices(rows: seq<Device>, userId: int): (r: seq<Device>)
    ensures |r| <= |rows|
    ensures forall d :: d in r <==> d in rows && d.userId == userId
  {
    if rows == [] then []
    else if rows[0].userId == userId then [rows[0]] + UserDevices(rows[1..], userId)
    else UserDevices(rows[1..], userId)
  }

  /** `next((d for d in devices if d.device_type == deviceType), None)` */
  function FirstOfType(devices: seq<Device>, deviceType: string): (r: Option<Device>)
    ensures r.None? <==> forall d :: d in devices ==> d.deviceType != deviceType
    ensures r.Some? ==> exists i :: 0 <= i < |devices| && devices[i] == r.value && r.value.deviceType == deviceType
                                    && forall j :: 0 <= j < i ==> devices[j].deviceType != deviceType
  {
    if devices == [] then None
    else if devices[0].deviceType == deviceType then Some(devices[0])
    else
      var r := FirstOfType(devices[1..], deviceType);
      assert forall d :: d in devices[1..] ==> d in devices;
      if r.Some? then
        assert exists i :: 0 <= i < |devices[1..]| && devices[1..][i] == r.value
                           && forall j :: 0 <= j < i ==> devices[1..][j].deviceType != deviceType;
        var i :| 0 <= i < |devices[1..]| && devices[1..][i] == r.value
                 && forall j :: 0 <= j < i ==> devices[1..][j].deviceType != deviceType;
        assert devices[i + 1] == r.value;
        r
      else r
  }

  /** The answer of `get_microphone_setup`. */
  datatype Setup = Setup(sourceMicrophone: Option<string>, referenceMicrophone: Option<string>,
                         speaker: Option<string>, isReady: bool)

  function NameOf(d: Option<Device>): (r: Option<string>)
    ensures r.Some? <==> d.Some?
    ensures r.Some? ==> r.value == d.value.deviceName
  {
    if d.Some? then Some(d.value.deviceName) else None
  }

  /** The user owns a device of this type. */
  predicate Owns(rows: seq<Device>, userId: int, deviceType: string)
  {
    exists d :: d in rows && d.userId == userId && d.deviceType == deviceType
  }

  /** The name of the first row, in table order, that belongs to the user and
      has the type: a reference for each slot of the setup, stated on the
      table rather than on the user's filtered device list. */
  function FirstOwnedName(rows: seq<Device>, userId: int, deviceType: string): (r: Option<string>)
    ensures r.Some? <==> Owns(rows, userId, deviceType)
    ensures r.Some? ==>
      exists j :: && 0 <= j < |rows| && rows[j].userId == userId && rows[j].deviceType == deviceType
                  && r.value == rows[j].deviceName
                  && forall k :: 0 <= k < j ==> !(rows[k].userId == userId && rows[k].deviceType == deviceType)
  {
    match First(rows, (d: Device) => d.userId == userId && d.deviceType == deviceType)
    case None => None
    case Some(j) => Some(rows[j].deviceName)
  }

  /** Picking the first device of a type from the user's devices is picking
      the first row of the table that is the user's and has that type. */
  lemma {:induction false} FirstOfUserDevices(rows: seq<Device>, userId: int, deviceType: string)
    ensures NameOf(FirstOfType(UserDevices(rows, userId), deviceType)) == FirstOwnedName(rows, userId, deviceType)
  {
    if rows != [] {
      var p := (d: Device) => d.userId == userId && d.deviceType == deviceType;
      var rest := UserDevices(rows[1..], userId);
      FirstOfUserDevices(rows[1..], userId, deviceType);
      if p(rows[0]) {
        assert First(rows, p) == Some(0);
        assert UserDevices(rows, userId) == [rows[0]] + rest;
      } else {
        var tail := First(rows[1..], p);
        assert First(rows, p) == if tail.None? then None else Some(tail.value + 1);
        if rows[0].userId == userId {
          var devices := [rows[0]] + rest;
          assert UserDevices(rows, userId) == devices;
          assert devices[1..] == rest;
          assert FirstOfType(devices, deviceType) == FirstOfType(rest, deviceType);
        } else {
          assert UserDevices(rows, userId) == rest;
        }
      }
    }
  }

  /** `get_microphone_setup`: each slot names the user's first device of that
      type; the setup is ready exactly when all three are present. */
  function MicrophoneSetup(rows: seq<Device>, userId: int): (r: Setup)
    ensures r.isReady <==> Owns(rows, userId, "microphone_source") && Owns(rows, userId, "microphone_reference")
                           && Owns(rows, userId, "speaker")
    ensures r.sourceMicrophone == FirstOwnedName(rows, userId, "microphone_source")
    ensures r.referenceMicrophone == FirstOwnedName(rows, userId, "microphone_reference")
    ensures r.speaker == FirstOwnedName(rows, userId, "speaker")
  {
    var devices := UserDevices(rows, userId);
    var source := FirstOfType(devices, "microphone_source");
    var reference := FirstOfType(devices, "microphone_reference");
    var speaker := FirstOfType(devices, "speaker");
    FirstOfUserDevices(rows, userId, "microphone_source");
    FirstOfUserDevices(rows, userId, "microphone_reference");
    FirstOfUserDevices(rows, userId, "speaker");
    Setup(NameOf(source), NameOf(reference), NameOf(speaker), source.Some? && reference.Some? && speaker.Some?)
  }

  // ---------------------------------------------------------------------------
  // calibrate_dual_microphones
  // ---------------------------------------------------------------------------

  /** The fixed calibration written, stamped with the time of the call. */
  function CalibrationAt(stamp: string): (c: Calibration)
    // the values are fixed; only the stamp varies with the call
    ensures c.calibratedAt == stamp && c.timeDelay == 0.025
    ensures c.frequencyResponse == [0.9, 0.95, 1.0, 0.98] && c.spatialTransferFunction == [0.8, 0.85, 0.9]
  {
    Calibration(0.025, [0.9, 0.95, 1.0, 0.98], [0.8, 0.85, 0.9], stamp)
  }

  function Calibrated(d: Device, data: Calibration): Device
  {
    d.(isCalibrated := true, calibrationData := Some(data))
  }

  /** `calibrate_dual_microphones`: both devices must exist; then both carry
      the same calibration and nothing else changes. */
  function Calibrating(t: Devices, sourceId: string, refId: string, stamp: string)
    : (r: (Result<Calibration, DeviceError>, Devices))
    ensures r.0.Failure? <==>
      (forall j :: 0 <= j < |t.rows| ==> t.rows[j].deviceId != sourceId)
      || (forall j :: 0 <= j < |t.rows| ==> t.rows[j].deviceId != refId)
    ensures r.0.Failure? ==> r.1 == t && r.0.error == MicrophoneNotFound
    ensures r.0.Success? ==>
      var (s, f) := (Find(t.rows, sourceId).value, Find(t.rows, refId).value);
      && r.0.value == CalibrationAt(stamp)
      && r.1.nextId == t.nextId && |r.1.rows| == |t.rows|
      && r.1.rows[s] == Calibrated(t.rows[s], r.0.value)
      && r.1.rows[f] == Calibrated(t.rows[f], r.0.value)
      && forall j :: 0 <= j < |t.rows| && j != s && j != f ==> r.1.rows[j] == t.rows[j]
  {
    match (Find(t.rows, sourceId), Find(t.rows, refId))
    case (Some(s), Some(f)) =>
      var data := CalibrationAt(stamp);
      var rows := t.rows[s := Calibrated(t.rows[s], data)];
      (Success(data), Devices(rows[f := Calibrated(rows[f], data)], t.nextId))
    case _ => (Failure(MicrophoneNotFound), t)
  }

  /** Calibration keeps the table valid. */
  lemma CalibratingKeepsValid(t: Devices, sourceId: string, refId: string, stamp: string)
    requires Valid(t)
    ensures Valid(Calibrating(t, sourceId, refId, stamp).1)
  {
  }

  // ---------------------------------------------------------------------------
  // remove_device
  // ---------------------------------------------------------------------------

  /** `remove_device`: an unknown id is reported; otherwise its row goes. */
  function Removal(t: Devices, deviceId: string): (r: (Result<(), DeviceError>, Devices))
    ensures r.0.Failure? <==> forall j :: 0 <= j < |t.rows| ==> t.rows[j].deviceId != deviceId
    ensures r.0.Failure? ==> r.1 == t && r.0.error == DeviceNotFound
    ensures r.0.Success? ==>
      var i := Find(t.rows, deviceId).value;
      r.1 == Devices(t.rows[..i] + t.rows[i + 1..], t.nextId)
  {
    match Find(t.rows, deviceId)
    case None => (Failure(DeviceNotFound), t)
    case Some(i) => (Success(()), Devices(t.rows[..i] + t.rows[i + 1..], t.nextId))
  }

  /** Deleting position `i` shifts every later row down by one. */
  lemma DeleteAt(rows: seq<Device>, i: nat, k: nat)
    requires i < |rows| && k < |rows| - 1
    ensures (rows[..i] + rows[i + 1..])[k] == rows[if k < i then k else k + 1]
  {
  }

  /** Removal deletes exactly the device named. */
  lemma RemovalDeletesExactly(t: Devices, deviceId: string)
    requires Valid(t)
    ensures forall d :: d in Removal(t, deviceId).1.rows <==> d in t.rows && d.deviceId != deviceId
  {
    var t' := Removal(t, deviceId).1;
    match Find(t.rows, deviceId)
    case None =>
    case Some(i) =>
      forall d ensures d in t'.rows <==> d in t.rows && d.deviceId != deviceId {
        if d in t.rows && d.deviceId != deviceId {
          var k :| 0 <= k < |t.rows| && t.rows[k] == d;
          if k < i {
            DeleteAt(t.rows, i, k);
          } else {
            DeleteAt(t.rows, i, k - 1);
          }
        }
        if d in t'.rows {
          var k :| 0 <= k < |t'.rows| && t'.rows[k] == d;
          DeleteAt(t.rows, i, k);
        }
      }
  }

  /** Removal keeps the table valid. */
  lemma RemovalKeepsValid(t: Devices, deviceId: string)
    requires Valid(t)
    ensures Valid(Removal(t, deviceId).1)
  {
    var t' := Removal(t, deviceId).1;
    match Find(t.rows, deviceId)
    case None =>
    case Some(i) =>
      forall p, q | 0 <= p < q < |t'.rows|
        ensures t'.rows[p].deviceId != t'.rows[q].deviceId && t'.rows[p].id < t'.rows[q].id
      {
        DeleteAt(t.rows, i, p);
        DeleteAt(t.rows, i, q);
      }
      forall p | 0 <= p < |t'.rows| ensures t'.rows[p].id < t'.nextId {
        DeleteAt(t.rows, i, p);
      }
  }

  // ---------------------------------------------------------------------------
  // The service over a live table
  // ---------------------------------------------------------------------------

  /** The `devices` table behind a database session. */
  class DeviceDb {
    var rows: seq<Device>
    var nextId: nat

    function Contents(): Devices
      reads this
    {
      Devices(rows, nextId)
    }

    constructor()
      ensures Contents() == Devices([], 1) && Valid(Contents())
    {
      rows := [];
      nextId := 1;
    }
  }

  method PairDevice(db: DeviceDb, userId: int, req: PairRequest) returns (r: Result<Device, DeviceError>)
    modifies db
    ensures (r, db.Contents()) == Pairing(old(db.Contents()), userId, req)
  {
    var existing := Find(db.rows, req.deviceId);
    if existing.Some? {
      var d := db.rows[existing.value];
      if d.userId != userId {
        return Failure(PairedWithAnotherUser);
      }
      return Success(d);
    }
    var d := Device(db.nextId, userId, req.deviceId, req.deviceType, req.deviceName, true,
                    req.connectionType, false, None);
    db.rows := db.rows + [d];
    db.nextId := db.nextId + 1;
    return Success(d);
  }

  method AssignMicrophoneRole(db: DeviceDb, deviceId: string, role: string) returns (r: Result<Device, DeviceError>)
    modifies db
    ensures (r, db.Contents()) == RoleAssignment(old(db.Contents()), deviceId, role)
  {
    var found := Find(db.rows, deviceId);
    if found.None? {
      return Failure(DeviceNotFound);
    }
    if !IsRole(role) {
      return Failure(InvalidRole);
    }
    var i := found.value;
    var d := db.rows[i].(deviceType := role);
    db.rows := db.rows[i := d];
    return Success(d);
  }

  method CalibrateDualMicrophones(db: DeviceDb, sourceId: string, refId: string, stamp: string)
    returns (r: Result<Calibration, DeviceError>)
    modifies db
    ensures (r, db.Contents()) == Calibrating(old(db.Contents()), sourceId, refId, stamp)
  {
    var source := Find(db.rows, sourceId);
    var reference := Find(db.rows, refId);
    if source.None? || reference.None? {
      return Failure(MicrophoneNotFound);
    }
    var data := CalibrationAt(stamp);
    db.rows := db.rows[source.value := Calibrated(db.rows[source.value], data)];
    db.rows := db.rows[reference.value := Calibrated(db.rows[reference.value], data)];
    return Success(data);
  }

  method RemoveDevice(db: DeviceDb, deviceId: string) returns (r: Result<(), DeviceError>)
    modifies db
    ensures (r, db.Contents()) == Removal(old(db.Contents()), deviceId)
  {
    var found := Find(db.rows, deviceId);
    if found.None? {
      return Failure(DeviceNotFound);
    }
    var i := found.value;
    db.rows := db.rows[..i] + db.rows[i + 1..];
    return Success(());
  }
}
