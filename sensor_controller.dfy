/** src/Controllers/sensorController.js over the sensor collection of
    src/models/sensorModel.js: each principal manages its own sensors, and a
    sensor's `uniqueId` is unique across the whole table. */
module SensorController {
  import opened Common
  import opened Http

  /** A sensor document. */
  datatype Sensor = Sensor(
    id: Id,
    sensorName: string,
    sensorType: string,
    ip: string,
    port: int,
    url: string,
    location: string,
    uniqueId: string,
    status: string,
    isConnected: bool,
    userId: Id)

  /** A request body the sensor schema accepted: every required field
      present; `status` and `isConnected` optional. */
  datatype SensorInput = SensorInput(
    sensorName: string,
    sensorType: string,
    ip: string,
    port: int,
    url: string,
    location: string,
    uniqueId: string,
    status: Option<string>,
    isConnected: Option<bool>)

  datatype SensorCreated = SensorCreated(message: string, success: bool, createSensor: Sensor)
  datatype SensorList = SensorList(success: bool, message: string, sensors: seq<Sensor>)
  /** The body of `getSingleSensor`; its message key is spelled `Message`,
      with a capital M, unlike every other handler's `message`. */
  datatype SensorFound = SensorFound(success: bool, Message: string, sensor: Sensor)
  /** The body of `updateSensor`. */
  datatype SensorUpdated = SensorUpdated(success: bool, message: string, sensor: Sensor)
  datatype SensorDeleted = SensorDeleted(success: bool, message: string)

  const DUPLICATE_UNIQUE_ID: string := "Sensor with this uniqueId already exists."

  /** The document `create` builds: the schema defaults `status` to
      "inactive" and `isConnected` to false; the owner is the caller. */
  function NewSensor(id: Id, input: SensorInput, owner: Id): (s: Sensor)
    ensures s.id == id && s.userId == owner && s.uniqueId == input.uniqueId
    ensures s.status == input.status.GetOr("inactive") && s.isConnected == input.isConnected.GetOr(false)
    ensures s.sensorName == input.sensorName && s.sensorType == input.sensorType && s.ip == input.ip
    ensures s.port == input.port && s.url == input.url && s.location == input.location
  {
    Sensor(id, input.sensorName, input.sensorType, input.ip, input.port, input.url, input.location,
           input.uniqueId, input.status.GetOr("inactive"), input.isConnected.GetOr(false), owner)
  }

  /** The document after `findOneAndUpdate(filter, body)`: every field of
      the body overwrites; the optional fields only when given; `_id` and
      `userId` are kept. */
  function Updated(s: Sensor, input: SensorInput): (u: Sensor)
    ensures u.id == s.id && u.userId == s.userId && u.uniqueId == input.uniqueId
    ensures u.status == input.status.GetOr(s.status) && u.isConnected == input.isConnected.GetOr(s.isConnected)
    ensures u.sensorName == input.sensorName && u.sensorType == input.sensorType && u.ip == input.ip
    ensures u.port == input.port && u.url == input.url && u.location == input.location
  {
    Sensor(s.id, input.sensorName, input.sensorType, input.ip, input.port, input.url, input.location,
           input.uniqueId, input.status.GetOr(s.status), input.isConnected.GetOr(s.isConnected), s.userId)
  }

  /** The filter `{ _id: sensorId, userId }` every per-sensor handler uses. */
  predicate OwnedBy(s: Sensor, sensorId: Id, owner: Id) {
    s.id == sensorId && s.userId == owner
  }

  /** `getSingleSensor`: the sensor only when both the id and the owner
      match. The reply's message key is `Message` (see `SensorFound`). */
  function GetSingleSensor(rows: seq<Sensor>, sensorId: Id, callerId: Id): (r: Outcome<SensorFound>)
    ensures r.Reply? <==> exists s | s in rows :: OwnedBy(s, sensorId, callerId)
    ensures r.Reply? ==> r.status == 200 && r.body == SensorFound(true, "Sensor Found", r.body.sensor)
                         && r.body.sensor in rows && OwnedBy(r.body.sensor, sensorId, callerId)
    ensures r.Next? ==> r == Fail(404, "Sensor not found")
  {
    match FindOne(rows, (s: Sensor) => OwnedBy(s, sensorId, callerId))
    case None => Fail(404, "Sensor not found")
    case Some(s) => Reply(200, SensorFound(true, "Sensor Found", s))
  }

  /** `getAllSensors`: exactly the caller's sensors, in table order, or 404
      when there are none. */
  function GetAllSensors(rows: seq<Sensor>, callerId: Id): (r: Outcome<SensorList>)
    ensures r.Reply? <==> exists s | s in rows :: s.userId == callerId
    ensures r.Next? ==> r == Fail(404, "No sensors found for this user")
    ensures r.Reply? ==> && r.status == 200 && r.body.success && r.body.message == "All Sensors"
                         && r.body.sensors == Filter(rows, (s: Sensor) => s.userId == callerId)
                         && (forall s | s in r.body.sensors :: s in rows && s.userId == callerId)
                         && (forall s | s in rows && s.userId == callerId :: s in r.body.sensors)
  {
    var sensors := Filter(rows, (s: Sensor) => s.userId == callerId);
    if |sensors| == 0 then
      assert forall s | s in rows :: s.userId != callerId;
      Fail(404, "No sensors found for this user")
    else
      assert sensors[0] in sensors;
      Reply(200, SensorList(true, "All Sensors", sensors))
  }

  /** The table after `findOneAndUpdate({ _id: sensorId, userId }, body)`:
      the matching sensor updated, every other one kept. */
  function UpdateRows(rows: seq<Sensor>, sensorId: Id, owner: Id, input: SensorInput): (r: seq<Sensor>)
    ensures |r| == |rows|
    ensures forall k | 0 <= k < |r| :: r[k] == if OwnedBy(rows[k], sensorId, owner) then Updated(rows[k], input) else rows[k]
  {
    seq(|rows|, k requires 0 <= k < |rows| => if OwnedBy(rows[k], sensorId, owner) then Updated(rows[k], input) else rows[k])
  }

  /** The checks of `updateSensor` before it writes, in its order; `None`
      when all pass. */
  function UpdateGuard(rows: seq<Sensor>, sensorId: Id, callerId: Id, verdict: Verdict, input: SensorInput): (r: Option<ApiError>)
    ensures verdict.Rejected? ==> r == Some(ApiError(400, verdict.message))
    ensures verdict.Accepted? && (forall s | s in rows :: !OwnedBy(s, sensorId, callerId)) ==>
              r == Some(ApiError(404, "Sensor not found or you do not have permission to update it."))
    ensures verdict.Accepted? && (exists s | s in rows :: OwnedBy(s, sensorId, callerId)) ==>
              r == if exists s | s in rows :: s.uniqueId == input.uniqueId && s.id != sensorId
                   then Some(ApiError(400, DUPLICATE_UNIQUE_ID)) else None
  {
    if verdict.Rejected? then Some(ApiError(400, verdict.message))
    else if FindOne(rows, (s: Sensor) => OwnedBy(s, sensorId, callerId)).None? then
      Some(ApiError(404, "Sensor not found or you do not have permission to update it."))
    else if FindOne(rows, (s: Sensor) => s.uniqueId == input.uniqueId && s.id != sensorId).Some? then
      Some(ApiError(400, DUPLICATE_UNIQUE_ID))
    else None
  }

  /** An update keeps ids (so their bound) and the uniqueness of `uniqueId`
      as long as no other sensor holds the new value, which is what
      `updateSensor` checks. */
  lemma UpdateKeepsKeysDistinct(rows: seq<Sensor>, sensorId: Id, owner: Id, input: SensorInput, bound: nat)
    requires DistinctKeys(rows, (s: Sensor) => s.id) && DistinctKeys(rows, (s: Sensor) => s.uniqueId)
    requires forall s | s in rows && s.id != sensorId :: s.uniqueId != input.uniqueId
    requires forall s | s in rows :: s.id < bound
    ensures var r := UpdateRows(rows, sensorId, owner, input);
            && DistinctKeys(r, (s: Sensor) => s.id) && DistinctKeys(r, (s: Sensor) => s.uniqueId)
            && (forall s | s in r :: s.id < bound)
  {
    var r := UpdateRows(rows, sensorId, owner, input);
    forall s | s in r ensures s.id < bound {
      var k :| 0 <= k < |r| && r[k] == s;
      assert rows[k] in rows;
    }
    forall i, j | 0 <= i < j < |r| ensures r[i].id != r[j].id && r[i].uniqueId != r[j].uniqueId {
      assert rows[i].id != rows[j].id && rows[i].uniqueId != rows[j].uniqueId;
      assert rows[i] in rows && rows[j] in rows;
    }
  }

  /** The sensors collection; its unique index on `uniqueId` is the
      invariant. */
  class SensorTable {
    var rows: seq<Sensor>
    var nextId: nat

    ghost predicate Valid()
      reads this
    {
      && (forall s | s in rows :: s.id < nextId)
      && DistinctKeys(rows, (s: Sensor) => s.id)
      && DistinctKeys(rows, (s: Sensor) => s.uniqueId)
    }

    constructor ()
      ensures Valid() && rows == [] && nextId == 0
    {
      rows, nextId := [], 0;
    }

    /** `addSensor` for the caller `callerId`: a `uniqueId` held by any
        sensor of any owner is refused; otherwise the sensor is stored under
        a fresh id, owned by the caller. */
    method AddSensor(verdict: Verdict, input: SensorInput, callerId: Id) returns (out: Outcome<SensorCreated>)
      requires Valid()
      modifies this
      ensures Valid()
      ensures verdict.Rejected? ==> out == Fail(400, verdict.message) && unchanged(this)
      ensures verdict.Accepted? && (exists s | s in old(rows) :: s.uniqueId == input.uniqueId) ==>
                out == Fail(400, DUPLICATE_UNIQUE_ID) && unchanged(this)
      ensures verdict.Accepted? && (forall s | s in old(rows) :: s.uniqueId != input.uniqueId) ==>
                && out == Reply(201, SensorCreated("Sensor Created Successfully", true, NewSensor(old(nextId), input, callerId)))
                && rows == old(rows) + [out.body.createSensor] && nextId == old(nextId) + 1
                // and the caller can read it back
                && GetSingleSensor(rows, old(nextId), callerId) == Reply(200, SensorFound(true, "Sensor Found", out.body.createSensor))
    {
      if verdict.Rejected? {
        return Fail(400, verdict.message);
      }
      var existingSensor := FindOne(rows, (s: Sensor) => s.uniqueId == input.uniqueId);
      if existingSensor.Some? {
        return Fail(400, DUPLICATE_UNIQUE_ID);
      }
      var id := nextId;
      var createSensor := NewSensor(id, input, callerId);
      FindOneAppend(rows, createSensor, (s: Sensor) => OwnedBy(s, id, callerId));
      AppendKeepsDistinct(rows, createSensor, (s: Sensor) => s.id);
      AppendKeepsDistinct(rows, createSensor, (s: Sensor) => s.uniqueId);
      rows := rows + [createSensor];
      nextId := nextId + 1;
      out := Reply(201, SensorCreated("Sensor Created Successfully", true, createSensor));
    }

    /** `deleteSensor`: removes the sensor only when both the id and the
        owner match; otherwise 404 and the table is unchanged. */
    method DeleteSensor(sensorId: Id, callerId: Id) returns (out: Outcome<SensorDeleted>)
      requires Valid()
      modifies this
      ensures Valid() && nextId == old(nextId)
      ensures (exists s | s in old(rows) :: OwnedBy(s, sensorId, callerId)) ==>
                && out == Reply(200, SensorDeleted(true, "Sensor deleted successfully"))
                && rows == Filter(old(rows), (s: Sensor) => s.id != sensorId)
      ensures (forall s | s in old(rows) :: !OwnedBy(s, sensorId, callerId)) ==>
                out == Fail(404, "Sensor not found or you do not have permission to delete it.") && unchanged(this)
      // afterwards nobody finds it
      ensures forall owner: Id :: GetSingleSensor(rows, sensorId, owner) == (if out.Reply? then Fail(404, "Sensor not found")
                                                                                 else GetSingleSensor(old(rows), sensorId, owner))
    {
      var deletedSensor := FindOne(rows, (s: Sensor) => OwnedBy(s, sensorId, callerId));
      if deletedSensor.None? {
        return Fail(404, "Sensor not found or you do not have permission to delete it.");
      }
      FilterKeepsDistinct(rows, (s: Sensor) => s.id != sensorId, (s: Sensor) => s.id);
      FilterKeepsDistinct(rows, (s: Sensor) => s.id != sensorId, (s: Sensor) => s.uniqueId);
      rows := Filter(rows, (s: Sensor) => s.id != sensorId);
      out := Reply(200, SensorDeleted(true, "Sensor deleted successfully"));
    }

    /** `updateSensor`: validation, then ownership, then the uniqueness of
        the new `uniqueId` among the other sensors; on success only the
        caller's sensor changes. */
    method UpdateSensor(sensorId: Id, callerId: Id, verdict: Verdict, input: SensorInput) returns (out: Outcome<SensorUpdated>)
      requires Valid()
      modifies this
      ensures Valid() && nextId == old(nextId)
      ensures UpdateGuard(old(rows), sensorId, callerId, verdict, input).Some? ==>
                out == Next(Api(UpdateGuard(old(rows), sensorId, callerId, verdict, input).value)) && unchanged(this)
      ensures UpdateGuard(old(rows), sensorId, callerId, verdict, input).None? ==>
                && rows == UpdateRows(old(rows), sensorId, callerId, input)
                && out.Reply? && out.status == 200 && out.body.success && out.body.message == "Sensor updated successfully"
                && out.body.sensor in rows && OwnedBy(out.body.sensor, sensorId, callerId)
    {
      var guard := UpdateGuard(rows, sensorId, callerId, verdict, input);
      if guard.Some? {
        return Next(Api(guard.value));
      }
      var k := FindFirst(rows, (s: Sensor) => OwnedBy(s, sensorId, callerId)).value;
      var updatedSensor := Updated(rows[k], input);
      UpdateKeepsKeysDistinct(rows, sensorId, callerId, input, nextId);
      rows := UpdateRows(rows, sensorId, callerId, input);
      assert rows[k] == updatedSensor;
      out := Reply(200, SensorUpdated(true, "Sensor updated successfully", updatedSensor));
    }
  }
}
