/** The Flask back end (api/drone_handler.py): the module-level `drone_data`
    store, the three POST/GET handlers, and one step of the mock generator.

    Here the handlers read the request's JSON themselves, so a body that is
    not an object, or that lacks a field, is handled by the model. The
    clock, the file save and the random draws are parameters. */
module FlaskHandler {
  import opened Wrappers
  import MockBattery

  /** A parsed JSON value, as `request.get_json()` returns it (JNull for None). */
  datatype Json =
    | JNull
    | JBool(b: bool)
    | JNum(n: real)
    | JStr(s: string)
    | JArray(items: seq<Json>)
    | JObject(fields: map<string, Json>)

  type Record = map<string, Json>

  /** A response: the status code and the JSON body. */
  datatype Reply = Reply(code: int, body: Json)

  const Success: Reply := Reply(200, JObject(map["status" := JStr("success")]))

  function ErrorReply(code: int, message: string): Reply
  {
    Reply(code, JObject(map["error" := JStr(message)]))
  }

  /** An exception the handler does not catch: Flask answers with its own 500 page. */
  const Uncaught: Reply := Reply(500, JNull)

  const VelocityFields: seq<string> := ["x", "y", "z"]
  const BatteryFields: seq<string> := ["level", "voltage", "temperature"]

  /** The message of the KeyError for `key`: Python prints the key quoted. */
  function MissingField(key: string): Reply
  {
    ErrorReply(400, "Missing field: '" + key + "'")
  }

  /** The index of the first of `fields` that `data` lacks: the dict literal
      is built in order, so this is the key the KeyError names. */
  function FirstMissing(fields: seq<string>, data: Record): (r: Option<nat>)
    ensures r.None? <==> forall j :: 0 <= j < |fields| ==> fields[j] in data
    ensures r.Some? ==> r.value < |fields| && fields[r.value] !in data
    ensures r.Some? ==> forall j :: 0 <= j < r.value ==> fields[j] in data
  {
    if fields == [] then None
    else if fields[0] !in data then Some(0)
    else match FirstMissing(fields[1..], data)
      case None => None
      case Some(i) => Some(i + 1)
  }

  /** The stored record: exactly the listed fields, with the posted values. */
  function Pick(fields: seq<string>, data: Record): (r: Record)
    requires forall j :: 0 <= j < |fields| ==> fields[j] in data
    ensures r.Keys == set j | 0 <= j < |fields| :: fields[j]
    ensures forall k :: k in r ==> r[k] == data[k]
  {
    map j | 0 <= j < |fields| :: fields[j] := data[fields[j]]
  }

  /** What a POST of `data` does with a record made of `fields`: store a new
      record, or answer without storing. */
  datatype Posted = Stored(record: Record) | Refused(reply: Reply)

  function Accept(fields: seq<string>, data: Json): (p: Posted)
    ensures p.Stored? <==> data.JObject? && FirstMissing(fields, data.fields).None?
    // anything but an object fails on the first subscript with a TypeError
    ensures !data.JObject? ==> p == Refused(Uncaught)
    ensures data.JObject? && p.Refused? ==>
              var i := FirstMissing(fields, data.fields);
              i.Some? && p.reply == MissingField(fields[i.value])
    ensures p.Stored? ==> p.record.Keys == (set j | 0 <= j < |fields| :: fields[j]) &&
                          forall k :: k in p.record ==> p.record[k] == data.fields[k]
  {
    if !data.JObject? then Refused(Uncaught)
    else match FirstMissing(fields, data.fields)
      case Some(i) => Refused(MissingField(fields[i]))
      case None => Stored(Pick(fields, data.fields))
  }

  /** A request to the velocity or battery route. */
  datatype Request = Post(data: Json) | Get

  /** An uploaded file under some form field. */
  datatype FileUpload = FileUpload(filename: string)
  /** A request to the camera route: the uploaded files, or a GET. */
  datatype CameraRequest = PostFrame(files: map<string, FileUpload>) | GetFrame
  /** Whether `frame.save` succeeded, with the exception text when it did not. */
  datatype SaveOutcome = Saved | SaveFailed(message: string)

  /** The name under which a frame is saved, from the formatted local time. */
  function FrameName(stamp: string): string
  {
    "frame_" + stamp + ".jpg"
  }

  function NumericValue(j: Json): (r: Option<real>)
    ensures r.Some? <==> j.JNum? || j.JBool?
  {
    // Python arithmetic accepts numbers and booleans (True is 1)
    match j
    case JNum(n) => Some(n)
    case JBool(b) => Some(if b then 1.0 else 0.0)
    case _ => None
  }

  class Store {
    var velocity: Record
    var battery: Record
    var camera: Record

    ghost predicate Valid()
      reads this
    {
      && velocity.Keys == {"x", "y", "z"}
      && battery.Keys == {"level", "voltage", "temperature"}
      && camera.Keys == {"last_frame", "timestamp"}
    }

    /** The initial `drone_data`. */
    constructor ()
      ensures Valid()
      ensures velocity == map["x" := JNum(0.0), "y" := JNum(0.0), "z" := JNum(0.0)]
      ensures battery == map["level" := JNum(100.0), "voltage" := JNum(12.4), "temperature" := JNum(25.0)]
      ensures camera == map["last_frame" := JNull, "timestamp" := JNull]
    {
      velocity := map["x" := JNum(0.0), "y" := JNum(0.0), "z" := JNum(0.0)];
      battery := map["level" := JNum(100.0), "voltage" := JNum(12.4), "temperature" := JNum(25.0)];
      camera := map["last_frame" := JNull, "timestamp" := JNull];
    }

    /** `/api/velocity`: a POST with x, y and z replaces the record with exactly
        those three and answers 200; otherwise nothing is stored. A GET returns
        the record. */
    method HandleVelocity(request: Request) returns (reply: Reply)
      requires Valid()
      modifies this`velocity
      ensures Valid()
      ensures request.Get? ==> reply == Reply(200, JObject(velocity)) && velocity == old(velocity)
      ensures request.Post? ==>
                match Accept(VelocityFields, request.data)
                case Stored(r) => velocity == r && reply == Success
                case Refused(e) => velocity == old(velocity) && reply == e
    {
      if request.Get? {
        return Reply(200, JObject(velocity));
      }
      var posted := Accept(VelocityFields, request.data);
      match posted
      case Stored(r) =>
        assert r.Keys == {"x", "y", "z"} by {
          assert forall k :: k in r.Keys <==> k == "x" || k == "y" || k == "z" by {
            assert VelocityFields[0] == "x" && VelocityFields[1] == "y" && VelocityFields[2] == "z";
          }
        }
        velocity := r;
        reply := Success;
      case Refused(e) =>
        reply := e;
    }

    /** `/api/battery`: as for velocity, over level, voltage and temperature. */
    method HandleBattery(request: Request) returns (reply: Reply)
      requires Valid()
      modifies this`battery
      ensures Valid()
      ensures request.Get? ==> reply == Reply(200, JObject(battery)) && battery == old(battery)
      ensures request.Post? ==>
                match Accept(BatteryFields, request.data)
                case Stored(r) => battery == r && reply == Success
                case Refused(e) => battery == old(battery) && reply == e
    {
      if request.Get? {
        return Reply(200, JObject(battery));
      }
      var posted := Accept(BatteryFields, request.data);
      match posted
      case Stored(r) =>
        assert r.Keys == {"level", "voltage", "temperature"} by {
          assert forall k :: k in r.Keys <==> k == "level" || k == "voltage" || k == "temperature" by {
            assert BatteryFields[0] == "level" && BatteryFields[1] == "voltage" && BatteryFields[2] == "temperature";
          }
        }
        battery := r;
        reply := Success;
      case Refused(e) =>
        reply := e;
    }

    /** `/api/camera`: a POST needs a 'frame' file with a non-empty name and a
        save that succeeds; only then is the record replaced. A GET returns it. */
    method HandleCamera(request: CameraRequest, stamp: string, isoTime: string, save: SaveOutcome)
      returns (reply: Reply)
      requires Valid()
      modifies this`camera
      ensures Valid()
      ensures request.GetFrame? ==> reply == Reply(200, JObject(camera)) && camera == old(camera)
      ensures request.PostFrame? && "frame" !in request.files ==>
                reply == ErrorReply(400, "No frame provided") && camera == old(camera)
      ensures request.PostFrame? && "frame" in request.files && request.files["frame"].filename == "" ==>
                reply == ErrorReply(400, "Empty frame") && camera == old(camera)
      ensures request.PostFrame? && "frame" in request.files && request.files["frame"].filename != "" ==>
                match save
                case SaveFailed(message) => reply == ErrorReply(500, message) && camera == old(camera)
                case Saved => reply == Success &&
                              camera == map["last_frame" := JStr(FrameName(stamp)), "timestamp" := JStr(isoTime)]
    {
      if request.GetFrame? {
        return Reply(200, JObject(camera));
      }
      if "frame" !in request.files {
        return ErrorReply(400, "No frame provided");
      }
      var frame := request.files["frame"];
      if frame.filename == "" {
        return ErrorReply(400, "Empty frame");
      }
      var filename := FrameName(stamp);
      if save.SaveFailed? {
        return ErrorReply(500, save.message);
      }
      camera := map["last_frame" := JStr(filename), "timestamp" := JStr(isoTime)];
      reply := Success;
    }

    /** One step of `mock_drone_data`, with the random draws as parameters.
        The velocity is replaced first; a stored level that is not a number
        then makes the subtraction raise, which ends the generator thread
        (`ok` is false) and leaves the battery record as it was. */
    method MockStep(vx: real, vy: real, vz: real, voltageNoise: real, temperatureNoise: real) returns (ok: bool)
      requires Valid()
      modifies this`velocity, this`battery
      ensures Valid()
      ensures velocity == map["x" := JNum(vx), "y" := JNum(vy), "z" := JNum(vz)]
      ensures ok == NumericValue(old(battery)["level"]).Some?
      ensures ok ==> battery == map["level" := JNum(MockBattery.DrainedLevel(NumericValue(old(battery)["level"]).value)),
                                    "voltage" := JNum(12.0 + voltageNoise),
                                    "temperature" := JNum(25.0 + temperatureNoise)]
      ensures !ok ==> battery == old(battery)
    {
      velocity := map["x" := JNum(vx), "y" := JNum(vy), "z" := JNum(vz)];
      var level := NumericValue(battery["level"]);
      if level.None? {
        return false;
      }
      battery := map["level" := JNum(MockBattery.DrainedLevel(level.value)),
                     "voltage" := JNum(12.0 + voltageNoise),
                     "temperature" := JNum(25.0 + temperatureNoise)];
      ok := true;
    }
  }

  /** A velocity POST with the three fields, then a GET, returns the posted
      values and not the extra key. */
  method VelocityRoundTrip(store: Store, x: Json, y: Json, z: Json, extra: Json) returns (reply: Reply)
    requires store.Valid()
    modifies store
    ensures reply == Reply(200, JObject(map["x" := x, "y" := y, "z" := z]))
  {
    var data := JObject(map["x" := x, "y" := y, "z" := z, "seq" := extra]);
    assert FirstMissing(VelocityFields, data.fields).None?;
    var posted := store.HandleVelocity(Post(data));
    reply := store.HandleVelocity(Get);
    assert store.velocity == map["x" := x, "y" := y, "z" := z];
  }
}
