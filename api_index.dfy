/** The FastAPI back end (api/index.py): the shared `drone_data` store with
    its velocity, battery and camera records, the REST endpoints that replace
    and return them, and one step of the mock data generator.

    Request parsing is done by the framework before an endpoint runs, so the
    velocity and battery endpoints receive typed payloads here; the clock and
    the file write of the camera upload are parameters. */
module ApiIndex {
  import opened Wrappers
  import MockBattery

  datatype Velocity = Velocity(x: real, y: real, z: real)
  datatype Battery = Battery(level: real, voltage: real, temperature: real)
  /** `last_frame` and `timestamp` are null until a frame is stored. */
  datatype Camera = Camera(lastFrame: Option<string>, timestamp: Option<string>)

  /** The uploaded file's name, which may be missing. */
  datatype Upload = Upload(filename: Option<string>)
  datatype WriteOutcome = Written | WriteFailed

  /** `{"status": "success"}`, or the status code and detail of an error response. */
  datatype Reply = Success | Failure(code: int, detail: string)

  /** The name under which an upload is saved, from the formatted UTC time. */
  function FrameName(stamp: string): (name: string)
    ensures |name| == |stamp| + 10
    ensures name[..6] == "frame_" && name[|name| - 4..] == ".jpg"
    ensures name[6..|name| - 4] == stamp
  {
    "frame_" + stamp + ".jpg"
  }

  /** Distinct upload times give distinct file names. */
  lemma FrameNameInjective(a: string, b: string)
    requires FrameName(a) == FrameName(b)
    ensures a == b
  {
    calc {
      a;
      FrameName(a)[6..|FrameName(a)| - 4];
      FrameName(b)[6..|FrameName(b)| - 4];
      b;
    }
  }

  /** A filename that is missing or empty is falsy, and the upload is refused. */
  predicate EmptyName(frame: Upload)
  {
    frame.filename == None || frame.filename == Some("")
  }

  function CameraReplyFor(frame: Upload, write: WriteOutcome): (r: Reply)
    ensures r.Success? <==> !EmptyName(frame) && write.Written?
    ensures EmptyName(frame) ==> r == Failure(400, "Empty frame")
    ensures !EmptyName(frame) && write == WriteFailed ==> r.Failure? && r.code == 500
  {
    if EmptyName(frame) then Failure(400, "Empty frame")
    else if write == WriteFailed then Failure(500, "Internal Server Error")
    else Success
  }

  class Store {
    var velocity: Velocity
    var battery: Battery
    var camera: Camera

    /** The initial `drone_data`. */
    constructor ()
      ensures velocity == Velocity(0.0, 0.0, 0.0)
      ensures battery == Battery(100.0, 12.4, 25.0)
      ensures camera == Camera(None, None)
    {
      velocity := Velocity(0.0, 0.0, 0.0);
      battery := Battery(100.0, 12.4, 25.0);
      camera := Camera(None, None);
    }

    /** POST /api/velocity replaces the record wholesale. */
    method PostVelocity(payload: Velocity) returns (reply: Reply)
      modifies this`velocity
      ensures velocity == payload && reply == Success
    {
      velocity := payload;
      reply := Success;
    }

    /** GET /api/velocity returns the stored record. */
    method GetVelocity() returns (v: Velocity)
      ensures v == velocity
    {
      v := velocity;
    }

    /** POST /api/battery replaces the record wholesale. */
    method PostBattery(payload: Battery) returns (reply: Reply)
      modifies this`battery
      ensures battery == payload && reply == Success
    {
      battery := payload;
      reply := Success;
    }

    /** GET /api/battery returns the stored record. */
    method GetBattery() returns (b: Battery)
      ensures b == battery
    {
      b := battery;
    }

    /** POST /api/camera: an empty filename is refused before anything is
        written; a failing write raises, so the record is only replaced
        after the file was saved. */
    method PostCamera(frame: Upload, stamp: string, isoTime: string, write: WriteOutcome) returns (reply: Reply)
      modifies this`camera
      ensures reply == CameraReplyFor(frame, write)
      ensures camera == if reply == Success then Camera(Some(FrameName(stamp)), Some(isoTime)) else old(camera)
    {
      if EmptyName(frame) {
        return Failure(400, "Empty frame");
      }
      var filename := FrameName(stamp);
      if write == WriteFailed {
        return Failure(500, "Internal Server Error");
      }
      camera := Camera(Some(filename), Some(isoTime));
      reply := Success;
    }

    /** GET /api/camera returns the stored record. */
    method GetCamera() returns (c: Camera)
      ensures c == camera
    {
      c := camera;
    }

    /** One step of `mock_drone_data`, with the random draws as parameters. */
    method MockStep(v: Velocity, voltageNoise: real, temperatureNoise: real)
      modifies this`velocity, this`battery
      ensures velocity == v
      ensures battery == Battery(MockBattery.DrainedLevel(old(battery.level)), 12.0 + voltageNoise, 25.0 + temperatureNoise)
      ensures 0.0 <= battery.level && (old(battery.level) >= 0.0 ==> battery.level <= old(battery.level))
    {
      velocity := v;
      battery := Battery(MockBattery.DrainedLevel(battery.level), 12.0 + voltageNoise, 25.0 + temperatureNoise);
    }
  }

  /** A GET after a successful POST returns what was posted. */
  method PostThenGet(store: Store, v: Velocity, b: Battery) returns (v': Velocity, b': Battery)
    modifies store
    ensures v' == v && b' == b
  {
    var r1 := store.PostVelocity(v);
    var r2 := store.PostBattery(b);
    v' := store.GetVelocity();
    b' := store.GetBattery();
  }
}
