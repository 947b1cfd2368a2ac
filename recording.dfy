/**
 * The recording manager: a table of recording sessions and a table of open log writers, both keyed by
 * device id, with start, stop, status reads and the recording task that consumes a device's messages
 * until its session is stopped or its stream fails, and then purges both entries.
 * The device manager it asks (status check, device info, actor handler), the clock, the filesystem and
 * the log-file writer are inputs; the concurrent tasks are modelled as one sequence of steps.
 */
module Recording {
  import opened Wrappers
  import opened Text
  import opened DeviceTypes
  import opened PingProtocol
  import opened PointCloud

  /** A UTC instant as calendar fields; `nanos` is the fraction of the second. */
  datatype DateTime = DateTime(year: nat, month: nat, day: nat, hour: nat, minute: nat, second: nat, nanos: nat)

  predicate ValidDateTime(t: DateTime) {
    && t.year <= 9999 && 1 <= t.month <= 12 && 1 <= t.day <= 31
    && t.hour < 24 && t.minute < 60 && t.second < 60 && t.nanos < 1_000_000_000
  }

  /** The instant with its sub-second part dropped: what a file name can tell apart. */
  function WholeSecond(t: DateTime): DateTime {
    t.(nanos := 0)
  }

  /** chrono's `%Y%m%d_%H%M%S`. */
  function FormatStamp(t: DateTime): (s: string)
    requires ValidDateTime(t)
    ensures |s| == 15 && s[8] == '_'
    ensures forall i :: 0 <= i < 15 && i != 8 ==> IsDigit(s[i])
  {
    Padded(t.year, 4) + Padded(t.month, 2) + Padded(t.day, 2) + "_"
      + Padded(t.hour, 2) + Padded(t.minute, 2) + Padded(t.second, 2)
  }

  /** Reads a `%Y%m%d_%H%M%S` stamp back. */
  function ParseStamp(s: string): DateTime
    requires |s| == 15
    requires forall i :: 0 <= i < 15 && i != 8 ==> IsDigit(s[i])
  {
    DateTime(ParseDigits(s[0..4]), ParseDigits(s[4..6]), ParseDigits(s[6..8]),
             ParseDigits(s[9..11]), ParseDigits(s[11..13]), ParseDigits(s[13..15]), 0)
  }

  lemma StampRoundTrip(t: DateTime)
    requires ValidDateTime(t)
    ensures ParseStamp(FormatStamp(t)) == WholeSecond(t)
  {
    var y, mo, d := Padded(t.year, 4), Padded(t.month, 2), Padded(t.day, 2);
    var h, mi, se := Padded(t.hour, 2), Padded(t.minute, 2), Padded(t.second, 2);
    var s := FormatStamp(t);
    assert s == y + mo + d + "_" + h + mi + se;
    assert s[0..4] == y;
    assert s[4..6] == mo;
    assert s[6..8] == d;
    assert s[9..11] == h;
    assert s[11..13] == mi;
    assert s[13..15] == se;
    ParsePadded(t.year, 4);
    ParsePadded(t.month, 2);
    ParsePadded(t.day, 2);
    ParsePadded(t.hour, 2);
    ParsePadded(t.minute, 2);
    ParsePadded(t.second, 2);
  }

  /** `device_{id}_{YYYYmmdd_HHMMSS}.mcap` */
  function FileName(id: Uuid, t: DateTime): (name: string)
    requires ValidDateTime(t)
    ensures |name| == 64
    ensures name[..7] == "device_" && name[7..43] == id && name[43] == '_'
    ensures name[44..59] == FormatStamp(t) && name[59..] == ".mcap"
  {
    "device_" + id + "_" + FormatStamp(t) + ".mcap"
  }

  /** Equal file names come from the same device in the same second; the names of one device's recordings started in different seconds differ. */
  lemma FileNameInjective(id1: Uuid, t1: DateTime, id2: Uuid, t2: DateTime)
    requires ValidDateTime(t1) && ValidDateTime(t2)
    requires FileName(id1, t1) == FileName(id2, t2)
    ensures id1 == id2 && WholeSecond(t1) == WholeSecond(t2)
  {
    StampRoundTrip(t1);
    StampRoundTrip(t2);
  }

  /** A path as its sequence of components; `join` appends one. */
  type Path = seq<string>

  function Join(base: Path, name: string): (p: Path)
    ensures |p| == |base| + 1 && p[..|base|] == base && p[|base|] == name
  {
    base + [name]
  }

  datatype RecordingSession = RecordingSession(
    deviceId: Uuid,
    filePath: Path,
    isActive: bool,
    startTime: DateTime,
    deviceType: DeviceSelection)

  /** An open, buffered MCAP writer on the file at `path`. */
  datatype WriterHandle = McapWriter(path: Path)

  /** The part of the device manager's device info the recording keeps. */
  datatype DeviceInfo = DeviceInfo(deviceType: DeviceSelection)

  /** What asking the device manager for the device's actor handler gives. */
  datatype HandlerAnswer = InnerDeviceHandler | OtherAnswer | HandlerFailed(error: ManagerError)

  /** Statuses in which a device may be recorded. */
  predicate Recordable(status: DeviceStatus) {
    status == Running || status == ContinuousMode
  }

  /**
   * The checks `start_recording` makes before it touches the tables, in their order: the device's status,
   * an existing session, the recording directory, the device info, the log file. `None` when all pass.
   */
  function StartGuard(
    deviceId: Uuid, status: Result<DeviceStatus, ManagerError>, hasSession: bool,
    dirCreated: Outcome, info: Result<DeviceInfo, ManagerError>, writerOpened: Outcome): (r: Option<ManagerError>)
    ensures r.None? <==>
      status.Success? && Recordable(status.value) && !hasSession
      && dirCreated.Pass? && info.Success? && writerOpened.Pass?
    ensures status.Failure? ==> r == Some(status.error)
    ensures status.Success? && !Recordable(status.value) ==> r == Some(DeviceStatusMismatch(status.value, deviceId))
    ensures status.Success? && Recordable(status.value) && hasSession
      ==> r == Some(Other("Device " + deviceId + " is already recording"))
  {
    if status.Failure? then Some(status.error)
    else if !Recordable(status.value) then Some(DeviceStatusMismatch(status.value, deviceId))
    else if hasSession then Some(Other("Device " + deviceId + " is already recording"))
    else if dirCreated.Fail? then Some(Other("Failed to create recording directory: " + dirCreated.message))
    else if info.Failure? then Some(info.error)
    else if writerOpened.Fail? then Some(Other("Failed to create MCAP file: " + writerOpened.message))
    else None
  }

  /** The session a successful start creates. */
  function NewSession(deviceId: Uuid, basePath: Path, now: DateTime, deviceType: DeviceSelection): (s: RecordingSession)
    requires ValidDateTime(now)
    ensures s.deviceId == deviceId && s.isActive && s.startTime == now && s.deviceType == deviceType
    ensures s.filePath == Join(basePath, FileName(deviceId, now))
  {
    RecordingSession(deviceId, Join(basePath, FileName(deviceId, now)), true, now, deviceType)
  }

  /** Two recordings of one device started in different seconds get different files. */
  lemma RestartGetsNewFile(deviceId: Uuid, basePath: Path, t1: DateTime, t2: DateTime, k1: DeviceSelection, k2: DeviceSelection)
    requires ValidDateTime(t1) && ValidDateTime(t2) && WholeSecond(t1) != WholeSecond(t2)
    ensures NewSession(deviceId, basePath, t1, k1).filePath != NewSession(deviceId, basePath, t2, k2).filePath
  {
    if NewSession(deviceId, basePath, t1, k1).filePath == NewSession(deviceId, basePath, t2, k2).filePath {
      assert FileName(deviceId, t1) == Join(basePath, FileName(deviceId, t1))[|basePath|];
      FileNameInjective(deviceId, t1, deviceId, t2);
    }
  }

  // ---------------------------------------------------------------------------------------------
  // The recording task's inputs and outputs

  /** What asking the device actor for a message subscriber gives. */
  datatype SubscribeAnswer = Subscriber | UnexpectedAnswer | SendFailed(detail: string)

  /** A message received by the task, with the clock reads the point-cloud conversion makes for it. */
  datatype TimedMessage = TimedMessage(msg: ProtocolMessage, clock: CloudClock)

  /**
   * One pass of the task's loop seen from outside: `stop` is `Some(close)` when a `stop_recording` for
   * this device (whose writer close ended with `close`) ran while the task waited, then `received` is what
   * the pending receive returned.
   */
  datatype Wakeup = Wakeup(stop: Option<Outcome>, received: Received<TimedMessage>)

  /** A record as handed to a log channel. */
  datatype Payload = Marker(timestamp: string, messageType: string) | Cloud(cloud: PointCloud)
  datatype LogRecord = LogRecord(topic: string, payload: Payload)

  datatype TaskOutcome = Finished | StillRecording | TaskFailed(error: ManagerError)

  function Topic(deviceId: Uuid, kind: string): string {
    "/device_" + deviceId + "/" + kind
  }

  /** The marker record the task writes to its header channel and, as written, to its sonar channels too. */
  function TaskMarker(timestamp: string): Payload {
    Marker(timestamp, "ping360_auto_device_data")
  }

  /** A pass that ends the loop: a stop ran, or the receive failed. */
  predicate Ending(w: Wakeup) {
    w.stop.Some? || w.received.ReceiveError?
  }

  /** Position of the first ending pass, or the number of passes when none ends. */
  function FirstEnding(ws: seq<Wakeup>): (n: nat)
    ensures n <= |ws|
    ensures forall i :: 0 <= i < n ==> !Ending(ws[i])
    ensures n < |ws| ==> Ending(ws[n])
  {
    if ws == [] then 0
    else if Ending(ws[0]) then 0
    else 1 + FirstEnding(ws[1..])
  }

  /** How many passes the loop makes, given whether the session was active when the task began. */
  function PassCount(active: bool, ws: seq<Wakeup>): nat {
    if !active then 0
    else if FirstEnding(ws) < |ws| then FirstEnding(ws) + 1
    else |ws|
  }

  /** Whether the loop runs a concurrent stop: the session was active and the pass that ended the loop ran one. */
  predicate StopRuns(session: RecordingSession, ws: seq<Wakeup>) {
    session.isActive && FirstEnding(ws) < |ws| && ws[FirstEnding(ws)].stop.Some?
  }

  /**
   * The status events the loop's passes announce: the stopped session, once, when the pass that ended
   * the loop ran a stop whose writer closed cleanly. A receive error, and the purge after it, announce
   * nothing.
   */
  function StopEvents(session: RecordingSession, ws: seq<Wakeup>): seq<RecordingSession> {
    var first := FirstEnding(ws);
    if session.isActive && first < |ws| && ws[first].stop == Some(Pass) then [session.(isActive := false)] else []
  }

  /** The records one received message leads to. */
  function MessageRecords(deviceId: Uuid, marker: Payload, m: TimedMessage, project: Projection): seq<LogRecord> {
    match m.msg.decoded
    case Ping360AutoDeviceData(auto) =>
      [LogRecord(Topic(deviceId, "ping360"), marker),
       LogRecord(Topic(deviceId, "pointcloud"), Cloud(CloudOf(auto, m.clock, project)))]
    case Ping360DeviceData(device) =>
      [LogRecord(Topic(deviceId, "ping360"), marker),
       LogRecord(Topic(deviceId, "pointcloud"), Cloud(CloudOf(AutoFromDeviceData(device), m.clock, project)))]
    case Ping1DProfile(_) =>
      [LogRecord(Topic(deviceId, "ping1d"), marker)]
    case _ => []
  }

  /** The records the passes `ws` lead to, in order. */
  function PassRecords(deviceId: Uuid, marker: Payload, ws: seq<Wakeup>, project: Projection): seq<LogRecord> {
    if ws == [] then []
    else
      var last := ws[|ws| - 1];
      PassRecords(deviceId, marker, ws[..|ws| - 1], project)
        + (if last.received.Delivered? then MessageRecords(deviceId, marker, last.received.item, project) else [])
  }

  /**
   * Every sonar record the loop logs is the task's marker on the device's ping360 or ping1d channel;
   * only the point-cloud channel receives message-derived data.
   */
  lemma {:induction false} SonarChannelsCarryMarker(deviceId: Uuid, marker: Payload, ws: seq<Wakeup>, project: Projection)
    ensures forall r :: r in PassRecords(deviceId, marker, ws, project) ==>
      (r.topic == Topic(deviceId, "pointcloud") && r.payload.Cloud?)
      || ((r.topic == Topic(deviceId, "ping360") || r.topic == Topic(deviceId, "ping1d")) && r.payload == marker)
  {
    if ws != [] {
      SonarChannelsCarryMarker(deviceId, marker, ws[..|ws| - 1], project);
    }
  }

  /** Every point cloud the loop logs holds a whole number of 16-byte points. */
  lemma {:induction false} LoggedCloudsAligned(deviceId: Uuid, marker: Payload, ws: seq<Wakeup>, project: Projection)
    requires marker.Marker?
    ensures forall r :: r in PassRecords(deviceId, marker, ws, project) && r.payload.Cloud? ==>
      r.payload.cloud.pointStride == POINT_STRIDE && |r.payload.cloud.data| % POINT_STRIDE == 0
  {
    if ws != [] {
      var init, last := ws[..|ws| - 1], ws[|ws| - 1];
      LoggedCloudsAligned(deviceId, marker, init, project);
      var tail := if last.received.Delivered? then MessageRecords(deviceId, marker, last.received.item, project) else [];
      assert PassRecords(deviceId, marker, ws, project) == PassRecords(deviceId, marker, init, project) + tail;
      if last.received.Delivered? {
        var m := last.received.item;
        match m.msg.decoded {
          case Ping360AutoDeviceData(auto) =>
            var pc := CloudOf(auto, m.clock, project);
            PointCloudContents(auto, m.clock, project);
            assert tail[1].payload == Cloud(pc);
          case Ping360DeviceData(device) =>
            var pc := CloudOf(AutoFromDeviceData(device), m.clock, project);
            PointCloudContents(AutoFromDeviceData(device), m.clock, project);
            assert tail[1].payload == Cloud(pc);
          case _ =>
        }
      }
    }
  }

  /** Logs one received message: the marker on its sonar channel and, for Ping360 sweeps, its point cloud. */
  method LogMessage(deviceId: Uuid, marker: Payload, m: TimedMessage, project: Projection) returns (records: seq<LogRecord>)
    ensures records == MessageRecords(deviceId, marker, m, project)
  {
    records := [];
    match m.msg.decoded {
      case Ping360AutoDeviceData(auto) =>
        var cloud := ConvertToPointCloud(auto, m.clock, project);
        records := [LogRecord(Topic(deviceId, "ping360"), marker), LogRecord(Topic(deviceId, "pointcloud"), Cloud(cloud))];
      case Ping360DeviceData(device) =>
        var adapted := AutoFromDeviceData(device);
        var cloud := ConvertToPointCloud(adapted, m.clock, project);
        records := [LogRecord(Topic(deviceId, "ping360"), marker), LogRecord(Topic(deviceId, "pointcloud"), Cloud(cloud))];
      case Ping1DProfile(_) =>
        records := [LogRecord(Topic(deviceId, "ping1d"), marker)];
      case OtherMessage =>
      case Undecodable =>
    }
  }

  /**
   * The tables' invariant: each session is filed under its own device; a device has an open writer
   * exactly while its session is active, and that writer is on the session's file.
   */
  ghost predicate TablesValid(sessions: map<Uuid, RecordingSession>, writers: map<Uuid, WriterHandle>) {
    && (forall id :: id in sessions ==> sessions[id].deviceId == id)
    && (forall id :: id in writers ==> id in sessions && sessions[id].isActive && writers[id].path == sessions[id].filePath)
    && (forall id :: id in sessions && sessions[id].isActive ==> id in writers)
  }

  /** Purging a device from both tables keeps the invariant. */
  lemma PurgeKeepsTablesValid(sessions: map<Uuid, RecordingSession>, writers: map<Uuid, WriterHandle>, id: Uuid)
    requires TablesValid(sessions, writers)
    ensures TablesValid(sessions - {id}, writers - {id})
  {
  }

  /** Purging a key forgets any update made to it. */
  lemma UpdateThenRemove<K, V>(m: map<K, V>, key: K, v: V)
    ensures m[key := v] - {key} == m - {key}
  {
  }

  /** Where the loop stands when it exits after `k` passes. */
  lemma PassCountAtExit(active: bool, ws: seq<Wakeup>, k: nat, finished: bool)
    requires k <= |ws| && k <= FirstEnding(ws) + 1
    requires !active ==> k == 0 && finished
    requires active ==> (finished <==> k == FirstEnding(ws) + 1)
    requires !finished ==> k == |ws|
    ensures k == PassCount(active, ws)
    ensures finished <==> !active || FirstEnding(ws) < |ws|
  {
  }

  // ---------------------------------------------------------------------------------------------

  class RecordingManager {
    var sessions: map<Uuid, RecordingSession>
    var writers: map<Uuid, WriterHandle>
    const basePath: Path
    /** Every session value sent on the status broadcast channel, oldest first. */
    var statusEvents: seq<RecordingSession>

    ghost predicate Valid()
      reads this
    {
      TablesValid(sessions, writers)
    }

    predicate IsActive(deviceId: Uuid)
      reads this
    {
      deviceId in sessions && sessions[deviceId].isActive
    }

    constructor (basePath: Path)
      ensures Valid()
      ensures this.basePath == basePath
      ensures sessions == map[] && writers == map[] && statusEvents == []
    {
      this.basePath := basePath;
      sessions := map[];
      writers := map[];
      statusEvents := [];
    }

    /**
     * `start_recording`. The device-manager answers, the directory and file creation outcomes and the
     * clock are inputs. Once the guard passes the session and writer are inserted and announced; a
     * handler failure after that is reported but leaves both entries in place.
     */
    method StartRecording(
      deviceId: Uuid, status: Result<DeviceStatus, ManagerError>, dirCreated: Outcome,
      info: Result<DeviceInfo, ManagerError>, now: DateTime, writerOpened: Outcome, handler: HandlerAnswer)
      returns (r: Result<RecordingSession, ManagerError>)
      requires Valid() && ValidDateTime(now)
      modifies this
      ensures Valid()
      ensures var guard := StartGuard(deviceId, status, deviceId in old(sessions), dirCreated, info, writerOpened);
        if guard.Some? then
          && r == Failure(guard.value)
          && sessions == old(sessions) && writers == old(writers) && statusEvents == old(statusEvents)
        else
          var session := NewSession(deviceId, basePath, now, info.value.deviceType);
          && sessions == old(sessions)[deviceId := session]
          && writers == old(writers)[deviceId := McapWriter(session.filePath)]
          && statusEvents == old(statusEvents) + [session]
          && r == match handler
                  case InnerDeviceHandler => Success(session)
                  case OtherAnswer => Failure(Other("Invalid device handler"))
                  case HandlerFailed(e) => Failure(e)
    {
      var guard := StartGuard(deviceId, status, deviceId in sessions, dirCreated, info, writerOpened);
      if guard.Some? {
        return Failure(guard.value);
      }
      var filePath := Join(basePath, FileName(deviceId, now));
      var session := RecordingSession(deviceId, filePath, true, now, info.value.deviceType);
      sessions := sessions[deviceId := session];
      writers := writers[deviceId := McapWriter(filePath)];
      statusEvents := statusEvents + [session];
      match handler {
        case InnerDeviceHandler => r := Success(session);
        case OtherAnswer => r := Failure(Other("Invalid device handler"));
        case HandlerFailed(e) => r := Failure(e);
      }
    }

    /**
     * `stop_recording`: marks the session inactive, takes its writer out of the table and closes it.
     * A failed close is reported after both changes are made, and then nothing is announced.
     */
    method StopRecording(deviceId: Uuid, closed: Outcome) returns (r: Result<RecordingSession, ManagerError>)
      requires Valid()
      modifies this
      ensures Valid()
      ensures deviceId !in old(sessions) ==>
        && r == Failure(Other("No recording session for device " + deviceId))
        && sessions == old(sessions) && writers == old(writers) && statusEvents == old(statusEvents)
      ensures deviceId in old(sessions) ==>
        var stopped := old(sessions)[deviceId].(isActive := false);
        && sessions == old(sessions)[deviceId := stopped]
        && writers == old(writers) - {deviceId}
        && if deviceId in old(writers) && closed.Fail? then
             r == Failure(Other("Failed to close MCAP writer: " + closed.message)) && statusEvents == old(statusEvents)
           else
             r == Success(stopped) && statusEvents == old(statusEvents) + [stopped]
    {
      if deviceId !in sessions {
        return Failure(Other("No recording session for device " + deviceId));
      }
      var stopped := sessions[deviceId].(isActive := false);
      sessions := sessions[deviceId := stopped];
      if deviceId in writers {
        writers := writers - {deviceId};
        if closed.Fail? {
          return Failure(Other("Failed to close MCAP writer: " + closed.message));
        }
      }
      statusEvents := statusEvents + [stopped];
      r := Success(stopped);
    }

    /**
     * A start whose handler answer fails leaves a session that no recording task will purge: stopping it
     * only marks it inactive, and every later start of the device is refused as already recording.
     */
    method HandlerFailureBlocksRestart(
      deviceId: Uuid, status: Result<DeviceStatus, ManagerError>, dirCreated: Outcome,
      info: Result<DeviceInfo, ManagerError>, now: DateTime, writerOpened: Outcome, e: ManagerError,
      closed: Outcome, later: DateTime)
      returns (started: Result<RecordingSession, ManagerError>, stopped: Result<RecordingSession, ManagerError>,
               restarted: Result<RecordingSession, ManagerError>)
      requires Valid() && ValidDateTime(now) && ValidDateTime(later)
      requires StartGuard(deviceId, status, deviceId in sessions, dirCreated, info, writerOpened).None?
      modifies this
      ensures Valid()
      ensures started == Failure(e)
      ensures closed.Pass? ==> stopped.Success? && !stopped.value.isActive
      ensures restarted == Failure(Other("Device " + deviceId + " is already recording"))
      ensures deviceId in sessions && !sessions[deviceId].isActive && deviceId !in writers
    {
      started := StartRecording(deviceId, status, dirCreated, info, now, writerOpened, HandlerFailed(e));
      stopped := StopRecording(deviceId, closed);
      restarted := StartRecording(deviceId, status, dirCreated, info, later, writerOpened, InnerDeviceHandler);
    }

    /** `get_recording_status`: the device's session, active or stopped but not yet purged. */
    method GetRecordingStatus(deviceId: Uuid) returns (r: Result<Option<RecordingSession>, ManagerError>)
      requires Valid()
      ensures r.Success?
      ensures r.value.Some? <==> deviceId in sessions
      ensures r.value.Some? ==> r.value.value == sessions[deviceId] && r.value.value.deviceId == deviceId
    {
      if deviceId in sessions {
        r := Success(Some(sessions[deviceId]));
      } else {
        r := Success(None);
      }
    }

    /** `get_all_recording_status`: every session once, in the table's unspecified iteration order. */
    method GetAllRecordingStatus() returns (all: seq<RecordingSession>)
      requires Valid()
      ensures |all| == |sessions|
      ensures forall s :: s in all <==> s in sessions.Values
      ensures forall i, j :: 0 <= i < j < |all| ==> all[i].deviceId != all[j].deviceId
    {
      all := [];
      var remaining := sessions.Keys;
      while remaining != {}
        invariant remaining <= sessions.Keys
        invariant |all| + |remaining| == |sessions.Keys|
        invariant forall s :: s in all ==> s.deviceId in sessions && s.deviceId !in remaining && sessions[s.deviceId] == s
        invariant forall id :: id in sessions && id !in remaining ==> sessions[id] in all
        invariant forall i, j :: 0 <= i < j < |all| ==> all[i].deviceId != all[j].deviceId
        decreases remaining
      {
        var id :| id in remaining;
        all := all + [sessions[id]];
        remaining := remaining - {id};
      }
      assert |sessions.Keys| == |sessions|;
    }

    /** One pass of the recording loop: a concurrent stop, if any, then what the pending receive returned. */
    method TaskPass(deviceId: Uuid, marker: Payload, w: Wakeup, project: Projection)
      returns (failed: bool, records: seq<LogRecord>)
      requires Valid() && deviceId in sessions
      modifies this
      ensures Valid() && deviceId in sessions
      ensures failed <==> w.received.ReceiveError?
      ensures records == if w.received.Delivered? then MessageRecords(deviceId, marker, w.received.item, project) else []
      ensures w.stop.None? ==> sessions == old(sessions) && writers == old(writers) && statusEvents == old(statusEvents)
      ensures w.stop.Some? ==>
        && sessions == old(sessions)[deviceId := old(sessions)[deviceId].(isActive := false)]
        && writers == old(writers) - {deviceId}
        && statusEvents == old(statusEvents)
             + (if deviceId in old(writers) && w.stop.value.Fail? then [] else [old(sessions)[deviceId].(isActive := false)])
    {
      if w.stop.Some? {
        var _ := StopRecording(deviceId, w.stop.value);
      }
      records := [];
      failed := w.received.ReceiveError?;
      if w.received.Delivered? {
        records := LogMessage(deviceId, marker, w.received.item, project);
      }
    }

    /**
     * The recording task. It asks the device actor for a subscriber; without one it ends with an error and
     * leaves both tables as they are. Otherwise it logs the header marker and runs the loop.
     */
    method RecordingTask(
      deviceId: Uuid, subscribe: SubscribeAnswer, markerTime: string, wakeups: seq<Wakeup>, project: Projection)
      returns (outcome: TaskOutcome, logged: seq<LogRecord>)
      requires Valid()
      requires subscribe.Subscriber? ==> deviceId in sessions
      modifies this
      ensures Valid()
      ensures !subscribe.Subscriber? ==>
        && outcome == TaskFailed(if subscribe.SendFailed? then DeviceError(subscribe.detail) else NoDevices)
        && logged == []
        && sessions == old(sessions) && writers == old(writers) && statusEvents == old(statusEvents)
      ensures subscribe.Subscriber? ==>
        var active := old(sessions)[deviceId].isActive;
        var marker := TaskMarker(markerTime);
        && logged == [LogRecord(Topic(deviceId, "header"), marker)]
                     + PassRecords(deviceId, marker, wakeups[..PassCount(active, wakeups)], project)
        && (outcome == Finished <==> !active || FirstEnding(wakeups) < |wakeups|)
        && statusEvents == old(statusEvents) + StopEvents(old(sessions)[deviceId], wakeups)
        && (outcome == Finished ==> sessions == old(sessions) - {deviceId} && writers == old(writers) - {deviceId})
        && (outcome != Finished ==>
              outcome == StillRecording && IsActive(deviceId)
              && sessions == old(sessions) && writers == old(writers) && statusEvents == old(statusEvents))
    {
      if subscribe.SendFailed? {
        return TaskFailed(DeviceError(subscribe.detail)), [];
      }
      if subscribe.UnexpectedAnswer? {
        return TaskFailed(NoDevices), [];
      }
      var marker := TaskMarker(markerTime);
      var finished, passes := RecordUntilStopped(deviceId, marker, wakeups, project);
      logged := [LogRecord(Topic(deviceId, "header"), marker)] + passes;
      outcome := if finished then Finished else StillRecording;
    }

    /**
     * The loop of the recording task: while the session is present and active, one pass per wakeup,
     * breaking on a receive error; on leaving the loop, the session and writer entries are removed.
     */
    method RecordUntilStopped(deviceId: Uuid, marker: Payload, wakeups: seq<Wakeup>, project: Projection)
      returns (finished: bool, logged: seq<LogRecord>)
      requires Valid() && deviceId in sessions
      modifies this
      ensures Valid()
      ensures statusEvents == old(statusEvents) + StopEvents(old(sessions)[deviceId], wakeups)
      ensures var active := old(sessions)[deviceId].isActive;
        && logged == PassRecords(deviceId, marker, wakeups[..PassCount(active, wakeups)], project)
        && (finished <==> !active || FirstEnding(wakeups) < |wakeups|)
      ensures finished ==> sessions == old(sessions) - {deviceId} && writers == old(writers) - {deviceId}
      ensures !finished ==>
        IsActive(deviceId) && sessions == old(sessions) && writers == old(writers) && statusEvents == old(statusEvents)
    {
      finished, logged := RunPasses(deviceId, marker, wakeups, project);
      if finished {
        PurgeKeepsTablesValid(sessions, writers, deviceId);
        sessions := sessions - {deviceId};
        writers := writers - {deviceId};
      }
    }

    /**
     * The passes of the recording loop, up to the first stop or receive error or the end of the
     * wakeups; `finished` says the loop was left, and only the device's own entries may have changed.
     */
    method RunPasses(deviceId: Uuid, marker: Payload, wakeups: seq<Wakeup>, project: Projection)
      returns (finished: bool, logged: seq<LogRecord>)
      requires Valid() && deviceId in sessions
      modifies this
      ensures Valid() && deviceId in sessions
      ensures statusEvents == old(statusEvents) + StopEvents(old(sessions)[deviceId], wakeups)
      ensures var active := old(sessions)[deviceId].isActive;
        && logged == PassRecords(deviceId, marker, wakeups[..PassCount(active, wakeups)], project)
        && (finished <==> !active || FirstEnding(wakeups) < |wakeups|)
      ensures finished ==> sessions - {deviceId} == old(sessions) - {deviceId} && writers - {deviceId} == old(writers) - {deviceId}
      ensures StopRuns(old(sessions)[deviceId], wakeups) ==>
        sessions == old(sessions)[deviceId := old(sessions)[deviceId].(isActive := false)] && writers == old(writers) - {deviceId}
      ensures !StopRuns(old(sessions)[deviceId], wakeups) ==> sessions == old(sessions) && writers == old(writers)
      ensures !finished ==>
        IsActive(deviceId) && sessions == old(sessions) && writers == old(writers) && statusEvents == old(statusEvents)
    {
      ghost var active := sessions[deviceId].isActive;
      ghost var first := FirstEnding(wakeups);
      ghost var sessions0, writers0, events0 := sessions, writers, statusEvents;
      ghost var stopped := sessions0[deviceId].(isActive := false);
      logged := [];
      var k := 0;
      var receiveFailed := false;
      while k < |wakeups| && IsActive(deviceId)
        invariant TablesValid(sessions, writers) && deviceId in sessions
        invariant 0 <= k <= |wakeups|
        invariant !active ==> k == 0
        invariant k <= first + 1
        invariant active ==> deviceId in writers0
        invariant k <= first ==> sessions == sessions0 && writers == writers0 && statusEvents == events0
        invariant k == first + 1 ==> active && first < |wakeups| && wakeups[first].stop.Some?
        invariant k == first + 1 ==> sessions == sessions0[deviceId := stopped] && writers == writers0 - {deviceId}
        invariant k == first + 1 ==> statusEvents == events0 + StopEvents(sessions0[deviceId], wakeups)
        invariant logged == PassRecords(deviceId, marker, wakeups[..k], project)
        decreases |wakeups| - k
      {
        assert k <= first;
        var w := wakeups[k];
        assert wakeups[..k + 1][..k] == wakeups[..k];
        assert w.stop.Some? ==> k == first;
        assert !stopped.isActive;
        var failed, records := TaskPass(deviceId, marker, w, project);
        k := k + 1;
        if failed {
          assert k == first + 1 && w == wakeups[first];
          receiveFailed := true;
          break;
        }
        logged := logged + records;
      }
      finished := receiveFailed || !IsActive(deviceId);
      PassCountAtExit(active, wakeups, k, finished);
      if k == first + 1 {
        UpdateThenRemove(sessions0, deviceId, stopped);
      }
    }
  }
}
