# Ping Viewer Next: recording, websocket fan-out, legacy device table and notifications in Dafny

This project models the core of Ping Viewer Next, a server for Blue Robotics Ping1D and Ping360 sonars
with a web frontend, and proves properties of that model. It covers four parts of the system:

- **The recording manager** (`recording.dfy`, `point_cloud.dfy`). It keeps a table of recording sessions
  and a table of open MCAP writers, both keyed by device id. Starting a recording is guarded by checks
  on the device status, an existing session, the directory, the device info and the file. The file is
  named `device_<uuid>_<YYYYmmdd_HHMMSS>.mcap`. Stopping marks the session inactive and closes its
  writer. The recording task logs a header marker and then, per received message, the marker on the
  sonar channel and, for Ping360 sweeps, a point cloud. When the session is stopped or the stream fails,
  it purges both table entries. The point-cloud conversion drops samples under the noise floor (5) and
  packs each remaining sample as a 16-byte record described by a field table.
- **The websocket layer** (`websocket.dfy`). A registry of clients, each with its compiled filter and
  optional device scope. `send` delivers to every selected client in registration order. Connections
  register and deregister themselves. The `/ws` handshake uses `.*` as the default filter and checks the
  device scope first. A text frame of device-manager requests is parsed as a list, then as one request.
  Each answer is rebroadcast about the request's own device, or about the connection's scope, and an
  error goes back to the sender. Each recording-status stream is filtered by its scope.
- **The legacy device manager** (`device_manager.dfy`). A table of devices over UDP or serial sources.
  `create` appends a device, `list` gives the `Debug` text of each source, and `init`, `stop` and
  `subscribe` act on the first device only.
- **The frontend notification store** (`notification_store.dfy`). Notifications stamped with a counter
  id and a creation time, with add, remove-by-id and clear.

Shared modules: `wrappers.dfy` holds `Option`, `Result` and `Outcome`, `sequences.dfy` order-preserving
filtering and mapping, `text.dfy` decimal and `Debug` text, `device_types.dfy` ids, device classes,
statuses and errors, and `ping_protocol.dfy` the decoded sonar messages.

These are inputs rather than computed: answers from other actors, the clock, filesystem and writer
outcomes, whether a regular expression compiles or matches, the floating-point placement of a sample,
and the messages a receive loop gets. Each receive loop runs over a finite sequence of receive results.
Stateful parts are classes whose methods state the whole new state: `RecordingManager`,
`WebsocketManager`, `DeviceManager` and `NotificationStore`.

## Model

| member | source | states |
|---|---|---|
| Text.ParsePadded | src/device/recording/mod.rs:90 | each zero-padded `%Y`/`%m`/... field of the timestamp reads back to the number it prints |
| Recording.FormatStamp | src/device/recording/mod.rs:90 | the `%Y%m%d_%H%M%S` stamp is 15 characters, all digits except the `_` at position 8 |
| Recording.StampRoundTrip | src/device/recording/mod.rs:86-91 | parsing the formatted stamp gives back the instant truncated to the whole second |
| Recording.FileName | src/device/recording/mod.rs:87-91 | the file name is 64 characters: `device_`, the 36-character id, `_`, the stamp, `.mcap` |
| Recording.FileNameInjective | src/device/recording/mod.rs:87-92 | equal file names come from the same device and the same whole second |
| Recording.Join | src/device/recording/mod.rs:92 | joining appends the file name as the last path component and keeps the base path |
| Recording.StartGuard | src/device/recording/mod.rs:65-103 | start is allowed iff the status is Running or ContinuousMode, there is no session, and the directory, info and file all succeed; the first failing check, in source order, gives the error |
| Recording.NewSession | src/device/recording/mod.rs:105-111 | a new session is active, keyed by its own device, started now, with the device's class, at `base/FileName` |
| Recording.RestartGetsNewFile | src/device/recording/mod.rs:86-111 | two recordings of one device started in different seconds write different files |
| Recording.RecordingManager.constructor | src/device/recording/mod.rs:42-50 | both tables and the status broadcast start empty, under the given base path |
| Recording.RecordingManager.StartRecording | src/device/recording/mod.rs:60-140 | on a failed guard nothing changes and its error is returned; otherwise the session and writer are inserted and the session is broadcast, and the handler answer decides success or error; the table invariant is kept |
| Recording.RecordingManager.StopRecording | src/device/recording/mod.rs:142-157 | unknown device: the error, nothing changed; otherwise the session is marked inactive and the writer removed; a failed close returns its error without a broadcast, else the stopped session is broadcast and returned |
| Recording.RecordingManager.HandlerFailureBlocksRestart | src/device/recording/mod.rs:73-157 | a start whose handler answer fails keeps its session with no task to purge it; a stop only marks it inactive, and the next start of that device is refused as already recording |
| Recording.RecordingManager.GetRecordingStatus | src/device/recording/mod.rs:159-164 | always succeeds; `Some` exactly when the device has a session, and then that session |
| Recording.RecordingManager.GetAllRecordingStatus | src/device/recording/mod.rs:166-168 | every session exactly once: same count, same set of values, no device twice |
| Recording.FirstEnding | src/device/recording/mod.rs:237-310 | the loop's first ending pass (a stop or a receive error): no pass before it ends, and it ends if it exists |
| Recording.PurgeKeepsTablesValid | src/device/recording/mod.rs:314-315 | removing a device from both tables keeps the table invariant |
| Recording.SonarChannelsCarryMarker | src/device/recording/mod.rs:244-305 | every record on a ping360 or ping1d channel is the header marker; message data reaches only the point-cloud channel |
| Recording.LoggedCloudsAligned | src/device/recording/mod.rs:244-303 | every logged point cloud has a stride of 16 and a whole number of points |
| Recording.LogMessage | src/device/recording/mod.rs:245-305 | one received message gives exactly the records `MessageRecords` lists for its decoded kind |
| Recording.RecordingManager.TaskPass | src/device/recording/mod.rs:237-311 | one pass: a concurrent stop updates the tables as `StopRecording` does and announces the stopped session once, unless the writer's close failed; the receive result decides between failing and logging the message's records |
| Recording.RecordingManager.RunPasses | src/device/recording/mod.rs:237-312 | passes run while the session is active, up to the first stop or receive error; the device's own entries end exactly as the concurrent stop leaves them, if one ran, and unchanged otherwise; the logged records are those of the `PassCount` first wakeups; the loop finished iff the session was inactive or some pass ended it; the only status event is the stopped session, when the ending pass was a stop with a clean close, and none when it was a receive error; other devices' entries are untouched |
| Recording.RecordingManager.RecordUntilStopped | src/device/recording/mod.rs:237-315 | the loop followed by the purge: when finished, both entries of the device are gone and nothing else changed, and the purge announces nothing beyond the loop's `StopEvents`; otherwise the session is still active and the tables are unchanged |
| Recording.RecordingManager.RecordingTask | src/device/recording/mod.rs:170-316 | without a subscriber, the task fails with `DeviceError` or `NoDevices` and changes nothing; otherwise it logs the header marker and then the loop's records, with the loop's outcome and exactly the loop's `StopEvents` as new status events |
| PointCloud.RecordMatchesFields | src/device/recording/mod.rs:329-379 | a 16-byte record read through the x, y, z and intensity field table gives back x, y, 0.0 and the intensity, and the padding is zero |
| PointCloud.PackSamplesLayout | src/device/recording/mod.rs:353-383 | the packed data holds 16 bytes per sample above the noise floor; the `k`-th record is the `k`-th kept sample's point and intensity |
| PointCloud.ReadRecord | src/device/recording/mod.rs:374-379 | a record at stride `k` reads back through the field table as its point and intensity |
| PointCloud.PointCloudContents | src/device/recording/mod.rs:319-408 | the cloud's data is a whole number of strides; it has one point per sample at or above 5, in sample order; each point reads back as its sample's position, z = 0.0 and the sample's intensity |
| PointCloud.ConvertToPointCloud | src/device/recording/mod.rs:319-408 | the conversion loop builds the cloud `CloudOf` describes: seconds truncated to 32 bits, frame `device`, identity pose, stride 16, the four fields |
| PointCloud.AutoFromDeviceData | src/device/recording/mod.rs:275-289 | the `device_data` adapter fixes start 0, stop 399, one step and no delay, sets `data_length` to the sample count, and copies everything else |
| PointCloud.DeviceDataCloud | src/device/recording/mod.rs:275-291 | a `device_data` answer yields the cloud of its own samples at its own angle and sample period |
| PingProtocol.DeliveredPrefix | src/server/protocols/v1/websocket.rs:258 | a receive loop gets exactly the items before the first receive error |
| Websocket.FanoutSpec | src/server/protocols/v1/websocket.rs:47-62 | the `k`-th delivery carries the text to the `k`-th selected client: unscoped or scoped to the device, filter compiled and matching the name |
| Websocket.UnselectedNeverReceives | src/server/protocols/v1/websocket.rs:55-56 | a client whose filter did not compile, or that is scoped to another device, is never selected |
| Websocket.WebsocketManager.constructor | src/server/protocols/v1/websocket.rs:41-44 | the registry starts empty |
| Websocket.WebsocketManager.Send | src/server/protocols/v1/websocket.rs:47-62 | the loop's deliveries are the fan-out; nothing is sent when no client is registered |
| Websocket.WebsocketManager.Started | src/server/protocols/v1/websocket.rs:112-123 | a connection appends its entry, with its filter only if the filter compiles |
| Websocket.WebsocketManager.Finished | src/server/protocols/v1/websocket.rs:125-132 | the closing actor's entries are removed and the others keep their order |
| Websocket.RetainSpec | src/server/protocols/v1/websocket.rs:131 | after deregistration no entry of the actor is left, and every other client's entry remains |
| Websocket.StartedThenFinished | src/server/protocols/v1/websocket.rs:112-132 | registering and then deregistering a new actor leaves the registry as it was |
| Websocket.OpenWebsocket | src/server/protocols/v1/websocket.rs:277-312 | the filter defaults to `.*`; a scoped handshake fails with the manager's error iff the `Info` request fails; otherwise it upgrades with that filter and scope |
| Websocket.DefaultFilterReceivesAll | src/server/protocols/v1/websocket.rs:285-288 | a connection opened without a filter is selected for every message about its device, given that `.*` matches every name |
| Websocket.RequestHasId | src/server/protocols/v1/websocket.rs:155-167 | a request names a device iff it is one of the six addressed kinds, and then it names that request's id |
| Websocket.RebroadcastTarget | src/server/protocols/v1/websocket.rs:176-179 | an answer is rebroadcast about the request's own device, else about the connection's scope |
| Websocket.ParseRequests | src/server/protocols/v1/websocket.rs:138-147 | a frame fails to parse iff neither the list nor the single-request parse succeeds, and then the list parser's error is reported; a list wins, a single request becomes a one-element list |
| Websocket.HandleText | src/server/protocols/v1/websocket.rs:137-195 | an unparsable frame gets `Error: ` plus the error and dispatches nothing; otherwise there is one job per request, in order, each with its rebroadcast target |
| Websocket.AnswerDeliveries | src/server/protocols/v1/websocket.rs:172-191 | a successful answer is broadcast as its own text to at most every registered client; a failed one becomes exactly one text frame, the error, to the requester |
| Websocket.AnswerStaysWithDevice | src/server/protocols/v1/websocket.rs:172-191 | a successful answer about device `u` reaches only clients that are unscoped or scoped to `u`; a failed one goes only to the requester |
| Websocket.ForwardRecordingStatus | src/server/protocols/v1/websocket.rs:257-263 | the status task forwards, in order, exactly the sessions in scope among those received before the first error |
| Websocket.StatusFeedScoped | src/server/protocols/v1/websocket.rs:258-261 | a scoped connection hears only about its device; an unscoped one hears every session received |
| LegacyDeviceManager.Open | src/device/manager.rs:92-120 | a UDP source opens a UDP port and a serial source a serial port |
| LegacyDeviceManager.Build | src/device/manager.rs:122-135 | the driver is of the requested class and sits on the opened port, whichever port that is |
| LegacyDeviceManager.DeviceManager.constructor | src/device/manager.rs:73-78 | the default table holds no device |
| LegacyDeviceManager.DeviceManager.Create | src/device/manager.rs:89-145 | one running device is appended with its source and the built driver, with no duplicate check; the new last entry has the requested class |
| LegacyDeviceManager.Describe | src/device/manager.rs:43-64 | a source's derived `Debug` text opens with its variant and struct name (`UdpStream(SourceUdpStruct { ip: ` or `SerialStream(SourceSerialStruct { path: "`) and ends with ` })` |
| LegacyDeviceManager.DottedQuadInjective | src/device/manager.rs:56 | equal dotted-decimal texts of an `Ipv4Addr` come from the same address |
| LegacyDeviceManager.DescribeInjective | src/device/manager.rs:147-154 | distinct sources give distinct `list` lines: equal `Debug` texts come from the same transport, address or path, and port or baud rate |
| LegacyDeviceManager.DeviceManager.List | src/device/manager.rs:147-154 | one `Debug` text per device, in table order |
| Text.ParseNatToString | src/device/manager.rs:151 | the decimal text of an IP octet, a port or a baud rate reads back to that number |
| Text.UnescapeEscapeDebug | src/device/manager.rs:151 | the escaped `Debug` text of a serial path reads back to the path |
| LegacyDeviceManager.DeviceManager.Init | src/device/manager.rs:156-170 | empty table: nothing; a first Ping1D: continuous start of Profile (1300); any other first device: `todo!()` |
| LegacyDeviceManager.DeviceManager.Stop | src/device/manager.rs:172-186 | empty table: nothing; a first Ping1D: continuous stop of Profile (1300); any other first device: `todo!()` |
| LegacyDeviceManager.ProfilesSpec | src/device/manager.rs:203-225 | the `k`-th collected profile is the payload of the `k`-th received message that has id 1300 and decodes as a Profile |
| LegacyDeviceManager.ForwardProfiles | src/device/manager.rs:201-227 | the task collects the profiles among the messages received before the first error, skipping all others |
| LegacyDeviceManager.DeviceManager.Subscribe | src/device/manager.rs:188-233 | empty table: nothing; a first Ping1D: continuous start, then the forwarded profiles; any other first device: `todo!()` |
| NotificationStore.Stamp | ping-viewer-next-frontend/src/stores/notificationStore.js:10-14 | the stored record has the caller's properties, its own `timestamp`, and the counter id unless the caller supplied an `id` |
| NotificationStore.IndexOf | ping-viewer-next-frontend/src/stores/notificationStore.js:23 | `-1` iff no record has the id, else the first position holding it |
| NotificationStore.RemoveFirstSpec | ping-viewer-next-frontend/src/stores/notificationStore.js:22-27 | removing an absent id changes nothing; otherwise exactly one record goes and no record is invented |
| NotificationStore.RemoveFirstIsFilter | ping-viewer-next-frontend/src/stores/notificationStore.js:22-27 | in a store whose ids strictly increase, removing the first record with an id removes every record with it, keeping the others in order |
| NotificationStore.AddKeepsInvariant | ping-viewer-next-frontend/src/stores/notificationStore.js:8-14 | adding keeps every id in `[1, nextId)` and the ids strictly increasing along the list (so distinct) when the payload has no `id` of its own |
| NotificationStore.RemoveKeepsInvariant | ping-viewer-next-frontend/src/stores/notificationStore.js:22-27 | removing keeps ids in range and strictly increasing along the list |
| NotificationStore.NotificationStore.constructor | ping-viewer-next-frontend/src/stores/notificationStore.js:5-6 | the store starts empty with the counter at 1 |
| NotificationStore.NotificationStore.AddNotification | ping-viewer-next-frontend/src/stores/notificationStore.js:8-20 | the counter advances by one, the stamped record is appended after the untouched earlier ones, and the invariant is kept for an id-free payload |
| NotificationStore.NotificationStore.FindIndex | ping-viewer-next-frontend/src/stores/notificationStore.js:23 | the search loop returns the first position holding the id, or -1 |
| NotificationStore.NotificationStore.RemoveNotification | ping-viewer-next-frontend/src/stores/notificationStore.js:22-27 | the first record with the id is spliced out, or nothing happens; the counter is untouched; the invariant is kept |
| NotificationStore.NotificationStore.ClearNotifications | ping-viewer-next-frontend/src/stores/notificationStore.js:29-31 | the list is emptied and the counter is not reset, so ids are never reused |

`Recording.UpdateThenRemove` and `Recording.PassCountAtExit` are proof helpers for
`Recording.RecordingManager.RunPasses`: a map identity and the case split of `PassCount` at the loop's exit.

## Left out

- Asynchronous execution, locks and actor messaging are not modelled. Concurrent tasks are one sequence of steps, and a stop that races the recording loop is seen at the next wakeup. The code observes it only after the pending receive returns.
- The HashMap's iteration order is not modelled. `get_all_recording_status` picks sessions in an unspecified order.
- Regular expressions are not modelled. Compiling and matching are inputs (`compiles`, `Matcher`).
- Floating-point placement of a sample (the gradian-to-radian conversion, `cos`, `sin` and the distance scale) is not modelled. It is the caller's `Projection`, and the model keeps only its encoded x and y bytes.
- JSON serialization and deserialization are not modelled. A frame's parse results, a manager answer's text and the serialized status of a session are inputs.
- PointCloud.ConvertToPointCloud: reads the clock's seconds and nanoseconds as two separate inputs. `timestamp() as u32` is written out as truncation modulo 2^32.
- The MCAP writer, its file, the channel schemas and the `RecordingHeader` value are not modelled. The header value is built but never logged. Channel logs are the `LogRecord` sequence. The sonar channels log the header marker, not the messages built for them, and the model follows that.
- The `/ws/recording` handshake, which asks for the recording manager, is not modelled. The commented-out initial status push is not modelled either. Only the status task's filter is modelled.
- Ping and Close frames are not modelled. Their pong and close replies do not involve the registry or the device manager.
- `send_to_websockets` and the global registry it locks are not modelled. `AnswerDeliveries` calls the fan-out directly with the answer's text as both the name and the payload.
- Recording.RecordingManager.RecordingTask: requires the device's session to be in the table when the subscriber is obtained. That stands for the `unwrap()` of the session lookup before the header is written, whose panic is not modelled. Only the task's own purge removes a session, so the program does not reach it.
- Recording.StartGuard: the error for a status other than Running or ContinuousMode is taken to be `DeviceStatusMismatch(status, id)`, standing for the device manager's `DeviceStatus` mismatch error. `check_device_status` is not part of this model.
- Recording.RecordingManager.StartRecording: assumes the year is at most 9999 so that `%Y` prints four digits. A session-table entry left behind when the handler answer fails is reported but kept, as in the code.
- LegacyDeviceManager.DeviceManager.Create: assumes opening the UDP socket or the serial port succeeds. The `unwrap` panics on failure are not modelled.
- LegacyDeviceManager.DeviceManager.Init: the `continuous_start` request is returned as a command. Its `unwrap` panic on a failed request is not modelled.
- LegacyDeviceManager.DeviceManager.Stop: the `continuous_stop` request is returned as a command. Its `unwrap` panic on a failed request is not modelled.
- LegacyDeviceManager.DeviceManager.Subscribe: the websocket broadcast of each profile's `Debug` text is not modelled. The collected profiles stand for it, and the unused oneshot channel is left out.
- Text.EscapeChar: covers the escapes a path can need (`\0`, `\t`, `\r`, `\n`, `"`, `\\`). The `\u{...}` escapes Rust's `Debug` uses for other non-printable characters are not modelled.
- NotificationStore.NotificationStore.AddNotification: keeps the invariant only for payloads without an `id` property. A payload carrying its own `id` overrides the counter's, as the object spread does, and can then duplicate an id.
- The five-second auto-removal timer is not modelled as a timer. It is a later `RemoveNotification` call with the same id.
- The reactive Vue/Pinia wrapping of the store is not modelled.
