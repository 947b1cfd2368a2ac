/**
 * Conversion of one Ping360 sweep step into a packed point cloud: samples under the noise floor are
 * dropped, each remaining sample becomes one 16-byte record (x, y, z as little-endian f32, then the
 * intensity byte), described by an explicit field table so that any reader can unpack it.
 * The floating-point trigonometry that places a sample is a `Projection` given by the caller.
 */
module PointCloud {
  import opened Wrappers
  import opened Sequences
  import opened PingProtocol

  /** Bytes per point: three f32 coordinates and one u8 intensity, padded to 16. */
  const POINT_STRIDE: nat := 16
  /** Samples weaker than this are treated as noise. */
  const NOISE_FLOOR: int := 5
  /** Numeric type codes of the packed-element-field schema. */
  const UINT8: nat := 1
  const FLOAT32: nat := 7

  type Bytes4 = s: seq<Byte> | |s| == 4 witness [0, 0, 0, 0]

  /** Little-endian encoding of the f32 value 0.0. */
  const ZERO_F32: Bytes4 := [0, 0, 0, 0]

  /** The Cartesian position of one sample, as the little-endian encodings of its f32 x and y. */
  datatype PlanarPoint = PlanarPoint(x: Bytes4, y: Bytes4)

  /** Polar-to-Cartesian placement of sample `index` of a step at `angle` (gradians) with `samplePeriod`. */
  type Projection = (U16, U16, nat) -> PlanarPoint

  datatype PackedElementField = PackedElementField(name: string, offset: nat, numericType: nat)

  datatype Timestamp = Timestamp(sec: nat, nsec: nat)
  datatype Vector3 = Vector3(x: real, y: real, z: real)
  datatype Quaternion = Quaternion(x: real, y: real, z: real, w: real)
  datatype Pose = Pose(position: Option<Vector3>, orientation: Option<Quaternion>)

  datatype PointCloud = PointCloud(
    timestamp: Option<Timestamp>,
    frameId: string,
    pose: Option<Pose>,
    pointStride: nat,
    fields: seq<PackedElementField>,
    data: seq<Byte>)

  /** The two wall-clock reads the conversion makes: whole seconds since the epoch, then sub-second nanoseconds. */
  datatype CloudClock = CloudClock(epochSeconds: int, subsecNanos: nat)

  const POINT_FIELDS: seq<PackedElementField> := [
    PackedElementField("x", 0, FLOAT32),
    PackedElementField("y", 4, FLOAT32),
    PackedElementField("z", 8, FLOAT32),
    PackedElementField("intensity", 12, UINT8)
  ]

  /** The sensor frame: at the origin, not rotated. */
  const SENSOR_POSE: Pose :=
    Pose(Some(Vector3(0.0, 0.0, 0.0)), Some(Quaternion(0.0, 0.0, 0.0, 1.0)))

  predicate AboveNoiseFloor(intensity: Byte) {
    intensity >= NOISE_FLOOR
  }

  /** Width in bytes of a value of a packed-element numeric type (0 for an unknown code). */
  function TypeWidth(numericType: nat): nat {
    match numericType
    case 1 => 1 case 2 => 1
    case 3 => 2 case 4 => 2
    case 5 => 4 case 6 => 4 case 7 => 4
    case 8 => 8
    case _ => 0
  }

  /** The bytes a generic reader takes for field `f` of point `k` of packed data with stride `stride`. */
  function FieldBytes(data: seq<Byte>, stride: nat, k: nat, f: PackedElementField): seq<Byte>
    requires (k * stride) + f.offset + TypeWidth(f.numericType) <= |data|
  {
    data[k * stride + f.offset .. k * stride + f.offset + TypeWidth(f.numericType)]
  }

  /** One point record: x, y, z = 0.0 as little-endian f32, the intensity byte, three zero bytes. */
  function PointRecord(p: PlanarPoint, intensity: Byte): seq<Byte> {
    p.x + p.y + ZERO_F32 + [intensity, 0, 0, 0]
  }

  /** The field table describes exactly the record layout: reading a record back through it yields its parts. */
  lemma RecordMatchesFields(p: PlanarPoint, intensity: Byte)
    ensures var r := PointRecord(p, intensity);
      && |r| == POINT_STRIDE
      && FieldBytes(r, POINT_STRIDE, 0, POINT_FIELDS[0]) == p.x
      && FieldBytes(r, POINT_STRIDE, 0, POINT_FIELDS[1]) == p.y
      && FieldBytes(r, POINT_STRIDE, 0, POINT_FIELDS[2]) == ZERO_F32
      && FieldBytes(r, POINT_STRIDE, 0, POINT_FIELDS[3]) == [intensity]
      && r[13..] == [0, 0, 0]
  {
    var r := PointRecord(p, intensity);
    assert r[0..4] == p.x;
    assert r[4..8] == p.y;
    assert r[8..12] == ZERO_F32;
  }

  /** The packed point data of a step: one record per sample above the noise floor, in sample order. */
  function PackSamples(samples: seq<Byte>, angle: U16, samplePeriod: U16, project: Projection): seq<Byte>
  {
    if samples == [] then []
    else
      var last := |samples| - 1;
      PackSamples(samples[..last], angle, samplePeriod, project)
        + (if AboveNoiseFloor(samples[last]) then PointRecord(project(angle, samplePeriod, last), samples[last]) else [])
  }

  /** Record `k` of the packed data is the point of the `k`-th sample above the noise floor. */
  lemma {:induction false} PackSamplesLayout(samples: seq<Byte>, angle: U16, samplePeriod: U16, project: Projection)
    ensures var kept := IndicesWhere(samples, AboveNoiseFloor);
      var packed := PackSamples(samples, angle, samplePeriod, project);
      && |packed| == POINT_STRIDE * |kept|
      && forall k :: 0 <= k < |kept| ==>
           kept[k] < |samples|
           && packed[POINT_STRIDE * k .. POINT_STRIDE * k + POINT_STRIDE]
              == PointRecord(project(angle, samplePeriod, kept[k]), samples[kept[k]])
  {
    if samples != [] {
      var last := |samples| - 1;
      var init := samples[..last];
      PackSamplesLayout(init, angle, samplePeriod, project);
      var kept0 := IndicesWhere(init, AboveNoiseFloor);
      var packed0 := PackSamples(init, angle, samplePeriod, project);
      var kept := IndicesWhere(samples, AboveNoiseFloor);
      var packed := PackSamples(samples, angle, samplePeriod, project);
      var tail := if AboveNoiseFloor(samples[last]) then PointRecord(project(angle, samplePeriod, last), samples[last]) else [];
      assert packed == packed0 + tail;
      assert kept == kept0 + if AboveNoiseFloor(samples[last]) then [last] else [];
      forall k | 0 <= k < |kept|
        ensures packed[POINT_STRIDE * k .. POINT_STRIDE * k + POINT_STRIDE]
                == PointRecord(project(angle, samplePeriod, kept[k]), samples[kept[k]])
      {
        if k < |kept0| {
          assert kept[k] == kept0[k];
          assert init[kept0[k]] == samples[kept[k]];
          SliceOfPrefix(packed0, tail, POINT_STRIDE * k, POINT_STRIDE * k + POINT_STRIDE);
        } else {
          assert kept[k] == last;
          SliceOfSuffix(packed0, tail);
        }
      }
    }
  }

  /** The point cloud the conversion produces for a step, with the clock reads it makes. */
  function CloudOf(step: AutoDeviceData, clock: CloudClock, project: Projection): PointCloud {
    PointCloud(
      Some(Timestamp(clock.epochSeconds % 0x1_0000_0000, clock.subsecNanos)),
      "device",
      Some(SENSOR_POSE),
      POINT_STRIDE,
      POINT_FIELDS,
      PackSamples(step.data, step.angle, step.samplePeriod, project))
  }

  /**
   * What a reader of the cloud sees: the data length is a whole number of strides, one point per sample
   * above the noise floor, and each point read through the field table gives back that sample's
   * position, z = 0.0 and its intensity.
   */
  lemma PointCloudContents(step: AutoDeviceData, clock: CloudClock, project: Projection)
    ensures var pc := CloudOf(step, clock, project);
      var kept := IndicesWhere(step.data, AboveNoiseFloor);
      && pc.pointStride == POINT_STRIDE && pc.fields == POINT_FIELDS
      && |pc.data| % pc.pointStride == 0
      && |pc.data| / pc.pointStride == |kept|
      && (forall i :: 0 <= i < |step.data| ==> (i in kept <==> step.data[i] >= NOISE_FLOOR))
      && StrictlyIncreasing(kept)
      && forall k :: 0 <= k < |kept| ==>
           && kept[k] < |step.data|
           && FieldBytes(pc.data, POINT_STRIDE, k, POINT_FIELDS[0]) == project(step.angle, step.samplePeriod, kept[k]).x
           && FieldBytes(pc.data, POINT_STRIDE, k, POINT_FIELDS[1]) == project(step.angle, step.samplePeriod, kept[k]).y
           && FieldBytes(pc.data, POINT_STRIDE, k, POINT_FIELDS[2]) == ZERO_F32
           && FieldBytes(pc.data, POINT_STRIDE, k, POINT_FIELDS[3]) == [step.data[kept[k]]]
  {
    var pc := CloudOf(step, clock, project);
    var kept := IndicesWhere(step.data, AboveNoiseFloor);
    IndicesWhereSpec(step.data, AboveNoiseFloor);
    PackSamplesLayout(step.data, step.angle, step.samplePeriod, project);
    assert |pc.data| == POINT_STRIDE * |kept|;
    forall k | 0 <= k < |kept|
      ensures FieldBytes(pc.data, POINT_STRIDE, k, POINT_FIELDS[0]) == project(step.angle, step.samplePeriod, kept[k]).x
      ensures FieldBytes(pc.data, POINT_STRIDE, k, POINT_FIELDS[1]) == project(step.angle, step.samplePeriod, kept[k]).y
      ensures FieldBytes(pc.data, POINT_STRIDE, k, POINT_FIELDS[2]) == ZERO_F32
      ensures FieldBytes(pc.data, POINT_STRIDE, k, POINT_FIELDS[3]) == [step.data[kept[k]]]
    {
      ReadRecord(pc.data, k, project(step.angle, step.samplePeriod, kept[k]), step.data[kept[k]]);
    }
  }

  /** Reading point `k` through the field table, when the `k`-th stride of the data holds a record. */
  lemma ReadRecord(data: seq<Byte>, k: nat, p: PlanarPoint, intensity: Byte)
    requires POINT_STRIDE * k + POINT_STRIDE <= |data|
    requires data[POINT_STRIDE * k .. POINT_STRIDE * k + POINT_STRIDE] == PointRecord(p, intensity)
    ensures FieldBytes(data, POINT_STRIDE, k, POINT_FIELDS[0]) == p.x
    ensures FieldBytes(data, POINT_STRIDE, k, POINT_FIELDS[1]) == p.y
    ensures FieldBytes(data, POINT_STRIDE, k, POINT_FIELDS[2]) == ZERO_F32
    ensures FieldBytes(data, POINT_STRIDE, k, POINT_FIELDS[3]) == [intensity]
  {
    var base := POINT_STRIDE * k;
    var rec := data[base .. base + POINT_STRIDE];
    RecordMatchesFields(p, intensity);
    SliceOfSlice(data, base, POINT_STRIDE, 0, 4);
    SliceOfSlice(data, base, POINT_STRIDE, 4, 8);
    SliceOfSlice(data, base, POINT_STRIDE, 8, 12);
    SliceOfSlice(data, base, POINT_STRIDE, 12, 13);
  }

  /** `convert_to_point_cloud`: the loop over the samples that appends one record per kept sample. */
  method ConvertToPointCloud(step: AutoDeviceData, clock: CloudClock, project: Projection) returns (pc: PointCloud)
    ensures pc == CloudOf(step, clock, project)
  {
    var pointData: seq<Byte> := [];
    for i := 0 to |step.data|
      invariant pointData == PackSamples(step.data[..i], step.angle, step.samplePeriod, project)
    {
      assert step.data[..i + 1][..i] == step.data[..i];
      var intensity := step.data[i];
      if intensity < NOISE_FLOOR {
        continue;
      }
      var p := project(step.angle, step.samplePeriod, i);
      pointData := pointData + PointRecord(p, intensity);
    }
    assert step.data[..|step.data|] == step.data;
    PackSamplesLayout(step.data, step.angle, step.samplePeriod, project);
    assert |pointData| % POINT_STRIDE == 0;
    pc := PointCloud(
      Some(Timestamp(clock.epochSeconds % 0x1_0000_0000, clock.subsecNanos)),
      "device",
      Some(SENSOR_POSE),
      POINT_STRIDE,
      POINT_FIELDS,
      pointData);
  }

  /**
   * The adapter that lets a single `device_data` answer go through the same conversion: the sweep-range
   * fields are fixed (start 0, stop 399, one step, no delay), `data_length` takes the sample count, and
   * everything else is copied.
   */
  function AutoFromDeviceData(d: DeviceData): (a: AutoDeviceData)
    ensures a.startAngle == 0 && a.stopAngle == 399 && a.numSteps == 1 && a.delay == 0
    ensures a.dataLength == d.numberOfSamples && a.numberOfSamples == d.numberOfSamples
    ensures a.mode == d.mode && a.gainSetting == d.gainSetting && a.angle == d.angle
    ensures a.transmitDuration == d.transmitDuration && a.samplePeriod == d.samplePeriod
    ensures a.transmitFrequency == d.transmitFrequency && a.data == d.data
  {
    AutoDeviceData(
      mode := d.mode,
      gainSetting := d.gainSetting,
      angle := d.angle,
      transmitDuration := d.transmitDuration,
      samplePeriod := d.samplePeriod,
      transmitFrequency := d.transmitFrequency,
      startAngle := 0,
      stopAngle := 399,
      numSteps := 1,
      delay := 0,
      numberOfSamples := d.numberOfSamples,
      dataLength := d.numberOfSamples,
      data := d.data)
  }

  /** A `device_data` answer yields the cloud of its own samples, at its own angle and sample period. */
  lemma DeviceDataCloud(d: DeviceData, clock: CloudClock, project: Projection)
    ensures CloudOf(AutoFromDeviceData(d), clock, project).data == PackSamples(d.data, d.angle, d.samplePeriod, project)
  {
  }
}
