/**
 * The QuestNav telemetry bridge: each update reads one sample of the headset's
 * pose stream, republishes it for the dashboard together with a data age and
 * a `connected` verdict, converts the headset pose into the robot's field
 * frame, and reports malformed input through a per-key rate-limited warning.
 * Subscriber values are an input of `Update`; every publisher write is
 * recorded, in order, in a publication log; warnings go to a warning log.
 */
module QuestNav {
  import opened Constants
  import opened Results

  /** One sample as read from the headset's topics. */
  datatype Sample = Sample(
    timestampUs: real,
    position: seq<real>,
    quaternion: seq<real>,
    euler: seq<real>,
    batteryPercent: real,
    trackingStatus: int,
    version: int)

  /** Reading the topics either yields a sample or raises. */
  datatype ReadResult = ReadFailed(reason: string) | Read(sample: Sample)

  /** A translation in metres and a rotation given as roll, pitch and yaw in
      degrees, the arguments of the vendor's pose constructors. */
  datatype Translation3 = Translation3(x: real, y: real, z: real)
  datatype RotationDegrees = RotationDegrees(roll: real, pitch: real, yaw: real)
  datatype Pose3d = Pose3d(translation: Translation3, rotation: RotationDegrees)

  /** One write to an output topic. `Pose` stands for the paired writes of
      the three-dimensional pose and its planar projection. */
  datatype Publication =
    | Connected(connected: bool)
    | DataAgeSec(age: real)
    | TeleopActive(active: bool)
    | TrackingStatus(status: int)
    | BatteryPercent(percent: real)
    | Version(version: int)
    | RawPosition(values: seq<real>)
    | RawEulerAngles(values: seq<real>)
    | RawQuaternion(values: seq<real>)
    | LastTimestampUs(timestampUs: real)
    | Pose(pose: Pose3d)

  /** A warning to be reported through the rate limiter under `key`, at time `at`. */
  datatype WarningRequest = WarningRequest(key: string, message: string, at: real)

  /** The rate limiter's memory and every warning it let through, in order. */
  datatype WarningState = WarningState(lastWarningS: map<string, real>, reported: seq<string>)

  const WarningIntervalS: real := 1.0
  const ReadKey := "questnav_read"
  const PoseKey := "questnav_pose"

  /** The field width used for the start pose, in metres. */
  const FieldWidthM: real := 8.07

  /** The pose shown before any sample arrives: one metre out from the blue
      wall, centred across the field, facing the red wall. */
  const DefaultStartPose := Pose3d(Translation3(1.0, FieldWidthM / 2.0, 0.0), RotationDegrees(0.0, 0.0, 0.0))

  // ---------------------------------------------------------------------
  // Integer formatting, as used in warning messages.

  function DigitChar(d: nat): (c: char)
    requires d < 10
    ensures '0' <= c <= '9'
  {
    ('0' as int + d) as char
  }

  predicate IsDigits(s: string)
  {
    forall i :: 0 <= i < |s| ==> '0' <= s[i] <= '9'
  }

  /** The decimal notation of n, without leading zeros. */
  function NatToString(n: nat): (s: string)
    ensures 1 <= |s| && IsDigits(s)
    ensures n >= 10 ==> s[0] != '0'
    decreases n
  {
    if n < 10 then [DigitChar(n)] else NatToString(n / 10) + [DigitChar(n % 10)]
  }

  /** The number a string of decimal digits denotes. */
  function DigitsValue(s: string): nat
    requires IsDigits(s)
  {
    if s == [] then 0 else DigitsValue(s[..|s| - 1]) * 10 + (s[|s| - 1] as int - '0' as int)
  }

  /** Reading back a formatted number yields the number. */
  lemma {:induction false} NatToStringRoundTrip(n: nat)
    ensures DigitsValue(NatToString(n)) == n
    decreases n
  {
    if n >= 10 {
      var s := NatToString(n);
      assert s[..|s| - 1] == NatToString(n / 10);
      NatToStringRoundTrip(n / 10);
    }
  }

  // ---------------------------------------------------------------------
  // The rate limiter.

  /** Whether a warning under `key` at time `now` is reported: the key has
      never reported, or the last report is at least `interval` old. */
  predicate ShouldEmit(last: map<string, real>, key: string, now: real, interval: real)
  {
    key !in last || now - last[key] >= interval
  }

  /** The limiter's memory after a warning under `key` at `now`: the time is
      recorded for that key only, and only when the warning is reported. */
  function Limit(last: map<string, real>, key: string, now: real, interval: real): (next: map<string, real>)
    ensures ShouldEmit(last, key, now, interval) ==> key in next && next[key] == now
    ensures !ShouldEmit(last, key, now, interval) ==> next == last
    ensures next.Keys == last.Keys + {key} || next == last
    ensures forall k :: k != key ==> (k in next <==> k in last) && (k in last ==> next[k] == last[k])
  {
    if ShouldEmit(last, key, now, interval) then last[key := now] else last
  }

  /** One request through the limiter. */
  function Step(st: WarningState, q: WarningRequest, interval: real): WarningState
  {
    if ShouldEmit(st.lastWarningS, q.key, q.at, interval)
    then WarningState(Limit(st.lastWarningS, q.key, q.at, interval), st.reported + [q.message])
    else st
  }

  /** A run of requests through the limiter, in order. */
  function Replay(st: WarningState, reqs: seq<WarningRequest>, interval: real): (r: WarningState)
    ensures |st.reported| <= |r.reported| <= |st.reported| + |reqs|
    ensures r.reported[..|st.reported|] == st.reported
    ensures forall k :: k in st.lastWarningS && (forall i :: 0 <= i < |reqs| ==> reqs[i].key != k) ==>
              k in r.lastWarningS && r.lastWarningS[k] == st.lastWarningS[k]
  {
    if reqs == [] then st else Step(Replay(st, reqs[..|reqs| - 1], interval), reqs[|reqs| - 1], interval)
  }

  lemma ReplaySnoc(st: WarningState, reqs: seq<WarningRequest>, q: WarningRequest, interval: real)
    ensures Replay(st, reqs + [q], interval) == Step(Replay(st, reqs, interval), q, interval)
  {
    assert (reqs + [q])[..|reqs|] == reqs;
  }

  /** A report under one key neither records nor suppresses anything under
      any other key. */
  lemma RateLimitPerKey(last: map<string, real>, key: string, other: string, now: real, later: real, interval: real)
    requires key != other
    ensures ShouldEmit(Limit(last, key, now, interval), other, later, interval) == ShouldEmit(last, other, later, interval)
    ensures other in Limit(last, key, now, interval) <==> other in last
  {
  }

  /** After a report under a key, the next warning under that key is reported
      exactly when at least the interval has passed since. */
  lemma RateLimitInterval(st: WarningState, q1: WarningRequest, q2: WarningRequest, interval: real)
    requires q1.key == q2.key
    requires ShouldEmit(st.lastWarningS, q1.key, q1.at, interval)
    ensures ShouldEmit(Step(st, q1, interval).lastWarningS, q2.key, q2.at, interval) <==> q2.at - q1.at >= interval
    ensures q2.at - q1.at < interval ==> Step(Step(st, q1, interval), q2, interval) == Step(st, q1, interval)
    ensures q2.at - q1.at >= interval ==>
              Step(Step(st, q1, interval), q2, interval).reported == st.reported + [q1.message, q2.message]
  {
  }

  /** A suppressed warning leaves the limiter's memory and the reports as they were. */
  lemma SuppressedChangesNothing(st: WarningState, q: WarningRequest, interval: real)
    requires q.key in st.lastWarningS && q.at - st.lastWarningS[q.key] < interval
    ensures Step(st, q, interval) == st
  {
  }

  // ---------------------------------------------------------------------
  // Verdicts.

  /** Whether one payload array has its expected length. */
  predicate ExpectedLength(values: seq<real>, expectedLen: nat)
  {
    |values| == expectedLen
  }

  /** The position, Euler-angle and quaternion arrays all have their expected lengths. */
  predicate PayloadOk(s: Sample)
  {
    ExpectedLength(s.position, PositionLen) && ExpectedLength(s.euler, EulerLen) && ExpectedLength(s.quaternion, QuatLen)
  }

  /** Seconds since the sample's timestamp (given in microseconds), or -1
      when the sample carries no positive timestamp. */
  function DataAge(now: real, timestampUs: real): (age: real)
    ensures timestampUs <= 0.0 ==> age == -1.0
    ensures timestampUs > 0.0 ==> age + timestampUs / 1000000.0 == now
  {
    if timestampUs > 0.0 then now - timestampUs / 1000000.0 else -1.0
  }

  /** A data age counts as fresh when it lies within [0, timeout]. */
  predicate Fresh(age: real, staleTimeout: real)
  {
    0.0 <= age <= staleTimeout
  }

  /** The `connected` verdict: a well-formed payload that is fresh. */
  predicate ConnectedVerdict(s: Sample, now: real, staleTimeout: real)
  {
    PayloadOk(s) && Fresh(DataAge(now, s.timestampUs), staleTimeout)
  }

  /** Connected means: all three arrays have their expected lengths, the
      timestamp is positive, and it lies no later than now and no more than
      the timeout before it. */
  lemma ConnectedMeans(s: Sample, now: real, staleTimeout: real)
    ensures ConnectedVerdict(s, now, staleTimeout) <==>
      && |s.position| == 3 && |s.euler| == 3 && |s.quaternion| == 4
      && s.timestampUs > 0.0
      && s.timestampUs / 1000000.0 <= now <= s.timestampUs / 1000000.0 + staleTimeout
  {
  }

  /** A sample without a positive timestamp, or with any array of the wrong
      length, is never connected, whatever the time. */
  lemma NotConnectedWithoutTimestampOrPayload(s: Sample, now: real, staleTimeout: real)
    requires s.timestampUs <= 0.0 || |s.position| != 3 || |s.euler| != 3 || |s.quaternion| != 4
    ensures !ConnectedVerdict(s, now, staleTimeout)
  {
  }

  // ---------------------------------------------------------------------
  // Frame conversion.

  function NormSquared(t: Translation3): real
  {
    t.x * t.x + t.y * t.y + t.z * t.z
  }

  /** The headset pose in the robot's field frame: the headset's forward
      axis (z) becomes the robot's backward x, its x the robot's y and its up
      axis (y) the robot's z; the rotation arguments are -(pitch + 90), -roll
      and yaw, in degrees. */
  function ToWpilibPose(position: seq<real>, euler: seq<real>): (p: Pose3d)
    requires |position| >= 3 && |euler| >= 3
    ensures NormSquared(p.translation) == NormSquared(Translation3(position[0], position[1], position[2]))
    ensures p.translation.z == position[1] && p.rotation.yaw == euler[2]
  {
    Pose3d(Translation3(-position[2], position[0], position[1]),
           RotationDegrees(-(euler[1] + 90.0), -euler[0], euler[2]))
  }

  /** The headset position and Euler angles a field-frame pose comes from. */
  function FromWpilibPose(p: Pose3d): (r: (seq<real>, seq<real>))
    ensures |r.0| == 3 && |r.1| == 3
  {
    ([p.translation.y, p.translation.z, -p.translation.x],
     [-p.rotation.pitch, -p.rotation.roll - 90.0, p.rotation.yaw])
  }

  /** The conversion loses nothing: it can be undone, in both directions. */
  lemma PoseRoundTrip(position: seq<real>, euler: seq<real>, p: Pose3d)
    requires |position| == 3 && |euler| == 3
    ensures FromWpilibPose(ToWpilibPose(position, euler)) == (position, euler)
    ensures var back := FromWpilibPose(p); ToWpilibPose(back.0, back.1) == p
  {
    assert position == [position[0], position[1], position[2]];
    assert euler == [euler[0], euler[1], euler[2]];
  }

  /** A headset at the origin, level and facing along its forward axis maps
      to the field origin with the -90 degree roll offset. */
  lemma PoseAtRest()
    ensures ToWpilibPose([0.0, 0.0, 0.0], [0.0, 0.0, 0.0])
            == Pose3d(Translation3(0.0, 0.0, 0.0), RotationDegrees(-90.0, 0.0, 0.0))
    ensures ToWpilibPose([0.0, 0.0, 1.0], [0.0, 0.0, 0.0]).translation == Translation3(-1.0, 0.0, 0.0)
  {
  }

  // ---------------------------------------------------------------------
  // What one update publishes and asks to warn about.

  function LengthKey(name: string): string
  {
    "questnav_" + name + "_len"
  }

  function LengthMessage(name: string, expectedLen: nat, gotLen: nat): string
  {
    "QuestNav '" + name + "' expected len=" + NatToString(expectedLen) + ", got len=" + NatToString(gotLen)
  }

  /** The warning a length check asks for: none when the length is right. */
  function LengthRequests(name: string, values: seq<real>, expectedLen: nat, now: real): (reqs: seq<WarningRequest>)
    ensures |reqs| <= 1
    ensures reqs == [] <==> ExpectedLength(values, expectedLen)
  {
    if ExpectedLength(values, expectedLen) then []
    else [WarningRequest(LengthKey(name), LengthMessage(name, expectedLen, |values|), now)]
  }

  /** The three payload checks use three different limiter keys, so a
      recurring problem with one array never hides another. */
  lemma LengthKeysDistinct()
    ensures LengthKey("position") != LengthKey("eulerAngles")
    ensures LengthKey("position") != LengthKey("quaternion")
    ensures LengthKey("eulerAngles") != LengthKey("quaternion")
    ensures ReadKey != PoseKey && ReadKey != LengthKey("position") && PoseKey != LengthKey("position")
    ensures ReadKey != LengthKey("eulerAngles") && ReadKey != LengthKey("quaternion")
    ensures PoseKey != LengthKey("eulerAngles") && PoseKey != LengthKey("quaternion")
  {
    assert LengthKey("position")[9] != LengthKey("eulerAngles")[9];
    assert LengthKey("position")[9] != LengthKey("quaternion")[9];
    assert LengthKey("eulerAngles")[9] != LengthKey("quaternion")[9];
    assert ReadKey[9] != PoseKey[9] && ReadKey[9] != LengthKey("position")[9];
  }

  /** The warnings the three payload checks ask for, in check order:
      position, Euler angles, quaternion. */
  function PayloadRequests(s: Sample, now: real): (reqs: seq<WarningRequest>)
    ensures reqs == [] <==> PayloadOk(s)
  {
    LengthRequests("position", s.position, PositionLen, now)
    + LengthRequests("eulerAngles", s.euler, EulerLen, now)
    + LengthRequests("quaternion", s.quaternion, QuatLen, now)
  }

  /** Every warning one update asks for, in order: a read failure; or the
      length mismatches (position, Euler angles, quaternion) and then, for a
      well-formed payload, a failed pose conversion. */
  function UpdateRequests(now: real, read: ReadResult, poseConversion: Outcome): (reqs: seq<WarningRequest>)
    ensures forall i :: 0 <= i < |reqs| ==> reqs[i].at == now
  {
    match read
    case ReadFailed(reason) => [WarningRequest(ReadKey, "QuestNav NT read failed: " + reason, now)]
    case Read(s) =>
      PayloadRequests(s, now)
      + (if PayloadOk(s) && poseConversion.Fail?
         then [WarningRequest(PoseKey, "QuestNav pose conversion failed: " + poseConversion.reason, now)]
         else [])
  }

  /** The raw republication of a sample, in topic order. */
  function RawPublications(s: Sample): seq<Publication>
  {
    [TrackingStatus(s.trackingStatus), BatteryPercent(s.batteryPercent), Version(s.version),
     RawPosition(s.position), RawEulerAngles(s.euler), RawQuaternion(s.quaternion),
     LastTimestampUs(s.timestampUs)]
  }

  /** Every write one update makes, in order. */
  function UpdatePublications(now: real, read: ReadResult, poseConversion: Outcome, staleTimeout: real): seq<Publication>
  {
    match read
    case ReadFailed(_) => [Connected(false), DataAgeSec(-1.0)]
    case Read(s) =>
      var age := DataAge(now, s.timestampUs);
      RawPublications(s) + [DataAgeSec(age), Connected(PayloadOk(s) && Fresh(age, staleTimeout))]
      + (if !PayloadOk(s) then []
         else if poseConversion.Ok? then [Pose(ToWpilibPose(s.position, s.euler))]
         else [Connected(false)])
  }

  /** What a subscriber of the `Connected` topic sees after a run of writes:
      the last value written, if any. */
  function LastConnected(log: seq<Publication>): Option<bool>
  {
    if log == [] then None
    else if log[|log| - 1].Connected? then Some(log[|log| - 1].connected)
    else LastConnected(log[..|log| - 1])
  }

  lemma {:induction false} LastConnectedAppend(a: seq<Publication>, b: seq<Publication>)
    ensures LastConnected(a + b) == if LastConnected(b).Some? then LastConnected(b) else LastConnected(a)
    decreases |b|
  {
    if b == [] {
      assert a + b == a;
    } else {
      assert (a + b)[..|a + b| - 1] == a + b[..|b| - 1];
      assert (a + b)[|a + b| - 1] == b[|b| - 1];
      LastConnectedAppend(a, b[..|b| - 1]);
    }
  }

  /** After an update the `Connected` topic holds the verdict: a sample was
      read, its payload is well-formed and fresh, and its pose converted. */
  lemma UpdateConnected(now: real, read: ReadResult, poseConversion: Outcome, staleTimeout: real)
    ensures LastConnected(UpdatePublications(now, read, poseConversion, staleTimeout))
            == Some(read.Read? && ConnectedVerdict(read.sample, now, staleTimeout) && poseConversion.Ok?)
  {
    if read.Read? {
      var s := read.sample;
      var age := DataAge(now, s.timestampUs);
      var tail := if !PayloadOk(s) then []
                  else if poseConversion.Ok? then [Pose(ToWpilibPose(s.position, s.euler))]
                  else [Connected(false)];
      LastConnectedAppend(RawPublications(s) + [DataAgeSec(age), Connected(PayloadOk(s) && Fresh(age, staleTimeout))], tail);
      LastConnectedAppend(RawPublications(s) + [DataAgeSec(age)], [Connected(PayloadOk(s) && Fresh(age, staleTimeout))]);
    }
  }

  /** A failed read writes only `connected = false` and an age of -1, and
      asks for one warning under the read key. */
  lemma ReadFailurePublishesOnlyFallback(now: real, reason: string, poseConversion: Outcome, staleTimeout: real)
    ensures UpdatePublications(now, ReadFailed(reason), poseConversion, staleTimeout) == [Connected(false), DataAgeSec(-1.0)]
    ensures UpdateRequests(now, ReadFailed(reason), poseConversion) == [WarningRequest(ReadKey, "QuestNav NT read failed: " + reason, now)]
  {
  }

  /** A malformed payload publishes no pose and never reaches the conversion;
      a well-formed one publishes exactly one pose when the conversion succeeds. */
  lemma PoseOnlyForWellFormedPayload(now: real, s: Sample, poseConversion: Outcome, staleTimeout: real)
    ensures var log := UpdatePublications(now, Read(s), poseConversion, staleTimeout);
      (exists i :: 0 <= i < |log| && log[i].Pose?) <==> PayloadOk(s) && poseConversion.Ok?
    ensures !PayloadOk(s) ==> UpdateRequests(now, Read(s), poseConversion) == UpdateRequests(now, Read(s), Ok)
  {
    var log := UpdatePublications(now, Read(s), poseConversion, staleTimeout);
    if PayloadOk(s) && poseConversion.Ok? {
      assert log[|log| - 1].Pose?;
    }
  }

  /** The age written by an update is the data age of the sample read, or -1
      when nothing could be read; it is written right after the raw values. */
  lemma UpdateDataAge(now: real, read: ReadResult, poseConversion: Outcome, staleTimeout: real)
    ensures var log := UpdatePublications(now, read, poseConversion, staleTimeout);
      read.ReadFailed? ==> log[1] == DataAgeSec(-1.0)
    ensures var log := UpdatePublications(now, read, poseConversion, staleTimeout);
      read.Read? ==> log[..7] == RawPublications(read.sample) && log[7] == DataAgeSec(DataAge(now, read.sample.timestampUs))
  {
  }

  /** A well-formed payload asks for no length warning. */
  lemma WellFormedPayloadIsQuiet(now: real, s: Sample)
    requires PayloadOk(s)
    ensures UpdateRequests(now, Read(s), Ok) == []
  {
  }

  // ---------------------------------------------------------------------
  // The bridge object.

  class QuestNavNtBridge {
    const staleTimeoutS: real
    const warningIntervalS: real
    /** The time of the last report per limiter key. */
    var lastWarningS: map<string, real>
    /** Every warning reported, in order. */
    var warnings: seq<string>
    /** Every write to an output topic, in order. */
    var published: seq<Publication>

    function WarningsState(): WarningState
      reads this`lastWarningS, this`warnings
    {
      WarningState(lastWarningS, warnings)
    }

    /** Publishes the start-up values: disconnected, no data age, teleop
        inactive, and the default start pose. */
    constructor (staleTimeout: real := StaleTimeoutS)
      ensures staleTimeoutS == staleTimeout && warningIntervalS == WarningIntervalS
      ensures lastWarningS == map[] && warnings == []
      ensures published == [Connected(false), DataAgeSec(-1.0), TeleopActive(false), Pose(DefaultStartPose)]
    {
      staleTimeoutS := staleTimeout;
      warningIntervalS := WarningIntervalS;
      lastWarningS := map[];
      warnings := [];
      published := [Connected(false), DataAgeSec(-1.0), TeleopActive(false)];
      new;
      PublishDefaultStartPose();
    }

    method PublishDefaultStartPose()
      modifies this`published
      ensures published == old(published) + [Pose(DefaultStartPose)]
    {
      published := published + [Pose(DefaultStartPose)];
    }

    /** Marks teleop active, resets the connection display and shows the
        default start pose again. */
    method OnTeleopEnable()
      modifies this`published
      ensures published == old(published) + [TeleopActive(true), Connected(false), DataAgeSec(-1.0), Pose(DefaultStartPose)]
      ensures LastConnected(published) == Some(false)
    {
      published := published + [TeleopActive(true), Connected(false), DataAgeSec(-1.0)];
      PublishDefaultStartPose();
      var reset := [TeleopActive(true), Connected(false), DataAgeSec(-1.0), Pose(DefaultStartPose)];
      assert published == old(published) + reset;
      LastConnectedAppend(old(published), reset);
      assert reset == [TeleopActive(true), Connected(false)] + [DataAgeSec(-1.0), Pose(DefaultStartPose)];
      assert [DataAgeSec(-1.0), Pose(DefaultStartPose)][..1] == [DataAgeSec(-1.0)];
      assert [DataAgeSec(-1.0)][..0] == [];
      LastConnectedAppend([TeleopActive(true), Connected(false)], [DataAgeSec(-1.0), Pose(DefaultStartPose)]);
    }

    /** Marks teleop inactive and the headset disconnected. */
    method OnTeleopDisable()
      modifies this`published
      ensures published == old(published) + [TeleopActive(false), Connected(false)]
      ensures LastConnected(published) == Some(false)
    {
      published := published + [TeleopActive(false), Connected(false)];
      LastConnectedAppend(old(published), [TeleopActive(false), Connected(false)]);
    }

    /** Reports `message` unless a warning under `key` was reported less than
        the interval ago; a report records `now` for that key. */
    method WarnRateLimited(key: string, message: string, now: real)
      modifies this`lastWarningS, this`warnings
      ensures WarningsState() == Step(old(WarningsState()), WarningRequest(key, message, now), warningIntervalS)
    {
      if key in lastWarningS && now - lastWarningS[key] < warningIntervalS {
        return;
      }
      lastWarningS := lastWarningS[key := now];
      warnings := warnings + [message];
    }

    /** Whether `values` has the expected length; a mismatch is reported
        through the rate limiter under the array's own key. */
    method IsExpectedLength(name: string, values: seq<real>, expectedLen: nat, now: real) returns (ok: bool)
      modifies this`lastWarningS, this`warnings
      ensures ok <==> |values| == expectedLen
      ensures WarningsState() == Replay(old(WarningsState()), LengthRequests(name, values, expectedLen, now), warningIntervalS)
    {
      if |values| == expectedLen {
        return true;
      }
      WarnRateLimited(LengthKey(name), LengthMessage(name, expectedLen, |values|), now);
      ReplaySnoc(old(WarningsState()), [], WarningRequest(LengthKey(name), LengthMessage(name, expectedLen, |values|), now), warningIntervalS);
      return false;
    }

    /** Checks the lengths of the three payload arrays in order, each
        mismatch reported under its own key. */
    method CheckPayload(s: Sample, now: real) returns (payloadOk: bool)
      modifies this`lastWarningS, this`warnings
      ensures payloadOk == PayloadOk(s)
      ensures WarningsState() == Replay(old(WarningsState()), PayloadRequests(s, now), warningIntervalS)
    {
      var positionOk := IsExpectedLength("position", s.position, PositionLen, now);
      var eulerOk := IsExpectedLength("eulerAngles", s.euler, EulerLen, now);
      var quaternionOk := IsExpectedLength("quaternion", s.quaternion, QuatLen, now);
      payloadOk := positionOk && eulerOk && quaternionOk;
      ReplayConcat(old(WarningsState()), LengthRequests("position", s.position, PositionLen, now),
                   LengthRequests("eulerAngles", s.euler, EulerLen, now), warningIntervalS);
      ReplayConcat(old(WarningsState()),
                   LengthRequests("position", s.position, PositionLen, now) + LengthRequests("eulerAngles", s.euler, EulerLen, now),
                   LengthRequests("quaternion", s.quaternion, QuatLen, now), warningIntervalS);
    }

    /** One telemetry cycle at time `now`, from what the topics yield. */
    method Update(now: real, read: ReadResult, poseConversion: Outcome)
      modifies this`lastWarningS, this`warnings, this`published
      ensures published == old(published) + UpdatePublications(now, read, poseConversion, staleTimeoutS)
      ensures WarningsState() == Replay(old(WarningsState()), UpdateRequests(now, read, poseConversion), warningIntervalS)
      ensures LastConnected(published)
              == Some(read.Read? && ConnectedVerdict(read.sample, now, staleTimeoutS) && poseConversion.Ok?)
    {
      if read.ReadFailed? {
        var q := WarningRequest(ReadKey, "QuestNav NT read failed: " + read.reason, now);
        WarnRateLimited(q.key, q.message, now);
        ReplaySnoc(old(WarningsState()), [], q, warningIntervalS);
        assert UpdateRequests(now, read, poseConversion) == [] + [q];
        published := published + [Connected(false), DataAgeSec(-1.0)];
      } else {
        PublishSample(now, read.sample, poseConversion);
      }
      UpdateConnected(now, read, poseConversion, staleTimeoutS);
      LastConnectedAppend(old(published), UpdatePublications(now, read, poseConversion, staleTimeoutS));
    }

    /** The part of an update after a successful read: republish the raw
        values and the data age, check the payload, publish the verdict and,
        for a well-formed payload, the converted pose. */
    method PublishSample(now: real, s: Sample, poseConversion: Outcome)
      modifies this`lastWarningS, this`warnings, this`published
      ensures published == old(published) + UpdatePublications(now, Read(s), poseConversion, staleTimeoutS)
      ensures WarningsState() == Replay(old(WarningsState()), UpdateRequests(now, Read(s), poseConversion), warningIntervalS)
    {
      var age := DataAge(now, s.timestampUs);
      published := published + RawPublications(s) + [DataAgeSec(age)];
      var payloadOk := CheckPayload(s, now);
      var connected := payloadOk && Fresh(age, staleTimeoutS);
      published := published + [Connected(connected)];
      ghost var head := RawPublications(s) + [DataAgeSec(age), Connected(connected)];
      assert published == old(published) + head;
      var tail: seq<Publication> := [];
      if payloadOk {
        match poseConversion {
          case Ok =>
            tail := [Pose(ToWpilibPose(s.position, s.euler))];
          case Fail(reason) =>
            var q := WarningRequest(PoseKey, "QuestNav pose conversion failed: " + reason, now);
            WarnRateLimited(q.key, q.message, now);
            ReplaySnoc(old(WarningsState()), PayloadRequests(s, now), q, warningIntervalS);
            assert UpdateRequests(now, Read(s), poseConversion) == PayloadRequests(s, now) + [q];
            tail := [Connected(false)];
        }
      }
      published := published + tail;
      assert UpdatePublications(now, Read(s), poseConversion, staleTimeoutS) == head + tail;
      assert published == old(published) + (head + tail);
      if !(payloadOk && poseConversion.Fail?) {
        assert UpdateRequests(now, Read(s), poseConversion) == PayloadRequests(s, now);
      }
    }
  }

  /** Running two batches of requests is running them one after the other. */
  lemma {:induction false} ReplayConcat(st: WarningState, a: seq<WarningRequest>, b: seq<WarningRequest>, interval: real)
    ensures Replay(st, a + b, interval) == Replay(Replay(st, a, interval), b, interval)
    decreases |b|
  {
    if b != [] {
      assert (a + b)[..|a + b| - 1] == a + b[..|b| - 1];
      ReplayConcat(st, a, b[..|b| - 1], interval);
    } else {
      assert a + b == a;
    }
  }
}
