/** Track filtering, the constraints map of a stream and the getUserMedia
    constraint fallback ladder of `StreamHelper`. Media devices, recorders
    and video elements are outside the model: a stream is the list of
    tracks its `getTracks()` returns, and the browser's decision to grant
    a set of constraints is a parameter. */
module StreamHelper {
  import opened Options
  import opened Sequences

  /** A JavaScript primitive as read from a track property; a property that
      is not there reads as `Undefined`. */
  datatype Prim = Undefined | Null | Bool(b: bool) | Str(s: string)

  /** A MediaStreamTrack: its readable properties (`kind`, `enabled`,
      `readyState`, `muted`, ...) and the object `getConstraints()` returns. */
  datatype Track = Track(props: map<string, Prim>, constraints: map<string, Prim>)

  /** `track[attr]`. */
  function Get(t: Track, attr: string): Prim {
    if attr in t.props then t.props[attr] else Undefined
  }

  /** The property name a primitive becomes when used as an object key. */
  function PropertyName(p: Prim): string {
    match p
    case Undefined => "undefined"
    case Null => "null"
    case Bool(b) => if b then "true" else "false"
    case Str(s) => s
  }

  // ---------------------------------------------------------------------
  // Filters over the track list

  /** `track[attr] === value`. */
  function AttributeIs(attr: string, value: Prim): Track -> bool {
    t => Get(t, attr) == value
  }

  /** The per-track test of getTracksByStatus: every field that is defined
      must agree with `status`; undefined fields never exclude a track. */
  predicate StatusAgrees(t: Track, status: bool) {
    && !(Get(t, "enabled") != Undefined && Get(t, "enabled") != Bool(status))
    && !(Get(t, "readyState") != Undefined &&
         ((Get(t, "readyState") == Str("live") && !status) ||
          (Get(t, "readyState") == Str("ended") && status)))
    && !(Get(t, "muted") != Undefined && Get(t, "muted") != Bool(!status))
  }

  function StatusIs(status: bool): Track -> bool {
    t => StatusAgrees(t, status)
  }

  /** StreamHelper.getTracksByAttribute: the tracks with `track[attr] === value`. */
  method GetTracksByAttribute(tracks: seq<Track>, attr: string, value: Prim) returns (r: seq<Track>)
    ensures r == Filter(tracks, AttributeIs(attr, value))
    ensures IsSubsequence(r, tracks)
    ensures forall t :: multiset(r)[t] == if Get(t, attr) == value then multiset(tracks)[t] else 0
  {
    r := [];
    for i := 0 to |tracks|
      invariant r == Filter(tracks[..i], AttributeIs(attr, value))
    {
      var track := tracks[i];
      FilterSnoc(tracks[..i], track, AttributeIs(attr, value));
      assert tracks[..i + 1] == tracks[..i] + [track];
      if Get(track, attr) == value {
        r := r + [track];
      }
    }
    assert tracks[..|tracks|] == tracks;
    FilterIsSubsequence(tracks, AttributeIs(attr, value));
    forall t ensures multiset(r)[t] == if Get(t, attr) == value then multiset(tracks)[t] else 0 {
      FilterCount(tracks, AttributeIs(attr, value), t);
    }
  }

  /** StreamHelper.getTracksByType: getTracksByAttribute on `kind`. */
  method GetTracksByType(tracks: seq<Track>, kind: string) returns (r: seq<Track>)
    ensures r == Filter(tracks, AttributeIs("kind", Str(kind)))
    ensures forall t :: t in r <==> t in tracks && Get(t, "kind") == Str(kind)
  {
    r := GetTracksByAttribute(tracks, "kind", Str(kind));
    forall t ensures t in r <==> t in tracks && Get(t, "kind") == Str(kind) {
      assert multiset(r)[t] == if Get(t, "kind") == Str(kind) then multiset(tracks)[t] else 0;
    }
  }

  /** The polyfilled MediaStream.getAudioTracks: the tracks of kind `audio`. */
  method GetAudioTracks(tracks: seq<Track>) returns (audioTracks: seq<Track>)
    ensures audioTracks == Filter(tracks, AttributeIs("kind", Str("audio")))
  {
    audioTracks := [];
    for i := 0 to |tracks|
      invariant audioTracks == Filter(tracks[..i], AttributeIs("kind", Str("audio")))
    {
      var track := tracks[i];
      FilterSnoc(tracks[..i], track, AttributeIs("kind", Str("audio")));
      assert tracks[..i + 1] == tracks[..i] + [track];
      if Get(track, "kind") == Str("audio") {
        audioTracks := audioTracks + [track];
      }
    }
    assert tracks[..|tracks|] == tracks;
  }

  /** The polyfilled MediaStream.getVideoTracks: the tracks of kind `video`. */
  method GetVideoTracks(tracks: seq<Track>) returns (videoTracks: seq<Track>)
    ensures videoTracks == Filter(tracks, AttributeIs("kind", Str("video")))
  {
    videoTracks := [];
    for i := 0 to |tracks|
      invariant videoTracks == Filter(tracks[..i], AttributeIs("kind", Str("video")))
    {
      var track := tracks[i];
      FilterSnoc(tracks[..i], track, AttributeIs("kind", Str("video")));
      assert tracks[..i + 1] == tracks[..i] + [track];
      if Get(track, "kind") == Str("video") {
        videoTracks := videoTracks + [track];
      }
    }
    assert tracks[..|tracks|] == tracks;
  }

  /** A track is of kind audio or of kind video, never both: the two polyfill
      filters never return the same track. */
  lemma AudioAndVideoTracksDisjoint(tracks: seq<Track>)
    ensures forall t :: t in Filter(tracks, AttributeIs("kind", Str("audio")))
                     ==> t !in Filter(tracks, AttributeIs("kind", Str("video")))
  {
    forall t | t in Filter(tracks, AttributeIs("kind", Str("audio")))
      ensures t !in Filter(tracks, AttributeIs("kind", Str("video")))
    {
      FilterCount(tracks, AttributeIs("kind", Str("video")), t);
      FilterCount(tracks, AttributeIs("kind", Str("audio")), t);
    }
  }

  /** StreamHelper.getTracksByStatus: the tracks whose defined fields agree
      with `status` (enabled and not muted for `true`). */
  method GetTracksByStatus(tracks: seq<Track>, status: bool) returns (fTracks: seq<Track>)
    ensures fTracks == Filter(tracks, StatusIs(status))
    ensures IsSubsequence(fTracks, tracks)
  {
    fTracks := [];
    var i := 0;
    while i < |tracks|
      invariant 0 <= i <= |tracks|
      invariant fTracks == Filter(tracks[..i], StatusIs(status))
    {
      var track := tracks[i];
      FilterSnoc(tracks[..i], track, StatusIs(status));
      assert tracks[..i + 1] == tracks[..i] + [track];
      i := i + 1;

      // Enabled
      if Get(track, "enabled") != Undefined && Get(track, "enabled") != Bool(status) {
        continue;
      }
      // ReadyState
      if Get(track, "readyState") != Undefined &&
         ((Get(track, "readyState") == Str("live") && !status) ||
          (Get(track, "readyState") == Str("ended") && status)) {
        continue;
      }
      // Muted
      if Get(track, "muted") != Undefined && Get(track, "muted") != Bool(!status) {
        continue;
      }
      fTracks := fTracks + [track];
    }
    assert tracks[..|tracks|] == tracks;
    FilterIsSubsequence(tracks, StatusIs(status));
  }

  /** A track that defines `enabled`, `muted`, or a `readyState` of `live`
      or `ended` is kept for at most one of the two statuses. */
  lemma StatusesExclusive(t: Track)
    requires Get(t, "enabled").Bool? || Get(t, "muted").Bool?
          || Get(t, "readyState") in {Str("live"), Str("ended")}
    ensures !(StatusAgrees(t, true) && StatusAgrees(t, false))
  {
  }

  /** A track with none of the three fields defined is kept for both statuses. */
  lemma UndefinedFieldsNeverExclude(t: Track, status: bool)
    requires Get(t, "enabled") == Undefined && Get(t, "readyState") == Undefined
    requires Get(t, "muted") == Undefined
    ensures StatusAgrees(t, status)
  {
  }

  /** A live, enabled, unmuted track is kept for `true` and dropped for `false`. */
  lemma ActiveTrackStatus(t: Track)
    requires Get(t, "enabled") == Bool(true) && Get(t, "readyState") == Str("live")
    requires Get(t, "muted") == Bool(false)
    ensures StatusAgrees(t, true) && !StatusAgrees(t, false)
  {
  }

  // ---------------------------------------------------------------------
  // Streams

  /** A MediaStream as far as these helpers look at it: the list its
      `getTracks` method returns, or `None` when it has no such method. */
  datatype MediaStream = MediaStream(getTracks: Option<seq<Track>>)

  /** StreamHelper.getStreamTracks: the tracks, or [] without `getTracks`. */
  function GetStreamTracks(stream: MediaStream): (r: seq<Track>)
    ensures stream.getTracks.None? ==> r == []
    ensures stream.getTracks.Some? ==> r == stream.getTracks.value
  {
    match stream.getTracks
    case Some(tracks) => tracks
    case None => []
  }

  /** One value of the constraints map: the track's own constraints when it
      has any, `true` otherwise. */
  datatype Requested = Constrained(constraints: map<string, Prim>) | Requested

  function RequestFor(t: Track): (r: Requested)
    ensures r.Constrained? <==> |t.constraints| > 0
    ensures r.Constrained? ==> r.constraints == t.constraints
  {
    if |t.constraints| > 0 then Constrained(t.constraints) else Requested
  }

  /** The map the forEach of getStreamConstraints has built after the given
      tracks: each track writes its kind's key, later ones overwriting. */
  function StreamConstraints(tracks: seq<Track>): map<string, Requested> {
    if tracks == [] then map[]
    else
      var last := tracks[|tracks| - 1];
      StreamConstraints(tracks[..|tracks| - 1])[KindKey(last) := RequestFor(last)]
  }

  /** The key a track writes: its kind as a property name. */
  function KindKey(t: Track): string {
    PropertyName(Get(t, "kind"))
  }

  /** No track after index `i` has the same kind as track `i`. */
  predicate LastOfKind(tracks: seq<Track>, i: int)
    requires 0 <= i < |tracks|
  {
    forall j :: i < j < |tracks| ==> KindKey(tracks[j]) != KindKey(tracks[i])
  }

  /** The keys are exactly the kinds of the tracks. */
  lemma {:induction false} StreamConstraintsKeys(tracks: seq<Track>)
    ensures forall k :: k in StreamConstraints(tracks) <==>
                          exists i :: 0 <= i < |tracks| && KindKey(tracks[i]) == k
  {
    if tracks != [] {
      var n := |tracks| - 1;
      var init := tracks[..n];
      StreamConstraintsKeys(init);
      forall k ensures k in StreamConstraints(tracks) <==>
                         exists i :: 0 <= i < |tracks| && KindKey(tracks[i]) == k
      {
        if k in StreamConstraints(init) {
          var i :| 0 <= i < |init| && KindKey(init[i]) == k;
          assert tracks[i] == init[i];
        }
        if exists i :: 0 <= i < |tracks| && KindKey(tracks[i]) == k {
          var i :| 0 <= i < |tracks| && KindKey(tracks[i]) == k;
          if i < n {
            assert init[i] == tracks[i];
          }
        }
      }
    }
  }

  /** Each key holds the value of the LAST track of that kind. */
  lemma {:induction false} StreamConstraintsLastWins(tracks: seq<Track>, i: int)
    requires 0 <= i < |tracks| && LastOfKind(tracks, i)
    ensures KindKey(tracks[i]) in StreamConstraints(tracks)
    ensures StreamConstraints(tracks)[KindKey(tracks[i])] == RequestFor(tracks[i])
  {
    var n := |tracks| - 1;
    if i < n {
      var init := tracks[..n];
      assert init[i] == tracks[i];
      forall j | i < j < |init| ensures KindKey(init[j]) != KindKey(init[i]) {
        assert init[j] == tracks[j];
      }
      StreamConstraintsLastWins(init, i);
    }
  }

  /** StreamHelper.getStreamConstraints. */
  method GetStreamConstraints(tracks: seq<Track>) returns (constraints: map<string, Requested>)
    ensures constraints == StreamConstraints(tracks)
    ensures forall k :: k in constraints <==> exists t :: t in tracks && KindKey(t) == k
  {
    constraints := map[];
    for i := 0 to |tracks|
      invariant constraints == StreamConstraints(tracks[..i])
    {
      var track := tracks[i];
      assert tracks[..i + 1][..i] == tracks[..i];
      constraints := constraints[KindKey(track) := RequestFor(track)];
    }
    assert tracks[..|tracks|] == tracks;
    StreamConstraintsKeys(tracks);
    forall k ensures k in constraints <==> exists t :: t in tracks && KindKey(t) == k {
      if exists t :: t in tracks && KindKey(t) == k {
        var t :| t in tracks && KindKey(t) == k;
        var i :| 0 <= i < |tracks| && tracks[i] == t;
      }
    }
  }

  // ---------------------------------------------------------------------
  // Camera stream object

  /** What getUserMedia hands to its callback: a stream, or the StreamError
      record (`isError: true`). */
  datatype Received = Stream(stream: MediaStream) | StreamError(error: Option<string>)

  predicate IsError(r: Received) {
    r.StreamError?
  }

  /** The video element handleCameraStream creates: autoplaying, showing the stream. */
  datatype VideoElement = VideoElement(autoplay: bool, srcObject: Received)

  /** StreamHelper.StreamObject: stream, deprecated object URL and video element. */
  class StreamObject {
    var stream: Option<Received>
    var objectUrl: Option<string>
    var video: Option<VideoElement>

    constructor ()
      ensures stream.None? && objectUrl.None? && video.None?
    {
      stream, objectUrl, video := None, None, None;
    }
  }

  /** StreamHelper.handleCameraStream: refuses a missing stream or an error
      record, returning `null`, which stands for the source's `false` (both
      are falsy and neither is a StreamObject); otherwise fills `obj` (or a new StreamObject) with the
      stream and an autoplaying video element showing it. */
  method HandleCameraStream(stream: Option<Received>, obj: StreamObject?) returns (o: StreamObject?)
    modifies obj
    ensures (stream.None? || IsError(stream.value)) ==> o == null
    ensures (stream.None? || IsError(stream.value)) && obj != null ==> unchanged(obj)
    ensures stream.Some? && !IsError(stream.value) ==>
              && o != null
              && (obj != null ==> o == obj)
              && (obj == null ==> fresh(o))
              && o.stream == stream
              && o.video == Some(VideoElement(true, stream.value))
              && (obj != null ==> o.objectUrl == old(obj.objectUrl))
  {
    if stream.None? || IsError(stream.value) {
      return null;
    }
    o := obj;
    if o == null {
      o := new StreamObject();
    }
    o.stream := stream;
    o.video := Some(VideoElement(true, stream.value));
  }

  // ---------------------------------------------------------------------
  // Polyfill

  /** The functions the polyfill can install. */
  datatype Handler = AudioTracksPolyfill | VideoTracksPolyfill | Builtin(id: nat)

  /** The prototype shared by streams. */
  class Prototype {
    var members: map<string, Handler>
    constructor (members: map<string, Handler>)
      ensures this.members == members
    {
      this.members := members;
    }
  }

  /** A stream object: its own members and its prototype. */
  class StreamValue {
    var own: map<string, Handler>
    const proto: Prototype
    constructor (own: map<string, Handler>, proto: Prototype)
      ensures this.own == own && this.proto == proto
    {
      this.own := own;
      this.proto := proto;
    }

    /** `object[key] === undefined`: neither the object nor its prototype has it. */
    predicate Lacks(key: string)
      reads this, proto
    {
      key !in own && key !in proto.members
    }
  }

  /** polyfill.ensure: installs `handle` on the prototype only when
      `object[key]` is undefined; an existing member is never overwritten. */
  method Ensure(obj: StreamValue, key: string, handle: Handler)
    modifies obj.proto
    ensures old(obj.Lacks(key)) ==> obj.proto.members == old(obj.proto.members)[key := handle]
    ensures !old(obj.Lacks(key)) ==> obj.proto.members == old(obj.proto.members)
    ensures forall k :: k in old(obj.proto.members) ==>
                          k in obj.proto.members && obj.proto.members[k] == old(obj.proto.members[k])
  {
    if key !in obj.own && key !in obj.proto.members {
      obj.proto.members := obj.proto.members[key := handle];
    }
  }

  // ---------------------------------------------------------------------
  // The getUserMedia fallback ladder

  /** The value of `video` or `audio` in a MediaStreamConstraints object. */
  datatype Constraint = Absent | NullConstraint | Flag(on: bool) | Settings(props: map<string, Prim>)

  /** `typeof c === 'object'`, which holds for `null` too. */
  predicate IsObject(c: Constraint) {
    c.NullConstraint? || c.Settings?
  }

  /** One step of onErrorHandle on (video, audio): the simplified pair to retry
      with, or None when the error is reported. */
  function FallbackStep(video: Constraint, audio: Constraint): (r: Option<(Constraint, Constraint)>)
    ensures r.Some? ==> Weight(r.value.0, r.value.1) < Weight(video, audio)
    ensures r.None? <==> !IsObject(video) && !IsObject(audio) && !(video == Flag(true) && audio == Flag(true))
  {
    if IsObject(video) then Some((Flag(true), audio))
    else if IsObject(audio) then Some((video, Flag(true)))
    else if video == Flag(true) && audio == Flag(true) then Some((video, Flag(false)))
    else None
  }

  /** How many simplifications are left: an object video, an object audio,
      and an audio still requested. */
  function Weight(video: Constraint, audio: Constraint): (w: nat)
    ensures w <= 3
  {
    (if IsObject(video) then 1 else 0) + (if IsObject(audio) then 1 else 0)
      + (if IsObject(audio) || audio == Flag(true) then 1 else 0)
  }

  /** The constraints tried, in order, when every attempt fails. */
  function Ladder(video: Constraint, audio: Constraint): (r: seq<(Constraint, Constraint)>)
    ensures 1 <= |r| <= Weight(video, audio) + 1 <= 4
    ensures r[0] == (video, audio)
    ensures FallbackStep(r[|r| - 1].0, r[|r| - 1].1).None?
    ensures forall i :: 0 <= i < |r| - 1 ==> FallbackStep(r[i].0, r[i].1) == Some(r[i + 1])
    decreases Weight(video, audio)
  {
    match FallbackStep(video, audio)
    case None => [(video, audio)]
    case Some(next) => [(video, audio)] + Ladder(next.0, next.1)
  }

  /** The constraints object the ladder rewrites in place. */
  class MediaStreamConstraints {
    var video: Constraint
    var audio: Constraint

    /** StreamHelper.getUnlimitedConstraints. */
    constructor Unlimited()
      ensures video == Flag(true) && audio == Flag(true)
    {
      video, audio := Flag(true), Flag(true);
    }

    constructor (video: Constraint, audio: Constraint)
      ensures this.video == video && this.audio == audio
    {
      this.video, this.audio := video, audio;
    }

    /** The constraint-rewriting part of onErrorHandle. */
    method OnErrorHandle() returns (isError: bool)
      modifies this
      ensures isError <==> FallbackStep(old(video), old(audio)).None?
      ensures isError ==> video == old(video) && audio == old(audio)
      ensures !isError ==> (video, audio) == FallbackStep(old(video), old(audio)).value
    {
      isError := false;
      if IsObject(video) {
        video := Flag(true);
      } else if IsObject(audio) {
        audio := Flag(true);
      } else if video == Flag(true) && audio == Flag(true) {
        audio := Flag(false);
      } else {
        isError := true;
      }
    }
  }

  /** getUserMediaWithWorkingConstraints with the asynchronous callbacks
      unrolled into a loop: `grants` is the browser's answer to a request.
      The requests made are a prefix of the ladder, so there are at most
      four of them (three retries). */
  method GetUserMediaWithWorkingConstraints(constraints: MediaStreamConstraints,
                                            grants: (Constraint, Constraint) -> bool)
    returns (granted: bool, attempts: nat)
    modifies constraints
    ensures 1 <= attempts <= |Ladder(old(constraints.video), old(constraints.audio))| <= 4
    ensures (constraints.video, constraints.audio) == Ladder(old(constraints.video), old(constraints.audio))[attempts - 1]
    ensures forall i :: 0 <= i < attempts - 1 ==>
                          !grants(Ladder(old(constraints.video), old(constraints.audio))[i].0,
                                  Ladder(old(constraints.video), old(constraints.audio))[i].1)
    ensures granted == grants(constraints.video, constraints.audio)
    ensures !granted ==> attempts == |Ladder(old(constraints.video), old(constraints.audio))|
  {
    ghost var ladder := Ladder(constraints.video, constraints.audio);
    attempts := 1;
    granted := grants(constraints.video, constraints.audio);
    while !granted
      invariant 1 <= attempts <= |ladder|
      invariant (constraints.video, constraints.audio) == ladder[attempts - 1]
      invariant granted == grants(constraints.video, constraints.audio)
      invariant forall i :: 0 <= i < attempts - 1 ==> !grants(ladder[i].0, ladder[i].1)
      decreases |ladder| - attempts
    {
      var isError := constraints.OnErrorHandle();
      if isError {
        break;
      }
      attempts := attempts + 1;
      granted := grants(constraints.video, constraints.audio);
    }
  }
}
