/** The per-speaker audio segmenter of the voice pipeline: frames of PCM audio
    arrive per speaker, are buffered until the speaker goes quiet, and are then
    handed out once as a segment while that speaker is marked as processing. */
module VoiceSink {
  import opened Wrappers

  /** Minimum segment size in bytes (about half a second of 48 kHz stereo). */
  const MIN_AUDIO_LENGTH: nat := 48000
  /** Buffer size beyond which new frames are refused. */
  const MAX_AUDIO_LENGTH: nat := 960000
  /** One second of silence, in milliseconds (timestamps are integer milliseconds). */
  const SILENCE_TIMEOUT_MS: int := 1000
  /** Default loudness threshold of the RMS gate. */
  const MIN_RMS: int := 150
  /** Speaker id used for frames that carry no user. */
  const UNKNOWN_SPEAKER: int := 0

  // ---------------------------------------------------------------------
  // Access filters
  // ---------------------------------------------------------------------

  /** The voice handler settings that `write` consults. `allowedUsers` is the
      allow-list the sink reads; an empty set means "no allow-list". */
  datatype Policy = Policy(listening: bool, ownerOnly: bool, ownerId: Option<int>,
                           allowedUsers: set<int>, blockedUsers: set<int>)

  /** What the filters at the top of `write` decide for one frame. */
  datatype Filter = Pass | Drop | AttributeError

  /** The filters of `write`, in source order: listening, owner-only,
      allow-list, block list. */
  function Admission(p: Policy, user: Option<int>): (f: Filter)
    ensures f != AttributeError
    ensures f == Pass <==>
      && p.listening
      && (p.ownerOnly && user.Some? ==> p.ownerId == Some(user.value))
      && (!p.ownerOnly && p.allowedUsers != {} ==> user.Some? && user.value in p.allowedUsers)
      && (user.Some? ==> user.value !in p.blockedUsers)
  {
    if !p.listening then Drop
    else if p.ownerOnly && user.Some? && Some(user.value) != p.ownerId then Drop
    else if !p.ownerOnly && p.allowedUsers != {} && (user.None? || user.value !in p.allowedUsers) then Drop
    else if user.Some? && user.value in p.blockedUsers then Drop
    else Pass
  }

  /** The handler as it is actually constructed: it has no `allowed_users`
      attribute at all, so the only settings there are are these four. */
  datatype HandlerFields = HandlerFields(listening: bool, ownerOnly: bool, ownerId: Option<int>,
                                         blockedUsers: set<int>)

  /** The filters of `write` run against a handler that lacks `allowed_users`:
      the allow-list test reads the missing attribute (raising) whenever
      owner-only mode is off. */
  function AdmissionAsWritten(h: HandlerFields, user: Option<int>): (f: Filter)
    ensures f == AttributeError <==> h.listening && !h.ownerOnly
  {
    if !h.listening then Drop
    else if h.ownerOnly && user.Some? && Some(user.value) != h.ownerId then Drop
    else if !h.ownerOnly then AttributeError
    else if user.Some? && user.value in h.blockedUsers then Drop
    else Pass
  }

  /** The handler's settings right after construction. */
  const DEFAULT_FIELDS := HandlerFields(true, false, None, {})

  /** The corrected handler: the same defaults plus an empty allow-list. */
  const DEFAULT_POLICY := Policy(true, false, None, {}, {})

  /** With the handler as constructed, a frame from any speaker raises instead
      of being buffered; with an empty allow-list the same frame passes. */
  lemma DefaultHandlerRaisesOnEveryFrame(user: Option<int>)
    ensures AdmissionAsWritten(DEFAULT_FIELDS, user) == AttributeError
    ensures Admission(DEFAULT_POLICY, user) == Pass
  {
  }

  /** Owner-only mode admits exactly the owner (and frames without a user),
      whatever the allow-list says. */
  lemma OwnerOnlyAdmitsOnlyOwner(p: Policy, uid: int)
    requires p.listening && p.ownerOnly && uid !in p.blockedUsers
    ensures Admission(p, Some(uid)) == Pass <==> p.ownerId == Some(uid)
  {
  }

  /** Speaker id under which a frame is buffered. */
  function SpeakerId(user: Option<int>): int {
    user.GetOr(UNKNOWN_SPEAKER)
  }

  // ---------------------------------------------------------------------
  // Segments
  // ---------------------------------------------------------------------

  /** One segment handed out by `get_ready_segments`. */
  datatype Segment = Segment(uid: int, audio: seq<byte>)

  /** The readiness test of `get_ready_segments` for one speaker. A speaker
      without a timestamp counts as having spoken just now. */
  predicate IsReady(buffers: map<int, seq<byte>>, lastAudio: map<int, int>, processing: set<int>,
                    uid: int, now: int)
  {
    && uid !in processing
    && uid in buffers
    && |buffers[uid]| > MIN_AUDIO_LENGTH
    && now - (if uid in lastAudio then lastAudio[uid] else now) > SILENCE_TIMEOUT_MS
  }

  /** The segments handed out when the speakers are visited in `order`. */
  function ReadyList(order: seq<int>, buffers: map<int, seq<byte>>, lastAudio: map<int, int>,
                     processing: set<int>, now: int): (r: seq<Segment>)
    ensures |r| <= |order|
  {
    if order == [] then []
    else
      var u := order[|order| - 1];
      ReadyList(order[..|order| - 1], buffers, lastAudio, processing, now)
        + (if IsReady(buffers, lastAudio, processing, u, now) then [Segment(u, buffers[u])] else [])
  }

  /** A segment is handed out iff its speaker is visited, not processing, has
      more than `MIN_AUDIO_LENGTH` bytes and has been silent for longer than
      the timeout; the bytes handed out are that speaker's whole buffer. */
  lemma {:induction false} ReadyListIff(order: seq<int>, buffers: map<int, seq<byte>>,
                                        lastAudio: map<int, int>, processing: set<int>, now: int, s: Segment)
    ensures s in ReadyList(order, buffers, lastAudio, processing, now) <==>
      s.uid in order && IsReady(buffers, lastAudio, processing, s.uid, now) && s.audio == buffers[s.uid]
  {
    if order != [] {
      var init := order[..|order| - 1];
      assert order == init + [order[|order| - 1]];
      ReadyListIff(init, buffers, lastAudio, processing, now, s);
    }
  }

  predicate Distinct(xs: seq<int>) {
    forall i, j :: 0 <= i < j < |xs| ==> xs[i] != xs[j]
  }

  function Uids(segs: seq<Segment>): (r: seq<int>)
    ensures |r| == |segs| && forall k :: 0 <= k < |segs| ==> r[k] == segs[k].uid
  {
    seq(|segs|, k requires 0 <= k < |segs| => segs[k].uid)
  }

  /** One call never hands out the same speaker twice. */
  lemma {:induction false} ReadyListDistinct(order: seq<int>, buffers: map<int, seq<byte>>,
                                             lastAudio: map<int, int>, processing: set<int>, now: int)
    requires Distinct(order)
    ensures Distinct(Uids(ReadyList(order, buffers, lastAudio, processing, now)))
  {
    if order != [] {
      var init := order[..|order| - 1];
      var u := order[|order| - 1];
      var prev := ReadyList(init, buffers, lastAudio, processing, now);
      assert Distinct(init);
      ReadyListDistinct(init, buffers, lastAudio, processing, now);
      if IsReady(buffers, lastAudio, processing, u, now) {
        var r := prev + [Segment(u, buffers[u])];
        assert ReadyList(order, buffers, lastAudio, processing, now) == r;
        assert u !in init;
        forall k | 0 <= k < |prev|
          ensures prev[k].uid != u
        {
          ReadyListIff(init, buffers, lastAudio, processing, now, prev[k]);
        }
        forall i, j | 0 <= i < j < |r|
          ensures Uids(r)[i] != Uids(r)[j]
        {
          if j < |prev| {
            assert Uids(prev)[i] != Uids(prev)[j];
          }
        }
      }
    }
  }

  /** The buffers once the speakers in `visited` have been handled: every
      handed-out buffer is emptied. */
  function DrainedUpTo(visited: seq<int>, buffers: map<int, seq<byte>>, lastAudio: map<int, int>,
                       processing: set<int>, now: int): map<int, seq<byte>>
  {
    map u | u in buffers :: if u in visited && IsReady(buffers, lastAudio, processing, u, now) then [] else buffers[u]
  }

  /** The processing set once the speakers in `visited` have been handled. */
  function ClaimedUpTo(visited: seq<int>, buffers: map<int, seq<byte>>, lastAudio: map<int, int>,
                       processing: set<int>, now: int): set<int>
  {
    processing + set u | u in visited && IsReady(buffers, lastAudio, processing, u, now)
  }

  /** The buffers after a call: every handed-out speaker's buffer is emptied. */
  function Drained(buffers: map<int, seq<byte>>, lastAudio: map<int, int>, processing: set<int>,
                   now: int): map<int, seq<byte>>
  {
    map u | u in buffers :: if IsReady(buffers, lastAudio, processing, u, now) then [] else buffers[u]
  }

  /** The processing set after a call: every handed-out speaker is added. */
  function Claimed(buffers: map<int, seq<byte>>, lastAudio: map<int, int>, processing: set<int>,
                   now: int): set<int>
  {
    processing + set u | u in buffers && IsReady(buffers, lastAudio, processing, u, now)
  }

  /** One step of the loop of `get_ready_segments`: handling a speaker not yet
      visited sees its original buffer and processing mark. */
  lemma VisitStep(visited: seq<int>, u: int, buffers: map<int, seq<byte>>, lastAudio: map<int, int>,
                  processing: set<int>, now: int)
    requires u !in visited && u in buffers
    ensures var cur := DrainedUpTo(visited, buffers, lastAudio, processing, now);
            var claimed := ClaimedUpTo(visited, buffers, lastAudio, processing, now);
            && cur.Keys == buffers.Keys
            && cur[u] == buffers[u]
            && (u in claimed <==> u in processing)
            && DrainedUpTo(visited + [u], buffers, lastAudio, processing, now)
               == (if IsReady(buffers, lastAudio, processing, u, now) then cur[u := []] else cur)
            && ClaimedUpTo(visited + [u], buffers, lastAudio, processing, now)
               == (if IsReady(buffers, lastAudio, processing, u, now) then claimed + {u} else claimed)
  {
    DrainStep(visited, u, buffers, lastAudio, processing, now);
    ClaimStep(visited, u, buffers, lastAudio, processing, now);
  }

  /** The buffers half of `VisitStep`. */
  lemma DrainStep(visited: seq<int>, u: int, buffers: map<int, seq<byte>>, lastAudio: map<int, int>,
                  processing: set<int>, now: int)
    requires u !in visited && u in buffers
    ensures var cur := DrainedUpTo(visited, buffers, lastAudio, processing, now);
            && cur.Keys == buffers.Keys
            && cur[u] == buffers[u]
            && DrainedUpTo(visited + [u], buffers, lastAudio, processing, now)
               == (if IsReady(buffers, lastAudio, processing, u, now) then cur[u := []] else cur)
  {
    var cur := DrainedUpTo(visited, buffers, lastAudio, processing, now);
    var next := DrainedUpTo(visited + [u], buffers, lastAudio, processing, now);
    var want := if IsReady(buffers, lastAudio, processing, u, now) then cur[u := []] else cur;
    assert next.Keys == want.Keys;
    forall w | w in next.Keys ensures next[w] == want[w] {
      if w == u {
        assert u in visited + [u];
      } else {
        assert w in visited + [u] <==> w in visited;
        assert want[w] == cur[w];
      }
    }
  }

  /** The processing half of `VisitStep`. */
  lemma ClaimStep(visited: seq<int>, u: int, buffers: map<int, seq<byte>>, lastAudio: map<int, int>,
                  processing: set<int>, now: int)
    requires u !in visited
    ensures var claimed := ClaimedUpTo(visited, buffers, lastAudio, processing, now);
            && (u in claimed <==> u in processing)
            && ClaimedUpTo(visited + [u], buffers, lastAudio, processing, now)
               == (if IsReady(buffers, lastAudio, processing, u, now) then claimed + {u} else claimed)
  {
    var claimedNext := ClaimedUpTo(visited + [u], buffers, lastAudio, processing, now);
    var claimed := ClaimedUpTo(visited, buffers, lastAudio, processing, now);
    var wantClaimed := if IsReady(buffers, lastAudio, processing, u, now) then claimed + {u} else claimed;
    forall w ensures w in claimedNext <==> w in wantClaimed {
      assert w in visited + [u] <==> w in visited || w == u;
    }
  }

  /** Having visited every speaker is the whole call. */
  lemma VisitedAll(order: seq<int>, buffers: map<int, seq<byte>>, lastAudio: map<int, int>,
                   processing: set<int>, now: int)
    requires forall u :: u in buffers <==> u in order
    ensures DrainedUpTo(order, buffers, lastAudio, processing, now) == Drained(buffers, lastAudio, processing, now)
    ensures ClaimedUpTo(order, buffers, lastAudio, processing, now) == Claimed(buffers, lastAudio, processing, now)
  {
    var c1 := ClaimedUpTo(order, buffers, lastAudio, processing, now);
    var c2 := Claimed(buffers, lastAudio, processing, now);
    forall w ensures w in c1 <==> w in c2 {}
  }

  /** No byte is lost: a speaker's bytes before the call are what was handed
      out for it followed by what is left in its buffer. */
  lemma NoByteLoss(order: seq<int>, buffers: map<int, seq<byte>>, lastAudio: map<int, int>,
                   processing: set<int>, now: int, u: int)
    requires u in buffers && u in order
    ensures var after := Drained(buffers, lastAudio, processing, now);
            var out := ReadyList(order, buffers, lastAudio, processing, now);
            u in after &&
            (if Segment(u, buffers[u]) in out then buffers[u] + after[u] else after[u]) == buffers[u]
  {
    ReadyListIff(order, buffers, lastAudio, processing, now, Segment(u, buffers[u]));
  }

  /** No double hand-out: until `finish_processing`, a later call (at any time)
      hands out none of the speakers handed out by this one. */
  lemma NotReadyAgainUntilFinished(order: seq<int>, buffers: map<int, seq<byte>>,
                                   lastAudio: map<int, int>, processing: set<int>,
                                   now: int, later: int, s: Segment, t: Segment)
    requires s in ReadyList(order, buffers, lastAudio, processing, now)
    requires t in ReadyList(order, Drained(buffers, lastAudio, processing, now), lastAudio,
                            Claimed(buffers, lastAudio, processing, now), later)
    ensures s.uid != t.uid
  {
    ReadyListIff(order, buffers, lastAudio, processing, now, s);
    ReadyListIff(order, Drained(buffers, lastAudio, processing, now), lastAudio,
                 Claimed(buffers, lastAudio, processing, now), later, t);
  }

  lemma PrefixStep(order: seq<int>, i: nat)
    requires Distinct(order) && i < |order|
    ensures order[i] !in order[..i]
    ensures order[..i + 1] == order[..i] + [order[i]] && order[..i + 1][..i] == order[..i]
  {
  }

  /** Visiting `order[i]` after `order[..i]`, in terms of the state the loop
      holds: the readiness test on the current buffers and processing set
      is `IsReady` on the original ones. */
  lemma CollectStep(order: seq<int>, i: nat, buffers: map<int, seq<byte>>, lastAudio: map<int, int>,
                    processing: set<int>, now: int)
    requires Distinct(order) && i < |order| && order[i] in buffers
    ensures var u := order[i];
            var cur := DrainedUpTo(order[..i], buffers, lastAudio, processing, now);
            var claimed := ClaimedUpTo(order[..i], buffers, lastAudio, processing, now);
            var ok := IsReady(buffers, lastAudio, processing, u, now);
            && u in cur
            && (ok <==> (u !in claimed && |cur[u]| > MIN_AUDIO_LENGTH
                         && now - (if u in lastAudio then lastAudio[u] else now) > SILENCE_TIMEOUT_MS))
            && DrainedUpTo(order[..i + 1], buffers, lastAudio, processing, now)
               == (if ok then cur[u := []] else cur)
            && ClaimedUpTo(order[..i + 1], buffers, lastAudio, processing, now)
               == (if ok then claimed + {u} else claimed)
            && ReadyList(order[..i + 1], buffers, lastAudio, processing, now)
               == ReadyList(order[..i], buffers, lastAudio, processing, now)
                  + (if ok then [Segment(u, cur[u])] else [])
  {
    PrefixStep(order, i);
    VisitStep(order[..i], order[i], buffers, lastAudio, processing, now);
  }

  /** The loop of `get_ready_segments` over the speakers in `order`: returns
      the segments handed out together with the new buffers and processing
      set. */
  method CollectReady(order: seq<int>, buffers: map<int, seq<byte>>, lastAudio: map<int, int>,
                      processing: set<int>, now: int)
    returns (ready: seq<Segment>, bufs: map<int, seq<byte>>, procs: set<int>)
    requires Distinct(order)
    requires forall u :: u in order ==> u in buffers
    ensures ready == ReadyList(order, buffers, lastAudio, processing, now)
    ensures bufs == DrainedUpTo(order, buffers, lastAudio, processing, now)
    ensures procs == ClaimedUpTo(order, buffers, lastAudio, processing, now)
  {
    bufs, procs := buffers, processing;
    ready := [];
    var i := 0;
    while i < |order|
      invariant 0 <= i <= |order|
      invariant ready == ReadyList(order[..i], buffers, lastAudio, processing, now)
      invariant bufs == DrainedUpTo(order[..i], buffers, lastAudio, processing, now)
      invariant procs == ClaimedUpTo(order[..i], buffers, lastAudio, processing, now)
    {
      var uid := order[i];
      CollectStep(order, i, buffers, lastAudio, processing, now);
      if uid !in procs {
        var buffer := if uid in bufs then bufs[uid] else [];
        var last := if uid in lastAudio then lastAudio[uid] else now;
        if |buffer| > MIN_AUDIO_LENGTH && now - last > SILENCE_TIMEOUT_MS {
          bufs := bufs[uid := []];
          procs := procs + {uid};
          ready := ready + [Segment(uid, buffer)];
        }
      }
      i := i + 1;
    }
    assert order[..i] == order;
  }

  // ---------------------------------------------------------------------
  // The sink
  // ---------------------------------------------------------------------

  /** What the sink's fields always satisfy: the speaker list enumerates the
      buffers once each, timestamps and processing marks belong to buffered
      speakers, and no buffer exceeds the cap by more than one frame. */
  ghost predicate SinkInvariant(buffers: map<int, seq<byte>>, speakers: seq<int>, lastAudio: map<int, int>,
                                processing: set<int>, largestFrame: nat)
  {
    && (forall u :: u in buffers <==> u in speakers)
    && Distinct(speakers)
    && lastAudio.Keys <= buffers.Keys
    && processing <= buffers.Keys
    && (forall u :: u in buffers ==> |buffers[u]| <= MAX_AUDIO_LENGTH + largestFrame)
  }

  /** Handing out segments keeps the invariant. */
  lemma DrainKeepsInvariant(buffers: map<int, seq<byte>>, speakers: seq<int>, lastAudio: map<int, int>,
                            processing: set<int>, largestFrame: nat, now: int)
    requires SinkInvariant(buffers, speakers, lastAudio, processing, largestFrame)
    ensures DrainedUpTo(speakers, buffers, lastAudio, processing, now) == Drained(buffers, lastAudio, processing, now)
    ensures ClaimedUpTo(speakers, buffers, lastAudio, processing, now) == Claimed(buffers, lastAudio, processing, now)
    ensures SinkInvariant(Drained(buffers, lastAudio, processing, now), speakers, lastAudio,
                          Claimed(buffers, lastAudio, processing, now), largestFrame)
  {
    VisitedAll(speakers, buffers, lastAudio, processing, now);
  }

  class Sink {
    /** `user_buffers`: speaker id to buffered PCM bytes. */
    var buffers: map<int, seq<byte>>
    /** The keys of `user_buffers` in insertion order (Python dict order). */
    var speakers: seq<int>
    /** `last_audio_time`: speaker id to the time of the last accepted frame. */
    var lastAudio: map<int, int>
    /** Speakers whose segment has been handed out and not yet finished. */
    var processing: set<int>
    var packetCount: nat
    /** Size of the largest frame ever appended. */
    ghost var largestFrame: nat

    ghost predicate Valid()
      reads this
    {
      SinkInvariant(buffers, speakers, lastAudio, processing, largestFrame)
    }

    /** The segments a call to `GetReadySegments(now)` would hand out. */
    function ReadyNow(now: int): seq<Segment>
      reads this
    {
      ReadyList(speakers, buffers, lastAudio, processing, now)
    }

    constructor ()
      ensures Valid()
      ensures buffers == map[] && speakers == [] && lastAudio == map[] && processing == {}
      ensures packetCount == 0
    {
      buffers, speakers, lastAudio, processing := map[], [], map[], {};
      packetCount := 0;
      largestFrame := 0;
    }

    /** `write(user, data)`: filter the frame, then append its PCM to the
        speaker's buffer unless that buffer is already over the cap. */
    method Write(p: Policy, user: Option<int>, pcm: seq<byte>, now: int)
      requires Valid()
      modifies this
      ensures Valid()
      ensures processing == old(processing)
      ensures Admission(p, user) == Drop || pcm == [] ==>
        && buffers == old(buffers) && speakers == old(speakers)
        && lastAudio == old(lastAudio) && packetCount == old(packetCount)
      ensures Admission(p, user) == Pass && pcm != [] ==>
        var uid := SpeakerId(user);
        var had := if uid in old(buffers) then old(buffers)[uid] else [];
        && speakers == (if uid in old(buffers) then old(speakers) else old(speakers) + [uid])
        && if |had| > MAX_AUDIO_LENGTH then
             && buffers == old(buffers)[uid := had]
             && lastAudio == old(lastAudio)[uid := 0]
             && packetCount == old(packetCount)
           else
             && buffers == old(buffers)[uid := had + pcm]
             && lastAudio == old(lastAudio)[uid := now]
             && packetCount == old(packetCount) + 1
    {
      if Admission(p, user) == Drop {
        return;
      }
      var uid := SpeakerId(user);
      if pcm == [] {
        return;
      }
      if uid !in buffers {
        buffers := buffers[uid := []];
        speakers := speakers + [uid];
      }
      var current := buffers[uid];
      if |current| > MAX_AUDIO_LENGTH {
        lastAudio := lastAudio[uid := 0];
        return;
      }
      largestFrame := Max(largestFrame, |pcm|);
      buffers := buffers[uid := current + pcm];
      lastAudio := lastAudio[uid := now];
      packetCount := packetCount + 1;
    }

    /** `cleanup()`: forget every buffer, timestamp and processing mark. */
    method Cleanup()
      requires Valid()
      modifies this
      ensures Valid()
      ensures buffers == map[] && speakers == [] && lastAudio == map[] && processing == {}
      ensures packetCount == old(packetCount)
    {
      buffers, speakers, lastAudio, processing := map[], [], map[], {};
    }

    /** `get_ready_segments()`: visit the speakers in insertion order and hand
        out every ready buffer, emptying it and marking its speaker. */
    method GetReadySegments(now: int) returns (ready: seq<Segment>)
      requires Valid()
      modifies this
      ensures Valid()
      ensures ready == ReadyList(old(speakers), old(buffers), old(lastAudio), old(processing), now)
      ensures buffers == Drained(old(buffers), old(lastAudio), old(processing), now)
      ensures processing == Claimed(old(buffers), old(lastAudio), old(processing), now)
      ensures speakers == old(speakers) && lastAudio == old(lastAudio)
      ensures packetCount == old(packetCount)
    {
      var bufs, procs;
      ready, bufs, procs := CollectReady(speakers, buffers, lastAudio, processing, now);
      DrainKeepsInvariant(buffers, speakers, lastAudio, processing, largestFrame, now);
      buffers, processing := bufs, procs;
    }

    /** `finish_processing(uid)`: release one speaker's processing mark. */
    method FinishProcessing(uid: int)
      requires Valid()
      modifies this`processing
      ensures Valid()
      ensures processing == old(processing) - {uid}
    {
      processing := processing - {uid};
    }
  }

  // ---------------------------------------------------------------------
  // Loudness gate
  // ---------------------------------------------------------------------

  /** A little-endian signed 16-bit sample. */
  function Sample(lo: byte, hi: byte): (s: int)
    ensures -32768 <= s < 32768
    ensures (s + 65536) % 65536 == lo as int + 256 * hi as int
  {
    var u := lo as int + 256 * hi as int;
    if u >= 32768 then u - 65536 else u
  }

  /** Number of whole samples: a trailing odd byte is ignored. */
  function SampleCount(audio: seq<byte>): (n: nat)
    ensures 2 * n <= |audio| < 2 * n + 2
  {
    |audio| / 2
  }

  /** Sum of the squared samples. */
  function SumSquares(audio: seq<byte>): (r: nat)
    decreases |audio|
  {
    if |audio| < 2 then 0
    else Sample(audio[0], audio[1]) * Sample(audio[0], audio[1]) + SumSquares(audio[2..])
  }

  /** Every whole sample is zero: both of its bytes are. */
  predicate Silent(audio: seq<byte>) {
    forall i :: 0 <= i < SampleCount(audio) ==> audio[2 * i] == 0 && audio[2 * i + 1] == 0
  }

  /** The sum of squares is zero exactly for silent audio, so any sound
      gives a positive RMS. */
  lemma {:induction false} SumSquaresZeroIffSilent(audio: seq<byte>)
    ensures SumSquares(audio) == 0 <==> Silent(audio)
    decreases |audio|
  {
    if |audio| >= 2 {
      var x := Sample(audio[0], audio[1]);
      var rest := audio[2..];
      SumSquaresZeroIffSilent(rest);
      SquareZeroIffZero(x);
      assert SampleCount(audio) == SampleCount(rest) + 1;
      forall i | 0 <= i < SampleCount(rest)
        ensures rest[2 * i] == audio[2 * (i + 1)] && rest[2 * i + 1] == audio[2 * (i + 1) + 1]
      {
      }
      if Silent(audio) {
        assert audio[0] == 0 && audio[1] == 0 by {
          assert audio[2 * 0] == 0 && audio[2 * 0 + 1] == 0;
        }
        forall i | 0 <= i < SampleCount(rest)
          ensures rest[2 * i] == 0 && rest[2 * i + 1] == 0
        {
          assert audio[2 * (i + 1)] == 0 && audio[2 * (i + 1) + 1] == 0;
        }
      }
      if SumSquares(audio) == 0 {
        forall i | 0 <= i < SampleCount(audio)
          ensures audio[2 * i] == 0 && audio[2 * i + 1] == 0
        {
          if i > 0 {
            assert rest[2 * (i - 1)] == 0 && rest[2 * (i - 1) + 1] == 0;
          }
        }
      }
    }
  }

  lemma SquareZeroIffZero(x: int)
    ensures x * x >= 0 && (x * x == 0 <==> x == 0)
  {
    if x > 0 {
      assert x * x >= x;
    } else if x < 0 {
      assert x * x == (-x) * (-x) >= -x;
    }
  }

  /** `calculate_rms` ignores a trailing odd byte. */
  lemma {:induction false} SumSquaresIgnoresOddByte(audio: seq<byte>, extra: byte)
    requires |audio| % 2 == 0
    ensures SumSquares(audio + [extra]) == SumSquares(audio)
    ensures SampleCount(audio + [extra]) == SampleCount(audio)
    decreases |audio|
  {
    if |audio| >= 2 {
      assert (audio + [extra])[2..] == audio[2..] + [extra];
      SumSquaresIgnoresOddByte(audio[2..], extra);
    }
  }

  /** `is_loud_enough(audio, threshold)`: RMS at or above the threshold
      (`MIN_RMS` when none is given), compared through squares. Audio with no
      whole sample has RMS 0. */
  predicate IsLoudEnough(audio: seq<byte>, threshold: Option<int>): (r: bool)
    ensures threshold.GetOr(MIN_RMS) <= 0 ==> r
    ensures threshold.GetOr(MIN_RMS) > 0 && SampleCount(audio) == 0 ==> !r
    ensures r && threshold.GetOr(MIN_RMS) > 0 ==> !Silent(audio)
  {
    SumSquaresZeroIffSilent(audio);
    PositiveProduct(threshold.GetOr(MIN_RMS), SampleCount(audio));
    var t := threshold.GetOr(MIN_RMS);
    t <= 0 || (SampleCount(audio) > 0 && SumSquares(audio) >= t * t * SampleCount(audio))
  }

  lemma PositiveProduct(t: int, n: nat)
    ensures t > 0 && n > 0 ==> t * t * n > 0
  {
    if t > 0 && n > 0 {
      assert t * t > 0;
      assert t * t * n >= t * t;
    }
  }

  lemma MulNonNegative(a: real, b: real)
    requires a >= 0.0 && b >= 0.0
    ensures a * b >= 0.0
  {
  }

  lemma MulPositive(a: real, b: real)
    requires a > 0.0 && b > 0.0
    ensures a * b > 0.0
  {
  }

  lemma CastProduct(a: int, b: int)
    ensures (a * b) as real == (a as real) * (b as real)
  {
  }

  lemma SquareMonotone(x: real, y: real)
    requires x >= 0.0 && y >= 0.0
    ensures x >= y <==> x * x >= y * y
  {
    assert x * x - y * y == (x - y) * (x + y);
    if x >= y {
      MulNonNegative(x - y, x + y);
    } else {
      MulPositive(y - x, x + y);
      assert y * y - x * x == (y - x) * (x + y);
    }
  }

  lemma ScaleMonotone(a: real, b: real, n: real)
    requires n > 0.0
    ensures a >= b <==> a * n >= b * n
  {
    if a >= b {
      MulNonNegative(a - b, n);
      assert a * n - b * n == (a - b) * n;
    } else {
      MulPositive(b - a, n);
      assert b * n - a * n == (b - a) * n;
    }
  }

  /** The squared comparison agrees with `rms >= threshold` for the real RMS:
      `rms` is 0 without samples and otherwise the non-negative root of the
      mean square. */
  lemma LoudEnoughIffRms(audio: seq<byte>, t: int, rms: real)
    requires rms >= 0.0
    requires SampleCount(audio) == 0 ==> rms == 0.0
    requires SampleCount(audio) > 0 ==> rms * rms * (SampleCount(audio) as real) == SumSquares(audio) as real
    ensures IsLoudEnough(audio, Some(t)) <==> rms >= t as real
  {
    var n := SampleCount(audio);
    if n > 0 && t > 0 {
      SquaredCompare(SumSquares(audio), n, t, rms);
    }
  }

  /** For a positive threshold, comparing a non-negative root with it is
      comparing squares. */
  lemma SquaredCompare(sum: int, n: int, t: int, rms: real)
    requires n > 0 && t > 0 && rms >= 0.0
    requires rms * rms * (n as real) == sum as real
    ensures sum >= t * t * n <==> rms >= t as real
  {
    var tr, nr := t as real, n as real;
    var sq := t * t;
    var t2 := tr * tr;
    CastProduct(t, t);
    CastProduct(sq, n);
    assert sq as real == t2;
    assert (sq * n) as real == t2 * nr;
    SquareMonotone(rms, tr);
    ScaleMonotone(rms * rms, t2, nr);
  }

  /** Audio with fewer than two bytes never passes a positive threshold. */
  lemma ShortAudioIsQuiet(audio: seq<byte>, t: int)
    requires |audio| < 2 && t > 0
    ensures !IsLoudEnough(audio, Some(t))
  {
  }
}
