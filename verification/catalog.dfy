/**
 The constant tables of the conformance suite: the container MIME types and
 codec strings probed by the support grids, and the catalog of HLS test
 cases with their optional `expected` field.
 */
module Catalog {
  import opened Base

  /** A catalog record `{name, manifest, description, expected?}`. */
  datatype TestCase = TestCase(name: string, manifest: string, description: string, expected: Option<string>)

  /** The outcome a test case is expected to have. */
  datatype Outcome = PASS | FAIL

  /** The runner inverts a result exactly when `test.expected === 'fail'`. */
  predicate ExpectsFailure(t: TestCase) {
    t.expected == Some("fail")
  }

  /** The effective expected outcome: an absent `expected` field means PASS. */
  function EffectiveExpected(t: TestCase): (o: Outcome)
    ensures o == FAIL <==> ExpectsFailure(t)
    ensures t.expected.None? ==> o == PASS
  {
    if ExpectsFailure(t) then FAIL else PASS
  }

  const MimeTypes: seq<string> := [
    "audio/aac",
    "video/mp4",
    "video/webm",
    "video/mp2t",
    "video/x-mpegURL",
    "video/vnd.apple.mpegurl",
    "application/x-mpegURL",
    "application/vnd.apple.mpegurl"
  ]

  const CodecStrings: seq<string> := [
    // AAC and friends
    "mp4a.40",
    "mp4a.40.2",
    "mp4a.40.5",
    "mp4a.40.34",
    "ec-3",
    // H.264
    "avc1",
    "avc1.42001e",
    "avc1.66.30",
    "avc1.42c01e",
    "avc1.4d401e",
    "avc1.64001e",
    "avc1.42E01E",
    "avc1.42001f",
    "avc1.64001f",
    "avc1.77.30",
    "avc1.4d0028",
    "avc1.640028",
    "avc1.640029",
    // H.265
    "hvc1.1.6.L93.B0",
    "hev1.1.6.L93.B0",
    "hev1.1.6.L150",
    "hvc1.1.60000000.L123.B0",
    // VP9
    "vp09.00.50.08",
    // AV1
    "av01.0.04M.08"
  ]

  // The catalog entries, in catalog order.
  const BasicVodTs := TestCase("Basic VOD (TS)", "/manifests/basic-vod-ts.m3u8",
    "A standard Video-On-Demand presentation using MPEG-2 Transport Stream segments.", None)
  const BasicVodFmp4 := TestCase("Basic VOD (fMP4)", "/manifests/basic-vod-fmp4.m3u8",
    "A standard Video-On-Demand presentation using fragmented MP4 segments.", None)
  const QuirkEndlistInMultivariant := TestCase("Quirk: ENDLIST in Multivariant Playlist", "/manifests/quirk-endlist-in-multivariant.m3u8",
    "A multivariant playlist with a trailing EXT-X-ENDLIST tag, which is a spec violation.", None)
  const QuirkDuplicateRenditionNames := TestCase("Quirk: Duplicate Rendition Names", "/manifests/quirk-duplicate-rendition-names.m3u8",
    "A manifest with multiple audio renditions in the same group using the same NAME attribute.", None)
  const QuirkMultipleDefaultRenditions := TestCase("Quirk: Multiple Default Renditions", "/manifests/quirk-multiple-default-renditions.m3u8",
    "A manifest with multiple audio renditions in the same group marked as DEFAULT=YES.", None)
  const QuirkMissingExtinfComma := TestCase("Quirk: Missing EXTINF Comma", "/manifests/quirk-missing-extinf-comma.m3u8",
    "A media playlist where an EXTINF tag is missing its trailing comma.", None)
  const VodHevc := TestCase("HEVC/H.265 VOD", "/manifests/vod-hevc.m3u8",
    "A VOD presentation using HEVC (H.265) codec.", None)
  const VodVp9 := TestCase("VP9 VOD", "/manifests/vod-vp9.m3u8",
    "A VOD presentation using VP9 codec in an MP4 container.", Some("fail"))
  const VodAv1 := TestCase("AV1 VOD", "/manifests/vod-av1.m3u8",
    "A VOD presentation using AV1 codec.", Some("fail"))
  const VodAes128 := TestCase("AES-128 Encrypted VOD", "/manifests/vod-aes128.m3u8",
    "A VOD presentation encrypted with AES-128.", None)
  const VodSampleAes := TestCase("SAMPLE-AES Encrypted VOD", "/manifests/vod-sample-aes.m3u8",
    "A VOD presentation encrypted with SAMPLE-AES.", None)
  const VodAudioOnly := TestCase("Audio-Only VOD", "/manifests/vod-audio-only.m3u8",
    "A VOD presentation with only an audio track.", None)
  const VodVideoOnly := TestCase("Video-Only VOD", "/manifests/vod-video-only.m3u8",
    "A VOD presentation with only a video track.", None)
  const VodAlternateAudio := TestCase("Alternate Audio Renditions", "/manifests/vod-alternate-audio.m3u8",
    "A VOD with multiple selectable audio tracks (e.g., different languages).", None)
  const VodAlternateVideo := TestCase("Alternate Video Renditions (Bitrate)", "/manifests/vod-alternate-video.m3u8",
    "A multivariant playlist with multiple video renditions at different bitrates.", None)
  const VodIframeStream := TestCase("I-Frame Stream", "/manifests/vod-iframe-stream.m3u8",
    "A VOD with an I-frame only stream for fast seeking.", None)
  const VodWebvtt := TestCase("Subtitles (WebVTT)", "/manifests/vod-webvtt.m3u8",
    "A VOD with WebVTT subtitles.", None)
  const VodDiscontinuity := TestCase("Discontinuity", "/manifests/vod-discontinuity.m3u8",
    "A VOD with a discontinuity tag between segments.", None)
  const VodByterange := TestCase("BYTERANGE Support", "/manifests/vod-byterange.m3u8",
    "A VOD using BYTERANGE requests to seek within a single file.", None)
  const FailInvalidSegmentUri := TestCase("Invalid Segment URI", "/manifests/fail-invalid-segment-uri.m3u8",
    "A media playlist pointing to a segment that does not exist.", Some("fail"))
  const FailMismatchedTargetDuration := TestCase("Mismatched Target Duration", "/manifests/fail-mismatched-target-duration.m3u8",
    "A media playlist where a segment duration exceeds the target duration.", Some("fail"))
  const FailMissingEndlist := TestCase("Missing Endlist Tag (VOD)", "/manifests/fail-missing-endlist.m3u8",
    "A VOD playlist that is missing the EXT-X-ENDLIST tag.", Some("fail"))
  const FailCorruptedSegment := TestCase("Corrupted Segment", "/manifests/fail-corrupted-segment.m3u8",
    "A media playlist with a link to a corrupted media segment.", Some("fail"))
  const FailUnsupportedCodec := TestCase("Unsupported Codec", "/manifests/fail-unsupported-codec.m3u8",
    "A manifest declaring a codec string that is not supported by the platform.", Some("fail"))
  const FailCrossProtocolRedirect := TestCase("Cross-protocol Redirect", "/manifests/fail-cross-protocol-redirect.m3u8",
    "A manifest that redirects from HTTPS to HTTP.", Some("fail"))

  /** The HLS conformance catalog, in the order the dashboard runs it. */
  const Tests: seq<TestCase> := [
    BasicVodTs, BasicVodFmp4, QuirkEndlistInMultivariant, QuirkDuplicateRenditionNames, QuirkMultipleDefaultRenditions,
    QuirkMissingExtinfComma, VodHevc, VodVp9, VodAv1, VodAes128,
    VodSampleAes, VodAudioOnly, VodVideoOnly, VodAlternateAudio, VodAlternateVideo,
    VodIframeStream, VodWebvtt, VodDiscontinuity, VodByterange, FailInvalidSegmentUri,
    FailMismatchedTargetDuration, FailMissingEndlist, FailCorruptedSegment, FailUnsupportedCodec, FailCrossProtocolRedirect
  ]

  /** Positions of the entries of `ts` that are expected to fail. */
  function ExpectedFailureIndices(ts: seq<TestCase>): (s: set<nat>)
    ensures forall i: nat :: i in s <==> i < |ts| && ExpectsFailure(ts[i])
  {
    set i: nat | i < |ts| && ExpectsFailure(ts[i])
  }

  /** A manifest path of the form `/manifests/<stem>.m3u8`. */
  predicate PlaylistPath(m: string) {
    StartsWith(m, "/manifests/") && EndsWith(m, ".m3u8")
  }

  /** A manifest that the suite names as a failure case. */
  predicate FailPrefixed(m: string) {
    StartsWith(m, "/manifests/fail-")
  }

  /**
   What the catalog data promises of one entry: a playlist path, an
   `expected` field that is absent or `'fail'`, and an expectation of
   failure exactly for the `fail-` manifests and the VP9 and AV1 cases.
   */
  predicate WellFormedEntry(t: TestCase) {
    && PlaylistPath(t.manifest)
    && t.expected in {None, Some("fail")}
    && (ExpectsFailure(t) <==> FailPrefixed(t.manifest) || t.name in {"VP9 VOD", "AV1 VOD"})
  }

  /** A manifest under `/manifests/` whose stem does not begin with `f` is not a failure case. */
  lemma NotFailPrefixed(m: string)
    requires |m| > 11 && m[11] != 'f'
    ensures !FailPrefixed(m)
  {
  }

  // The per-entry facts, one lemma per catalog entry. They split one
  // catalog-wide fact into 25 small goals so the solver does not unfold every
  // string literal at once; the bodies that are not empty only point at
  // character 11 of the manifest (`NotFailPrefixed`) and carry no reasoning of
  // their own.

  lemma BasicVodTsWellFormed()
    ensures WellFormedEntry(BasicVodTs)
  {
    NotFailPrefixed(BasicVodTs.manifest);
  }

  lemma BasicVodFmp4WellFormed()
    ensures WellFormedEntry(BasicVodFmp4)
  {
    NotFailPrefixed(BasicVodFmp4.manifest);
  }

  lemma QuirkEndlistInMultivariantWellFormed()
    ensures WellFormedEntry(QuirkEndlistInMultivariant)
  {
    NotFailPrefixed(QuirkEndlistInMultivariant.manifest);
  }

  lemma QuirkDuplicateRenditionNamesWellFormed()
    ensures WellFormedEntry(QuirkDuplicateRenditionNames)
  {
    NotFailPrefixed(QuirkDuplicateRenditionNames.manifest);
  }

  lemma QuirkMultipleDefaultRenditionsWellFormed()
    ensures WellFormedEntry(QuirkMultipleDefaultRenditions)
  {
    NotFailPrefixed(QuirkMultipleDefaultRenditions.manifest);
  }

  lemma QuirkMissingExtinfCommaWellFormed()
    ensures WellFormedEntry(QuirkMissingExtinfComma)
  {
    NotFailPrefixed(QuirkMissingExtinfComma.manifest);
  }

  lemma VodHevcWellFormed()
    ensures WellFormedEntry(VodHevc)
  {
    NotFailPrefixed(VodHevc.manifest);
  }

  lemma VodVp9WellFormed()
    ensures WellFormedEntry(VodVp9)
  {
    NotFailPrefixed(VodVp9.manifest);
  }

  lemma VodAv1WellFormed()
    ensures WellFormedEntry(VodAv1)
  {
    NotFailPrefixed(VodAv1.manifest);
  }

  lemma VodAes128WellFormed()
    ensures WellFormedEntry(VodAes128)
  {
    NotFailPrefixed(VodAes128.manifest);
  }

  lemma VodSampleAesWellFormed()
    ensures WellFormedEntry(VodSampleAes)
  {
    NotFailPrefixed(VodSampleAes.manifest);
  }

  lemma VodAudioOnlyWellFormed()
    ensures WellFormedEntry(VodAudioOnly)
  {
    NotFailPrefixed(VodAudioOnly.manifest);
  }

  lemma VodVideoOnlyWellFormed()
    ensures WellFormedEntry(VodVideoOnly)
  {
    NotFailPrefixed(VodVideoOnly.manifest);
  }

  lemma VodAlternateAudioWellFormed()
    ensures WellFormedEntry(VodAlternateAudio)
  {
    NotFailPrefixed(VodAlternateAudio.manifest);
  }

  lemma VodAlternateVideoWellFormed()
    ensures WellFormedEntry(VodAlternateVideo)
  {
    NotFailPrefixed(VodAlternateVideo.manifest);
  }

  lemma VodIframeStreamWellFormed()
    ensures WellFormedEntry(VodIframeStream)
  {
    NotFailPrefixed(VodIframeStream.manifest);
  }

  lemma VodWebvttWellFormed()
    ensures WellFormedEntry(VodWebvtt)
  {
    NotFailPrefixed(VodWebvtt.manifest);
  }

  lemma VodDiscontinuityWellFormed()
    ensures WellFormedEntry(VodDiscontinuity)
  {
    NotFailPrefixed(VodDiscontinuity.manifest);
  }

  lemma VodByterangeWellFormed()
    ensures WellFormedEntry(VodByterange)
  {
    NotFailPrefixed(VodByterange.manifest);
  }

  lemma FailInvalidSegmentUriWellFormed()
    ensures WellFormedEntry(FailInvalidSegmentUri)
  {
  }

  lemma FailMismatchedTargetDurationWellFormed()
    ensures WellFormedEntry(FailMismatchedTargetDuration)
  {
  }

  lemma FailMissingEndlistWellFormed()
    ensures WellFormedEntry(FailMissingEndlist)
  {
  }

  lemma FailCorruptedSegmentWellFormed()
    ensures WellFormedEntry(FailCorruptedSegment)
  {
  }

  lemma FailUnsupportedCodecWellFormed()
    ensures WellFormedEntry(FailUnsupportedCodec)
  {
  }

  lemma FailCrossProtocolRedirectWellFormed()
    ensures WellFormedEntry(FailCrossProtocolRedirect)
  {
  }

  /** Every catalog entry satisfies the per-entry promises. */
  lemma CatalogWellFormed()
    ensures forall t :: t in Tests ==> WellFormedEntry(t)
  {
    forall t | t in Tests ensures WellFormedEntry(t) {
      if t == BasicVodTs { BasicVodTsWellFormed(); }
      else if t == BasicVodFmp4 { BasicVodFmp4WellFormed(); }
      else if t == QuirkEndlistInMultivariant { QuirkEndlistInMultivariantWellFormed(); }
      else if t == QuirkDuplicateRenditionNames { QuirkDuplicateRenditionNamesWellFormed(); }
      else if t == QuirkMultipleDefaultRenditions { QuirkMultipleDefaultRenditionsWellFormed(); }
      else if t == QuirkMissingExtinfComma { QuirkMissingExtinfCommaWellFormed(); }
      else if t == VodHevc { VodHevcWellFormed(); }
      else if t == VodVp9 { VodVp9WellFormed(); }
      else if t == VodAv1 { VodAv1WellFormed(); }
      else if t == VodAes128 { VodAes128WellFormed(); }
      else if t == VodSampleAes { VodSampleAesWellFormed(); }
      else if t == VodAudioOnly { VodAudioOnlyWellFormed(); }
      else if t == VodVideoOnly { VodVideoOnlyWellFormed(); }
      else if t == VodAlternateAudio { VodAlternateAudioWellFormed(); }
      else if t == VodAlternateVideo { VodAlternateVideoWellFormed(); }
      else if t == VodIframeStream { VodIframeStreamWellFormed(); }
      else if t == VodWebvtt { VodWebvttWellFormed(); }
      else if t == VodDiscontinuity { VodDiscontinuityWellFormed(); }
      else if t == VodByterange { VodByterangeWellFormed(); }
      else if t == FailInvalidSegmentUri { FailInvalidSegmentUriWellFormed(); }
      else if t == FailMismatchedTargetDuration { FailMismatchedTargetDurationWellFormed(); }
      else if t == FailMissingEndlist { FailMissingEndlistWellFormed(); }
      else if t == FailCorruptedSegment { FailCorruptedSegmentWellFormed(); }
      else if t == FailUnsupportedCodec { FailUnsupportedCodecWellFormed(); }
      else if t == FailCrossProtocolRedirect { FailCrossProtocolRedirectWellFormed(); }
    }
  }

  /** The probe tables have the documented sizes and no repeated entry. */
  lemma TableSizes()
    ensures |MimeTypes| == 8 && Distinct(MimeTypes)
    ensures |CodecStrings| == 24 && Distinct(CodecStrings)
  {
  }

  /**
   The baseline and constrained-baseline level-3.0 H.264 strings are two
   separate table entries; they differ in the profile-compatibility byte,
   not only in letter case, so they stay distinct even case-insensitively.
   */
  lemma BaselineCodecVariants()
    ensures CodecStrings[6] == "avc1.42001e" && CodecStrings[11] == "avc1.42E01E"
    ensures Lower(CodecStrings[6]) != Lower(CodecStrings[11])
  {
    var a, b := CodecStrings[6], CodecStrings[11];
    assert Lower(a)[7] == '0';
    assert Lower(b)[7] == 'e';
  }

  /** Every manifest is a playlist under `/manifests/`. */
  lemma ManifestShapes()
    ensures forall i :: 0 <= i < |Tests| ==>
      StartsWith(Tests[i].manifest, "/manifests/") && EndsWith(Tests[i].manifest, ".m3u8")
  {
    CatalogWellFormed();
    assert forall i :: 0 <= i < |Tests| ==> Tests[i] in Tests;
  }

  /** Names and manifest paths identify catalog entries. */
  lemma NamesDistinct()
    ensures |Tests| == 25
    ensures forall i, j :: 0 <= i < j < |Tests| ==> Tests[i].name != Tests[j].name
  {
  }
  lemma ManifestsDistinct()
    ensures forall i, j :: 0 <= i < j < |Tests| ==> Tests[i].manifest != Tests[j].manifest
  {
  }

  /** `expected`, when present, is always `'fail'`: the effective outcome is PASS exactly when it is absent. */
  lemma ExpectedValues()
    ensures forall i :: 0 <= i < |Tests| ==> Tests[i].expected in {None, Some("fail")}
    ensures forall i :: 0 <= i < |Tests| ==> (EffectiveExpected(Tests[i]) == PASS <==> Tests[i].expected.None?)
  {
    CatalogWellFormed();
    assert forall i :: 0 <= i < |Tests| ==> Tests[i] in Tests;
  }

  /** `fail-` manifests are expected to fail; VP9 and AV1 are the only other expected failures. */
  lemma FailPrefixedManifests()
    ensures forall i :: 0 <= i < |Tests| && FailPrefixed(Tests[i].manifest) ==> ExpectsFailure(Tests[i])
    ensures forall i :: 0 <= i < |Tests| && ExpectsFailure(Tests[i]) && !FailPrefixed(Tests[i].manifest) ==>
      Tests[i].name in {"VP9 VOD", "AV1 VOD"}
  {
    CatalogWellFormed();
    assert forall i :: 0 <= i < |Tests| ==> Tests[i] in Tests;
  }

  /** The first seven catalog entries, the basic and quirk cases and HEVC, expect to play. */
  lemma ExpectsFailureFirst(i: nat)
    requires i < 7
    ensures !ExpectsFailure(Tests[i])
  {
    if i == 0 { assert Tests[0] == BasicVodTs; }
    else if i == 1 { assert Tests[1] == BasicVodFmp4; }
    else if i == 2 { assert Tests[2] == QuirkEndlistInMultivariant; }
    else if i == 3 { assert Tests[3] == QuirkDuplicateRenditionNames; }
    else if i == 4 { assert Tests[4] == QuirkMultipleDefaultRenditions; }
    else if i == 5 { assert Tests[5] == QuirkMissingExtinfComma; }
    else if i == 6 { assert Tests[6] == VodHevc; }
  }

  /** Of positions 7 to 12, only VP9 and AV1 expect failure. */
  lemma ExpectsFailureSecond(i: nat)
    requires 7 <= i < 13
    ensures ExpectsFailure(Tests[i]) <==> i < 9
  {
    if i == 7 { assert Tests[7] == VodVp9; }
    else if i == 8 { assert Tests[8] == VodAv1; }
    else if i == 9 { assert Tests[9] == VodAes128; }
    else if i == 10 { assert Tests[10] == VodSampleAes; }
    else if i == 11 { assert Tests[11] == VodAudioOnly; }
    else if i == 12 { assert Tests[12] == VodVideoOnly; }
  }

  /** Of positions 13 onwards, exactly the six `fail-` cases expect failure. */
  lemma ExpectsFailureHigh(i: nat)
    requires 13 <= i < |Tests|
    ensures ExpectsFailure(Tests[i]) <==> 19 <= i
  {
    if i == 13 { assert Tests[13] == VodAlternateAudio; }
    else if i == 14 { assert Tests[14] == VodAlternateVideo; }
    else if i == 15 { assert Tests[15] == VodIframeStream; }
    else if i == 16 { assert Tests[16] == VodWebvtt; }
    else if i == 17 { assert Tests[17] == VodDiscontinuity; }
    else if i == 18 { assert Tests[18] == VodByterange; }
    else if i == 19 { assert Tests[19] == FailInvalidSegmentUri; }
    else if i == 20 { assert Tests[20] == FailMismatchedTargetDuration; }
    else if i == 21 { assert Tests[21] == FailMissingEndlist; }
    else if i == 22 { assert Tests[22] == FailCorruptedSegment; }
    else if i == 23 { assert Tests[23] == FailUnsupportedCodec; }
    else if i == 24 { assert Tests[24] == FailCrossProtocolRedirect; }
  }

  /** The positions of the expected failures. */
  lemma ExpectedFailureSet()
    ensures ExpectedFailureIndices(Tests) == {7, 8, 19, 20, 21, 22, 23, 24}
  {
    var s := ExpectedFailureIndices(Tests);
    forall i: nat ensures i in s <==> i in {7, 8, 19, 20, 21, 22, 23, 24} {
      if i < 7 {
        ExpectsFailureFirst(i);
      } else if i < 13 {
        ExpectsFailureSecond(i);
      } else if i < |Tests| {
        ExpectsFailureHigh(i);
      }
    }
  }

  /** Eight of the 25 catalog entries are expected to fail: VP9, AV1 and the six `fail-` cases. */
  lemma ExpectedFailureCount()
    ensures |ExpectedFailureIndices(Tests)| == 8
  {
    ExpectedFailureSet();
  }
}
