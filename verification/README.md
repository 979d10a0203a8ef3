# A verified model of the stream-splicing core of rtsp-keepalive-proxy

The proxy gives consumers one RTP stream that never stops. While a camera is
reachable its frames are relayed; while it sleeps, stalls or changes codec a
generated fallback takes over, and each switch is spliced onto one timeline.
This project models that core in Dafny and proves what it is relied on for.

| module | what it models |
|---|---|
| `Rtp` | the output normaliser (16/32-bit wrap-around, signed high-water mark, splice rule) and the unbounded timeline it represents |
| `AnnexB`, `AnnexBLaws` | the two Annex-B splitters, the printer, and their laws |
| `AccessUnit`, `AccessUnitLaws` | filters, keyframe gate, tracking and injection of parameter sets, over units and over whole sessions |
| `Persist`, `Crash` | saving and restoring the last camera keyframe, and the file operations behind a save, with crashes and failures at any step |
| `FallbackLocks` | the start/stop protocol of the fallback, one lock section or goroutine step at a time |
| `Handler`, `HandlerLaws`, `HandlerModes` | the life of a stream, one atomic event at a time, with the trace of what is delivered |
| `HandlerRecords` | what the handler's timers, stored keyframe, hold and reported state stand for, told by the events alone |
| `Units` | the access units behind the handler's events: what is sent, byte for byte, for each entry of the trace |
| `Ledger` | every unit delivered, explained from the inputs: the sets it opens with, the variant whose turn it is, the hold |
| `Continuity` | handler and normaliser together: the whole output is one RTP stream |
| `Rebuild` | which DESCRIBE answers cut consumers off, and what is advertised afterwards, in-band changes included |
| `HostGate` | the per-host handshake gate |
| `NeutralCache` | the neutral-frame cache and its text key |
| `Pacing` | fallback rate, byte budget and timestamps |
| `Config` | overrides, validation, output paths, and the handlers built from them |

Code that works in place is a method or a class whose methods are proved equal
to a specification function; the properties are then proved of that function, for
every input, every run or every reachable state.

Where an expected property is not true of the code as it stands, the exact
condition is proved instead, or a concrete run shows the failure:

- The splice gap is skipped whenever the 32-bit mark reads zero, an exact wrap
  included (`Rtp.NeverBelowEarlierSources`, `Rtp.WrapLosesTheGap`).
- The batch parser misses a three-byte start code in the last three bytes, and
  the streaming splitter gives out the bytes before the first start code
  (`AnnexBLaws.SplittersAgree`, `AnnexBLaws.RoundTrip`).
- A picture of another codec than the advertised one is shown exactly when a
  fallback run begins outside neutral mode, without a stored keyframe, on a
  placeholder, and a frame is accepted while the variant whose turn it is was
  encoded for another codec. The base frame and the dotted variant are encoded
  apart, so a rebuild can renew the first and leave the second; a codec change, a
  restart and a failed encoding each lead there (`HandlerLaws.WhenAWrongPictureIsShown`,
  `HandlerLaws.StaleFrameIsShown`, `HandlerLaws.StaleFrameAfterRestart`,
  `HandlerLaws.LeftOverDotIsShown`).
- A switch lands on a delta frame exactly when the RTP encoder refuses the
  take-over keyframe and accepts a delta frame before the next one
  (`HandlerLaws.SwitchesLandOnKeyframes`).
- The fallback does not keep running until the first keyframe after a rebuild
  on the camera's own sets, nor when a run finds nothing to serve: the stream then
  has no source for a while (`HandlerModes.NoDeadGap`, `HandlerModes.WhenTheSourceIsLost`,
  `HandlerModes.TheSourceCanBeLost`, `HandlerModes.WhenTheSourceComesBack`).
- Two fallback runs overlap exactly when a start finds the cancel gone while a
  run is not cleaned up, which a start inside a stop can cause
  (`FallbackLocks.WhenRunsOverlap`, `FallbackLocks.UndisciplinedRunsOverlap`).
- A frame encoded on the fly is reported as a last keyframe
  (`HandlerModes.ReportedKindTells`, `HandlerModes.OnTheFlyIsReportedAsKeyframe`).
- The description stops saying what the handler holds when an H.264 camera sends
  other sets in band (`Rebuild.WhenInStep`, `Rebuild.OutOfStep`), and the sets
  advertised to connected consumers change without a rebuild exactly when a
  session announces or sends others
  (`Rebuild.ConnectedConsumersKeepTheirSets`, `Rebuild.SilentChange`).
- The advertised sets mix codecs after a change of codec announced without its
  first set, when sets of the old codec are left (`Rebuild.WhenSetsAreTyped`,
  `Rebuild.MixedSets`).
- Two saves of different codecs under way at once can each remove the other's
  file, which happens exactly when each removal comes after the other's rename
  (`Crash.WhenNothingIsLeft`, `Crash.CrossedSavesLoseBoth`).
- The order of the cameras decides what is at an output path exactly when one
  camera is named after another's low stream (`Config.OrderMatters`).

## Model

| member | source | states |
|---|---|---|
| Rtp.Normaliser.Video | internal/proxy/stream_handler.go:205-205 | The video track's normaliser: gap 3600, payload type 96, its own SSRC, nothing sent. |
| Rtp.Normaliser.Audio | internal/proxy/stream_handler.go:1391-1407 | The audio track's normaliser: gap 160, payload type 8, its own SSRC, nothing sent. |
| Rtp.Normaliser.WriteToStream | internal/proxy/stream_handler.go:1309-1364 | One packet: sequence number, splice, rewritten timestamp and signed high-water update, equal to the state machine `Next`/`Sent`; nothing happens without an output stream. The audio writer (1369-1421) is the same with the constants of `Audio`. |
| Rtp.Normaliser.ResetTimeline | internal/proxy/stream_handler.go:1290-1294 | A source switch only makes the next packet splice; the mark and the sequence number stay. |
| Rtp.TimelineRefinement | internal/proxy/stream_handler.go:1309-1364 | For every interleaving of writes and resets in the window, the 16/32-bit state is the image of an unbounded timeline with H' = max(H, O), and packet i carries count + i and its timestamp modulo the widths. |
| Rtp.WindowIsExact | internal/proxy/stream_handler.go:1349-1355 | The premise is exact: within one circle of the mark, the image survives a packet iff the packet is within 2^31 of the mark. |
| Rtp.SteadySourcesAscend | internal/proxy/stream_handler.go:1309-1364 | Sources that never step back satisfy the premise for the whole run and give a non-decreasing output across any number of switches and wraps. |
| Rtp.ConsumerSeesOneStream | internal/proxy/stream_handler.go:1309-1364 | On the wire: consecutive sequence numbers, and no timestamp before its predecessor in serial order (RFC 1982, section 3.2). |
| Rtp.NeverBelowEarlierSources | internal/proxy/stream_handler.go:1333-1347 | A splice starts at the mark, plus the gap unless the 32-bit mark reads zero; the source stays at or above the mark of earlier sources iff it never reorders back by more than that slack. |
| Rtp.RunStaysAbove | internal/proxy/stream_handler.go:1337-1357 | Over any run of sources that reorder: no packet falls below the mark its source was spliced at iff no source reorders back from its first packet by more than its slack. |
| Rtp.SourcesStayInOrder | internal/proxy/stream_handler.go:1337-1357 | Under that condition no packet of the run is earlier than any packet of an earlier source. |
| Rtp.WrapLosesTheGap | internal/proxy/stream_handler.go:1339-1340 | A steady source that comes to 2^32 and is replaced: the next one starts at the same timestamp, whatever the gap. |
| AnnexB.FindStartCodes | internal/fallback/annexb.go:12-32 | The skipping scan finds exactly the 00 00 01 and 00 00 00 01 codes of the buffer, except a three-byte one in the last three bytes. |
| AnnexB.CutUnits | internal/fallback/annexb.go:38-61 | The units are exactly the bytes between the codes found, empties dropped. |
| AnnexB.ParseAnnexB | internal/fallback/annexb.go:12-62 | Batch parsing equals the specification by markers, short inputs included. |
| AnnexB.StreamNALUs | internal/fallback/annexb.go:67-105 | The byte loop with its zero counter delivers exactly the bytes before each marker without trailing zeros, then the rest of the input as it is. |
| AnnexBLaws.StreamedIsTidied | internal/fallback/annexb.go:67-105 | When the batch parser sees every start code, the streaming splitter gives its units with trailing zeros stripped (the last one excepted), after the bytes before the first code, if any. |
| AnnexBLaws.SplittersAgree | internal/fallback/annexb.go:12-105 | For every byte string, the two splitters agree iff it is empty, is 00 00 01, or has a start code, only zeros before the first one, and no three-byte code at its very end. |
| AnnexBLaws.SerialisedParses | internal/proxy/persist.go:104-108 | Units written with four-byte start codes parse back unchanged, trailing zeros included. |
| AnnexBLaws.RoundTrip | internal/fallback/annexb.go:12-62 | Writing and parsing back is the identity iff no unit is empty or contains a start code (the last may end in one the parser misses). |
| AccessUnit.FilterH264NALUs | internal/proxy/stream_handler.go:2157-2178 | Keeps the whitelisted types in order; a data partition anywhere drops the whole unit. |
| AccessUnit.FilterH265NALUs | internal/proxy/stream_handler.go:2215-2235 | Keeps slices, parameter sets and SEI in order; units shorter than a header go. |
| AccessUnit.HasVCL | internal/proxy/stream_handler.go:2184-2209 | True iff some unit is a slice of the codec. |
| AccessUnit.IsKeyframeAU | internal/proxy/persist.go:142-155 | True iff some unit is an IDR (H.264) or IRAP (H.265) slice. |
| AccessUnit.ParamSets | internal/proxy/persist.go:158-185 | The last VPS, SPS and PPS of the unit. |
| AccessUnit.TrackSets | internal/proxy/stream_handler.go:1078-1089 | In-band sets replace the tracked ones, the last of each kind winning; others stay. |
| AccessUnit.EnsureSPSPPS | internal/proxy/stream_handler.go:2242-2274 | The H.264 injection equals the specification on every access unit and any nil sets. |
| AccessUnit.EnsureVPSSPSPPS | internal/proxy/stream_handler.go:2276-2308 | The same for H.265, with three sets. |
| AccessUnit.CameraRelay.OnVideoAU | internal/proxy/stream_handler.go:1045-1095 | The callback from decoded unit to forwarded frame: filter, VCL check, keyframe gate, tracking, injection, and when the camera takes over (H.265: 1165-1222). |
| AccessUnitLaws.HeaderBytes | internal/proxy/stream_handler.go:2184-2209 | The key slices, slices and sets of both codecs by the header byte as a whole. |
| AccessUnitLaws.WhatIsKept | internal/proxy/stream_handler.go:2157-2235 | A filter keeps exactly the whitelisted units, and a nonempty H.264 result means that there was no data partition. |
| AccessUnitLaws.WhatIsAPicture | internal/proxy/stream_handler.go:2259-2306 | What injection copies: every well-sized unit that is no parameter set. |
| AccessUnitLaws.LastSetIsLast | internal/proxy/persist.go:158-185 | The set found for a role is one, and none comes after it; none is found iff there is none. |
| AccessUnitLaws.WhenAFrameIsEmitted | internal/proxy/stream_handler.go:1045-1076 | A decoded unit is forwarded iff a slice is left of it, and a key slice where a keyframe is awaited. |
| AccessUnitLaws.EmittedHasPicture | internal/proxy/stream_handler.go:1041-1051 | No frame without a slice is emitted, after injection either. |
| AccessUnitLaws.EnsuredKeepsKey | internal/proxy/stream_handler.go:2242-2308 | Injection never changes whether a unit is a keyframe, whatever the sets. |
| AccessUnitLaws.EnsuredIdempotent | internal/proxy/stream_handler.go:2242-2308 | Injecting twice equals injecting once iff no injected set would itself be copied as a picture unit. |
| AccessUnitLaws.EnsuredKeepsPictures | internal/proxy/stream_handler.go:2242-2308 | The ordered subsequence of well-sized non-parameter units is unchanged under exactly the same condition. |
| AccessUnitLaws.TypedSetsKeepApart | internal/proxy/stream_handler.go:2242-2308 | Sets of the right types meet that condition. |
| AccessUnitLaws.EnsuredCarriesSets | internal/proxy/stream_handler.go:2242-2308 | On a keyframe with typed sets: exactly one of each set, first, and reading the sets of the result gives the injected ones. |
| AccessUnitLaws.SetsAreLastForwarded | internal/proxy/stream_handler.go:1078-1095 | At any point of any session the tracked sets are those last forwarded in an admitted frame, or else the announced ones. |
| AccessUnitLaws.EmittedSets | internal/proxy/stream_handler.go:1078-1095 | Every emitted keyframe with known sets carries exactly the last forwarded ones, its own included, or else the announced ones. |
| AccessUnitLaws.FirstFrameIsKey | internal/proxy/stream_handler.go:1053-1076 | The first frame a session emits is a keyframe, and so is each one emitted while one is awaited. |
| Persist.RestoreKeyframe | internal/proxy/persist.go:55-90 | What a restart adopts: H.264 file first, the configured codec shadowing both, and only a keyframe with all its sets. |
| Persist.WhichFileWins | internal/proxy/persist.go:56-60 | A configured codec decides alone; otherwise the H.264 file wins when both are readable, and something is restored iff some allowed file is readable. |
| Persist.KeyframeStore.StoreLastCameraKeyframe | internal/proxy/stream_handler.go:1592-1624 | Only keyframes replace the stored frame and set the live mark; the save job holds the serialised frame. Saves are never started less than 60 s apart, for any clock readings. |
| Persist.KeyframeStore.SaveKeyframe | internal/proxy/persist.go:93-121 | The rate limit and the serialisation. |
| Persist.EnsuredReadsBack | internal/proxy/persist.go:55-90 | A keyframe that went through injection is read back unchanged with its sets if they are complete, and refused otherwise. |
| Persist.EmittedKeyframeRestores | internal/proxy/persist.go:55-121 | End to end over any session: each emitted keyframe, saved and restored, is the same frame with exactly the sets tracked at that point, or is refused when those are incomplete. |
| Crash.AlwaysIntact | internal/proxy/persist.go:93-139 | At any step of any number of saves, with failures, partial writes and crashes, each codec file is absent or a complete serialised keyframe of that codec. |
| Crash.RestoreYieldsASavedKeyframe | internal/proxy/persist.go:55-139 | From an empty directory, a restart at any moment restores nothing or exactly a keyframe whose save was started. |
| Crash.InterruptedFiles | internal/proxy/persist.go:93-139 | Any one save that fails or is cut short anywhere leaves the two files as they were, or the new one whole, beside the other codec's or instead of it. |
| Crash.InterruptedSave | internal/proxy/persist.go:93-139 | For a self-contained keyframe a restart then restores what it would have before, or the new keyframe, which is nothing when another codec is configured. |
| Crash.AnotherCodecLosesTheOld | internal/proxy/persist.go:114-119 | With another codec configured, a completed save leaves nothing to restore. |
| Crash.CompletedSave | internal/proxy/persist.go:110-139 | A save that runs to its end leaves exactly its keyframe in the directory, the other codec's file gone. |
| Crash.FailedSaveChangesNothing | internal/proxy/persist.go:125-139 | A save one of whose operations fails before its file is in place leaves both codec files as they were, whatever follows. |
| Crash.NoTempIsLeft | internal/proxy/persist.go:125-139 | Without a crash no temporary file outlives its save, whatever failed. |
| Crash.CompletedSaveIsRestored | internal/proxy/persist.go:55-139 | After a completed save a restart restores exactly the new keyframe. |
| Crash.WhenAFileIsLeft | internal/proxy/persist.go:110-139 | Two saves of different codecs, in any interleaving, with failures and crashes: a codec's file is left iff its last rename comes after the other save's last removal. |
| Crash.WhenNothingIsLeft | internal/proxy/persist.go:110-139 | So nothing is left iff each save's removal comes after the other's rename. |
| Crash.CrossedSavesLoseBoth | internal/proxy/persist.go:110-139 | From any directory: an interleaving of two such saves, both complete and without an error, after which there is nothing to restore. |
| FallbackLocks.CounterAndStatus | internal/proxy/stream_handler.go:1682-1725 | In every interleaving the wait group counts the runs that have not called Done; when every run is cleaned, the cancel is nil, the kind none and since zero, although runs report their kind under another lock. While the cancel is non-nil, a kind is reported and since is set. |
| FallbackLocks.StopIsABarrier | internal/proxy/stream_handler.go:1714-1725 | In every interleaving, after a stop call returns no packet is ever written by a run started before that call. |
| FallbackLocks.ReleasedForGood | internal/proxy/stream_handler.go:1714-1725 | After a Wait returns, no run started before its end ever writes again. |
| FallbackLocks.WhenRunsOverlap | internal/proxy/stream_handler.go:1682-1725 | In every interleaving: at most one run is uncleaned at every point iff no start finds the cancel nil while a run is uncleaned. |
| FallbackLocks.SingleOwner | internal/proxy/stream_handler.go:1682-1725 | Under exactly that condition the cancel is non-nil iff a live run exists that no stop has taken, and there is at most one. |
| FallbackLocks.DisciplineSuffices | internal/proxy/stream_handler.go:1682-1725 | If no start enters between a stop's unlock and the end of its Wait, the condition holds and runs never overlap. |
| FallbackLocks.UndisciplinedRunsOverlap | internal/proxy/stream_handler.go:1704-1725 | An interleaving in which an old cleanup drops a new run's cancel and two runs live on. |
| Handler.StreamHandler.constructor | internal/proxy/stream_handler.go:539-555 | A battery camera starts in fallback at once; a restored keyframe is not live. |
| Handler.StreamHandler.StartFallback | internal/proxy/stream_handler.go:1682-1712 | Starts a run and resets the timeline unless one is live. |
| Handler.StreamHandler.StopFallback | internal/proxy/stream_handler.go:1714-1725 | Ends the run and clears the reported state. |
| Handler.StreamHandler.EndSession | internal/proxy/stream_handler.go:572-593 | After any error: fallback and Sleeping, or Disconnected. |
| Handler.StreamHandler.RebuildForCodec | internal/proxy/stream_handler.go:413-513 | Stops the fallback, drops the stored keyframe, and only when the camera's sets are missing encodes a new placeholder and restarts; a base frame or a dotted variant that cannot be encoded stays as it was. |
| Handler.StreamHandler.OnDescribe | internal/proxy/stream_handler.go:713-729 | A DESCRIBE answer: the rebuild if codec or sets differ, nothing otherwise. |
| Handler.StreamHandler.OnPlay | internal/proxy/stream_handler.go:797-831 | A new session: online, no key seen, timers restarted; the fallback keeps running. |
| Handler.StreamHandler.OnVideoPacket | internal/proxy/stream_handler.go:1027-1100 | One video packet: the keyframe gate, the take-over and the forwarding (H.265: 1145-1230). |
| Handler.StreamHandler.OnMonitorTick | internal/proxy/stream_handler.go:870-895 | One monitor tick: timeout ends the session, a stall starts the fallback and awaits a keyframe. |
| Handler.StreamHandler.OnClosed | internal/proxy/stream_handler.go:862-868 | The camera closes the connection: fallback at once, or Disconnected. |
| Handler.StreamHandler.ChoosePicture | internal/proxy/stream_handler.go:1751-1841 | What a run serves: held keyframe or neutral image in neutral mode, else stored, else the pre-encoded variants, else variants encoded on the fly. |
| Handler.StreamHandler.BeginFallback | internal/proxy/stream_handler.go:1745-1876 | The start of a run: the choice, the reported kind, the end of the hold, or giving up. |
| Handler.StreamHandler.TickFallback | internal/proxy/stream_handler.go:1910-1984 | One fallback tick: the switch to the neutral image, the variant whose turn it is, and the count of accepted frames; the unit behind it is `Units.UnitShown`. |
| Handler.Dispatch | internal/proxy/stream_handler.go:539-897 | Whatever the next event, the handler's methods leave it in the state the specification gives. |
| Handler.Live | internal/proxy/stream_handler.go:539-601 | Any sequence of events, dispatched one by one, leaves the handler where the specification runs to. |
| HandlerLaws.StepFlows | internal/proxy/stream_handler.go:539-897 | Every event keeps: a session that relays excludes a live fallback run, and the open segment belongs to whoever may write next. |
| HandlerLaws.SegmentPurity | internal/proxy/stream_handler.go:539-601 | In every run, all deliveries between two timeline resets come from one camera session or one fallback run, across stall, close, timeout, rebuild and retry. |
| HandlerLaws.ShownPictures | internal/proxy/stream_handler.go:1592-1624 | In every run a stored frame is a keyframe of the current codec; every picture is of the advertised codec except pre-encoded ones; fallback pictures are keyframes; a neutral stream shows only camera keyframes of this process and the neutral image. |
| HandlerLaws.WhenARunIsStale | internal/proxy/stream_handler.go:1794-1806 | A run takes up a picture of another codec iff it begins outside neutral mode, without a stored keyframe, on a placeholder whose base frame or dotted variant is of another codec. |
| HandlerLaws.WhenAWrongPictureIsShown | internal/proxy/stream_handler.go:1794-1806 | In every run: some delivery is of another codec than the advertised one iff a run begins on a placeholder under that guard and a frame is accepted while the variant whose turn it is was encoded for another codec. |
| HandlerLaws.WhenTheDotIsShown | internal/proxy/stream_handler.go:1882-1983 | The turn is the dotted variant's, if there is one, in every other block of switchEvery accepted frames, the first being the base frame's. |
| HandlerLaws.StaleFrameIsShown | internal/proxy/stream_handler.go:477-479 | A run from a cold start in which the H.264 placeholder is shown on an H.265 stream. |
| HandlerLaws.StaleFrameAfterRestart | internal/proxy/persist.go:76-83 | The same after a restart that restored an H.265 keyframe, with no change of codec. |
| HandlerLaws.LeftOverDotIsShown | internal/proxy/stream_handler.go:272-288 | A run in which the rebuild encodes a new base frame but no new dotted variant, and the old one is shown on the new stream. |
| HandlerLaws.WhenFramesGoStale | internal/proxy/stream_handler.go:272-288 | After any event all placeholder frames are of the stream's codec iff: without a rebuild, they were; at a rebuild that encodes no base frame, they are of the new codec; at one that does, the dotted variant is new, missing or of the new codec. |
| HandlerLaws.SwitchesLandOnKeyframes | internal/proxy/stream_handler.go:1053-1098 | In every run: the first delivery after each reset is a keyframe iff no delta frame is sent after a refused take-over keyframe and before an accepted one. |
| HandlerLaws.NoRefusalNoDelta | internal/proxy/stream_handler.go:1053-1098 | That never happens while the RTP encoder accepts the camera's frames. |
| Units.CameraFrameMatches | internal/proxy/stream_handler.go:1045-1098 | For any decoded unit and any session state: the callback admits it iff the event forwards it, takes over iff the event does, and the unit sent has an IDR or IRAP slice iff its shot is marked a keyframe. |
| Units.Carousel.Advance | internal/proxy/stream_handler.go:1882-1888 | The animation counters: after n accepted frames the variant shown is n / switchEvery modulo the number of variants. |
| Units.TickingMatches | internal/proxy/stream_handler.go:1937-1983 | A fallback tick sends the variant whose turn it is, rewritten with the advertised sets, or the neutral frame untouched; when it is of the advertised codec it has an IDR or IRAP slice. |
| Units.BootMatches | internal/proxy/persist.go:55-90 | Whatever is on disk, a restored frame has such a slice of the codec the handler takes from it. |
| Units.DecisionsAgree | internal/proxy/stream_handler.go:724-726 | With the sets tracked through DESCRIBE answers, rebuilds and captured frames, the handler rebuilds exactly when `Rebuild` says so. |
| Units.RunMatches | internal/proxy/stream_handler.go:539-897 | A run with its units and advertised sets is a run of the handler, and every entry keeps the correspondence. |
| Units.FlagsAreSlices | internal/proxy/stream_handler.go:1592-1624 | In every run from any files: every delivery of the advertised codec is marked a keyframe iff its unit has an IDR or IRAP slice, and a stored frame has one. |
| Units.SwitchesLandOnSlices | internal/proxy/stream_handler.go:1053-1098 | Every switch lands on an IDR or IRAP slice, with the two exceptions characterised above. |
| Ledger.EveryUnitIsExplained | internal/proxy/stream_handler.go:1937-1984 | From any files, in every run: a camera unit is the filtered one, opening, when it is a keyframe, with the sets last sent or announced; a fallback unit is the variant whose turn it is, opening with the sets the handler held when the run began; from the end of the hold on it is the encoder's neutral frame, untouched. |
| Ledger.RewrittenCarries | internal/proxy/stream_handler.go:2242-2308 | A unit so rewritten, from complete typed sets, has exactly one of each set, first, reads back as them, and keeps the picture units in order. |
| Ledger.KeyframesOpenWithTheirSets | internal/proxy/stream_handler.go:1943-1954 | So in every run each keyframe delivered by the camera or by a fallback run opens with exactly the sets recorded for it and shows the pictures of the unit it stands for. |
| Units.BootAdvertises | internal/proxy/persist.go:76-79 | What a new handler advertises: the restored sets, or its placeholder's, or none. |
| Units.KeyframeIsAdvertised | internal/proxy/stream_handler.go:1530-1543 | A forwarded H.264 keyframe brings the live description in step with the sets it opens with. |
| Units.WarmBootKeepsTheStream | internal/proxy/persist.go:76-83 | After a restart, a camera that announces the restored sets causes no rebuild and leaves picture and advertised sets as they are. |
| HandlerModes.NeutralStream | internal/proxy/stream_handler.go:1759-1792 | Every picture a run of a neutral stream shows is a camera keyframe of this process or the neutral image, never one restored from disk, and after the neutral image it shows nothing else. |
| HandlerRecords.HeldForTheWholeHold | internal/proxy/stream_handler.go:1769-1792 | In every run of a neutral stream: a run that began with a live keyframe at time b sends that keyframe until a tick at or after b plus the configured hold at which the neutral image is there, and the neutral image from that tick on; any other run sends the neutral image only. |
| HandlerModes.HeldOnlyUntilTheHoldEnds | internal/proxy/stream_handler.go:1918-1941 | One tick: the held keyframe is sent iff the run has not switched and the end of its hold is not reached or the neutral image is not available. |
| HandlerModes.NeutralAtOnce | internal/proxy/stream_handler.go:1769-1792 | Without a live keyframe the run serves the neutral image from its first frame, or gives up. |
| HandlerModes.StallBound | internal/proxy/stream_handler.go:854-895 | Once no video has come for the stall timeout plus one tick: the session is over, or a fallback run is live iff none has given up since the last monitor tick or PLAY, whatever happened before. |
| HandlerRecords.TimersTell | internal/proxy/stream_handler.go:797-816 | In every run a session's timers are the times of its last video packet, last packet of any kind and last tick, PLAY counting for each; audio does not count as video. |
| HandlerRecords.SilenceIsNoticed | internal/proxy/stream_handler.go:870-895 | The timeout and the stall bound told by the events: a session without packets is over, one without video is in fallback iff no run gave up since the last tick. |
| HandlerRecords.WhatATickDoes | internal/proxy/stream_handler.go:870-895 | Any session, relaying or not: a tick ends it iff the timeout has passed; otherwise it starts a run, awaits a keyframe and reports Sleeping iff the fallback is allowed, none is live and the stall timeout has passed; otherwise only the clock and the tick time change. |
| HandlerRecords.LivelySessionIsLeftAlone | internal/proxy/stream_handler.go:870-895 | Over any run of a relaying session whose video never pauses: every picture is forwarded, in order, and nothing else is added to the trace, no reset in particular. |
| HandlerRecords.StoredIsTheLastKeyframe | internal/proxy/stream_handler.go:1592-1624 | In every run the stored frame is the camera's last keyframe since the last rebuild, or else the restored one if there was no rebuild; it is live iff the camera ever sent one. |
| HandlerRecords.ReportedState | internal/proxy/stream_handler.go:539-601 | In every run the state is Connecting from an attempt on, Online from PLAY and each take-over on, Sleeping from a stall on, and after each failure Sleeping where the fallback is allowed and Disconnected where not. |
| HandlerModes.TimeoutBound | internal/proxy/stream_handler.go:870-880 | Once no packet of any kind has come for the timeout plus one tick, the session is over, in every mode. |
| HandlerModes.WhenARunGivesUp | internal/proxy/stream_handler.go:1751-1876 | A run gives up iff it has no RTP encoder, or in neutral mode neither a live keyframe nor the neutral image, or otherwise no stored, pre-encoded or encoded frame. |
| HandlerModes.WhenTheSourceIsLost | internal/proxy/stream_handler.go:500-508 | Battery mode, any state with a source: an event leaves the stream with neither a live fallback nor a relaying camera iff it is a rebuild on the camera's own sets or the start of a run under that guard. |
| HandlerModes.TheSourceCanBeLost | internal/proxy/stream_handler.go:500-508 | Each of the ways does occur on the first event of a stream, the rebuild for a camera of the other codec. |
| HandlerModes.NoDeadGap | internal/proxy/stream_handler.go:546-555 | A fallback is live or the camera is relayed at every point of a run iff the run has none of those events. |
| HandlerModes.WhenTheSourceComesBack | internal/proxy/stream_handler.go:844-895 | A lost source comes back exactly with a failed handshake, a closed connection, a keyframe, a stall or timeout tick, or a rebuild that generates its own frame. |
| HandlerModes.OnlyAKeyframeReplaces | internal/proxy/stream_handler.go:1053-1076 | While the session lasts, only a keyframe replaces a live run, unless it gives up under the guard. |
| HandlerModes.OnlineMeansForwarded | internal/proxy/stream_handler.go:1053-1076 | After a session's first keyframe a frame is forwarded iff the state is Online or the frame is a keyframe. |
| HandlerModes.ReportedKindTells | internal/proxy/neutral.go:181-219 | In every run the reported kind tells what is shown, except that an on-the-fly frame is reported as a last keyframe. |
| HandlerModes.OnTheFlyIsReportedAsKeyframe | internal/proxy/stream_handler.go:1807-1841 | A run in which that exception occurs. |
| Continuity.StampsAreSteady | internal/proxy/stream_handler.go:1878-1978 | Fallback runs, counting from zero by the increments of any rates in force, keep their clocks steady. |
| Continuity.OutputIsOneStream | internal/proxy/stream_handler.go:1309-1364 | Any run of the handler, written through the video normaliser, is one stream: consecutive sequence numbers and timestamps that never step back, if each camera session keeps its own clock steady; nothing is assumed between producers. |
| Rebuild.Advertiser.CameraParamsDiffer | internal/proxy/stream_handler.go:2313-2336 | True iff the announcement is complete, something is known, and a set differs, a missing set counting as an empty one. |
| Rebuild.WhenConsumersAreCutOff | internal/proxy/stream_handler.go:2313-2336 | While the codec stays, a DESCRIBE cuts consumers off iff the announcement is complete, the handler holds some set of the codec, and an announced set has other bytes than the held one. |
| Rebuild.FirstSessionNeverRebuilds | internal/proxy/stream_handler.go:2318-2334 | From nothing known the first session never rebuilds while the codec stays, whatever it announces. |
| Rebuild.Advertiser.PreEncodeFallback | internal/proxy/stream_handler.go:228-297 | The placeholder's sets fill in only what is missing. |
| Rebuild.Advertiser.RebuildForCodec | internal/proxy/stream_handler.go:413-513 | The codec, sets and description after a rebuild, with complete and with partial announcements. |
| Rebuild.Advertiser.OnDescribe | internal/proxy/stream_handler.go:716-771 | One DESCRIBE: whether it rebuilds, and the codec, sets and description afterwards. |
| Rebuild.WhatADescribeLeaves | internal/proxy/stream_handler.go:737-770 | The announced sets as a whole, missing ones included, once the first one is there; otherwise what the handler had, or after a change of codec what the placeholder adds to it. |
| Rebuild.Advertiser.CaptureKeyframeH264 | internal/proxy/stream_handler.go:1512-1545 | A forwarded H.264 frame: its last SPS and PPS go to the live description, both or neither, and nothing else changes. |
| Rebuild.SettledAfterSession | internal/proxy/stream_handler.go:716-771 | The same announcement again never rebuilds, partial ones included, from any state. |
| Rebuild.WarmStart | internal/proxy/stream_handler.go:2313-2336 | A warm start whose sets equal the camera's never rebuilds. |
| Rebuild.RebuildMeansChange | internal/proxy/stream_handler.go:716-771 | Session k > 0 rebuilds only if its announcement differs from session k-1's. |
| Rebuild.RebuildsAreBounded | internal/proxy/stream_handler.go:716-771 | Over any list of announcements, rebuilds are at most one more than the changes, and no more than the changes if the first session does not rebuild. |
| Rebuild.WhenInStep | internal/proxy/stream_handler.go:1530-1543 | At any point of any run, between any frames, the description says what the handler holds iff no in-band pair is unsettled since the last rebuild or copied announcement, or the last one is the handler's own. |
| Rebuild.WhenAFrameKeepsStep | internal/proxy/stream_handler.go:1530-1543 | One frame keeps the description in step iff it carries no pair or the handler's own. |
| Rebuild.OutOfStep | internal/proxy/stream_handler.go:1530-1543 | A session that announces one pair and sends another, and ends out of step. |
| Rebuild.FullAnnouncementIsAdvertised | internal/proxy/stream_handler.go:737-770 | After a complete announcement the description carries exactly its sets. |
| Rebuild.DescribeChangesSilently | internal/proxy/stream_handler.go:737-770 | Without a rebuild, in step or not, an announcement changes the advertised sets iff it is copied and differs from them. |
| Rebuild.SilentChange | internal/proxy/stream_handler.go:737-770 | From a description in step the advertised sets stay iff the announcement is not one with other sets that is partial, leading set included, or complete when nothing was known. |
| Rebuild.FrameChangesSilently | internal/proxy/stream_handler.go:1530-1543 | A frame changes the advertised sets iff the stream is H.264 and it carries another pair. |
| Rebuild.ConnectedConsumersKeepTheirSets | internal/proxy/stream_handler.go:716-771 | Over any number of sessions without a rebuild, the advertised sets stay the same at every point iff no session announces others or sends others in band. |
| Rebuild.WhenSetsAreTyped | internal/proxy/stream_handler.go:257-270 | After a DESCRIBE the advertised sets are of the advertised codec iff the announcement leads with its first set, or the codec stays and they were, or what is left of the old codec's sets is of the new codec too or replaced. |
| Rebuild.AdvertisedStaysTyped | internal/proxy/stream_handler.go:716-771 | Over any run in which each change of codec is announced with its first set, they stay so, captured frames included. |
| Rebuild.MixedSets | internal/proxy/stream_handler.go:257-270 | A camera that turns out to be H.265 and announces no sets: the description and every keyframe the fallback rewrites carry the new VPS with the old SPS and PPS. |
| HostGate.Gate.Acquire | internal/proxy/hostgate.go:26-33 | Takes the slot exactly when it is free. |
| HostGate.Gate.ReleaseAfter | internal/proxy/hostgate.go:37-43 | Empties the slot now, or leaves it to one timer. |
| HostGate.Attempt.ReleaseGate | internal/proxy/stream_handler.go:689-696 | Releases the slot if the attempt still holds it, and does nothing the second time. |
| HostGate.OneHandshakeAtATime | internal/proxy/stream_handler.go:685-696 | For any number of streams and any interleaving, although every way out of an attempt releases again: holders plus pending timers equal the occupancy, at most one, and each acquire is matched by exactly one release, except that of an attempt before PLAY. |
| HostGate.HandshakesAreSpaced | internal/proxy/hostgate.go:17-43 | No drain or release finds the slot empty, and each acquire is at least 300 ms after the previous release call. |
| HostGate.FlagIsNeeded | internal/proxy/stream_handler.go:689-696 | A run in which the deferred release, without the flag, would find the slot empty. |
| HostGate.GateComesBack | internal/proxy/hostgate.go:26-43 | With every attempt past PLAY or over and no pending timer the slot can be taken: it is never lost. |
| NeutralCache.KeyInjective | internal/proxy/neutral.go:77-78 | For a fixed kind, two keys are equal only for equal codec, size, profile and level. |
| NeutralCache.CameraNamesArePlain | internal/proxy/neutral.go:159-177 | No profile or level name contains the separator, for any profile_idc and level_idc. |
| NeutralCache.WantedFits | internal/proxy/neutral.go:58-79 | The encoded size is even, at least the picture's and at most one larger in each dimension; only H.264 frames have a profile and a level. |
| NeutralCache.ProfileNames | internal/proxy/neutral.go:159-169 | Which profile_idc has which profile name. |
| NeutralCache.Cache.EnsureNeutral | internal/proxy/neutral.go:81-112 | Over any sequence of changes and encoder failures, a success is exactly what a fresh encode for the current rounded-even parameters gives; a failure needs a failing encoder and no cached match, and changes nothing. |
| Pacing.AuBytes | internal/proxy/fallback_rate.go:22-28 | The sum of the unit sizes. |
| Pacing.CappedRate | internal/proxy/fallback_rate.go:32-44 | Every accepted rate, floored and capped for any frame size, is in 2..60, never raised by the cap, and rate times bytes is at most 200000 unless the rate is 2. |
| Pacing.WhenTheRateIsCapped | internal/proxy/fallback_rate.go:32-44 | The cap lowers the rate iff it is above 2 and rate times bytes exceeds the budget. |
| Pacing.CapIsHighest | internal/proxy/fallback_rate.go:32-44 | No rate between the capped one and the given one would keep the budget; a frame of no size changes nothing. |
| Pacing.FloorKeeps | internal/proxy/stream_handler.go:1735-1743 | A configured rate of two or more is kept. |
| Pacing.PayloadOfWritten | internal/proxy/fallback_rate.go:22-28 | The bytes counted are those written to disk less the start codes. |
| Pacing.ASecondOfFrames | internal/proxy/stream_handler.go:1878-1978 | A second's worth of accepted frames takes a second of timestamps, less than one tick per frame short. |
| Pacing.IncrementRange | internal/proxy/stream_handler.go:1878-1879 | The RTP increment is in 1500..45000 for every such rate. |
| Pacing.FallbackTempo.constructor | internal/proxy/stream_handler.go:1735-1743 | The rate and the increment a run starts with. |
| Pacing.FallbackTempo.Tick | internal/proxy/stream_handler.go:1929-1978 | One tick: the neutral rate after the switch, the timestamp used, and no advance for a refused frame; rate and increment stay in range. |
| Pacing.FallbackSourceIsSteady | internal/proxy/stream_handler.go:1910-1984 | A whole run, with any switch and any refusals, is a steady source for the normaliser. |
| Pacing.FallbackRunAscends | internal/proxy/stream_handler.go:1727-1985 | Spliced in anywhere, a run of any length stays in the normaliser's window and never steps back. |
| Config.Effective | internal/config/config.go:83-143 | Every setting is the camera's own where given and the default otherwise. |
| Config.NoOverridesGiveDefaults | internal/config/config.go:83-143 | A camera without overrides has the defaults. |
| Config.NumbersOverrideAlone | internal/config/config.go:99-143 | Each override of a duration or number sets its own field and no other, whatever the others are. |
| Config.NamesOverrideAlone | internal/config/config.go:99-143 | The same for the named settings and battery mode. |
| Config.ValidateResolved | internal/config/config.go:350-388 | Accepts exactly the settings in range, and otherwise names the first field that is not. |
| Config.WhatIsAccepted | internal/config/config.go:350-388 | Exactly which settings are accepted. |
| Config.NamesAreSafe | internal/config/config.go:286-288 | A valid name has no separator, dot, colon, quote, space or control character and no leading dash, and its low path is a valid name too. |
| Config.Validate | internal/config/config.go:299-348 | In any order of the cameras: accepts exactly the documents with valid names, sources, settings and distinct output paths, and every complaint is true of the document. |
| Config.PathsCollide | internal/config/config.go:307-338 | Paths are distinct iff no camera is named after another camera's low stream. |
| Config.NewManager | internal/proxy/manager.go:21-60 | The handler map for a given order, later writes replacing earlier ones; an error exactly when there are no cameras. |
| Config.LowDimensions | internal/proxy/manager.go:95-112 | The low stream's size hint: explicit values win; otherwise the height is even and within two lines of the main picture's shape, on the side of zero; 640x480 without a hint. |
| Config.LowStreamDiffersInThese | internal/proxy/manager.go:31-44 | A low stream is its camera's but for the source, the size, and the codec where it has its own. |
| Config.ShapeIsUnique | internal/proxy/manager.go:95-112 | Those two properties leave a single height. |
| Config.OneHandlerPerPath | internal/proxy/manager.go:24-50 | With distinct paths: exactly one handler per claimed path, with its owner's configuration, and no other. |
| Config.SameHandlers | internal/proxy/manager.go:24-50 | With distinct paths every iteration order gives the same handlers. |
| Config.OrderMatters | internal/proxy/manager.go:24-50 | The handlers are independent of the order iff no camera is named after another's low stream. |
| Config.StreamsAreValid | internal/config/config.go:350-388 | Every stream of an accepted document, low ones included, has a source, settings in range and a well-formed path. |
| Config.HandlersAreValid | internal/proxy/manager.go:24-50 | Every handler built from an accepted document, in any order, is valid, and its fallback rate is in range for any frame size. |

## Left out

- Sockets, RTSP client and server, RTP packetisation and reordering: writing a packet appends to a trace; decoded access units, their packet counts and refusals by the RTP encoder are inputs.
- FFmpeg, PNG drawing and SPS parsing: the encoder is an arbitrary function that may fail; picture size, profile_idc and level_idc are inputs.
- G.711 conversion, snapshots, logging, panic recovery, URL redaction, YAML and environment expansion, application of built-in defaults: no state the properties depend on.
- Context cancellation and Stop: runs are cut anywhere by ending the list of events.
- Audio: the normaliser covers its timeline; that audio has one producer is not true of the code (a stall starts silence while the callback holds silence stopped) and is not claimed.
- Fallback started by a stall while a camera callback is in progress: events of `Handler` are atomic, and `FallbackLocks` covers start and stop only; the packet between the start of the fallback and the closing of the connection is part of the closing event.
- Handler.StreamHandler.TickFallback: names the picture of a tick by its codec, flag and origin; the unit sent and its rewriting are in `Units`.
- Frames from FFmpeg count as keyframes of the codec they were encoded for (`Units.Allowed`), and camera and FFmpeg give sets of the codec in question (`Rebuild.TypedInput`).
- A delivery is a packet handed to the normaliser; the output stream is bound before the handlers start and missing only inside a rebuild, when nothing writes.
- Continuity.OutputIsOneStream: needs each camera session's own clock to be steady, which is up to the camera; `Rtp.RunStaysAbove` covers sessions that reorder.
- In-band sets reach the live description of H.264 streams only, as in the code; other readers of a captured keyframe (picture size, snapshots) are not modelled.
- NeutralCache.Cache.EnsureNeutral: covers the black and grey kinds, whose image depends on the parameters alone; the offline image and a file may change behind an equal key.
- Crash.RestoreYieldsASavedKeyframe: rename is atomic and temporary names are not reused; contents are compared when saves hold no start code inside a unit.
- Crash.InterruptedSave: one save at a time; two of different codecs are in `WhenNothingIsLeft`, and for any number `AlwaysIntact` and `RestoreYieldsASavedKeyframe` hold.
- Crash.CompletedSave: no file operation fails.
- Config.Validate: sort.Strings is replaced by any order of the camera names.
