# Verified models of the Vynfo core

Vynfo is a collaborative video editor: uploads are cut into segments and indexed, an edit is a list of
sections, and the same edit is previewed through an HLS playlist and exported through ffmpeg. This project
models the parts of it that hold real invariants and proves them in Dafny.

| files | component |
|---|---|
| `ManifestBuilder`, `UploadPool`, `UploadPoolInvariants`, `UploadPoolTheorems` | segment upload: one producer, N workers, one draining consumer, as a step relation over the atomic actions of the goroutines |
| `Decimal`, `SegmentNames`, `GoInts` | segment file names, `%03d`, `ParseInt`, Go's fixed-width integers |
| `FrameIndex`, `IndexRows` | the key-frame and audio-frame indexers, and the index rows they insert |
| `Playback`, `Playlist`, `Media` | the HLS playlist (RFC 8216) of a list of sections, and what a player shows of it |
| `AudioProgram` | the audio playlist with its sort and overlap check, and the client's seek map |
| `FilterGraph`, `VideoExport`, `GraphLinks`, `ExportMeaning` | the export builder, the ffmpeg graph it writes, how its labels link, and a semantics of such graphs |
| `Timeline`, `AudioTimeline`, `PreviewExport` | the two compilers agree |
| `FileTree`, `FileRules`, `RequestLaws`, `FileService` | the virtual file system: forest theory, request rules and what they mean row by row, the handlers as a class, with the two project handlers on its tables |
| `CommitGraph`, `Conversation` | the commit graph and the AI conversation tree |
| `ThreadStream` | the streaming fold of agent events into message parts |
| `MessageObserver`, `ManifestCache` | two shared in-memory structures, as steps under their lock |

Code that updates things in place is modelled as methods and classes and proved against specification
functions (`class ManifestBuilder`, `VideoExportBuilder`, `FileServiceServer`, `ConversationStore`,
`ProjectStore`, `MessageObserver`, `ManifestCache`, and the loops of the indexers, the playlist writers, the
draining consumer, the seek map and the streaming fold). The theorems are about those functions.

## Assumptions

- Times are whole milliseconds. `uint64` subtraction, the `int32` query limit and the `int64` conversions keep
  Go's wrap-around; `InBounds` says when nothing wraps.
- Row identifiers are fresh. Each file-system handler and each conversation transaction is one atomic step;
  completion times of agent runs strictly increase. A commit request is two steps, check and transaction, and
  requests interleave freely.
- The object store, the index queries, ffprobe, the signing of URLs and the progress stream answer arbitrarily,
  by success or failure.
- Playing semantics: the bytes of an index row decode to the half second of its asset (`Media.Faithful`); pictures
  are shown one entry after the other; audio program time follows the EXTINF durations. ffmpeg's `trim`, `atrim`,
  `anullsrc`, `concat`, `adelay` and `amix duration=first` are given per millisecond in `FilterGraph.Apply`.

## Findings

- Outside cancellation: `uploadSegments` can return nil with segments missing. It does exactly when the producer gave
  up a segment it was offering (`NilIsCompleteIff`); for every number of workers such a run exists if and only if the
  stream begins with a segment (`OutsideCancellationCanLoseSegments`). Without outside cancellation nil means complete.
- Sections off the half-second grid, which splitting in the editor can produce
  (web/src/components/stores/editor.ts:224-277), play differently from their export. `SectionAgreesIff` is exact for
  one section. The audio clocks stay together at a section's start if and only if the earlier sections last in total as
  long as their half seconds (`SeekLandsIff`), and at all starts if and only if every section but the last is on the
  grid (`AllSeeksLandIff`).
- Splitting a section off the grid shows half a second too little or too much, except inside the first half second
  of a longer section; in the last half second of a section that ends with its source it makes the whole playlist
  fail (`SplitPlaysRightIff`).
- The seek map is right at all times if and only if the client holds its sections in start order
  (`SeekNeedsOrder`).
- Two overlapping commits from the same tip both succeed and the first disappears from the branch history
  (`OverlappingCommitIsLost`, `LateCommitDropsNewer`); `HistoryExtendsIff` says when the whole history is kept.
- A commit that names the zero id on a branch without commits passes the stale check and then fails in its transaction
  (`ZeroIdIsLetThroughInVain`).
- A run with two user messages is never written when the client named its message, since both would get that id
  (`TwoUserMessagesAreRefused`).
- A reply to a message inside a run is sent the whole run, later messages included; `HistoryIsThePathIff` says
  exactly when the history is the path.
- A cached manifest can outlive its signing expiry. When every Add follows the computation of its span at once it
  does not (`PromptEntriesExpireInTime`); otherwise it can if and only if no timer of its key, its own or an older
  one, is due by the expiry (`OutlivesIff`, `AddOutlivesIff`).
- The video index loses a key frame if and only if a later one is rounded to the same half second
  (`KeyFrameSurvivesIff`), which happens at most 200 ms apart (`NormalizeCollision`); 400 ms and 600 ms are such a
  pair (`CloseKeyFramesCollide`).
- An exporter's graph is always closed (`GraphIsClosed`), but what it renders is only as `GraphMeaning` says when the
  media have the streams the client claims.
- `offsetIntoVideoSeconds` of the exporter holds milliseconds, despite its name; the model follows the value.

## Model

| member | source | states |
|---|---|---|
| `ManifestBuilder.ManifestBuilder.UploadSegment` | backend/video/manifest-builder.go:84-122 | the object key is reported whatever happens; the line is recorded under the parsed index exactly when the object was stored and the name has an index; the error cases |
| `ManifestBuilder.LineDeterminesSegment` | backend/video/manifest-builder.go:106-107 | a recorded line determines the duration it announces and the object key it points to |
| `ManifestBuilder.ManifestBuilder.FinishUpload` | backend/video/manifest-builder.go:178-208 | the text written is the header, the lines in strictly increasing segment index, and the end tag |
| `ManifestBuilder.ManifestFrame` | backend/video/manifest-builder.go:178-208 | every manifest begins with the header and ends with the end tag |
| `ManifestBuilder.ManifestIsUnique` | backend/video/manifest-builder.go:185-200 | a set of lines determines the manifest, whatever order the map was walked in |
| `UploadPool.UploadSegments` | backend/services/vfs/upload-utils.go:30-71 | the draining loop refines the fold over all results: the cleanup list and the error, whose meaning the next three state |
| `UploadPool.DrainOutcome` | backend/services/vfs/upload-utils.go:34-71 | nil is returned if and only if every result and every progress call succeeded, and then every result was counted |
| `UploadPool.FirstErrorIsReturned` | backend/services/vfs/upload-utils.go:38-71 | the error returned is that of the first result or progress call that failed, whatever fails after it; the results counted are those before it |
| `UploadPool.DrainedKeys` | backend/services/vfs/upload-utils.go:34-37 | the cleanup list holds exactly the nonempty keys of the results |
| `UploadPoolInvariants.InvStep` | backend/video/upload-worker.go:22-84 | every atomic action of producer, worker or consumer keeps the invariant: stream order, single custody of each segment, the key list, the progress logs, blame for early stops, faults |
| `UploadPoolInvariants.InvRun` | backend/video/upload-worker.go:22-84 | hence every interleaving keeps it |
| `UploadPoolTheorems.NeverStuck` | backend/video/upload-worker.go:27-83 | no deadlock: in every reachable state before the consumer returns some goroutine can move |
| `UploadPoolTheorems.MeasureDecreases` | backend/video/upload-worker.go:45-83 | each step lowers a measure, so no run is infinite |
| `UploadPoolTheorems.RunsAreBounded` | backend/video/upload-worker.go:33-83 | there are as many workers as asked for, at least one, and no run is longer than ten steps a segment, one a worker and seven more |
| `UploadPoolTheorems.WorkersRunSideBySide` | backend/video/upload-worker.go:33-56 | as soon as there is a segment for each, all workers can hold one at the same time |
| `UploadPoolTheorems.EnteredAtMostOnce` | backend/video/upload-worker.go:46-74 | at every moment of every run segments have been entered at most once, in stream order |
| `UploadPoolTheorems.CleanupListIsExact` | backend/services/vfs/upload-utils.go:34-71 | on return, whatever the outcome, the cleanup list is the object keys of exactly the entered segments, once each |
| `UploadPoolTheorems.ErrorExactlyWhenFaulty` | backend/services/vfs/upload-utils.go:38-71 | an error is returned if and only if some operation failed |
| `UploadPoolTheorems.ReturnsTheFirstError` | backend/services/vfs/upload-utils.go:34-71 | in every run, whatever the schedule, the error returned is that of the first message or progress call of the run that failed, and nil when none did |
| `UploadPoolTheorems.FirstErrorCancels` | backend/services/vfs/upload-utils.go:38-63 | at every moment of every run: once a failure has been handled the pool's context is done |
| `UploadPoolTheorems.BrokenStreamCancels` | backend/video/upload-worker.go:46-51 | in every run: once the producer has left its loop over a broken stream the context is done |
| `UploadPoolTheorems.SuccessIsComplete` | backend/services/vfs/upload-utils.go:55-71 | nil without outside cancellation: every segment was uploaded, recorded, indexed and handled exactly once |
| `UploadPoolTheorems.NilIsCompleteIff` | backend/video/upload-worker.go:45-74 | in any run that returns nil, for any number of workers and with or without outside cancellation, every segment was entered, recorded and indexed once if and only if the producer never took the cancelled branch of its select |
| `UploadPoolTheorems.OutsideCancellationCanLoseSegments` | backend/video/upload-worker.go:52-56 | for every number of workers, a run that returns nil with segments missing exists if and only if the stream begins with a segment |
| `UploadPoolTheorems.ScheduleIndependence` | backend/video/manifest-builder.go:98-108 | with distinct indices, every successful run, for any worker count and order, leaves the lines of the one-by-one upload |
| `UploadPoolTheorems.ManifestsAgree` | backend/video/manifest-builder.go:178-208 | any two successful runs, for any worker counts, write the same manifest |
| `UploadPoolTheorems.SegmenterIndices` | backend/video/segment-video.go:75-136 | the segmenter's file names give each segment its stream position as index, so indices are distinct |
| `UploadPoolTheorems.SegmenterManifest` | backend/video/segment-video.go:75-136 | for the segmenter's stream the manifest lists the segments' lines in stream order |
| `Decimal.ParseFormat03` | backend/video/manifest-builder.go:99-100 | parsing what `%03d` prints gives the number back, for every 64-bit integer |
| `Decimal.Format03Iff` | backend/video/serialize.go:16-22 | a text is what `%03d` prints if and only if it is the number in three places, sign included, filled up with zeros and exceeded only as far as needed |
| `Decimal.ParseReads` | backend/video/manifest-builder.go:99-100 | the parser takes an optional sign and leading zeros and refuses what exceeds 64 bits |
| `SegmentNames.KeyRoundTrip` | backend/video/serialize.go:16-22 | the index survives printing, trimming and parsing, and the serializer's path is the key the segment was uploaded under |
| `SegmentNames.NamesAsWritten` | backend/video/serialize.go:16-22 | the key of segment 7 and the name of a negative index, letter by letter |
| `SegmentNames.BaseIgnoresTrailingSlash` | backend/video/manifest-builder.go:88 | a trailing slash changes nothing about the base name |
| `SegmentNames.RerenderedKey` | backend/video/manifest-builder.go:88-104 | re-rendering a parsed index gives the uploaded key if and only if the file name is one the printer writes |
| `SegmentNames.SegmentPathInjective` | backend/video/serialize.go:16-22 | no two (media, index) pairs share an object |
| `FrameIndex.Normalize` | backend/video/offsets-video.go:29-41 | the result is on the grid and within the tolerance; an error only when no grid point is |
| `FrameIndex.NormalizedIff` | backend/video/offsets-video.go:29-41 | refused are just the timestamps more than 100 ms from every half second |
| `FrameIndex.NormalizeCollision` | backend/video/offsets-video.go:29-41 | two usable timestamps share a grid point if and only if they are rounded to the same half second, and then are at most 200 ms apart |
| `FrameIndex.GenerateOffsets` | backend/video/offsets-video.go:68-135 | the loop builds the table of the key frames' marks, and fails exactly when a key frame does not parse or normalise or the file has no size; which error, given that a key frame off the grid is noticed only after the next position or the size has been read |
| `FrameIndex.KeyFramesAreKept` | backend/video/offsets-video.go:86-93 | the key frames among the frames: all of them, in order, and nothing else |
| `FrameIndex.AddAudioFrame` | backend/video/offsets-audio.go:21-27 | the entry is set, or the divisibility error returned |
| `FrameIndex.GenerateAudioOffsets` | backend/video/offsets-audio.go:38-103 | the loop builds the table of the half seconds' marks; it fails exactly on an unreadable packet or a missing size, with that error, so the divisibility error is unreachable on every input |
| `FrameIndex.AudioIndexStamps` | backend/video/offsets-audio.go:70-100 | whatever the packets, the table has an entry for exactly the half seconds their times lie in, truncated towards zero |
| `FrameIndex.AudioEntryIsTheStretch` | backend/video/offsets-audio.go:72-100 | the entry of a half second reaches from its first packet to the packet after its last one, or to the end of the file |
| `FrameIndex.EveryMarkHasItsRange` | backend/video/offsets-video.go:95-132 | no entry is overwritten: each mark keeps its own range, up to the next mark or the end |
| `FrameIndex.RangesPartitionTheFile` | backend/video/offsets-video.go:95-132 | the ranges partition the file from the first recorded position to its end |
| `FrameIndex.VideoIndexTiles` | backend/video/offsets-video.go:86-132 | increasing positions and key frames more than 200 ms apart that normalise: nothing lost, time order kept, the file tiled |
| `FrameIndex.ListsIffDistinct` | backend/video/offsets-video.go:95-132 | on positions that increase, the table keeps every mark with its own range if and only if no two marks share a timestamp |
| `FrameIndex.KeyFrameSurvivesIff` | backend/video/offsets-video.go:43-50 | a key frame keeps its entry if and only if no later one is rounded to the same half second |
| `FrameIndex.KeyFramesListedIff` | backend/video/offsets-video.go:43-132 | the index keeps every key frame if and only if no two are rounded to the same half second |
| `FrameIndex.CloseKeyFramesCollide` | backend/video/offsets-video.go:43-50 | a witness of the loss: key frames at 400 ms and 600 ms leave one entry |
| `FrameIndex.AudioIndexTiles` | backend/video/offsets-audio.go:56-100 | nondecreasing times and increasing positions: nothing overwritten, the file tiled |
| `FrameIndex.PacketsAreInTheirRange` | backend/video/offsets-audio.go:61-89 | every packet lies in the bytes the table records for the half second its time lies in |
| `IndexRows.IndexSegment` | backend/video/manifest-builder.go:124-174 | succeeds exactly when the offsets and every insert do, and then the segment's rows are in; on failure only rows the database took are added |
| `IndexRows.SegmentsIndexFully` | backend/video/manifest-builder.go:124-174 | when the segments' marks fall on consecutive half seconds, the rows inserted for all of them, in any order, are a full half-second index in storage order |
| `IndexRows.ListedBytes` | backend/video/manifest-builder.go:124-174 | the row of each mark names its segment and time and covers its bytes up to the next mark or the end of the segment |
| `Playlist.SerializeSection` | backend/video/serialize.go:44-86 | a section without rows or with a failed query is refused with that error; else its lines, with a discontinuity where the segment changes |
| `Playlist.ParseSectionsToHLS` | backend/video/serialize.go:96-111 | the playlist is the sections' lines in order; it fails exactly when some section does, with the first such section's error |
| `Playlist.PlaylistPlays` | backend/video/serialize.go:56-86 | read back as RFC 8216 sections 4.3.2.1 to 4.3.2.3 say, the lines are one entry per index row with that row's bytes, a discontinuity exactly at section and segment changes |
| `Playlist.SelectionIsSlice` | backend/internal/db/keyframes.sql.go:45-47 | on a full half-second index the query's answer is consecutive rows from the first at or after the start, whatever the plan |
| `Playlist.LimitIsGopCount` | backend/video/serialize.go:33-37 | in bounds, the `uint64` and `int32` arithmetic yields the whole half seconds, at least one |
| `Playlist.CoveredRows` | backend/video/serialize.go:33-83 | a covered section emits exactly its whole half seconds as consecutive rows of 500 ms |
| `Playlist.SectionAnnouncesItsSpan` | backend/video/serialize.go:64-73 | EXTINF of a section add up to the time its rows span, gaps in the index included, and half a second for the last row |
| `Playlist.AnnouncedDuration` | backend/video/serialize.go:56-111 | EXTINF announces the sections' half seconds, at least one each: under half a second less than each longer section lasts, at most half a second more than each short one; without short sections, the total if and only if all lengths are on the grid |
| `Playlist.ShortSectionTakesOneRow` | backend/video/serialize.go:34-37 | a section under half a second still announces a whole one |
| `Media.FetchIsUnique` | backend/video/serialize.go:73-82 | the URI and byte range of an entry determine asset and row |
| `Media.FaithfulFetchExists` | backend/video/serialize.go:73-82 | so there is a decoding that is right about every row at once |
| `Media.SectionShown` | backend/video/serialize.go:24-86 | a covered section shows the source from its first row on, as many half seconds as it has, cut at the source's end |
| `AudioProgram.SortByStart` | backend/video/serialize.go:183-186 | some permutation in start order; no order among equals is promised |
| `AudioProgram.ParseAudioSectionsToHLS` | backend/video/serialize.go:177-199 | in some start order: succeeds exactly when neighbours do not overlap and every query finds rows; then the lines in that order, else the first failing section's error |
| `AudioProgram.AcceptedIffDisjoint` | backend/video/serialize.go:183-190 | the neighbour check accepts if and only if no two sections overlap, in whatever order they came, and no empty section was sorted behind one it starts with |
| `AudioProgram.AudioTimelineTime` | web/src/components/projects/ProjectView.tsx:81-105 | the loop computes the seek map: the first spanning section, offset by the sections already over |
| `AudioProgram.SeekInOrder` | web/src/components/projects/ProjectView.tsx:86-101 | in start order the offset is the total length of the earlier sections |
| `AudioProgram.SeekNone` | web/src/components/projects/ProjectView.tsx:103 | null if and only if no section spans the time |
| `AudioProgram.SeekNeedsOrder` | web/src/components/projects/ProjectView.tsx:81-105 | the client's map agrees with the served order at all times if and only if its list holds the sections that are not empty in start order |
| `VideoExport.VideoExportBuilder.SetInputs` | backend/exporter/video-export-builder.go:89-100 | refused when ready or with more URLs than lookups, and then nothing changes |
| `VideoExport.VideoExportBuilder.AppendVideoCut` | backend/exporter/video-export-builder.go:65-87 | appends the cut of a known asset after inputs and before ready, else leaves the cuts |
| `VideoExport.VideoExportBuilder.AddBackgroundAudio` | backend/exporter/video-export-builder.go:40-63 | appends the audio of a known asset after cuts and before ready, else leaves the audios |
| `VideoExport.VideoExportBuilder.SetOutputPath` | backend/exporter/video-export-builder.go:102-112 | makes the builder ready exactly when it has cuts and is not ready yet |
| `VideoExport.VideoExportBuilder.BuildExportCommand` | backend/exporter/build-export-command.go:10-113 | refused unless ready; else the inputs, the graph of the cuts and audios, and the two mapped labels |
| `VideoExport.ResolveEffects` | backend/video/prepare-exporter.go:112-129 | the clauses of all effects, or failure exactly when one is unknown |
| `VideoExport.CollectInputs` | backend/video/prepare-exporter.go:20-49 | one URL per distinct asset in order of first use, each signed with its kind and found by the lookup; fails exactly when some asset cannot be signed |
| `VideoExport.InputsAreTheAssets` | backend/video/prepare-exporter.go:22-49 | the inputs are exactly the assets of the sections, each once |
| `VideoExport.InputsInOrderOfFirstUse` | backend/video/prepare-exporter.go:22-49 | and in the order in which the sections first use them |
| `VideoExport.CanSignIff` | backend/video/prepare-exporter.go:20-49 | the signing succeeds exactly when the store answers for each asset as a video, or as audio if only audio sections use it |
| `VideoExport.UrlsAreSigned` | backend/video/prepare-exporter.go:20-49 | the URL of each input is the one signed for that use |
| `VideoExport.PrepareExporter` | backend/video/prepare-exporter.go:13-95 | succeeds exactly when all assets can be signed, all effects are known and there is a video section, and says which of them failed; then the builder is ready and its cuts and audios are the sections', with the input index naming the section's own asset |
| `GraphLinks.CutCarriesTheSection` | backend/video/prepare-exporter.go:51-73 | a section's cut carries its stretch of the source, whether it sounds, and all its effects in order |
| `GraphLinks.BackgroundCarriesTheSection` | backend/video/prepare-exporter.go:75-88 | an audio section's carries its stretch, its place on the timeline, and volume 1 |
| `GraphLinks.GraphCarriesTheCut` | backend/exporter/build-export-command.go:21-53 | the graph has, cut by cut, a chain for the pictures with all the cut's effects and one for its sound or silence |
| `GraphLinks.GraphCarriesTheBackground` | backend/exporter/build-export-command.go:63-90 | and one for each background with its volume and delay |
| `GraphLinks.GraphIsClosed` | backend/exporter/build-export-command.go:21-100 | for all cuts and audios, whatever their times, inputs and flags: run as written no label is defined or consumed twice or before it is defined, arities fit, and exactly the two mapped labels remain |
| `GraphLinks.ExportCommand` | backend/services/project/export-project.go:71-80 | preparing and building from any state: a command exactly when all assets can be signed, all effects are known and there is a video section; then its graph is closed, every input index names one of the signed inputs, and the cuts are the sections' |
| `ExportMeaning.GraphMeaning` | backend/exporter/build-export-command.go:21-100 | what the closed graph renders for media that have the claimed streams and times in order: the concatenated pictures, and the cuts' sound mixed with the delayed audios |
| `Timeline.AnsweredHasRows` | backend/internal/db/keyframes.sql.go:45-47 | whatever the queries answer from covering indexes, each section gets just the rows of its whole half seconds |
| `Timeline.SectionAgreesIff` | backend/video/prepare-exporter.go:55-73 | a covered section shows exactly what the export trims if and only if it starts on the grid and has whole half seconds, or the source ends before the difference shows |
| `Timeline.SplitPlaysRightIff` | web/src/components/stores/editor.ts:224-250 | splitting an aligned, covered section keeps what its preview shows if and only if the split is on the grid, or inside the first half second of a section of at least two; the right half is refused, and with it the playlist, exactly when the split falls off the grid in the last half second of a section that ends with its source |
| `Timeline.PicturesAgree` | backend/video/serialize.go:96-111 | for aligned covered sections the preview's (asset, ms) sequence equals the one the export concatenates |
| `AudioTimeline.SeekHitsTheSection` | web/src/components/projects/ProjectView.tsx:86-97 | on the grid, seeking to a time a section spans hits that section's own millisecond of the audio program |
| `AudioTimeline.ExportPlays` | backend/video/prepare-exporter.go:75-88 | at every millisecond the export's background is exactly what the sections spanning it put there, overlapping or not |
| `AudioTimeline.BackgroundAgrees` | backend/exporter/build-export-command.go:63-90 | at every timeline millisecond the seek map followed in the accepted audio playlist gives the source position, or silence, the export's atrim and adelay put there |
| `AudioTimeline.SeekLandsIff` | backend/video/serialize.go:113-199 | the seek to a section's start lands on its first entry if and only if the earlier sections last, in total, as long as their half seconds; without short sections, if and only if each is on the grid |
| `AudioTimeline.AllSeeksLandIff` | web/src/components/projects/ProjectView.tsx:86-101 | the seeks to all sections land if and only if every section but the last lasts whole half seconds |
| `PreviewExport.PreviewIsTheExport` | backend/exporter/build-export-command.go:21-100 | main theorem: the graph of a prepared state renders the pictures the branch playlist shows and, at each, the playlist's own sound together with the background the seek map finds |
| `FileService.FileServiceServer.AssertDirectoryMoveTarget` | backend/services/vfs/move-utils.go:13-37 | the climb terminates and, on a valid parent, refuses exactly the targets at or below the directory |
| `FileService.FileServiceServer.DirectoryAssetsRecursive` | backend/services/vfs/delete-directory.go:83-110 | the recursion terminates and returns each asset of the subtree exactly once and nothing else |
| `FileService.FileServiceServer.InUseAssetUsages` | backend/services/vfs/delete-utils.go:31-51 | lists exactly the (asset, project) pairs in use among the given assets, each once |
| `FileService.FileServiceServer.UploadParentDirectoryID` | backend/services/vfs/upload-utils.go:100-128 | refuses exactly the parents that are missing or in another workspace |
| `FileService.FileServiceServer.SiblingDirectories` | backend/services/vfs/rename-directory.go:77-96 | exactly the directories the query for that folder returns |
| `FileService.FileServiceServer.SiblingAssets` | backend/services/vfs/rename-asset.go:77-96 | exactly the assets the query for that folder returns |
| `FileService.FileServiceServer.CreateDirectory` | backend/services/vfs/create-directory.go:37-99 | the refusals and the new tables; the file system stays sound |
| `FileService.FileServiceServer.MoveDirectory` | backend/services/vfs/move-directory.go:42-84 | the refusals and the new tables, as the rules have them; the file system stays sound |
| `FileService.FileServiceServer.RenameDirectory` | backend/services/vfs/rename-directory.go:43-74 | the refusals and the new tables; the file system stays sound |
| `FileService.FileServiceServer.DeleteDirectory` | backend/services/vfs/delete-directory.go:43-80 | removes the subtree, or refuses with exactly the offending (asset, project) pairs and changes nothing |
| `FileService.FileServiceServer.UploadAsset` | backend/services/vfs/upload-image.go:41-72 | the refusals, content that is no image among them, and the new tables; the file system stays sound |
| `FileService.FileServiceServer.MoveAsset` | backend/services/vfs/move-asset.go:42-80 | the refusals and the new tables; the file system stays sound |
| `FileService.FileServiceServer.RenameAsset` | backend/services/vfs/rename-asset.go:43-74 | the refusals and the new tables; the file system stays sound |
| `FileService.FileServiceServer.DeleteAsset` | backend/services/vfs/delete-asset.go:42-70 | removes the asset, or refuses with exactly the projects using it |
| `FileService.FileServiceServer.AddProjectAsset` | backend/services/project/add-project-asset.go:42-75 | refuses a missing project, and an asset that is missing or of another workspace; else the use is recorded, once |
| `FileService.FileServiceServer.RemoveProjectAsset` | backend/services/project/remove-project-asset.go:41-51 | the use is gone, whether or not it was there |
| `FileService.UsagesTell` | backend/services/vfs/delete-directory.go:55-66 | the usage list is empty if and only if no project uses any of the assets |
| `FileTree.ChainsAreFinite` | backend/database/schema/0017_create_directories.sql:2-9 | in a forest every parent chain ends at a root |
| `FileTree.MoveClosesCycleIff` | backend/services/vfs/move-utils.go:13-37 | on a valid parent a move keeps the forest if and only if the parent is not at or below the directory |
| `FileTree.MoveTakesTheSubtree` | backend/services/vfs/move-directory.go:72-75 | after a move, what was below the directory keeps its ancestors up to it and gets those of the new parent, and everything else keeps its own |
| `FileTree.SiblingsAreDisjoint` | backend/services/vfs/delete-directory.go:97-109 | subtrees of different children share nothing, so the recursion meets no asset twice |
| `FileRules.MoveRefusedIffCycle` | backend/services/vfs/move-directory.go:54-56 | the move check refuses, as invalid, exactly the moves that would break the forest |
| `FileRules.RequestKeepsSound` | backend/services/vfs/create-directory.go:37-90 | every create, move, rename, upload, delete, and putting into or out of a project keeps the forest with workspaces, distinct sibling names, and all references |
| `RequestLaws.CreateDirectoryLaw` | backend/services/vfs/create-directory.go:37-90 | goes through exactly when the parent is there and no directory of the folder bears the name, with which refusal otherwise; then the row is in that folder and nothing else changed |
| `RequestLaws.MoveDirectoryLaw` | backend/services/vfs/move-directory.go:42-75 | goes through exactly when directory and parent are there, the parent is not at or below the directory and the name is free; then the directory has the new parent, its old name and workspace, and nothing else changed |
| `RequestLaws.MoveDirectoryMovesTheSubtree` | backend/services/vfs/move-directory.go:72-75 | who is below whom after a move that went through |
| `RequestLaws.RenameDirectoryLaw` | backend/services/vfs/rename-directory.go:43-74 | goes through exactly when the directory is there and its folder has the name free; then only its name changed |
| `RequestLaws.DeleteDirectoryLaw` | backend/services/vfs/delete-directory.go:43-78 | goes through exactly when the directory is there and no project uses an asset in or below it; then exactly its subtree and their assets are gone |
| `RequestLaws.UploadAssetLaw` | backend/services/vfs/upload-image.go:41-72 | goes through exactly when the parent is there, the name is free among the folder's assets and the content is an image; then the row is in that folder and nothing else changed |
| `RequestLaws.MoveAssetLaw` | backend/services/vfs/move-asset.go:42-80 | goes through exactly when asset and parent are there and the name is free; then the asset is in the new folder under its old name and nothing else changed |
| `RequestLaws.RenameAssetLaw` | backend/services/vfs/rename-asset.go:43-74 | goes through exactly when the asset is there and its folder has the name free; then only its name changed |
| `RequestLaws.DeleteAssetLaw` | backend/services/vfs/delete-asset.go:42-70 | goes through exactly when the asset is there and no project uses it; then only its row is gone |
| `RequestLaws.ProjectAssetLaws` | backend/services/project/add-project-asset.go:42-75 | adding goes through exactly for a project and an asset of one workspace and records that use only; removing always goes through and removes that use only |
| `FileRules.EverySequenceIsSound` | backend/services/vfs/move-directory.go:54-78 | hence every sequence of requests does |
| `FileRules.UsedAssetStays` | backend/database/schema/0004_create_assets.sql:10-15 | over every sequence of requests an asset in use by a project is there until it is taken out of that project |
| `FileRules.AddedAssetIsProtected` | backend/services/vfs/delete-asset.go:42-70 | an asset just added to a project cannot be deleted; taken out again it can if and only if no other project uses it |
| `FileRules.DeleteIsSafe` | backend/services/vfs/delete-directory.go:55-78 | after a delete that goes through the file system is sound, just the subtree and its assets are gone, and every use still has its asset |
| `CommitGraph.ProjectStore.CheckTip` | backend/services/project/commit-edit.go:35-66 | passes, or names the missing branch or both tips; writes nothing |
| `CommitGraph.CheckPassesIff` | backend/services/project/commit-edit.go:35-66 | a request passes if and only if its branch exists and it names no commit or the tip, zero being the tip of an empty branch; a stale one is told what it assumed and what the tip is |
| `CommitGraph.CommitGoesThrough` | backend/services/project/commit-edit.go:35-152 | progress: from every reachable state, a request on an existing branch that names no commit or the tip goes through when its transaction follows its check; the new commit is the tip, before the history of what it names |
| `CommitGraph.ZeroIdIsLetThroughInVain` | backend/services/project/commit-edit.go:44-148 | naming the zero id on an empty branch passes the check, and then nothing is written |
| `CommitGraph.ProjectStore.PersistCommit` | backend/services/project/commit-edit.go:109-153 | commit, first-parent edge and tip in one transaction; an unknown parent rolls it back |
| `CommitGraph.PersistsIff` | backend/services/project/commit-edit.go:109-148 | the transaction is refused exactly when the named commit does not exist; else it adds one commit of the project, its one edge, and the tip |
| `CommitGraph.EveryRunIsSound` | backend/services/project/commit-edit.go:44-152 | under every interleaving of checks and transactions the graph stays acyclic, with at most one first parent a commit and one project a history |
| `CommitGraph.QueryFollowsTheChain` | backend/internal/db/branches.sql.go:74-90 | at each depth the recursive query finds the commit of the first-parent chain, and below the chain nothing |
| `CommitGraph.HistoryQueryTerminates` | backend/internal/db/branches.sql.go:74-90 | on every reachable repository the history query terminates, with one commit a depth, all of the branch's project |
| `CommitGraph.NewHistory` | backend/services/project/commit-edit.go:116-148 | the new history is the new commit followed by the history of the named previous commit |
| `CommitGraph.HistoryExtendsIff` | backend/services/project/commit-edit.go:44-148 | the whole old history follows if and only if the request names the tip being replaced |
| `CommitGraph.UndisturbedCommitExtends` | backend/services/project/commit-edit.go:44-148 | a commit that passed its check with nothing in between extends the history |
| `CommitGraph.OtherHistoriesStay` | backend/internal/db/branches.sql.go:221-223 | other branches keep their histories |
| `CommitGraph.LateCommitDropsNewer` | backend/services/project/commit-edit.go:44-148 | a commit written after others on its branch were made since its check leaves none of them in the history |
| `CommitGraph.OverlappingCommitIsLost` | backend/services/project/commit-edit.go:44-148 | from every reachable state, two requests on one branch, naming the tip or no commit, whose checks come before both transactions: both are written, and the first commit is missing from the history |
| `Conversation.ConversationStore.FindParent` | backend/services/conversation/send-agent-message.go:60-81 | finds a message of the conversation with that client id, or fails exactly when there is none |
| `Conversation.ConversationStore.RunHistory` | backend/services/conversation/send-agent-message.go:83-117 | taking the last run is never out of range, and it is the parent's own run; the messages are all runs' in order |
| `Conversation.ConversationStore.PersistRun` | backend/services/conversation/send-agent-message.go:150-245 | the loop writes the run as one parent chain with the chosen client ids; a duplicate id rolls everything back; the tables stay sound |
| `Conversation.PersistedRows` | backend/services/conversation/send-agent-message.go:159-245 | the run's row with its text and time, one message an id, each below the one before it; older rows stay |
| `Conversation.ChosenIds` | backend/services/conversation/send-agent-message.go:201-211 | the client's own ids go to its user messages and to a closing assistant message, all others are generated |
| `Conversation.ClientFindsItsMessage` | backend/services/conversation/send-agent-message.go:60-81 | after a run is written, the id the client gave names its message and no other of the conversation |
| `Conversation.TwoUserMessagesAreRefused` | backend/services/conversation/send-agent-message.go:201-205 | a run with two user messages and an id from the client is never written |
| `Conversation.EveryConversationIsSound` | backend/services/conversation/send-agent-message.go:189-245 | over every sequence of transactions messages form a forest, each run is one contiguous parent chain, positions count siblings, client ids are unique |
| `Conversation.SoundParentsFirst` | backend/services/conversation/send-agent-message.go:190-245 | every message's parent was written before it, so ancestor paths are finite |
| `Conversation.PositionsCount` | backend/internal/db/ai_conversations.sql.go:542-547 | sibling positions are exactly 0, 1, .., k-1 in order of insertion, and the query returns k |
| `Conversation.PositionIsTheRank` | backend/services/conversation/send-agent-message.go:212-218 | a message's position is the number of earlier messages of the conversation with the same parent |
| `Conversation.PathQueryAnswer` | backend/internal/db/ai_conversations.sql.go:446-464 | the path query has one possible answer, the runs met on the path in order; it is never empty and ends with the message's own run |
| `Conversation.HistoryIsThePathIff` | backend/internal/db/ai_conversations.sql.go:446-464 | the fetched runs are the root-to-parent path cut into whole runs if and only if every run on the way was entered at its last message; otherwise they hold more |
| `Conversation.HistoryOfAnEnd` | backend/services/conversation/send-agent-message.go:83-117 | where replies attach to ends of runs only, that holds for the end of any run |
| `Conversation.MidRunReplySeesTooMuch` | backend/services/conversation/send-agent-message.go:58-82 | a conversation that comes about from the empty one, in which a permitted reply enters a run before its end and every answer of the query holds more messages than the path |
| `ThreadStream.ToThreadStream` | web/src/agent-runtime/serde/toThreadStream.ts:12-40 | each yielded update is the whole-trace message so far; the stream ends at the first malformed chunk, with the exception that chunk raises |
| `ThreadStream.ToolPartMeaning` | web/src/agent-runtime/serde/toThreadStream.ts:66-101 | a tool chunk stands for a part exactly when its call is known and its result parses, marked as an error when denied or errored; otherwise which of the three exceptions it raises |
| `ThreadStream.MessageStep` | web/src/agent-runtime/serde/toThreadStream.ts:42-96 | the incremental update of the message is the message of the longer trace |
| `ThreadStream.MessageShape` | web/src/agent-runtime/serde/toThreadStream.ts:42-96 | text and reasoning concatenate in order, no two neighbours could merge, call ids are distinct and stand in order of first chunks, each call carries its latest payload and has before it exactly the text and reasoning that came before its first chunk |
| `ThreadStream.MessageIsTheOnlyLayout` | web/src/agent-runtime/serde/toThreadStream.ts:42-96 | a list of parts cuts the trace into maximal stretches of one kind, each call at its first chunk, if and only if it is the message |
| `ThreadStream.IndexOfTool` | web/src/agent-runtime/serde/toThreadStream.ts:86-89 | the first part of that call, or -1 exactly when there is none |
| `MessageObserver.MessageObserver.Subscribe` | backend/messages/message-observer.go:31-41 | a new channel with an empty buffer joins its topic |
| `MessageObserver.MessageObserver.Unsubscribe` | backend/messages/message-observer.go:45-52 | the channel leaves its topic, and an empty topic disappears |
| `MessageObserver.MessageObserver.Publish` | backend/messages/message-observer.go:58-70 | every subscriber of the topic has a signal, full buffers stay, nothing else changes |
| `MessageObserver.MessageObserver.ResyncAll` | backend/messages/message-observer.go:76-87 | the same for every subscriber of every topic |
| `MessageObserver.NoLostWakeups` | backend/messages/message-observer.go:31-87 | in every run a channel holds a signal if and only if a notification of it has not been received, never two; no topic is empty |
| `MessageObserver.UnsubscribeIsLocal` | backend/messages/message-observer.go:45-52 | unsubscribing disturbs no other channel and is idempotent |
| `ManifestCache.ManifestCache.Add` | backend/video/manifest-cache.go:57-75 | the entry is set and one timer started, due a span from now |
| `ManifestCache.ManifestCache.Drop` | backend/video/manifest-cache.go:32-42 | the entry is gone, and an empty session with it |
| `ManifestCache.ManifestCache.Find` | backend/video/manifest-cache.go:49-55 | the entry of that user and key, if any |
| `ManifestCache.ServesTheLastAdd` | backend/video/manifest-cache.go:32-75 | in any run a lookup returns the manifest of the last Add of that user and key if nothing dropped it since, and nothing otherwise |
| `ManifestCache.CacheKeyInjective` | backend/video/manifest-cache.go:28-30 | for the two kinds the key determines branch and kind |
| `ManifestCache.CacheKeyNotInjectiveInGeneral` | backend/video/manifest-cache.go:28-30 | for other kinds it does not |
| `ManifestCache.ManifestCache.DropBranch` | backend/video/manifest-cache.go:44-47 | drops the branch's entry of both kinds and leaves the timers |
| `ManifestCache.DropBranchIsExact` | backend/video/manifest-cache.go:44-47 | dropping a branch removes its two manifests and nothing else |
| `ManifestCache.CachedEntriesExpire` | backend/video/manifest-cache.go:28-75 | whatever Adds and Drops overlapped, every cached manifest has a pending timer on its own key and no user an empty session |
| `ManifestCache.ServedUntil` | backend/services/project/auto-save.go:48-60 | a manifest is served past its signing expiry by at most the lag before its Add and the timers' slack |
| `ManifestCache.PromptEntriesExpireInTime` | backend/services/project/auto-save.go:48-60 | in any run in which every Add follows the computation of its span at once, every cached manifest has a timer on its key due at its expiry and is not served past it but for the timers' slack |
| `ManifestCache.OutlivesIff` | backend/video/manifest-cache.go:57-75 | in any run a cached manifest can be served past its expiry if and only if no pending timer of its key, older ones included, is due by then |
| `ManifestCache.AddOutlivesIff` | backend/services/project/auto-save.go:48-60 | in any run the manifest of an Add can outlive its expiry if and only if the Add was late, or the span negative, and no older timer of the key is due by then |
| `ManifestCache.LateAddOutlives` | backend/services/project/auto-save.go:48-60 | for every lag, span and slack a run that serves a manifest that long past its expiry |

## Left out

- The text of playlist lines and ffmpeg clauses: lines, chains and labels are data, so number formatting (`%.6f`,
  `formatFloat`), encoder flags and effect strings are not modelled.
- Seconds as floats: EXTINF, trims and the client's clock are whole milliseconds.
- `ffmpeg`, `ffprobe`, the object store, URL signing, HTTP, logging, temp files: their answers are inputs.
- Authentication, workspace membership and UUID parsing: taken as passed.
- Volumes and mixing levels: what `volume` and `amix` gain sound like, and the effect tables.
- The percentage sent with each progress call, the JSON of messages, and token counts of runs.
- The editor store (web/src/components/stores/editor.ts): sections are taken as given, in bounds and on the grid
  where a theorem says so.
- Where ffmpeg cuts segments and puts key frames: that the marks fall on consecutive half seconds, and that an index
  covers a section, are hypotheses.
- In the pool a segment's index is all or nothing; which rows a failed insert leaves behind is stated apart.
- `GetMainBranch`, merge commits, list and grouping endpoints, prompt filtering, the agent runtime itself.
- Database failures other than those in the error types; a transaction commit that fails after its statements,
  which `CommitEdit` only logs.
- Other writers of messages, directories or branches than the modelled handlers, such as deleting a conversation or
  the cleanup after a failed upload.
- `Timeline.PicturesAgree`: one direction only for the whole video, because two misaligned neighbours can make up for
  each other, as `SplitPlaysRightIff` shows; the exact condition is given a section at a time.
- `ManifestCache.CachedEntriesExpire`: timers wake up within a given slack, because a goroutine's sleep has no exact
  wake-up time.
- `PreviewExport.PreviewIsTheExport`: assumes that sections of silent sources end within them, because a silent cut
  past the end keeps its full length in the export; `Timeline.PicturesAgree` does not need it.
- `AudioProgram.AcceptedIffDisjoint`: sections that end before they start are left out, because their length wraps
  around and the query's limit with it.
- `FileService.FileServiceServer.UploadAsset`: ends with the new row; writing the object, and the cleanup that deletes
  the row when that fails, are not modelled.
