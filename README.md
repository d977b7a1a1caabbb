# ErsatzTV core, modelled in Dafny

ErsatzTV is an IPTV server. It builds playouts, the timelines of media items that each channel plays. It writes an XMLTV guide from those timelines and streams each channel through ffmpeg as HLS. It also keeps a search index and a metadata database fed from local NFO files and from Plex and Jellyfin servers.

This project models the sequential decision logic under that plumbing. Times are integer ticks of 100 ns, collections are sequences, and files, hardware, databases and servers are parameters.

- **Classic scheduling** (`PlayoutTypes`, `SchedulerBase`, `PlayoutBuilder`): start times after fixed and dynamic items, and tail, fallback, count, duration and pad filler. Also anchor pruning for reset, refresh and continue builds, daily build windows, the six-visit loop guard, and continue-anchor bookkeeping.
- **Sequential (YAML) scheduling and the scheduling engine** (`SequentialPlayoutBuilder`, `SchedulingEngine`): schedule date windows, the import merge, sequence flattening and cycle rejection, and history clean-up. Also the guide-group counter that wraps at 1000, `AddCount`, `WaitUntil` and anchors.
- **Channel guide** (`ChannelGuide`): item filtering and offsetting, programme grouping, the even time split for block playouts, external JSON timelines, artwork URLs, and titles.
- **Streaming** (`StreamingProcess`, `HlsSession`): the per-request duration clamp, the dead-air fallback, subtitle selection, and the HLS worker's state machine and buffer thresholds.
- **Search index** (`SearchIndex`, `LuceneSearchIndex`): jump letters, title keys, guid and language fields, search paging, and the alphabetical page map.
- **Metadata** (`MetadataTypes`, `MetadataSync`, `ScannerLocalMetadata`, `CoreLocalMetadata`, `MetadataRepository`, `MovieRepository`, `MediaServerSync`, `JellyfinTelevisionRepository`): NFO year and aired dates, genre splitting, actor order, name-keyed synchronisation, and stream, chapter and subtitle merges.
- **Media servers** (`PlexServerApi`, `JellyfinApi`, `MediaServerTelevisionScanner`, `PlexTelevisionScanner`): guid normalisation, multi-episode merging, paging, projections, should-scan decisions, and flagging.
- **ffmpeg pipeline planning** (`FFmpegTypes`, `PipelineBuilderBase`, `PipelineBuilder`, `NvidiaPipelineBuilder`, `VaapiPipelineBuilder`, `QsvPipelineBuilder`): the step list, thread count, scene detection, read rate, and seeks. Also the per-accelerator rules that fall back to software decode or encode.

`Common` holds shared option and result types, tick constants, string helpers and half-even rounding.

## Model

| member | source | states |
|---|---|---|
| Common.RoundHalfEven | ErsatzTV.Core/Scheduling/PlayoutModeSchedulerBase.cs:694 | the result is the exact quotient rounded to the nearest integer, a tie going to the even neighbour, as TimeSpan arithmetic rounds |
| Common.FromUnixSeconds | ErsatzTV.Infrastructure/Plex/PlexServerApiClient.cs:445 | the instant is exactly the given whole number of seconds after the Unix epoch |
| Common.SortBy | ErsatzTV.Infrastructure/Plex/PlexServerApiClient.cs:256 | OrderBy gives a permutation of the input sorted by the key, and the items of each key keep their input order (stable) |
| Common.Except | ErsatzTV.Scanner/Core/Metadata/MediaServerTelevisionLibraryScanner.cs:167 | LINQ Except keeps exactly the elements of the first list absent from the second, each once |
| PlayoutTypes.MaxFinish | ErsatzTV.Core/Scheduling/PlayoutBuilder.cs:505-512 | the latest finish is the finish of one of the items and no item finishes later |
| PlayoutTypes.FillerItem | ErsatzTV.Core/Scheduling/PlayoutModeSchedulerBase.cs:632-642 | a filler item starts at the given time, plays its media whole from in point zero, has the given filler kind and guide group, and disables watermarks exactly when the preset does not allow them |
| PlayoutTypes.AllFiller | ErsatzTV.Core/Scheduling/PlayoutModeSchedulerBase.cs:203-206 | the configured pre-, mid- and post-roll presets, exactly those, in that order, one entry per configured preset |
| PlayoutTypes.CountPadFillers | ErsatzTV.Core/Scheduling/PlayoutModeSchedulerBase.cs:209 | the count is the number of positions holding a padding preset, and zero exactly when no preset pads |
| PlayoutTypes.FirstPadFiller | ErsatzTV.Core/Scheduling/PlayoutModeSchedulerBase.cs:302-303 | there is a padding preset exactly when one of the presets pads, and it is the first one in the list that does |
| PlayoutTypes.CollectionKeysForItem | ErsatzTV.Core/Scheduling/PlayoutBuilder.cs:876-910 | the item's own collection comes first, and the keys are exactly it and the collections of its configured pre-, mid-, post-roll, tail and fallback presets |
| SchedulerBase.GetStartTimeAfter | ErsatzTV.Core/Scheduling/PlayoutModeSchedulerBase.cs:40-70 | a dynamic item, or one in the middle of its block, starts now; a fixed item starts within the next day, at its time of day |
| SchedulerBase.FixedStartIsEarliest | ErsatzTV.Core/Scheduling/PlayoutModeSchedulerBase.cs:40-70 | a fixed start is the earliest instant from now on at that time of day |
| SchedulerBase.GetFillerStartTimeAfter | ErsatzTV.Core/Scheduling/PlayoutModeSchedulerBase.cs:23-38 | filler stops at the next item's start or at the hard stop, whichever comes first |
| SchedulerBase.BackToBackTimeline | ErsatzTV.Core/Scheduling/PlayoutModeSchedulerBase.cs:87-123 | items placed back to back leave no gap, start now and end after their total duration |
| SchedulerBase.AddTailFiller | ErsatzTV.Core/Scheduling/PlayoutModeSchedulerBase.cs:72-127 | without tail filler nothing changes; otherwise the next items of the tail enumerator are appended back to back from now, and the enumerator moves past exactly those |
| SchedulerBase.TailRun | ErsatzTV.Core/Scheduling/PlayoutModeSchedulerBase.cs:87-123 | the loop takes items while the next one still ends by the next item's start, and stops at the first one that would not, or when the items run out |
| SchedulerBase.AddFallbackFiller | ErsatzTV.Core/Scheduling/PlayoutModeSchedulerBase.cs:129-170 | with a fallback preset, time left and an item in its enumerator, one item from now to the next item's start, with out point zero so it loops, and time moves to that start; otherwise nothing changes |
| SchedulerBase.AddCountFiller | ErsatzTV.Core/Scheduling/PlayoutModeSchedulerBase.cs:617-650 | the next count items of the enumerator, fewer when it runs out, each played whole, and the enumerator moves past them |
| SchedulerBase.TooLongThreshold | ErsatzTV.Core/Scheduling/PlayoutModeSchedulerBase.cs:694 | one and a half times the gap, rounded to a whole tick |
| SchedulerBase.DurationFill | ErsatzTV.Core/Scheduling/PlayoutModeSchedulerBase.cs:652-722 | the duration filler never consumes more items than the enumerator has |
| SchedulerBase.DurationFillFits | ErsatzTV.Core/Scheduling/PlayoutModeSchedulerBase.cs:652-722 | duration filler never takes more than the time it was asked to fill |
| SchedulerBase.DurationFillStopsAtMisfit | ErsatzTV.Core/Scheduling/PlayoutModeSchedulerBase.cs:663-719 | duration filler stops early only at an item longer than the time left |
| SchedulerBase.DurationFillSkipsAtMostOne | ErsatzTV.Core/Scheduling/PlayoutModeSchedulerBase.cs:663-719 | duration filler plays the enumerator in order, leaving out at most one item, one at least the threshold long |
| SchedulerBase.AddDurationFiller | ErsatzTV.Core/Scheduling/PlayoutModeSchedulerBase.cs:652-722 | the loop places exactly the items of the duration-fill plan, and the enumerator moves past the consumed ones |
| SchedulerBase.MinuteOf | ErsatzTV.Core/Scheduling/PlayoutModeSchedulerBase.cs:305 | the minute of the hour is between 0 and 59 |
| SchedulerBase.HourStart | ErsatzTV.Core/Scheduling/PlayoutModeSchedulerBase.cs:305-310 | the top of the hour holding an instant is a whole minute at most an hour before it |
| SchedulerBase.PadTargetAsWritten | ErsatzTV.Core/Scheduling/PlayoutModeSchedulerBase.cs:305-320 | the padded end as computed is a whole minute less than a minute before the content's end at worst |
| SchedulerBase.PadTargetAsWrittenEndsEarly | ErsatzTV.Core/Scheduling/PlayoutModeSchedulerBase.cs:469-486 | content ending at 10:45:30 padded to 15 minutes is given 10:45:00, before its end, instead of 11:00:00 |
| SchedulerBase.PadTarget | ErsatzTV.Core/Scheduling/PlayoutModeSchedulerBase.cs:469-486 | the padded end is at or after the content's end and less than one pad later |
| SchedulerBase.PadTargetAligned | ErsatzTV.Core/Scheduling/PlayoutModeSchedulerBase.cs:469-486 | the padded end is a whole number of pads past the top of the hour, on a whole minute |
| SchedulerBase.PadTargetOnWholeMinute | ErsatzTV.Core/Scheduling/PlayoutModeSchedulerBase.cs:305-320 | on a whole minute the padded end as written and as intended agree |
| SchedulerBase.GreedyPrefix | ErsatzTV.Core/Scheduling/PlayoutModeSchedulerBase.cs:266-283 | the peeked items are the longest run from the front whose total fits the budget |
| SchedulerBase.MidRollDurationEstimate | ErsatzTV.Core/Scheduling/PlayoutModeSchedulerBase.cs:219-245 | no gaps between chapters add nothing |
| SchedulerBase.MidRollDurationBound | ErsatzTV.Core/Scheduling/PlayoutModeSchedulerBase.cs:219-245 | each gap between chapters adds at most one budget |
| SchedulerBase.EstimatedFillerBounds | ErsatzTV.Core/Scheduling/PlayoutModeSchedulerBase.cs:215-299 | duration filler is expected to add at most its duration, per gap for mid-roll; a preset neither by duration nor by count adds nothing |
| SchedulerBase.UnpaddedEnd | ErsatzTV.Core/Scheduling/PlayoutModeSchedulerBase.cs:214-299 | the filler estimates never end a block before its content |
| SchedulerBase.EndTimeWithFillerBounds | ErsatzTV.Core/Scheduling/PlayoutModeSchedulerBase.cs:196-324 | a block never ends before its content, and a padded block ends on the corrected padding grid (a whole number of pads past the top of the hour) within one pad of the content and filler |
| SchedulerBase.PeekDurationFiller | ErsatzTV.Core/Scheduling/PlayoutModeSchedulerBase.cs:262-286 | peeking duration filler adds the greedy prefix of the items from the offset, and moves the offset past them |
| SchedulerBase.PeekCountFiller | ErsatzTV.Core/Scheduling/PlayoutModeSchedulerBase.cs:287-299 | peeking count filler adds the next count items from the offset, fewer when they run out |
| SchedulerBase.PeekMidRollDuration | ErsatzTV.Core/Scheduling/PlayoutModeSchedulerBase.cs:219-245 | the mid-roll peeking loops add one budget's worth of items per gap between chapters |
| SchedulerBase.PeekMidRollCount | ErsatzTV.Core/Scheduling/PlayoutModeSchedulerBase.cs:246-260 | the mid-roll count loops add count items per gap between chapters |
| SchedulerBase.EstimateFiller | ErsatzTV.Core/Scheduling/PlayoutModeSchedulerBase.cs:215-299 | the peeking loops for one preset compute that preset's estimate |
| SchedulerBase.CalculateEndTimeWithFiller | ErsatzTV.Core/Scheduling/PlayoutModeSchedulerBase.cs:196-324 | the estimated end is the block's expected end with filler, padded to the corrected grid (PadTarget on the unpadded end) |
| SchedulerBase.ForChapter | ErsatzTV.Core/Scheduling/PlayoutModeSchedulerBase.cs:396 | a chapter item has the item's start and media, and plays exactly that chapter |
| SchedulerBase.Retime | ErsatzTV.Core/Scheduling/PlayoutModeSchedulerBase.cs:604-614 | every item keeps its length and the items follow one another from the block's start |
| SchedulerBase.AddRollFiller | ErsatzTV.Core/Scheduling/PlayoutModeSchedulerBase.cs:353-383 | the loop builds exactly RollBlock: the items and the enumerators after it; every item has the preset's kind and no other enumerator moves |
| SchedulerBase.AddRollFillers | ErsatzTV.Core/Scheduling/PlayoutModeSchedulerBase.cs:353-383 | the loop builds exactly RollBlocks; every item has the kind asked for, no enumerator outside the presets moves, and with no such preset nothing is added |
| SchedulerBase.RollBlock | ErsatzTV.Core/Scheduling/PlayoutModeSchedulerBase.cs:353-383 | one preset's roll block keeps every enumerator key, moves only that preset's enumerator, and holds only items of the kind asked for |
| SchedulerBase.RollBlocks | ErsatzTV.Core/Scheduling/PlayoutModeSchedulerBase.cs:353-383 | the roll blocks keep every enumerator key and move only the presets' enumerators |
| SchedulerBase.Placeholders | ErsatzTV.Core/Scheduling/PlayoutModeSchedulerBase.cs:632-642 | one filler item per media item, in order, each of the kind asked for |
| SchedulerBase.AddChapterBreaks | ErsatzTV.Core/Scheduling/PlayoutModeSchedulerBase.cs:387-424 | the loop builds exactly ChapterBreaks and keeps, as an invariant, that every piece so far is a chapter of the item or mid-roll filler; a preset without a duration or count adds nothing |
| SchedulerBase.ChapterBreaks | ErsatzTV.Core/Scheduling/PlayoutModeSchedulerBase.cs:387-424 | the chapter breaks keep every enumerator key and move only the preset's enumerator |
| SchedulerBase.ChapterItems | ErsatzTV.Core/Scheduling/PlayoutModeSchedulerBase.cs:393-396 | one item per chapter, in order, whose lengths add up to the chapters' |
| SchedulerBase.FallbackFillerForPad | ErsatzTV.Core/Scheduling/PlayoutModeSchedulerBase.cs:724-756 | with a fallback preset and an item in its enumerator, one item of exactly the length asked, with out point zero so it loops, and the enumerator moves past it; otherwise nothing |
| SchedulerBase.FillerSpansFit | ErsatzTV.Core/Scheduling/PlayoutModeSchedulerBase.cs:652-722 | the duration filler's items never last longer than the time asked for |
| SchedulerBase.AddMidRollPad | ErsatzTV.Core/Scheduling/PlayoutModeSchedulerBase.cs:522-586 | the loops build exactly MidRollPad: the padding preset's filler for the time to fill shared out between the chapters |
| SchedulerBase.FillBreak | ErsatzTV.Core/Scheduling/PlayoutModeSchedulerBase.cs:542-572 | the inner loop ends in exactly the state FillBreakFrom gives for the break |
| SchedulerBase.MidRollPadTurn | ErsatzTV.Core/Scheduling/PlayoutModeSchedulerBase.cs:542-572 | one turn takes the next queued item or a fallback item, adding the same time to the break and to the filled total, and changes nothing exactly when both the queue and the fallback are exhausted; otherwise it moves the queue or uses up fallback |
| SchedulerBase.MidRollPadTurnFits | ErsatzTV.Core/Scheduling/PlayoutModeSchedulerBase.cs:542-572 | a turn taken while the break and the total are short never lets filled time plus the queue still waiting exceed the time to fill |
| SchedulerBase.FillBreakFrom | ErsatzTV.Core/Scheduling/PlayoutModeSchedulerBase.cs:542-572 | the break only moves the queue forward and never past its end, and leaves every enumerator in place |
| SchedulerBase.FillBreakFromStops | ErsatzTV.Core/Scheduling/PlayoutModeSchedulerBase.cs:542-572 | a break is closed only when it holds its average share, the whole time to fill is used, or one more turn would add nothing |
| SchedulerBase.FillBreakFromFits | ErsatzTV.Core/Scheduling/PlayoutModeSchedulerBase.cs:542-572 | a whole break keeps filled time plus the queue still waiting within the time to fill |
| SchedulerBase.MidRollPad | ErsatzTV.Core/Scheduling/PlayoutModeSchedulerBase.cs:522-586 | mid-roll padding keeps every enumerator key |
| SchedulerBase.MidRollPadFits | ErsatzTV.Core/Scheduling/PlayoutModeSchedulerBase.cs:522-586 | mid-roll padding holds every chapter and adds at most the time to fill |
| SchedulerBase.MidRollPadAsWrittenStalls | ErsatzTV.Core/Scheduling/PlayoutModeSchedulerBase.cs:542-572 | ten minutes to pad across two chapters from three-minute filler with no fallback leaves the loop turning without progress, since a turn with nothing left changes nothing (MidRollPadTurn) |
| SchedulerBase.PadBaseAsWritten | ErsatzTV.Core/Scheduling/PlayoutModeSchedulerBase.cs:464-467 | the as-written half of Findings row 2: the length padded from is the corrected base when the mid-roll preset pads, and for any other padding preset the corrected base plus the effective chapters a second time |
| SchedulerBase.PadBaseAsWrittenCountsChaptersTwice | ErsatzTV.Core/Scheduling/PlayoutModeSchedulerBase.cs:464-467 | with a post-roll pad, counting the chapters a second time pads a 21-minute block to the hour instead of to half past |
| SchedulerBase.PadBaseIsBlockEnd | ErsatzTV.Core/Scheduling/PlayoutModeSchedulerBase.cs:464-467 | for a pre- or post-roll pad the length padded from is the unpadded block's own length, so the re-timed block ends exactly where the padding is computed from |
| SchedulerBase.PadWithFallback | ErsatzTV.Core/Scheduling/PlayoutModeSchedulerBase.cs:497-521 | the method builds exactly PadFallback: the padding preset's duration filler, then the fallback top-up |
| SchedulerBase.DurationBlock | ErsatzTV.Core/Scheduling/PlayoutModeSchedulerBase.cs:497-521 | duration filler for a pad keeps every enumerator key |
| SchedulerBase.DurationBlockFits | ErsatzTV.Core/Scheduling/PlayoutModeSchedulerBase.cs:497-521 | duration filler for a pad lasts between zero and the time asked for |
| SchedulerBase.TopUp | ErsatzTV.Core/Scheduling/PlayoutModeSchedulerBase.cs:511-521 | the fallback top-up keeps every enumerator key |
| SchedulerBase.TopUpFits | ErsatzTV.Core/Scheduling/PlayoutModeSchedulerBase.cs:511-521 | the top-up is at most one fallback item, lasting exactly the time left; it is there exactly when time is left and the fallback has an item |
| SchedulerBase.PadFallback | ErsatzTV.Core/Scheduling/PlayoutModeSchedulerBase.cs:497-521 | a pre- or post-roll pad keeps every enumerator key |
| SchedulerBase.PadFallbackFits | ErsatzTV.Core/Scheduling/PlayoutModeSchedulerBase.cs:497-521 | a pre- or post-roll pad never overfills, and fills exactly the time left when a fallback item is ready |
| SchedulerBase.AddPadFiller | ErsatzTV.Core/Scheduling/PlayoutModeSchedulerBase.cs:461-601 | the method builds exactly PadFilled: padding before the block for pre-roll, after it for post-roll and between the chapters for mid-roll, up to the padded end of the corrected grid (PadTarget, PadBase) |
| SchedulerBase.PadFilled | ErsatzTV.Core/Scheduling/PlayoutModeSchedulerBase.cs:461-601 | padding keeps every enumerator key |
| SchedulerBase.PadFilledEnds | ErsatzTV.Core/Scheduling/PlayoutModeSchedulerBase.cs:469-601 | padding ends the block no later than the padded end of the corrected grid, and exactly on it for a pre- or post-roll pad with a fallback item ready |
| SchedulerBase.PadFilledKeeps | ErsatzTV.Core/Scheduling/PlayoutModeSchedulerBase.cs:497-601 | padding keeps the unpadded items: at the end for pre-roll, at the start otherwise, and alone for a preset of no roll kind |
| SchedulerBase.PadRemaining | ErsatzTV.Core/Scheduling/PlayoutModeSchedulerBase.cs:469-487 | the time a pad fills is never negative |
| SchedulerBase.EffectiveChapters | ErsatzTV.Core/Scheduling/PlayoutModeSchedulerBase.cs:346-350 | the block is cut at its chapters only when there are two or more and a mid-roll preset is configured |
| SchedulerBase.AddMidRollBreaks | ErsatzTV.Core/Scheduling/PlayoutModeSchedulerBase.cs:387-424 | the loop builds exactly MidRollBreaks: only chapters of the item and mid-roll filler, and only the presets' enumerators move |
| SchedulerBase.MidRollBreaks | ErsatzTV.Core/Scheduling/PlayoutModeSchedulerBase.cs:387-424 | the mid-roll breaks keep every enumerator key and move only the presets' enumerators |
| SchedulerBase.AddFiller | ErsatzTV.Core/Scheduling/PlayoutModeSchedulerBase.cs:326-615 | the method builds exactly FillerBlock, whose properties are FillerBlockContiguous, FillerBlockUnpadded, FillerBlockOnePad and PadUnpaddedRetimed |
| SchedulerBase.Retimed | ErsatzTV.Core/Scheduling/PlayoutModeSchedulerBase.cs:603-614 | re-timing keeps the number of items |
| SchedulerBase.RetimedFacts | ErsatzTV.Core/Scheduling/PlayoutModeSchedulerBase.cs:603-614 | re-timing changes only the times: the items play back to back from the start, keep their lengths, and end after their total length |
| SchedulerBase.FillerBlock | ErsatzTV.Core/Scheduling/PlayoutModeSchedulerBase.cs:326-615 | the block of one scheduled item keeps every enumerator key |
| SchedulerBase.FillerBlockContiguous | ErsatzTV.Core/Scheduling/PlayoutModeSchedulerBase.cs:326-615 | with at most one padding preset the block plays back to back from the item's start and ends after its total length |
| SchedulerBase.FillerBlockUnpadded | ErsatzTV.Core/Scheduling/PlayoutModeSchedulerBase.cs:326-615 | without a padding preset the block is the unpadded block item for item, only re-timed |
| SchedulerBase.FillerBlockOnePad | ErsatzTV.Core/Scheduling/PlayoutModeSchedulerBase.cs:461-615 | with one padding preset the block is the unpadded block padded by that preset, re-timed from the item's start |
| SchedulerBase.PadUnpaddedRetimed | ErsatzTV.Core/Scheduling/PlayoutModeSchedulerBase.cs:461-615 | the padded, re-timed block ends no later than the padded end of the corrected grid, exactly on it for pre- or post-roll with a fallback item ready, and keeps the unpadded items in place |
| SchedulerBase.PadAndRetime | ErsatzTV.Core/Scheduling/PlayoutModeSchedulerBase.cs:461-614 | the padded block is exactly PadFilled re-timed from the item's start, with the enumerators PadFilled leaves |
| SchedulerBase.AddUnpadded | ErsatzTV.Core/Scheduling/PlayoutModeSchedulerBase.cs:353-458 | the method builds exactly Unpadded: only filler and the item or its chapters, the item itself when it is not cut, and only the filler presets' enumerators move |
| SchedulerBase.Unpadded | ErsatzTV.Core/Scheduling/PlayoutModeSchedulerBase.cs:353-458 | the unpadded block keeps every enumerator key and moves only the filler presets' enumerators |
| SchedulerBase.ItemUnpadded | ErsatzTV.Core/Scheduling/PlayoutModeSchedulerBase.cs:346-458 | the unpadded block of a scheduled item moves only its filler presets' enumerators |
| PlayoutBuilder.RemoveAll | ErsatzTV.Core/Scheduling/PlayoutBuilder.cs:102-112 | the kept anchors are exactly those the rule does not remove, in order |
| PlayoutBuilder.RefreshKept | ErsatzTV.Core/Scheduling/PlayoutBuilder.cs:101-112 | the three removal passes never add an anchor |
| PlayoutBuilder.RefreshKeepsStartDateCheckpoints | ErsatzTV.Core/Scheduling/PlayoutBuilder.cs:101-112 | an anchor survives the three passes exactly when it is a checkpoint dated on the start date |
| PlayoutBuilder.IdsOf | ErsatzTV.Core/Scheduling/PlayoutBuilder.cs:116-125 | the ids of one kind carried by the anchors, each once |
| PlayoutBuilder.EarliestWith | ErsatzTV.Core/Scheduling/PlayoutBuilder.cs:130-134 | the anchor picked for an id carries that id, has the earliest date among those that do (no date counting as latest), and is the first such |
| PlayoutBuilder.EarliestPerId | ErsatzTV.Core/Scheduling/PlayoutBuilder.cs:128-156 | one anchor per id, each carrying its id and dated no later than any other with it |
| PlayoutBuilder.RefreshedPositions | ErsatzTV.Core/Scheduling/PlayoutBuilder.cs:128-156 | the kept positions all lie within the anchors |
| PlayoutBuilder.Refreshed | ErsatzTV.Core/Scheduling/PlayoutBuilder.cs:81-158 | a refresh keeps only checkpoints dated on the start date |
| PlayoutBuilder.EarliestPerIdExactlyOne | ErsatzTV.Core/Scheduling/PlayoutBuilder.cs:128-156 | for every id of a kind, the kept anchors of that kind hold exactly one with that id, and it is among the earliest |
| PlayoutBuilder.FirstContinueAnchor | ErsatzTV.Core/Scheduling/PlayoutBuilder.cs:650-654 | the reused anchor is the first continue anchor saved for exactly this collection, and there is none exactly when no such anchor exists |
| PlayoutBuilder.MatchesAsWritten | ErsatzTV.Core/Scheduling/PlayoutBuilder.cs:650-654 | the as-written half of Findings row 4: every continue anchor of exactly the collection matches, and two keys that agree on the multi-collection and smart-collection ids match only when they are the same key, so those two ids are all the match ignores |
| PlayoutBuilder.FirstContinueAnchorAsWritten | ErsatzTV.Core/Scheduling/PlayoutBuilder.cs:650-654 | the lookup as written finds the first continue anchor matching on collection type, collection id and media item id alone |
| PlayoutBuilder.ContinueAnchorAsWrittenSharedByMultiCollections | ErsatzTV.Core/Scheduling/PlayoutBuilder.cs:648-684 | two different multi-collections both find the first one's continue anchor as written, where the exact lookup finds none for the second |
| PlayoutBuilder.Checkpoints | ErsatzTV.Core/Scheduling/PlayoutBuilder.cs:686-691 | the checkpoints are exactly the anchors with a date, in order |
| PlayoutBuilder.Usable | ErsatzTV.Core/Scheduling/PlayoutBuilder.cs:560-609 | a collection keeps exactly its items that are neither missing (when missing items are skipped) nor of zero duration |
| PlayoutBuilder.CheckForEmptyCollections | ErsatzTV.Core/Scheduling/PlayoutBuilder.cs:560-612 | every collection is cleaned of unusable items, and the first one left empty is reported, none exactly when none is empty |
| PlayoutBuilder.AllCollectionKeys | ErsatzTV.Core/Scheduling/PlayoutBuilder.cs:543-546 | every collection key of every schedule item, none exactly for an empty schedule |
| PlayoutBuilder.ScheduleCollectionKeys | ErsatzTV.Core/Scheduling/PlayoutBuilder.cs:541-546 | the collections the schedule draws from, each once, none exactly for an empty schedule |
| PlayoutBuilder.Validate | ErsatzTV.Core/Scheduling/PlayoutBuilder.cs:235-289 | the build goes ahead exactly when the schedule has collections and none is empty once cleaned, and then covers the configured days (two by default) from now over the cleaned collections |
| PlayoutBuilder.RunSchedulers | ErsatzTV.Core/Scheduling/PlayoutBuilder.cs:434-500 | the loop ends once the clock reaches the finish, or gives up at the sixth visit of an instant before it, never visiting an instant more than five times otherwise, with time never going back |
| PlayoutBuilder.FindStartAnchor | ErsatzTV.Core/Scheduling/PlayoutBuilder.cs:614-639 | an existing anchor is reused as is; otherwise the build starts at the first schedule item on the start's date, at its fixed time of day or at midnight |
| PlayoutBuilder.LatestFor | ErsatzTV.Core/Scheduling/PlayoutBuilder.cs:701-708 | an enumerator resumes from the anchor of exactly this collection with the latest date, a continue anchor counting as latest, the first of equals |
| PlayoutBuilder.ResumedState | ErsatzTV.Core/Scheduling/PlayoutBuilder.cs:701-717 | there is a saved state exactly when some anchor is for this collection, and it is one of theirs |
| PlayoutBuilder.ItemsBefore | ErsatzTV.Core/Scheduling/PlayoutBuilder.cs:411 | the items kept are exactly those starting before the start anchor |
| PlayoutBuilder.ItemsFinishingFrom | ErsatzTV.Core/Scheduling/PlayoutBuilder.cs:338 | the items kept are exactly those finishing no earlier than four hours before the start |
| PlayoutBuilder.SaveAnchor | ErsatzTV.Core/Scheduling/PlayoutBuilder.cs:648-684 | the corrected half of Findings row 4: a collection's anchor holds its enumerator state and the date when dates are saved; it is the first continue anchor whose whole collection key is this collection's when there is one (the source matches on collection type, collection id and media item id only, lines 650-654) and a new anchor otherwise, and no other anchor changes |
| PlayoutBuilder.SaveAnchors | ErsatzTV.Core/Scheduling/PlayoutBuilder.cs:648-684 | built on the corrected lookup of Findings row 4: one anchor per collection, in order, each as SaveAnchor makes it |
| PlayoutBuilder.Playout.BuildProgramScheduleAnchors | ErsatzTV.Core/Scheduling/PlayoutBuilder.cs:641-693 | built on the corrected lookup of Findings row 4: one anchor per collection in enumerator order holding its state, reused or new as SaveAnchor decides, followed by the old checkpoints |
| PlayoutBuilder.Playout.PruneForRefresh | ErsatzTV.Core/Scheduling/PlayoutBuilder.cs:81-180 | a refresh drops the items and keeps the earliest checkpoint dated on the start date per id; the playout anchor resumes from the first kept checkpoint's date, and there is none without one |
| PlayoutBuilder.Playout.ClearForReset | ErsatzTV.Core/Scheduling/PlayoutBuilder.cs:189-209 | a reset starts from no items, no playout anchor and no collection anchors |
| PlayoutBuilder.Playout.PruneForContinue | ErsatzTV.Core/Scheduling/PlayoutBuilder.cs:211-233 | a continue drops exactly the checkpoints dated before the start date and keeps every continue anchor |
| PlayoutBuilder.Playout.OpenEnumerators | ErsatzTV.Core/Scheduling/PlayoutBuilder.cs:376-400 | one enumerator per collection, each resumed from its saved state |
| PlayoutBuilder.Playout.BuildWindow | ErsatzTV.Core/Scheduling/PlayoutBuilder.cs:360-539 | nothing changes when the start anchor is at or after the finish; otherwise the items before the start anchor are kept in front, and a finished build reaches the finish, saves the playout anchor at the scheduler's state and one anchor per collection |
| PlayoutBuilder.Playout.SaveAnchor | ErsatzTV.Core/Scheduling/PlayoutBuilder.cs:502-536 | the playout anchor resumes the current schedule item no earlier than the clock pulled back to the last finish, keeps the scheduler's flood, duration, multiple and guide-group state, and one anchor per collection holds its state |
| PlayoutBuilder.Playout.BuildPlayoutItems | ErsatzTV.Core/Scheduling/PlayoutBuilder.cs:291-358 | one dated build per midnight before the finish, then a last undated one up to the finish; only the first build may randomize its start; each later build starts where the anchor saved by the one before says, and the playout keeps the last saved anchor; afterwards no item finishes more than four hours before the start |
| PlayoutBuilder.Playout.Build | ErsatzTV.Core/Scheduling/PlayoutBuilder.cs:43-79 | the build happens exactly when validation passes, and a failed validation leaves the playout as it was |
| SchedulingEngine.NextGroup | ErsatzTV.Core/Scheduling/Engine/SchedulingEngine.cs:731-737 | the next group is one more, wrapping from 1000 back to 1, and never above 1000 |
| SchedulingEngine.AdvancedClosedForm | ErsatzTV.Core/Scheduling/Engine/SchedulingEngine.cs:741-753 | advancing k times counts modulo 1000 through 1..1000 |
| SchedulingEngine.GuideGroupCycle | ErsatzTV.Core/Scheduling/Engine/SchedulingEngine.cs:741-753 | a thousand advances come back to the same group |
| SchedulingEngine.EngineState.constructor | ErsatzTV.Core/Scheduling/Engine/SchedulingEngine.cs:711-714 | a new state starts at the given group, unlocked, with no results |
| SchedulingEngine.EngineState.PeekNextGuideGroup | ErsatzTV.Core/Scheduling/Engine/SchedulingEngine.cs:725-739 | the next item's group is the current one while locked, and otherwise the one after it, within 1..1000 |
| SchedulingEngine.EngineState.AdvanceGuideGroup | ErsatzTV.Core/Scheduling/Engine/SchedulingEngine.cs:741-753 | advancing moves to the group that peeking announced |
| SchedulingEngine.EngineState.LockGuideGroup | ErsatzTV.Core/Scheduling/Engine/SchedulingEngine.cs:755-763 | locking advances first when asked, then holds the group |
| SchedulingEngine.EngineState.UnlockGuideGroup | ErsatzTV.Core/Scheduling/Engine/SchedulingEngine.cs:765 | unlocking releases the lock |
| SchedulingEngine.EngineState.SerializeContext | ErsatzTV.Core/Scheduling/Engine/SchedulingEngine.cs:774-787 | the saved context holds both the group and the lock, and loading it over anything gives them back |
| SchedulingEngine.EngineState.LoadContext | ErsatzTV.Core/Scheduling/Engine/SchedulingEngine.cs:789-800 | loading takes each field the saved context holds and keeps the others |
| SchedulingEngine.Restored | ErsatzTV.Core/Scheduling/Engine/SchedulingEngine.cs:789-800 | absent fields of a saved context keep their value |
| SchedulingEngine.SerializeRoundTrip | ErsatzTV.Core/Scheduling/Engine/SchedulingEngine.cs:774-800 | loading a saved context restores the saved group and lock, whatever was there before |
| SchedulingEngine.CountItemAt | ErsatzTV.Core/Scheduling/Engine/SchedulingEngine.cs:341-361 | the k-th item plays the k-th media item whole, starting after the earlier ones |
| SchedulingEngine.CountItems | ErsatzTV.Core/Scheduling/Engine/SchedulingEngine.cs:332-398 | one item per media item taken, in order |
| SchedulingEngine.CountStep | ErsatzTV.Core/Scheduling/Engine/SchedulingEngine.cs:341-398 | one round extends the items, the history and the elapsed time by exactly the next media item |
| SchedulingEngine.CountItemsTimeline | ErsatzTV.Core/Scheduling/Engine/SchedulingEngine.cs:332-398 | the items play back to back from the current time for the media items' total duration |
| SchedulingEngine.HistoryFor | ErsatzTV.Core/Scheduling/Engine/SchedulingEngine.cs:389-394 | one history record per item, under the enumerator's key, with the item's start and finish |
| SchedulingEngine.TakenCount | ErsatzTV.Core/Scheduling/Engine/SchedulingEngine.cs:332-341 | count rounds take count media items, fewer when the enumerator runs out, none for a count of zero or less |
| SchedulingEngine.Engine.constructor | ErsatzTV.Core/Scheduling/Engine/SchedulingEngine.cs:21-23 | a new engine has no enumerators and a fresh state at group 0 |
| SchedulingEngine.Engine.WithMode | ErsatzTV.Core/Scheduling/Engine/SchedulingEngine.cs:31-35 | the build mode is set |
| SchedulingEngine.Engine.WithSeed | ErsatzTV.Core/Scheduling/Engine/SchedulingEngine.cs:37-41 | the seed is set |
| SchedulingEngine.Engine.WithReferenceData | ErsatzTV.Core/Scheduling/Engine/SchedulingEngine.cs:43-47 | the history is the reference data's |
| SchedulingEngine.Engine.BuildBetween | ErsatzTV.Core/Scheduling/Engine/SchedulingEngine.cs:49-55 | start, finish and current time are set, the current time to the start |
| SchedulingEngine.Engine.RemoveBefore | ErsatzTV.Core/Scheduling/Engine/SchedulingEngine.cs:57-61 | the removal cut-off is set |
| SchedulingEngine.Engine.RestoreOrReset | ErsatzTV.Core/Scheduling/Engine/SchedulingEngine.cs:63-99 | a reset clears the items and removes exactly the history starting after the start or still playing at it; otherwise the time moves to the anchor's next start and its saved context is loaded |
| SchedulingEngine.Engine.AddContent | ErsatzTV.Core/Scheduling/Engine/SchedulingEngine.cs:101-133 | a new key with items and a chronological or shuffle order gets an enumerator seeded by the seed plus the number registered; otherwise nothing changes |
| SchedulingEngine.Engine.AddPlaylist | ErsatzTV.Core/Scheduling/Engine/SchedulingEngine.cs:172-206 | a new key gets a playlist enumerator even when empty, with no playback order; a known key changes nothing |
| SchedulingEngine.Engine.AddCount | ErsatzTV.Core/Scheduling/Engine/SchedulingEngine.cs:317-410 | an unknown key adds nothing and reports false; otherwise the next count items play back to back from the current time, each in the next guide group with one history record, time moves past them, and it reports whether any was added |
| SchedulingEngine.Engine.WaitUntil | ErsatzTV.Core/Scheduling/Engine/SchedulingEngine.cs:412-442 | time moves to the target time of day today when not yet past, otherwise to tomorrow at it, back to today on a reset rewind, or stays put |
| SchedulingEngine.Engine.AnchorNextStart | ErsatzTV.Core/Scheduling/Engine/SchedulingEngine.cs:444-450 | the next start is the latest finish of the added items, or the current time when none was added |
| SchedulingEngine.Engine.GetAnchor | ErsatzTV.Core/Scheduling/Engine/SchedulingEngine.cs:444-456 | the anchor carries that next start and the saved context |
| SchedulingEngine.WaitUntilLands | ErsatzTV.Core/Scheduling/Engine/SchedulingEngine.cs:412-442 | waiting always lands on the target time of day, and only the reset rewind moves time backwards |
| SequentialPlayoutBuilder.DaysInMonth | ErsatzTV.Core/Scheduling/YamlScheduling/SequentialPlayoutBuilder.cs:788-790 | a month has 28 to 31 days, and February has 29 exactly in a leap year |
| SequentialPlayoutBuilder.DayOfYear | ErsatzTV.Core/Scheduling/YamlScheduling/SequentialPlayoutBuilder.cs:803-805 | the day of the year is at least 1 |
| SequentialPlayoutBuilder.DaysBeforeMonthsOfYear | ErsatzTV.Core/Scheduling/YamlScheduling/SequentialPlayoutBuilder.cs:803-805 | the months of a year add up to the length of the year |
| SequentialPlayoutBuilder.DayOfYearWithinYear | ErsatzTV.Core/Scheduling/YamlScheduling/SequentialPlayoutBuilder.cs:803-805 | a valid date's day of the year is within its year |
| SequentialPlayoutBuilder.DayOfYearOrder | ErsatzTV.Core/Scheduling/YamlScheduling/SequentialPlayoutBuilder.cs:803-816 | within a year, day-of-year order is month-then-day order |
| SequentialPlayoutBuilder.DayNumberOrder | ErsatzTV.Core/Scheduling/YamlScheduling/SequentialPlayoutBuilder.cs:786-793 | comparing the dates as DateTime values compares them as calendar dates |
| SequentialPlayoutBuilder.ParseInt | ErsatzTV.Core/Scheduling/YamlScheduling/SequentialPlayoutBuilder.cs:826-832 | a parsed piece is a non-negative number that fits a 32-bit int |
| SequentialPlayoutBuilder.ParseDate | ErsatzTV.Core/Scheduling/YamlScheduling/SequentialPlayoutBuilder.cs:819-836 | a date parses only with two or three '-'-separated pieces, and has a year exactly with three; anything else is the format error |
| SequentialPlayoutBuilder.ParseDateRoundTrip | ErsatzTV.Core/Scheduling/YamlScheduling/SequentialPlayoutBuilder.cs:819-836 | every formatted month-day or year-month-day date parses back to itself |
| SequentialPlayoutBuilder.IsDateInSchedule | ErsatzTV.Core/Scheduling/YamlScheduling/SequentialPlayoutBuilder.cs:768-817 | a blank bound means no window; a bound that does not parse is an error; a match needs both bounds parsed, with a year on both or on neither |
| SequentialPlayoutBuilder.YearWindow | ErsatzTV.Core/Scheduling/YamlScheduling/SequentialPlayoutBuilder.cs:782-793 | a window with years on both bounds is the inclusive range of calendar dates between them, and an error when a bound is not a real date |
| SequentialPlayoutBuilder.MixedWindow | ErsatzTV.Core/Scheduling/YamlScheduling/SequentialPlayoutBuilder.cs:795-799 | a window with a year on only one bound never matches |
| SequentialPlayoutBuilder.RecurringWindow | ErsatzTV.Core/Scheduling/YamlScheduling/SequentialPlayoutBuilder.cs:801-816 | a recurring window is the inclusive month-and-day range in the date's year, wrapping across the new year when its start comes after its end, and an error when a bound is not a date of that year |
| SequentialPlayoutBuilder.LeapDayWindowFailsInCommonYears | ErsatzTV.Core/Scheduling/YamlScheduling/SequentialPlayoutBuilder.cs:801-805 | a recurring window starting on 29 February cannot be read in a common year |
| SequentialPlayoutBuilder.Verdicts | ErsatzTV.Core/Scheduling/YamlScheduling/SequentialPlayoutBuilder.cs:754-760 | each schedule's answer for the date, in order |
| SequentialPlayoutBuilder.FirstMatchFrom | ErsatzTV.Core/Scheduling/YamlScheduling/SequentialPlayoutBuilder.cs:754-763 | the scan returns the first window holding the date, none exactly when every window answers no, and the first error raised before a match |
| SequentialPlayoutBuilder.ActiveSchedule | ErsatzTV.Core/Scheduling/YamlScheduling/SequentialPlayoutBuilder.cs:747-764 | the schedule in force is one of the schedules |
| SequentialPlayoutBuilder.FoldedKeys | ErsatzTV.Core/Scheduling/YamlScheduling/SequentialPlayoutBuilder.cs:81-92 | keys are compared lower-cased, one per entry |
| SequentialPlayoutBuilder.NewEntries | ErsatzTV.Core/Scheduling/YamlScheduling/SequentialPlayoutBuilder.cs:80-94 | an import only adds entries it imports |
| SequentialPlayoutBuilder.NewEntriesKeys | ErsatzTV.Core/Scheduling/YamlScheduling/SequentialPlayoutBuilder.cs:80-94 | after an import the keys present are those of the existing entries and of every imported one |
| SequentialPlayoutBuilder.MergeImported | ErsatzTV.Core/Scheduling/YamlScheduling/SequentialPlayoutBuilder.cs:80-94 | the merged list is the existing entries followed by the new ones |
| SequentialPlayoutBuilder.MergeCoversImports | ErsatzTV.Core/Scheduling/YamlScheduling/SequentialPlayoutBuilder.cs:80-94 | every imported key is present after the merge |
| SequentialPlayoutBuilder.MergeKeepsKeysDistinct | ErsatzTV.Core/Scheduling/YamlScheduling/SequentialPlayoutBuilder.cs:80-94 | keys distinct ignoring case stay distinct after the merge |
| SequentialPlayoutBuilder.SequenceItemsFor | ErsatzTV.Core/Scheduling/YamlScheduling/SequentialPlayoutBuilder.cs:555-559 | the items of the first sequence with that key, drawn from the sequences' items, or none |
| SequentialPlayoutBuilder.RepeatCount | ErsatzTV.Core/Scheduling/YamlScheduling/SequentialPlayoutBuilder.cs:561 | a sequence plays its repeat count, and once when the count is zero or less |
| SequentialPlayoutBuilder.FlattenedWithoutSequences | ErsatzTV.Core/Scheduling/YamlScheduling/SequentialPlayoutBuilder.cs:543-587 | a list without sequence instructions is its own flattening |
| SequentialPlayoutBuilder.FlattenedKeepsOthers | ErsatzTV.Core/Scheduling/YamlScheduling/SequentialPlayoutBuilder.cs:580-583 | every instruction that is not a sequence instruction survives flattening |
| SequentialPlayoutBuilder.FlattenedFrom | ErsatzTV.Core/Scheduling/YamlScheduling/SequentialPlayoutBuilder.cs:543-587 | flattening draws only on the list's other instructions and the sequences' items |
| SequentialPlayoutBuilder.OnePassSuffices | ErsatzTV.Core/Scheduling/YamlScheduling/SequentialPlayoutBuilder.cs:289-300 | when no sequence holds a sequence instruction, one pass removes every sequence instruction |
| SequentialPlayoutBuilder.LastCustomTitle | ErsatzTV.Core/Scheduling/YamlScheduling/SequentialPlayoutBuilder.cs:569-575 | a sequence item ends with the last non-blank custom title of the instructions expanding its sequence |
| SequentialPlayoutBuilder.AppendTagged | ErsatzTV.Core/Scheduling/YamlScheduling/SequentialPlayoutBuilder.cs:563-579 | one repetition appends the sequence's items, each tagged with the sequence and, when non-blank, the instruction's custom title |
| SequentialPlayoutBuilder.ExpandOnto | ErsatzTV.Core/Scheduling/YamlScheduling/SequentialPlayoutBuilder.cs:550-583 | one raw instruction is appended as its expansion, and only the items of the sequence it names are retagged |
| SequentialPlayoutBuilder.FlattenSequencesForDefinition | ErsatzTV.Core/Scheduling/YamlScheduling/SequentialPlayoutBuilder.cs:543-587 | one pass refills the list with its flattening, and each shared sequence item keeps the tag and title of the last instruction that expanded it |
| SequentialPlayoutBuilder.ResetRemovals | ErsatzTV.Core/Scheduling/YamlScheduling/SequentialPlayoutBuilder.cs:148-165 | a reset removes exactly the history that starts after the start or is still playing at it |
| SequentialPlayoutBuilder.LatestFinishedWhen | ErsatzTV.Core/Scheduling/YamlScheduling/SequentialPlayoutBuilder.cs:721-725 | the latest start among the records finished before the start, none exactly when none finished |
| SequentialPlayoutBuilder.DeletedIffStale | ErsatzTV.Core/Scheduling/YamlScheduling/SequentialPlayoutBuilder.cs:718-738 | within a key, a record is deleted exactly when it finished before the start and did not start at the latest finished start |
| SequentialPlayoutBuilder.GroupByKey | ErsatzTV.Core/Scheduling/YamlScheduling/SequentialPlayoutBuilder.cs:706-716 | each key appears once, and each group holds exactly the records with its key |
| SequentialPlayoutBuilder.DeletedOf | ErsatzTV.Core/Scheduling/YamlScheduling/SequentialPlayoutBuilder.cs:729-732 | a group's deletions are records of the group |
| SequentialPlayoutBuilder.CleanUpStep | ErsatzTV.Core/Scheduling/YamlScheduling/SequentialPlayoutBuilder.cs:718-738 | each group's deletions add exactly that key's stale records |
| SequentialPlayoutBuilder.AppendIds | ErsatzTV.Core/Scheduling/YamlScheduling/SequentialPlayoutBuilder.cs:734-737 | the deleted records' ids are appended in order |
| SequentialPlayoutBuilder.CleanUpHistory | ErsatzTV.Core/Scheduling/YamlScheduling/SequentialPlayoutBuilder.cs:701-742 | the removals so far are kept, and exactly the stale records' ids are added |
| SequentialPlayoutBuilder.FlattenNested | ErsatzTV.Core/Scheduling/YamlScheduling/SequentialPlayoutBuilder.cs:288-300 | flattening repeats until no sequence instruction is left, or gives up after 101 passes; a list without sequence instructions takes none, and unnested sequences take one |
| SequentialPlayoutBuilder.EdgesOf | ErsatzTV.Core/Scheduling/YamlScheduling/SequentialPlayoutBuilder.cs:525-530 | a sequence has an edge to exactly each sequence one of its items names, and none without such items |
| SequentialPlayoutBuilder.NoNestingNoEdges | ErsatzTV.Core/Scheduling/YamlScheduling/SequentialPlayoutBuilder.cs:519-533 | without nested sequences the graph has no edge |
| SequentialPlayoutBuilder.DetectCycle | ErsatzTV.Core/Scheduling/YamlScheduling/SequentialPlayoutBuilder.cs:519-533 | the cycle check answers for the graph of sequence references |
| SequentialPlayoutBuilder.Step | ErsatzTV.Core/Scheduling/YamlScheduling/SequentialPlayoutBuilder.cs:417-453 | a turn only appends items and history when the handlers do, never moves time back when they do not, and skips a sequence instruction |
| SequentialPlayoutBuilder.ScheduleList | ErsatzTV.Core/Scheduling/YamlScheduling/SequentialPlayoutBuilder.cs:316-325 | the list played is the active schedule's or the definition's |
| SequentialPlayoutBuilder.RunInstructions | ErsatzTV.Core/Scheduling/YamlScheduling/SequentialPlayoutBuilder.cs:302-454 | the final context is the replay of the turns taken, at most two per unit of fuel and at least one per unit when the fuel runs out; every turn is taken short of the finish under the schedule in force at its current time, is a restart exactly when that schedule differs from the one before, and otherwise runs the instruction at the current index of the list that turn saw; the turns since the last restart saw the list of the schedule last in force, and a first turn that runs an instruction saw the list in force on entry; the loop stops exactly at the finish, past the end of the list in force, on a new schedule that is empty or whose sequences hold a cycle, or on a schedule error, and otherwise only appends items and history and never moves time back |
| SequentialPlayoutBuilder.ReplayExtends | ErsatzTV.Core/Scheduling/YamlScheduling/SequentialPlayoutBuilder.cs:302-454 | replaying any turns with handlers that only append keeps the items and history already added as a prefix |
| SequentialPlayoutBuilder.ReplayNeverRewinds | ErsatzTV.Core/Scheduling/YamlScheduling/SequentialPlayoutBuilder.cs:302-454 | replaying any turns with handlers that never move time back never moves time back |
| SequentialPlayoutBuilder.CoveredAfter | ErsatzTV.Core/Scheduling/YamlScheduling/SequentialPlayoutBuilder.cs:59-100 | every key an import brings stays present as more entries are appended |
| SequentialPlayoutBuilder.MergeAllExtends | ErsatzTV.Core/Scheduling/YamlScheduling/SequentialPlayoutBuilder.cs:59-100 | the main file's own entries come first, unchanged |
| SequentialPlayoutBuilder.MergeAllCoversContent | ErsatzTV.Core/Scheduling/YamlScheduling/SequentialPlayoutBuilder.cs:80-86 | the merged content holds the key of every imported content entry |
| SequentialPlayoutBuilder.MergeAllCoversSequences | ErsatzTV.Core/Scheduling/YamlScheduling/SequentialPlayoutBuilder.cs:88-94 | the merged sequences hold the key of every imported sequence |
| SequentialPlayoutBuilder.MergeAllKeepsKeysDistinct | ErsatzTV.Core/Scheduling/YamlScheduling/SequentialPlayoutBuilder.cs:59-100 | keys distinct ignoring case stay distinct through every import |
| SequentialPlayoutBuilder.MergeAllPool | ErsatzTV.Core/Scheduling/YamlScheduling/SequentialPlayoutBuilder.cs:59-100 | the merged sequences hold only items of the main file's or the imports' sequences |
| SequentialPlayoutBuilder.ApplyImports | ErsatzTV.Core/Scheduling/YamlScheduling/SequentialPlayoutBuilder.cs:59-108 | the import loop computes the merge of every import, or stops at a missing or invalid one |
| SequentialPlayoutBuilder.AnchorNextStart | ErsatzTV.Core/Scheduling/YamlScheduling/SequentialPlayoutBuilder.cs:455-465 | the next build continues at the latest finish of the items added, or at the current time when none was |
| SequentialPlayoutBuilder.OnResetSkipsOthers | ErsatzTV.Core/Scheduling/YamlScheduling/SequentialPlayoutBuilder.cs:233-258 | reset instructions none of which runs on reset leave the context as it was |
| SequentialPlayoutBuilder.RunResetInstructions | ErsatzTV.Core/Scheduling/YamlScheduling/SequentialPlayoutBuilder.cs:233-258 | the reset loop runs exactly the instructions whose handler runs on reset |
| SequentialPlayoutBuilder.Build | ErsatzTV.Core/Scheduling/YamlScheduling/SequentialPlayoutBuilder.cs:30-480 | an unloadable definition or invalid import fails and a missing import gives an empty result, with no anchor; a saved anchor means no cycle, a run that starts from the position the reset instructions of the schedule in force at the start leave (on reset), else from the restored position, else from the start and the first instruction, and ends in the replay of turns that each fit the schedule in force and the list they saw, as for RunInstructions, up to the start plus the days to build; the history removals are the reset's then exactly the stale records |
| ChannelGuide.SortByStart | ErsatzTV.Application/Channels/Commands/RefreshChannelDataHandler.cs:222-226 | the items come out sorted by start and are a permutation of the input |
| ChannelGuide.Shift | ErsatzTV.Application/Channels/Commands/RefreshChannelDataHandler.cs:227-231 | the corrected half of Findings row 5 (the source moves only start and finish; ShiftAsWritten is that version): the mirror shift moves every instant of an item (start, finish and the guide start and finish when present) by the offset and changes nothing else |
| ChannelGuide.ShiftAll | ErsatzTV.Application/Channels/Commands/RefreshChannelDataHandler.cs:227-231 | the corrected half of Findings row 5: every item gets the corrected shift, in place in the order; ShiftAllAsWritten is the source's version |
| ChannelGuide.ShiftAsWritten | ErsatzTV.Application/Channels/Commands/RefreshChannelDataHandler.cs:227-231 | the as-written half of Findings row 5: start and finish move by the offset, the guide start and finish stay, and the result is the corrected shift exactly when the offset is zero or the item has no guide times |
| ChannelGuide.ShiftAllAsWritten | ErsatzTV.Application/Channels/Commands/RefreshChannelDataHandler.cs:227-231 | every item gets the shift as the source writes it, in place in the order |
| ChannelGuide.GuideItemsAsWritten | ErsatzTV.Application/Channels/Commands/RefreshChannelDataHandler.cs:222-231 | the as-written half of Findings row 5: sorted by start, exactly the items that started by the horizon, each with start and finish shifted and its guide times unshifted |
| ChannelGuide.GuideItems | ErsatzTV.Application/Channels/Commands/RefreshChannelDataHandler.cs:222-231 | the corrected half of Findings row 5: the guide is written from items sorted by start, exactly the items that started by the horizon with every instant shifted; GuideItemsAsWritten is the source's version |
| ChannelGuide.CutAndShift | ErsatzTV.Application/Channels/Commands/RefreshChannelDataHandler.cs:222-231 | the corrected half of Findings row 5: exactly the items that started by the horizon, each with every instant shifted by the offset |
| ChannelGuide.FilterKeepsSorted | ErsatzTV.Application/Channels/Commands/RefreshChannelDataHandler.cs:224-225 | cutting at the horizon keeps the items sorted |
| ChannelGuide.FindDisplay | ErsatzTV.Application/Channels/Commands/RefreshChannelDataHandler.cs:338-344 | the display item is the first non-filler item from the programme's first item, or the last item |
| ChannelGuide.FindFinish | ErsatzTV.Application/Channels/Commands/RefreshChannelDataHandler.cs:347-356 | the programme runs on exactly while the next item shares the guide group or is trailing filler (guide mode, post-roll, tail, fallback, deco default) |
| ChannelGuide.ReadProgramme | ErsatzTV.Application/Channels/Commands/RefreshChannelDataHandler.cs:335-357 | one pass of the outer loop reads exactly one programme starting at the current item |
| ChannelGuide.WritePlayoutXml | ErsatzTV.Application/Channels/Commands/RefreshChannelDataHandler.cs:310-398 | the leading filler that is not pre-roll is skipped, and the remaining items are cut into programmes that follow one another to the last item |
| ChannelGuide.TilesCoverOnce | ErsatzTV.Application/Channels/Commands/RefreshChannelDataHandler.cs:335-397 | every item after the skipped filler belongs to exactly one programme |
| ChannelGuide.TilesOrdered | ErsatzTV.Application/Channels/Commands/RefreshChannelDataHandler.cs:335-397 | programmes are in order and never overlap |
| ChannelGuide.ShiftedProgrammes | ErsatzTV.Application/Channels/Commands/RefreshChannelDataHandler.cs:227-231 | shifting every instant of the items by one offset shifts each programme's start and stop by that offset and nothing else |
| ChannelGuide.MirrorShiftAsWrittenStopsBeforeStart | ErsatzTV.Application/Channels/Commands/RefreshChannelDataHandler.cs:227-231 | with the shift as written, a programme whose display item has a guide finish keeps its unshifted stop, which then falls before its shifted start |
| ChannelGuide.GroupKeys | ErsatzTV.Application/Channels/Commands/RefreshChannelDataHandler.cs:421 | the groups are the distinct (guide start, guide finish, guide group) keys of the items, each once |
| ChannelGuide.EvenSlots | ErsatzTV.Application/Channels/Commands/RefreshChannelDataHandler.cs:482-508 | each item gets the next slot of equal length from the group's guide start |
| ChannelGuide.ActualTimes | ErsatzTV.Application/Channels/Commands/RefreshChannelDataHandler.cs:432-467 | each item is listed at its own start and finish |
| ChannelGuide.GroupContent | ErsatzTV.Application/Channels/Commands/RefreshChannelDataHandler.cs:424 | a group lists exactly its items that are not filler |
| ChannelGuide.WriteActualTimes | ErsatzTV.Application/Channels/Commands/RefreshChannelDataHandler.cs:432-467 | the loop lists each content item at its own start and finish |
| ChannelGuide.SplitTimeEvenlyLoop | ErsatzTV.Application/Channels/Commands/RefreshChannelDataHandler.cs:468-509 | the loop advances the slot by the per-item share for each content item |
| ChannelGuide.WriteGroup | ErsatzTV.Application/Channels/Commands/RefreshChannelDataHandler.cs:422-511 | one group's entries follow the configured block behaviour, and a group without content writes nothing |
| ChannelGuide.BlockEntriesSnoc | ErsatzTV.Application/Channels/Commands/RefreshChannelDataHandler.cs:422-511 | writing one more group appends its entries, and a failure in any group is the result |
| ChannelGuide.BlockEntriesErrSticks | ErsatzTV.Application/Channels/Commands/RefreshChannelDataHandler.cs:422-511 | once a group fails the whole block guide fails with it |
| ChannelGuide.WriteBlockPlayoutXml | ErsatzTV.Application/Channels/Commands/RefreshChannelDataHandler.cs:400-512 | the block guide is the groups' entries in order of first appearance |
| ChannelGuide.EvenSlotsTile | ErsatzTV.Application/Channels/Commands/RefreshChannelDataHandler.cs:470-508 | the even split starts at the group's guide start, its slots follow one another, and the last one ends within half a tick per item of the group's guide finish |
| ChannelGuide.BlockEntriesAreContent | ErsatzTV.Application/Channels/Commands/RefreshChannelDataHandler.cs:424 | only content items of the playout reach a block guide |
| ChannelGuide.BuildPlayoutItem | ErsatzTV.Application/Channels/Commands/RefreshChannelDataHandler.cs:1113-1134 | an external program becomes a non-filler item from the given start for its duration, in guide group of its index, with no guide finish and no custom title |
| ChannelGuide.CollectExternalJsonItems | ErsatzTV.Application/Channels/Commands/RefreshChannelDataHandler.cs:1076-1111 | a missing or unreadable file gives no items; an unparsable start time fails; otherwise the items are exactly the external items of the programs from the start |
| ChannelGuide.ExternalItemsExactly | ErsatzTV.Application/Channels/Commands/RefreshChannelDataHandler.cs:1095-1106 | program i is in the guide exactly when it lasts at least the guide minimum, as guide group i, starting after every earlier program |
| ChannelGuide.ExternalItemsGroups | ErsatzTV.Application/Channels/Commands/RefreshChannelDataHandler.cs:1095-1106 | the guide groups of the external items are indices of the programs |
| ChannelGuide.GetTitle | ErsatzTV.Application/Channels/Commands/RefreshChannelDataHandler.cs:1015-1034 | a non-blank custom title wins; otherwise the metadata title of a movie, show, artist or other video; songs and other items are "[unknown]" |
| ChannelGuide.GetSubtitle | ErsatzTV.Application/Channels/Commands/RefreshChannelDataHandler.cs:1036-1056 | no subtitle under a custom title or for movies and other videos; otherwise the episode, music video or song title, or empty |
| ChannelGuide.CustomTitleReplacesMetadata | ErsatzTV.Application/Channels/Commands/RefreshChannelDataHandler.cs:1015-1056 | a programme with a custom title shows that title and no subtitle, whatever its media |
| ChannelGuide.ArtworkHeight | ErsatzTV.Application/Channels/Commands/RefreshChannelDataHandler.cs:981-985 | thumbnails are requested 220 high, everything else 440 |
| ChannelGuide.LocalArtworkUrl | ErsatzTV.Application/Channels/Commands/RefreshChannelDataHandler.cs:1003-1009 | the local artwork route wraps the path between the folder prefix and the suffix, so the path can be read back from it |
| ChannelGuide.GetArtworkUrl | ErsatzTV.Application/Channels/Commands/RefreshChannelDataHandler.cs:977-1013 | web paths are kept, Jellyfin and Emby paths go through their proxy placeholders at the kind's height, anything else under the local artwork route |
| ChannelGuide.FirstOfKind | ErsatzTV.Application/Channels/Commands/RefreshChannelDataHandler.cs:1060-1062 | the first artwork of a kind, present exactly when there is one |
| ChannelGuide.PrioritizedArtworkPath | ErsatzTV.Application/Channels/Commands/RefreshChannelDataHandler.cs:1058-1074 | the first poster's URL when there is a poster, nothing when there is neither poster nor thumbnail |
| ChannelGuide.WritePlayout | ErsatzTV.Application/Channels/Commands/RefreshChannelDataHandler.cs:215-295 | built on the corrected shift of Findings row 5, so a mirror channel's guide times move with its start and finish: classic, sequential and scripted playouts are cut into programmes from the guide items; block playouts give the block entries or their failure; external schedules fail exactly on an unparsable start, give no items without a channel file, and otherwise give exactly the external items that started by the horizon, shifted, cut into programmes |
| StreamingProcess.Limit | ErsatzTV.Application/Streaming/Queries/GetPlayoutItemProcessByChannelNumberHandler.cs:285-297 | troubleshooting always gets exactly the 30-second limit; a request that is neither troubleshooting nor realtime gets exactly 44 seconds working ahead; there is no limit (zero) exactly for a realtime request that is not troubleshooting, so the limit is never negative and never above 44 seconds |
| StreamingProcess.ClampProcess | ErsatzTV.Application/Streaming/Queries/GetPlayoutItemProcessByChannelNumberHandler.cs:277-307 | the process starts at the item's start when asked to start at zero and at the clock otherwise; it is cut short exactly when a limit applies (44 seconds working ahead, 30 troubleshooting) and the item runs past it, in which case the out point moves by the limit; otherwise it runs to the item's finish and out point |
| StreamingProcess.ErrorWindow | ErsatzTV.Application/Streaming/Queries/GetPlayoutItemProcessByChannelNumberHandler.cs:474-491 | the error screen runs until the next scheduled item (or ends at once when there is none), with a duration exactly when there is a next item; a troubleshooting request always shows it for 30 seconds |
| StreamingProcess.GetDecoDeadAirFallback | ErsatzTV.Application/Streaming/Queries/GetPlayoutItemProcessByChannelNumberHandler.cs:887-936 | the template deco decides first and the playout deco second; the first that overrides or disables wins, its collection is the one used, and the channel and global settings are inherited exactly when neither decides |
| StreamingProcess.CustomPreset | ErsatzTV.Application/Streaming/Queries/GetPlayoutItemProcessByChannelNumberHandler.cs:661-672 | a deco's custom fallback preset always allows watermarks and draws from the deco's collection |
| StreamingProcess.FallbackPreset | ErsatzTV.Application/Streaming/Queries/GetPlayoutItemProcessByChannelNumberHandler.cs:655-694 | no preset when the deco disables fallback, the deco's collection for a custom one, and otherwise the channel's preset or, without one, the global one |
| StreamingProcess.FallbackFinish | ErsatzTV.Application/Streaming/Queries/GetPlayoutItemProcessByChannelNumberHandler.cs:732-740 | the fallback plays until the next scheduled item starts or, with none, five minutes for a version shorter than 30 seconds and one full play otherwise — never less than 30 seconds |
| StreamingProcess.CheckForFallbackFiller | ErsatzTV.Application/Streaming/Queries/GetPlayoutItemProcessByChannelNumberHandler.cs:648-762 | no playout item is located exactly when no preset applies; an empty fallback collection is an error rather than a crash; otherwise the drawn item plays from the clock with in point zero and out point its version's length, watermarks as the preset allows |
| StreamingProcess.DecisionFor | ErsatzTV.Application/Streaming/Queries/GetPlayoutItemProcessByChannelNumberHandler.cs:887-936 | the dead-air decision inherits exactly when neither deco decides |
| StreamingProcess.GetSubtitles | ErsatzTV.Application/Streaming/Queries/GetPlayoutItemProcessByChannelNumberHandler.cs:573-603 | closed captions are removed from media-server items and every other subtitle is kept; other items keep all their subtitles, and unknown item kinds have none |
| HlsSession.NextState | ErsatzTV.Application/Streaming/HlsSessionWorker.cs:364-397 | a finished process never leaves the session in the playout-updated state; the next item starts at zero exactly when the process ran in realtime or completed its item, and the session is realtime exactly when it was, or when the item was not completed; a playout update starts over seeking ahead |
| HlsSession.PrepareState | ErsatzTV.Application/Streaming/HlsSessionWorker.cs:404-443 | a work-ahead request turns a realtime state into its work-ahead twin and a realtime request the reverse, keeping the seek/zero half; the playout-updated state is left alone |
| HlsSession.InitialState | ErsatzTV.Application/Streaming/HlsSessionWorker.cs:217-218 | a session starts by seeking, working ahead exactly while under the work-ahead limit |
| HlsSession.RealtimeSettles | ErsatzTV.Application/Streaming/HlsSessionWorker.cs:364-443 | a realtime transcode that finishes always leaves the session in zero-and-realtime |
| HlsSession.WorkAheadOutcome | ErsatzTV.Application/Streaming/HlsSessionWorker.cs:364-443 | a finished work-ahead transcode leaves zero-and-work-ahead when the item was completed and seek-and-realtime otherwise, whatever the state before |
| HlsSession.NextLoopAction | ErsatzTV.Application/Streaming/HlsSessionWorker.cs:236-248 | a new process starts exactly when at most one minute is transcoded ahead, and runs in realtime exactly when at least 30 seconds are buffered or the work-ahead limit is reached |
| HlsSession.SegmentsToDelete | ErsatzTV.Application/Streaming/HlsSessionWorker.cs:701 | exactly the segments numbered below the trimmed playlist's first sequence are deleted |
| HlsSession.InitsToDelete | ErsatzTV.Application/Streaming/HlsSessionWorker.cs:711-728 | an init segment is deleted exactly when no segment on disk was generated with it, it is older than the trimmed playlist, and the init cache does not hold it as the earliest of its hash |
| HlsSession.StateAfter | ErsatzTV.Application/Streaming/HlsSessionWorker.cs:521-582 | a failed transcode leaves the state as it was; a clean exit (exit code 0) moves to NextState of the prepared state and whether the item was completed; a run saved only by the error screen moves to NextState as for an incomplete item, so the session goes on in realtime unless a playout update restarts it; a success never leaves the playout-updated state |
| HlsSession.Session.Start | ErsatzTV.Application/Streaming/HlsSessionWorker.cs:200-218 | a session starts with everything at the clock, no discontinuities, in the initial state |
| HlsSession.Session.OnPlayoutUpdated | ErsatzTV.Application/Streaming/HlsSessionWorker.cs:160 | a playout change puts the session in the playout-updated state |
| HlsSession.Session.Transcode | ErsatzTV.Application/Streaming/HlsSessionWorker.cs:400-600 | the request asks from the clock when the session was seeking ahead and from where transcoding stopped otherwise, starts at zero as the state says; a segment key bumps the discontinuity sequence and is mapped to the new number unless already mapped; on success the state advances and transcoding reaches the process's end |
| SearchIndex.OldGetJumpLetter | ErsatzTV.Infrastructure/Search/SearchIndex.cs:1220-1228 | the older jump letter fails exactly for an empty sort title, and is a key otherwise |
| SearchIndex.OldJumpLetterFailsOnEmptySortTitle | ErsatzTV.Infrastructure/Search/SearchIndex.cs:1220-1228 | an empty sort title makes the older index fail, where the Lucene index files it under '#' |
| SearchIndex.JumpLetterVersionsAgree | ErsatzTV.Infrastructure/Search/SearchIndex.cs:1220-1228 | on every other sort title the older and the newer jump letter agree |
| SearchIndex.OldSearch | ErsatzTV.Infrastructure/Search/SearchIndex.cs:182-236 | a blank query or an empty index gives nothing and no page map; otherwise every hit is counted, at most limit hits come back for a positive limit, and a page map is built exactly for a positive limit |
| SearchIndex.SearchVersionsAgree | ErsatzTV.Infrastructure/Search/SearchIndex.cs:182-236 | both searches return the same hits and totals; only the older one builds a page map for limits of 10,000 or more |
| SearchIndex.Escape | ErsatzTV.Infrastructure/Search/SearchIndex.cs:1142 | escaping never shortens the query |
| SearchIndex.EscapeRoundTrip | ErsatzTV.Infrastructure/Search/SearchIndex.cs:1142 | every special character of the escaped query is escaped, and unescaping gives back the query |
| SearchIndex.ParseQuery | ErsatzTV.Infrastructure/Search/SearchIndex.cs:1133-1147 | the trimmed query is parsed, and only when that fails is it parsed again escaped |
| SearchIndex.ParseQueryNeverFailsTwice | ErsatzTV.Infrastructure/Search/SearchIndex.cs:1133-1147 | a parser that accepts every escaped query always yields a query |
| SearchIndex.MediaCodes | ErsatzTV.Infrastructure/Search/SearchIndex.cs:483-496 | the indexed languages are exactly the audio languages of the first media version, each once, and none without a version |
| LuceneSearchIndex.LetterIndex | ErsatzTV.Infrastructure/Search/LuceneSearchIndex.cs:383-387 | a key's position in '#', a, ..., z, and -1 exactly for a character that is not a key |
| LuceneSearchIndex.GetJumpLetter | ErsatzTV.Infrastructure/Search/LuceneSearchIndex.cs:1603-1614 | the jump letter is always a key; it is the lowercased first character of the sort title exactly when that is an ASCII letter, and '#' otherwise, for a missing or empty sort title too |
| LuceneSearchIndex.PageEnd | ErsatzTV.Infrastructure/Search/LuceneSearchIndex.cs:391-400 | after p pages the walk never passes the last hit, and has reached at least one hit once there is a page |
| LuceneSearchIndex.LastPageFrom | ErsatzTV.Infrastructure/Search/LuceneSearchIndex.cs:391-400 | the walk from page p ends at the first page that reaches the last hit |
| LuceneSearchIndex.PageCount | ErsatzTV.Infrastructure/Search/LuceneSearchIndex.cs:391-400 | the walk takes exactly as many pages as it needs to reach the last hit, none for no hits |
| LuceneSearchIndex.PageEndClosedForm | ErsatzTV.Infrastructure/Search/LuceneSearchIndex.cs:394-400 | page p ends after hit min(p * limit, n) |
| LuceneSearchIndex.PageCountClosedForm | ErsatzTV.Infrastructure/Search/LuceneSearchIndex.cs:391-400 | the page count is the number of hits divided by the limit, rounded up |
| LuceneSearchIndex.FirstReaching | ErsatzTV.Infrastructure/Search/LuceneSearchIndex.cs:402-411 | a key is assigned the first page whose last hit's jump letter is at or after it, or no page |
| LuceneSearchIndex.SeqMax | ErsatzTV.Infrastructure/Search/LuceneSearchIndex.cs:414 | the largest assigned page is one of the pages and bounds all of them |
| LuceneSearchIndex.Reached | ErsatzTV.Infrastructure/Search/LuceneSearchIndex.cs:391-411 | the walk gives a page to each of the 27 keys |
| LuceneSearchIndex.PageMap | ErsatzTV.Infrastructure/Search/LuceneSearchIndex.cs:375-421 | the page map has one page per key |
| LuceneSearchIndex.AssignPage | ErsatzTV.Infrastructure/Search/LuceneSearchIndex.cs:404-410 | one page's pass gives that page to every key up to the jump letter that had none and leaves every other key alone |
| LuceneSearchIndex.WalkPages | ErsatzTV.Infrastructure/Search/LuceneSearchIndex.cs:389-411 | the page-by-page loop computes the first page reaching each key |
| LuceneSearchIndex.GetSearchPageMap | ErsatzTV.Infrastructure/Search/LuceneSearchIndex.cs:375-421 | the loops compute the page map: each key's first reaching page, or the largest assigned page for keys never reached |
| LuceneSearchIndex.FirstReachingMonotone | ErsatzTV.Infrastructure/Search/LuceneSearchIndex.cs:402-411 | a key reached by some page is reached by every earlier key, on the same page or an earlier one |
| LuceneSearchIndex.PageMapMonotone | ErsatzTV.Infrastructure/Search/LuceneSearchIndex.cs:375-421 | page numbers never decrease along '#', a, ..., z |
| LuceneSearchIndex.HashReachedFirst | ErsatzTV.Infrastructure/Search/LuceneSearchIndex.cs:402-411 | '#' is always on the first page |
| LuceneSearchIndex.PageMapBounds | ErsatzTV.Infrastructure/Search/LuceneSearchIndex.cs:375-421 | with hits, '#' is on page 1 and every key is on a page from 1 to the page count; with no hits every key is on page 0 |
| LuceneSearchIndex.WithoutWildcards | ErsatzTV.Infrastructure/Search/LuceneSearchIndex.cs:229 | the query with every '*' and '?' removed and every other character kept |
| LuceneSearchIndex.Search | ErsatzTV.Infrastructure/Search/LuceneSearchIndex.cs:212-260 | a blank query or an empty index gives nothing; otherwise every hit is counted; never more items than hits, at most limit of them for a paged request, and a page map only for a limit between 1 and 9,999 |
| LuceneSearchIndex.SearchWindow | ErsatzTV.Infrastructure/Search/LuceneSearchIndex.cs:212-260 | a blank query or an empty index gives nothing; otherwise, for a positive limit, the hits from position skip up to skip + limit, the total hit count, and a page map of all hits exactly for a limit between 1 and 9,999 |
| LuceneSearchIndex.SearchUnlimited | ErsatzTV.Infrastructure/Search/LuceneSearchIndex.cs:237-247 | a limit of 0 returns every hit from position skip on |
| LuceneSearchIndex.Title | ErsatzTV.Infrastructure/Search/LuceneSearchIndex.cs:1600-1601 | the title used in keys never contains a space |
| LuceneSearchIndex.GetTitleAndYear | ErsatzTV.Infrastructure/Search/LuceneSearchIndex.cs:1580-1598 | the duplicate key holds no upper-case letter, and fails exactly for an other video with neither original title nor title |
| LuceneSearchIndex.OtherVideoKeyUsesOriginalTitle | ErsatzTV.Infrastructure/Search/LuceneSearchIndex.cs:1587-1588 | an other video with an original title is keyed by it, whatever its title |
| LuceneSearchIndex.TitleAndYearIgnoresTitleCase | ErsatzTV.Infrastructure/Search/LuceneSearchIndex.cs:1580-1601 | titles that differ only in letter case give the same duplicate key |
| LuceneSearchIndex.GuidFieldOf | ErsatzTV.Infrastructure/Search/LuceneSearchIndex.cs:1570-1577 | a guid is indexed only when it has one "://", under a non-empty lowercased id |
| LuceneSearchIndex.GuidFieldRecovers | ErsatzTV.Infrastructure/Search/LuceneSearchIndex.cs:1570-1577 | an indexed guid is its field, "://" and a non-blank id that lowercases to the indexed value |
| LuceneSearchIndex.GuidFieldOfScheme | ErsatzTV.Infrastructure/Search/LuceneSearchIndex.cs:1570-1577 | a scheme and an id joined by "://" are indexed under the scheme with the lowercased id when the id is not blank, and not at all when it is |
| LuceneSearchIndex.GuidFields | ErsatzTV.Infrastructure/Search/LuceneSearchIndex.cs:1568-1579 | the guid fields are exactly those of the guids that are indexed |
| LuceneSearchIndex.ContentRatings | ErsatzTV.Infrastructure/Search/LuceneSearchIndex.cs:453-460 | the content ratings are exactly the non-blank trimmed parts of the rating split on '/', none for a blank rating |
| LuceneSearchIndex.SeasonSortTitle | ErsatzTV.Infrastructure/Search/LuceneSearchIndex.cs:743-744 | a season's sort title holds no upper-case letter |
| LuceneSearchIndex.PadNat4RoundTrip | ErsatzTV.Infrastructure/Search/LuceneSearchIndex.cs:743 | the season number written as four or more digits parses back to itself |
| LuceneSearchIndex.SeasonSortTitleParts | ErsatzTV.Infrastructure/Search/LuceneSearchIndex.cs:743-744 | a season's sort title is the show's lowercased sort title, '_' and exactly four digits that parse back to the season |
| MetadataTypes.Jan1 | ErsatzTV.Scanner/Core/Metadata/LocalMetadataProvider.cs:1329 | the fallback date built from a bare year is the first of January of that year |
| MetadataTypes.FindEtag | ErsatzTV.Scanner/Core/Metadata/MediaServerTelevisionLibraryScanner.cs:536 | the remembered item found has the key and is the first remembered item that has it; none is found exactly when no remembered item has it |
| MetadataSync.KeepIn | ErsatzTV.Scanner/Core/Metadata/LocalMetadataProvider.cs:1352-1353 | the kept items are exactly the existing ones whose key the incoming list has |
| MetadataSync.KeepOut | ErsatzTV.Scanner/Core/Metadata/LocalMetadataProvider.cs:1362-1363 | the items to add are exactly the incoming ones whose key no remaining item has |
| MetadataSync.KeepInAppend | ErsatzTV.Scanner/Core/Metadata/LocalMetadataProvider.cs:1352-1353 | filtering a concatenation filters each part and keeps them in order, so the kept items keep their input order |
| MetadataSync.KeepOutAppend | ErsatzTV.Scanner/Core/Metadata/LocalMetadataProvider.cs:1362-1363 | filtering a concatenation filters each part and keeps them in order, so the items to add keep their input order |
| MetadataSync.Synced | ErsatzTV.Scanner/Core/Metadata/LocalMetadataProvider.cs:1350-1370 | an item ends in the list exactly when it existed with an incoming key, or is incoming with a key no existing item has |
| MetadataSync.RemovePass | ErsatzTV.Scanner/Core/Metadata/LocalMetadataProvider.cs:1352-1360 | the items left are those with an incoming key, and the flag is whether the repository reported any removal |
| MetadataSync.AddPass | ErsatzTV.Scanner/Core/Metadata/LocalMetadataProvider.cs:1362-1370 | the additions are appended in order, and the flag is whether the repository reported any addition |
| MetadataSync.SyncByKey | ErsatzTV.Scanner/Core/Metadata/LocalMetadataProvider.cs:1350-1370 | both passes leave the list Synced describes, and the flag is whether any removal or addition was reported |
| MetadataSync.SyncedKeys | ErsatzTV.Scanner/Core/Metadata/LocalMetadataProvider.cs:1350-1370 | after a sync the keys present are exactly the incoming keys |
| MetadataSync.SyncedIdempotent | ErsatzTV.Scanner/Core/Metadata/LocalMetadataProvider.cs:1350-1370 | syncing again against the same incoming list changes nothing and reports nothing |
| MetadataSync.SameKeysUnchanged | ErsatzTV.Scanner/Core/Metadata/LocalMetadataProvider.cs:1350-1370 | a list that already has exactly the incoming keys is left as it is, with nothing reported |
| ScannerLocalMetadata.GetYear | ErsatzTV.Scanner/Core/Metadata/LocalMetadataProvider.cs:1312-1325 | an NFO year after 1000 is kept; otherwise the premiered date's year; no year exactly when neither is there |
| ScannerLocalMetadata.GetAired | ErsatzTV.Scanner/Core/Metadata/LocalMetadataProvider.cs:1327-1337 | the aired date wins; otherwise January 1 of a year after 1000; no date exactly when neither is there |
| ScannerLocalMetadata.YearAndAiredTogether | ErsatzTV.Scanner/Core/Metadata/LocalMetadataProvider.cs:1312-1337 | from the same inputs a year is found exactly when an air date is; without a date the air date is January 1 of the year found; with one, both share its year |
| ScannerLocalMetadata.MovieYearAndReleaseDate | ErsatzTV.Scanner/Core/Metadata/LocalMetadataProvider.cs:1183-1201 | the movie NFO's year is GetYear's answer (0 for none) and its release date GetAired's (DateTime.MinValue for none) |
| ScannerLocalMetadata.GenreDelimiters | ErsatzTV.Scanner/Core/Metadata/LocalMetadataProvider.cs:1477-1480 | the delimiters are exactly those of slash, pipe, semicolon and backslash present in the string, or a comma alone when none is; never empty |
| ScannerLocalMetadata.TrimmedNonBlankShape | ErsatzTV.Scanner/Core/Metadata/LocalMetadataProvider.cs:1482-1484 | a kept piece is non-blank, has no white space at either end, holds no delimiter and is the trim of some non-blank piece |
| ScannerLocalMetadata.TrimmedNonBlankHas | ErsatzTV.Scanner/Core/Metadata/LocalMetadataProvider.cs:1482-1484 | every non-blank piece is kept, trimmed |
| ScannerLocalMetadata.SplitGenres | ErsatzTV.Scanner/Core/Metadata/LocalMetadataProvider.cs:1475-1486 | every genre is non-blank, trimmed and free of the chosen delimiters; a string is a genre exactly when it is the trim of a non-blank piece of the split |
| ScannerLocalMetadata.SingleGenre | ErsatzTV.Scanner/Core/Metadata/LocalMetadataProvider.cs:1475-1486 | a non-blank genre containing no delimiter and no comma comes back as itself, trimmed |
| ScannerLocalMetadata.Actors | ErsatzTV.Scanner/Core/Metadata/LocalMetadataProvider.cs:1443-1473 | one actor per NFO entry in order with its name and role; order is the entry's own or else its position; a thumbnail artwork exactly when the thumb is non-blank; positions make the orders distinct when no entry has one |
| ScannerLocalMetadata.UpdatedFields | ErsatzTV.Scanner/Core/Metadata/LocalMetadataProvider.cs:524-542 | every scalar column comes from the incoming metadata, except that a set DateAdded is kept, a blank sort title is derived from the title, and the content rating is only copied for movies |
| ScannerLocalMetadata.SyncedCollections | ErsatzTV.Scanner/Core/Metadata/LocalMetadataProvider.cs:1339-1441 | genres, tags and studios end with exactly the incoming names except on episodes, which keep theirs; actors end with exactly the incoming names except on music videos and songs; directors, writers and guids are untouched |
| ScannerLocalMetadata.UpdateMetadataCollections | ErsatzTV.Scanner/Core/Metadata/LocalMetadataProvider.cs:1339-1441 | the lists become SyncedCollections and the change flag is whether any repository removal or addition reported a change |
| ScannerLocalMetadata.UpdatedMetadata | ErsatzTV.Scanner/Core/Metadata/LocalMetadataProvider.cs:519-612 | the row keeps its id and owner, its columns follow UpdatedFields, and its directors, writers and guids end with exactly the incoming keys |
| ScannerLocalMetadata.ApplyUpdate | ErsatzTV.Scanner/Core/Metadata/LocalMetadataProvider.cs:519-612 | the updated row is UpdatedMetadata and the result is the change flag of the list synchronisation or the repository's row update |
| ScannerLocalMetadata.UpdatedMetadataIdempotent | ErsatzTV.Scanner/Core/Metadata/LocalMetadataProvider.cs:519-612 | applying the same incoming metadata twice leaves the row as after once, and the second pass reports only the repository's row update |
| ScannerLocalMetadata.NewMetadata | ErsatzTV.Scanner/Core/Metadata/LocalMetadataProvider.cs:615-621 | a new row is the incoming metadata attached to its item with a blank sort title derived from the title |
| ScannerLocalMetadata.RescanOfNewRowUnchanged | ErsatzTV.Scanner/Core/Metadata/LocalMetadataProvider.cs:519-621 | scanning the same metadata after it was added as a new row leaves the row unchanged |
| ScannerLocalMetadata.Movie.ApplyMetadataUpdate | ErsatzTV.Scanner/Core/Metadata/LocalMetadataProvider.cs:519-622 | with a row, only the first row is updated (UpdatedMetadata) and the flag is its change; without one, the incoming metadata becomes the only row and the flag is the repository's add |
| ScannerLocalMetadata.EpisodePartition | ErsatzTV.Scanner/Core/Metadata/LocalMetadataProvider.cs:393-399 | every existing row is either updated or removed and never both; removed rows have no incoming number; added rows are incoming with a number no existing row has; updated and added numbers make up exactly the incoming numbers |
| ScannerLocalMetadata.Find | ErsatzTV.Scanner/Core/Metadata/LocalMetadataProvider.cs:421-422 | a row is found exactly when some incoming row has the number; the one found is incoming with that number, and the only one when numbers are distinct |
| ScannerLocalMetadata.AddEntries | ErsatzTV.Scanner/Core/Metadata/LocalMetadataProvider.cs:407-417 | each new row is appended in order and the flag is whether any repository add reported a change |
| ScannerLocalMetadata.UpdateEntry | ErsatzTV.Scanner/Core/Metadata/LocalMetadataProvider.cs:419-512 | one matched row is updated from the first incoming row with its episode number |
| ScannerLocalMetadata.UpdateLoop | ErsatzTV.Core/Metadata/LocalMetadataProvider.cs:312-409 | every matched row at the front of the list is updated in place, the rest is untouched, and the flag is whether any row update reported a change |
| ScannerLocalMetadata.Episode.RemoveAndAdd | ErsatzTV.Scanner/Core/Metadata/LocalMetadataProvider.cs:401-417 | after removal and addition the episode holds the matched rows followed by the new rows, and the flag records any removal or successful add |
| ScannerLocalMetadata.Episode.ApplyMetadataUpdate | ErsatzTV.Core/Metadata/LocalMetadataProvider.cs:281-412 | the episode's rows become the full update (EpisodeAfter) and the flag is its change, as the older provider does |
| ScannerLocalMetadata.Episode.ApplyMetadataUpdateAsWritten | ErsatzTV.Scanner/Core/Metadata/LocalMetadataProvider.cs:387-517 | the episode's rows become the scanner's update, which returns after the first matched row |
| ScannerLocalMetadata.UpdatedEntriesNumbers | ErsatzTV.Scanner/Core/Metadata/LocalMetadataProvider.cs:419-442 | updating rows keeps their episode numbers |
| ScannerLocalMetadata.NewEntriesNumbers | ErsatzTV.Scanner/Core/Metadata/LocalMetadataProvider.cs:407-417 | new rows keep the incoming rows' episode numbers |
| ScannerLocalMetadata.EpisodeNumbersAfter | ErsatzTV.Core/Metadata/LocalMetadataProvider.cs:281-412 | after the update the episode numbers present are exactly the incoming ones |
| ScannerLocalMetadata.EpisodeRowsFresh | ErsatzTV.Core/Metadata/LocalMetadataProvider.cs:312-409 | after the full update every row carries the copied columns of an incoming row with its episode number |
| ScannerLocalMetadata.EpisodeAfterAsWritten | ErsatzTV.Scanner/Core/Metadata/LocalMetadataProvider.cs:415-520 | the as-written half of Findings row 7: the same rows with the same episode numbers as the full update, the same first row and new rows, and every later matched row left as it was |
| ScannerLocalMetadata.AsWrittenAgreesOnOneRow | ErsatzTV.Scanner/Core/Metadata/LocalMetadataProvider.cs:415-520 | with at most one matched row the scanner's version and the full update agree on the rows and on the flag |
| ScannerLocalMetadata.AsWrittenLeavesSecondRowStale | ErsatzTV.Scanner/Core/Metadata/LocalMetadataProvider.cs:419-513 | with two matched rows whose second title differs from the incoming one, the scanner's version leaves that row stale while the full update takes the incoming title |
| CoreLocalMetadata.OldGetYear | ErsatzTV.Core/Metadata/LocalMetadataProvider.cs:965-983 | a year after 1000 is kept; a blank premiered string gives none; otherwise the parsed date's year, or none when it does not parse |
| CoreLocalMetadata.OldGetAired | ErsatzTV.Core/Metadata/LocalMetadataProvider.cs:985-995 | the parsed aired date when the string is non-blank and parses; otherwise January 1 of a year after 1000, or none |
| CoreLocalMetadata.OldVersionsParseThenAgree | ErsatzTV.Core/Metadata/LocalMetadataProvider.cs:965-995 | the string versions are the scanner's GetYear and GetAired applied to the parsed string |
| MetadataRepository.UpdateFirst | ErsatzTV.Infrastructure/Data/Repositories/MetadataRepository.cs:166-187 | the first row with the update's key takes its columns, every other row stays, and nothing changes when no row has the key |
| MetadataRepository.FirstWithKey | ErsatzTV.Infrastructure/Data/Repositories/MetadataRepository.cs:168 | the index found holds the key and no earlier row has it |
| MetadataRepository.ApplyUpdates | ErsatzTV.Infrastructure/Data/Repositories/MetadataRepository.cs:166-187 | the update loop applies each update, in order, to the first row with its key |
| MetadataRepository.MergeByKey | ErsatzTV.Infrastructure/Data/Repositories/MetadataRepository.cs:154-187 | the add, remove and update passes leave exactly the merged list |
| MetadataRepository.UpdateAllKeys | ErsatzTV.Infrastructure/Data/Repositories/MetadataRepository.cs:166-187 | the update loop keeps every row's key in its place |
| MetadataRepository.UpdateFirstDistinct | ErsatzTV.Infrastructure/Data/Repositories/MetadataRepository.cs:168-187 | with distinct keys, updating the first row with a key updates every row with that key |
| MetadataRepository.UpdateAllPointwise | ErsatzTV.Infrastructure/Data/Repositories/MetadataRepository.cs:166-187 | with distinct keys, the one-by-one updates refresh each row from the last update with its key |
| MetadataRepository.MergedIsRefreshed | ErsatzTV.Infrastructure/Data/Repositories/MetadataRepository.cs:154-187 | the merge is the existing rows whose key is still incoming, in order, each holding the columns of the last incoming row with its key, followed by the incoming rows with a new key |
| MetadataRepository.MergedKeys | ErsatzTV.Infrastructure/Data/Repositories/MetadataRepository.cs:154-187 | after the merge the keys present are exactly the incoming keys |
| MetadataRepository.NothingToMergeIffBothEmpty | ErsatzTV.Infrastructure/Data/Repositories/MetadataRepository.cs:533-544 | the lists to add, remove and update are all empty exactly when both the existing and incoming lists are empty |
| MetadataRepository.VersionColumns | ErsatzTV.Infrastructure/Data/Repositories/MetadataRepository.cs:142-152 | with updateVersion the version's columns come from the incoming version, otherwise it is untouched; the id, name, date added, streams and chapters are never touched here |
| MetadataRepository.UpdateStatistics | ErsatzTV.Infrastructure/Data/Repositories/MetadataRepository.cs:123-247 | without a head version the result is false and nothing is written; otherwise the version becomes the statistics update and the result is whether the save wrote a row |
| MetadataRepository.StatisticsKeys | ErsatzTV.Infrastructure/Data/Repositories/MetadataRepository.cs:154-212 | after a statistics update the stream indexes and the chapter ids are exactly the incoming ones |
| MetadataRepository.MatchedStreamsTakeIncoming | ErsatzTV.Infrastructure/Data/Repositories/MetadataRepository.cs:154-187 | every stream afterwards is a new incoming stream or an existing row, keeping its id and index, holding every column of the incoming stream with its index |
| MetadataRepository.MatchedChaptersTakeIncoming | ErsatzTV.Infrastructure/Data/Repositories/MetadataRepository.cs:189-212 | every chapter afterwards is a new incoming chapter or an existing row, keeping its id and chapter id, holding the start, end and title of the incoming chapter with its chapter id |
| MetadataRepository.UpdateSubtitles | ErsatzTV.Infrastructure/Data/Repositories/MetadataRepository.cs:491-585 | without subtitle-bearing metadata the result is false; with nothing on either side it is true and nothing changes; otherwise the subtitles are merged by stream index and the result is whether the save wrote a row |
| MetadataRepository.SubtitleIndexesAfterMerge | ErsatzTV.Infrastructure/Data/Repositories/MetadataRepository.cs:533-568 | after a subtitle merge the stream indexes present are exactly the incoming ones |
| MetadataRepository.MatchedSubtitlesTakeIncoming | ErsatzTV.Infrastructure/Data/Repositories/MetadataRepository.cs:533-568 | every subtitle afterwards is a new incoming one or an existing row that keeps its id, title, path and extraction flag and takes the copied columns of the incoming subtitle with its stream index |
| MetadataRepository.GuidOwnerColumn | ErsatzTV.Infrastructure/Data/Repositories/MetadataRepository.cs:440-471 | AddGuid has no owner column exactly for music videos, songs and images, which it rejects |
| MetadataRepository.GuidOwnerColumnsDistinct | ErsatzTV.Infrastructure/Data/Repositories/MetadataRepository.cs:440-471 | distinct supported kinds write into distinct owner columns |
| MetadataRepository.AddGuid | ErsatzTV.Infrastructure/Data/Repositories/MetadataRepository.cs:440-471 | a supported kind answers whether the insert wrote a row; any other kind is an error |
| MovieRepository.FindByPath | ErsatzTV.Infrastructure/Data/Repositories/MovieRepository.cs:60-89 | the movie found has its head file at the path, and none is found only when no stored movie's head file is there |
| MovieRepository.GetOrAdd | ErsatzTV.Infrastructure/Data/Repositories/MovieRepository.cs:57-96 | a movie found by path comes back as not added; otherwise a new movie under the library path with one version holding one file at the path comes back as added, and a failed save is an error |
| MovieRepository.GetOrAddThenFound | ErsatzTV.Infrastructure/Data/Repositories/MovieRepository.cs:57-96 | a movie the first get-or-add adds is found by the next call, which reports it as not added |
| MovieRepository.GetOrAddPlex | ErsatzTV.Infrastructure/Data/Repositories/MovieRepository.cs:98-137 | a Plex movie found by key comes back as not added and untouched; a missing one is added under the library's first path with its etag blanked for the save and restored afterwards; no path or a failed save is an error |
| MovieRepository.SyncMovieLists | ErsatzTV.Infrastructure/Data/Repositories/MovieRepository.cs:365-473 | the movie update's list syncs leave MovieLists of the stored and server lists |
| MovieRepository.UpdateMovieMetadata | ErsatzTV.Infrastructure/Data/Repositories/MovieRepository.cs:352-507 | the movie's columns, lists and poster and fan art become those of the server's metadata |
| MovieRepository.UpdateJellyfin | ErsatzTV.Infrastructure/Data/Repositories/MovieRepository.cs:310-524 | no stored movie with the item id: nothing changes and nothing comes back; otherwise the stored movie is updated from the server and returned |
| MovieRepository.MovieListsNames | ErsatzTV.Infrastructure/Data/Repositories/MovieRepository.cs:365-473 | after the update each list has exactly the server's names (tags keep external-collection tags as well), and actors follow the show rule |
| MovieRepository.MovieArtwork | ErsatzTV.Infrastructure/Data/Repositories/MovieRepository.cs:475-507 | the movie keeps every artwork that is neither poster nor fan art, and gains the server's first poster and first fan art |
| MovieRepository.DeleteByPath | ErsatzTV.Infrastructure/Data/Repositories/MovieRepository.cs:166-190 | the matched ids are removed from the stored movies; the ids come back only when some stored movie was removed, else an empty list |
| MovieRepository.DeleteByPathReports | ErsatzTV.Infrastructure/Data/Repositories/MovieRepository.cs:166-190 | every id reported was deleted; an empty answer means nothing was removed; a non-empty one means fewer movies remain |
| MovieRepository.ExistingIds | ErsatzTV.Infrastructure/Data/Repositories/MovieRepository.cs:23-25 | the ids the count query counts are exactly the listed ids that a stored movie has |
| MovieRepository.AllMoviesExistAsWritten | ErsatzTV.Infrastructure/Data/Repositories/MovieRepository.cs:20-27 | the as-written half of Findings row 8: a list passes exactly when every id in it is a stored movie and no id appears twice (as many distinct ids as entries), so an empty list passes and a stored id listed twice is rejected |
| MovieRepository.AllMoviesExistAsWrittenRejectsRepeats | ErsatzTV.Infrastructure/Data/Repositories/MovieRepository.cs:20-27 | a list naming one stored movie twice is reported as not all existing |
| MovieRepository.AllMoviesExist | ErsatzTV.Infrastructure/Data/Repositories/MovieRepository.cs:20-27 | true exactly when every listed id is a stored movie |
| MediaServerSync.SyncedWhere | ErsatzTV.Infrastructure/Data/Repositories/JellyfinTelevisionRepository.cs:348-361 | an item ends in the list exactly when it existed and passes the keep rule, or is incoming with a key no kept item has |
| MediaServerSync.SyncWhere | ErsatzTV.Infrastructure/Data/Repositories/JellyfinTelevisionRepository.cs:348-361 | the removal loop and then the addition loop leave exactly the list SyncedWhere describes |
| MediaServerSync.SyncByName | ErsatzTV.Infrastructure/Data/Repositories/JellyfinTelevisionRepository.cs:333-346 | the genre, studio and guid loops leave the plain name-keyed sync of the list |
| MediaServerSync.SyncedWhereKeys | ErsatzTV.Infrastructure/Data/Repositories/JellyfinTelevisionRepository.cs:348-361 | after the sync the keys present are those of the kept items together with every incoming key |
| MediaServerSync.TagSync | ErsatzTV.Infrastructure/Data/Repositories/JellyfinTelevisionRepository.cs:348-361 | no external-collection tag is removed; every incoming tag name is present; every name present is incoming or an external collection's; a plain existing tag stays exactly when its name is incoming |
| MediaServerSync.ActorSync | ErsatzTV.Infrastructure/Data/Repositories/JellyfinTelevisionRepository.cs:378-393 | the actor names end exactly as the incoming ones; an actor whose name is gone is removed, and so is one without artwork when an incoming actor with its name brings artwork |
| MediaServerSync.IndexOfKind | ErsatzTV.Infrastructure/Data/Repositories/JellyfinTelevisionRepository.cs:414-418 | the index found is the first artwork of the kind, and none means no artwork has it |
| MediaServerSync.Upserted | ErsatzTV.Infrastructure/Data/Repositories/JellyfinTelevisionRepository.cs:413-428 | with incoming artwork of the kind, the first existing one of that kind takes its path and dates, or one is appended; without it the list is unchanged; other kinds stay where they are |
| MediaServerSync.Pruned | ErsatzTV.Infrastructure/Data/Repositories/JellyfinTelevisionRepository.cs:446-452 | the artwork left is exactly the artwork whose path the server lists |
| MediaServerSync.UpsertedThenPruned | ErsatzTV.Infrastructure/Data/Repositories/JellyfinTelevisionRepository.cs:413-452 | after the upserts and the pruning, every artwork left has a path the server lists and the server's first artwork of each upserted kind is present |
| MediaServerSync.UpsertArtwork | ErsatzTV.Infrastructure/Data/Repositories/JellyfinTelevisionRepository.cs:413-428 | one upsert step leaves exactly the list Upserted describes |
| MediaServerSync.RefreshArtwork | ErsatzTV.Infrastructure/Data/Repositories/JellyfinTelevisionRepository.cs:413-452 | the upserts in order, then the pruning loop when it runs, leave exactly the upserted (and pruned) list |
| MediaServerSync.ServerItem.constructor | ErsatzTV.Infrastructure/Data/Repositories/JellyfinTelevisionRepository.cs:656-683 | a new row carries the incoming item's id, etag, columns, lists, artwork, numbers and version under the given library path |
| JellyfinTelevisionRepository.UpdatedFields | ErsatzTV.Infrastructure/Data/Repositories/JellyfinTelevisionRepository.cs:320-331 | title, sort title, year, date added and release date come from the server and the update time is stamped; the plot is taken except for seasons; only shows take the metadata kind, content rating and tagline; the other columns stay |
| JellyfinTelevisionRepository.UpsertKinds | ErsatzTV.Infrastructure/Data/Repositories/JellyfinTelevisionRepository.cs:413-440 | the artwork kinds an update upserts are distinct |
| JellyfinTelevisionRepository.SyncShowLists | ErsatzTV.Infrastructure/Data/Repositories/JellyfinTelevisionRepository.cs:333-408 | the show update's list syncs leave UpdatedLists for a show |
| JellyfinTelevisionRepository.SyncEpisodeLists | ErsatzTV.Infrastructure/Data/Repositories/JellyfinTelevisionRepository.cs:553-654 | the episode update's list syncs leave UpdatedLists for an episode |
| JellyfinTelevisionRepository.UpdateMetadata | ErsatzTV.Infrastructure/Data/Repositories/JellyfinTelevisionRepository.cs:314-456 | the tracked row's columns, lists and artwork become UpdatedFields, UpdatedLists and UpdatedArtwork of the old row and the server's |
| JellyfinTelevisionRepository.UpdateShow | ErsatzTV.Infrastructure/Data/Repositories/JellyfinTelevisionRepository.cs:314-456 | the show's columns, lists and artwork are updated from the server; its etag and library path stay |
| JellyfinTelevisionRepository.UpdateSeason | ErsatzTV.Infrastructure/Data/Repositories/JellyfinTelevisionRepository.cs:458-551 | the season's columns, lists and artwork are updated and it takes the server's season number; its etag and library path stay |
| JellyfinTelevisionRepository.UpdateEpisode | ErsatzTV.Infrastructure/Data/Repositories/JellyfinTelevisionRepository.cs:553-654 | the episode's columns, lists and artwork are updated and it takes the server's episode number and head version name, date and file path; its etag and library path stay |
| JellyfinTelevisionRepository.GetOrAdd | ErsatzTV.Infrastructure/Data/Repositories/JellyfinTelevisionRepository.cs:62-176 | a row found by item id comes back as not added, and is updated and reported updated exactly when its etag differs; a missing row is added under the library's first path with an empty etag saved, and the add fails without a path or a save |
| JellyfinTelevisionRepository.FlagFileNotFound | ErsatzTV.Infrastructure/Data/Repositories/JellyfinTelevisionRepository.cs:216-289 | an empty id list returns nothing and writes nothing; otherwise the ids the query found come back |
| JellyfinTelevisionRepository.FlagFileNotFoundStates | ErsatzTV.Infrastructure/Data/Repositories/JellyfinTelevisionRepository.cs:216-289 | an empty request changes no state; otherwise exactly the found rows become file-not-found |
| JellyfinTelevisionRepository.FlagNormal | ErsatzTV.Infrastructure/Data/Repositories/JellyfinTelevisionRepository.cs:201-214 | the episode's state becomes normal and the call reports whether the update touched a row |
| JellyfinTelevisionRepository.FlagUnavailable | ErsatzTV.Infrastructure/Data/Repositories/JellyfinTelevisionRepository.cs:291-312 | the episode's state becomes unavailable and its id comes back exactly when it was found in the library and the update touched a row |
| JellyfinTelevisionRepository.UpdatedListsNames | ErsatzTV.Infrastructure/Data/Repositories/JellyfinTelevisionRepository.cs:333-408 | each list an update syncs ends with exactly the server's names (tags keep external-collection tags as well); the lists it does not sync are untouched |
| JellyfinTelevisionRepository.UpdatedArtworkFromServer | ErsatzTV.Infrastructure/Data/Repositories/JellyfinTelevisionRepository.cs:410-452 | after an update every artwork has a path the server lists and the server's first artwork of each upserted kind is present |
| JellyfinTelevisionRepository.UpdatedFieldsIdempotent | ErsatzTV.Infrastructure/Data/Repositories/JellyfinTelevisionRepository.cs:320-331 | a second update with the same server data and clock changes no metadata column |
| JellyfinApi.GuidsFromProviderIds | ErsatzTV.Infrastructure/Jellyfin/JellyfinApiClient.cs:821-844 | no provider ids give no guids; at most three guids; the imdb:// guid is present exactly when the imdb id is non-blank |
| JellyfinApi.ProviderGuids | ErsatzTV.Infrastructure/Jellyfin/JellyfinApiClient.cs:825-841 | the imdb://, tmdb:// and tvdb:// guids come in that order, each exactly when its id is non-blank, and they are distinct |
| JellyfinApi.TruncDiv | ErsatzTV.Infrastructure/Jellyfin/JellyfinApiClient.cs:281 | C# integer division: Euclidean division on a non-negative dividend, negated on a negative one |
| JellyfinApi.PageCount | ErsatzTV.Infrastructure/Jellyfin/JellyfinApiClient.cs:281 | an empty library still fetches one page; otherwise the pages are the fewest of ten items that cover every item |
| JellyfinApi.GetPagedLibraryItems | ErsatzTV.Infrastructure/Jellyfin/JellyfinApiClient.cs:261-295 | without the cached admin user id nothing is fetched; otherwise every page in turn, each item mapped and the unmapped ones dropped |
| JellyfinApi.PagesCoverAllItems | ErsatzTV.Infrastructure/Jellyfin/JellyfinApiClient.cs:279-293 | when the server pages a list faithfully, the paged fetch yields every item exactly once, in order |
| JellyfinApi.PagesSoFar | ErsatzTV.Infrastructure/Jellyfin/JellyfinApiClient.cs:283-293 | after some pages the fetch has yielded the mapped items of exactly that many pages of ten |
| JellyfinApi.ProjectLibrary | ErsatzTV.Infrastructure/Jellyfin/JellyfinApiClient.cs:328-362 | "tvshows" and "movies" (in any case) are projected as Shows and Movies libraries with the single path jellyfin://{itemId} and only path infos that have a network path; "boxsets" is not projected but its item id is cached |
| JellyfinApi.GetExtension | ErsatzTV.Infrastructure/Jellyfin/JellyfinApiClient.cs:379 | the extension is a suffix of the path, and a non-empty one starts with '.' and has something after it |
| JellyfinApi.RewritePath | ErsatzTV.Infrastructure/Jellyfin/JellyfinApiClient.cs:385-397 | the rewrite loop over the path infos leaves the path Rewritten describes |
| JellyfinApi.RewriteSkipsBlank | ErsatzTV.Infrastructure/Jellyfin/JellyfinApiClient.cs:386-387 | path infos without a network path play no part in the rewrite |
| JellyfinApi.RewriteOutsideNetworkPaths | ErsatzTV.Infrastructure/Jellyfin/JellyfinApiClient.cs:385-397 | a path under none of the network paths is left as it is |
| JellyfinApi.ProjectToActor | ErsatzTV.Infrastructure/Jellyfin/JellyfinApiClient.cs:495-514 | only people of type actor are projected, with their name and role; they have a thumbnail exactly when the person has an id and a primary image tag |
| JellyfinApi.ProjectToDirector | ErsatzTV.Infrastructure/Jellyfin/JellyfinApiClient.cs:516-524 | only people of type director are projected, by name |
| JellyfinApi.ProjectToWriter | ErsatzTV.Infrastructure/Jellyfin/JellyfinApiClient.cs:526-534 | only people of type writer are projected, by name |
| JellyfinApi.CollectMember | ErsatzTV.Infrastructure/Jellyfin/JellyfinApiClient.cs:452-454 | a value is collected exactly when some person projects to it |
| JellyfinApi.DirectorsAreTyped | ErsatzTV.Infrastructure/Jellyfin/JellyfinApiClient.cs:453 | the directors are exactly the people of type director, by name |
| JellyfinApi.WritersAreTyped | ErsatzTV.Infrastructure/Jellyfin/JellyfinApiClient.cs:454 | the writers are exactly the people of type writer, by name |
| JellyfinApi.PeopleSplitByType | ErsatzTV.Infrastructure/Jellyfin/JellyfinApiClient.cs:452-454 | there is one actor, director or writer per person of that type, and no person is counted twice |
| JellyfinApi.OrderedActors | ErsatzTV.Infrastructure/Jellyfin/JellyfinApiClient.cs:459-463 | the actors keep their list order, and each one's Order is its position |
| JellyfinApi.ProjectToMovie | ErsatzTV.Infrastructure/Jellyfin/JellyfinApiClient.cs:370-493 | only file-system items that are not .strm files are projected; the path is rewritten to a local path; the metadata carries actors ordered by position, directors, writers and provider guids |
| JellyfinApi.ProjectToEpisode | ErsatzTV.Infrastructure/Jellyfin/JellyfinApiClient.cs:710-819 | only file-system items that are not .strm files are projected; the path is rewritten; there are no actors; the episode number is set only when the item has an index number |
| JellyfinApi.StrmRejected | ErsatzTV.Infrastructure/Jellyfin/JellyfinApiClient.cs:379-383 | a .strm file is never projected, whatever the case of its extension |
| PlexServerApi.RemoveAll | ErsatzTV.Infrastructure/Plex/PlexServerApiClient.cs:816 | removing every occurrence of a non-empty pattern never lengthens the string and introduces no character |
| PlexServerApi.NormalizeGuid | ErsatzTV.Infrastructure/Plex/PlexServerApiClient.cs:804-845 | Plex guids are kept as they are; legacy imdb, thetvdb and themoviedb agent guids become imdb://, tvdb:// and tmdb:// guids without their query; every other guid, local:// included, is dropped |
| PlexServerApi.NormalizeLegacy | ErsatzTV.Infrastructure/Plex/PlexServerApiClient.cs:814-833 | a legacy agent guid is normalised by its own agent's branch into that agent's scheme followed by its id |
| PlexServerApi.LegacyGuidRoundTrip | ErsatzTV.Infrastructure/Plex/PlexServerApiClient.cs:814-833 | the id of a legacy agent guid survives normalisation unchanged, with or without a query after '?' |
| PlexServerApi.ItemGuids | ErsatzTV.Infrastructure/Plex/PlexServerApiClient.cs:379-396 | an XML item keeps its guids in order and gains the normalised Plex guid exactly when it is not already among them; a JSON item has no guids |
| PlexServerApi.ItemGuidsDistinct | ErsatzTV.Infrastructure/Plex/PlexServerApiClient.cs:379-396 | an item whose XML guids are distinct ends with distinct guids |
| PlexServerApi.PlexArtwork | ErsatzTV.Infrastructure/Plex/PlexServerApiClient.cs:409-437 | a poster exactly when the thumb is non-blank and fan art exactly when the art is, each at plex/{source}{image} and dated with the item's added and updated times |
| PlexServerApi.ArtworkPathInjective | ErsatzTV.Infrastructure/Plex/PlexServerApiClient.cs:411 | since Plex image paths start with '/', an artwork path determines its media source and its image |
| PlexServerApi.ProjectLibrary | ErsatzTV.Infrastructure/Plex/PlexServerApiClient.cs:290-311 | "show" and "movie" libraries are projected, with their key and title, not synchronised, as Shows or Movies, with the single path plex://{uuid}; any other type is not |
| PlexServerApi.IndexOfPath | ErsatzTV.Infrastructure/Plex/PlexServerApiClient.cs:259 | the lookup finds the first episode with the path, and none exactly when no episode has it |
| PlexServerApi.Merge | ErsatzTV.Infrastructure/Plex/PlexServerApiClient.cs:253-267 | merging by path leaves distinct paths, the same set of paths, no more episodes, and every episode with metadata |
| PlexServerApi.MergeInto | ErsatzTV.Infrastructure/Plex/PlexServerApiClient.cs:258-266 | one loop step appends the episode's metadata to the episode first seen with its path, or adds it, and keeps the dictionary in step |
| PlexServerApi.ProcessMultiEpisodeFiles | ErsatzTV.Infrastructure/Plex/PlexServerApiClient.cs:251-270 | the episodes, ordered by their first episode number, are merged by file path |
| PlexServerApi.MergeSorted | ErsatzTV.Infrastructure/Plex/PlexServerApiClient.cs:256-269 | episodes taken in episode-number order stay in that order once merged |
| PlexServerApi.MergeKeepsEveryRow | ErsatzTV.Infrastructure/Plex/PlexServerApiClient.cs:253-267 | with one metadata row per episode, the merge loses and duplicates no row |
| PlexServerApi.ProcessedEpisodes | ErsatzTV.Infrastructure/Plex/PlexServerApiClient.cs:251-270 | the result has one episode per distinct file path, the input's paths, episode-number order and every metadata row |
| PlexServerApi.FirstOfType | ErsatzTV.Infrastructure/Plex/PlexServerApiClient.cs:446 | the stream found is the first of the type, and none means no stream has it |
| PlexServerApi.AddStreams | ErsatzTV.Infrastructure/Plex/PlexServerApiClient.cs:475-507 | the streams of one type are mapped and appended in order |
| PlexServerApi.ProjectToMediaVersion | ErsatzTV.Infrastructure/Plex/PlexServerApiClient.cs:442-511 | no version exactly when there is no video stream; otherwise the version built from the first video stream, all streams and the update time |
| PlexServerApi.VersionStreamsByKind | ErsatzTV.Infrastructure/Plex/PlexServerApiClient.cs:463-507 | the version's only video stream is the first video response and comes first; its audio streams are exactly the type 2 responses and its subtitles exactly the type 3 responses, without a profile |
| MediaServerTelevisionScanner.ShouldScanItem | ErsatzTV.Scanner/Core/Metadata/MediaServerTelevisionLibraryScanner.cs:519-604 | a deep scan always scans; a changed etag scans; an unchanged item scans only when it is Unavailable or FileNotFound and its file exists or the server streams; a flag is raised only for a skipped item whose file is missing, and never for the state it already has |
| MediaServerTelevisionScanner.UnchangedMissingFileFlagged | ErsatzTV.Scanner/Core/Metadata/MediaServerTelevisionLibraryScanner.cs:549-584 | an unchanged item in another state whose file is missing is skipped, and flagged for the state a scan would give it unless it already has that state |
| MediaServerTelevisionScanner.NewItemScanned | ErsatzTV.Scanner/Core/Metadata/MediaServerTelevisionLibraryScanner.cs:536-541 | an item the library does not have yet is scanned unless the server gives it an empty etag |
| MediaServerTelevisionScanner.StateAfterScan | ErsatzTV.Scanner/Core/Metadata/MediaServerTelevisionLibraryScanner.cs:472-495 | after a scan an episode is Normal exactly when its file exists, RemoteOnly exactly when it does not and the server streams, and Unavailable otherwise |
| MediaServerTelevisionScanner.Progress | ErsatzTV.Scanner/Core/Metadata/MediaServerTelevisionLibraryScanner.cs:105 | the progress lies in [0, 1] and is the share of shows seen; a total of zero has no progress |
| MediaServerTelevisionScanner.ShowsToFlag | ErsatzTV.Scanner/Core/Metadata/MediaServerTelevisionLibraryScanner.cs:164-172 | with cleanup requested, the ids flagged are exactly the remembered ids the server no longer lists, without repeats; without it, none |
| MediaServerTelevisionScanner.StatisticsUpdated | ErsatzTV.Scanner/Core/Metadata/MediaServerTelevisionLibraryScanner.cs:731-790 | statistics are written only on a deep scan, a new item, a changed etag or a version without streams, from the given statistics or else those fetched from the server; the item comes out updated exactly when it already was or such a triggered write reports a change |
| MediaServerTelevisionScanner.ChaptersUpdated | ErsatzTV.Scanner/Core/Metadata/MediaServerTelevisionLibraryScanner.cs:821-845 | without a local path the item is returned unchanged; otherwise it is updated exactly when the local chapters provider reports a change |
| PlexTelevisionScanner.ShouldScanItem | ErsatzTV.Core/Plex/PlexTelevisionLibraryScanner.cs:609-662 | a deep scan always scans; an Unavailable episode is scanned exactly when its file now exists; an unchanged episode is not scanned and is flagged Unavailable exactly when its file is missing; any other episode is scanned |
| PlexTelevisionScanner.NewEpisodeScanned | ErsatzTV.Core/Plex/PlexTelevisionLibraryScanner.cs:618-624 | an episode the library does not have yet is scanned unless Plex gives it an empty etag |
| PlexTelevisionScanner.FileNotFoundKeys | ErsatzTV.Core/Plex/PlexTelevisionLibraryScanner.cs:183 | the keys flagged are exactly the remembered keys the server did not list, each once |
| PlexTelevisionScanner.FullListingFlagsNothing | ErsatzTV.Core/Plex/PlexTelevisionLibraryScanner.cs:600 | a scan that lists every remembered key flags nothing |
| PlexTelevisionScanner.ShouldRefreshShow | ErsatzTV.Core/Plex/PlexTelevisionLibraryScanner.cs:203 | a deep scan always refreshes the show's metadata, and a known show whose etag is unchanged is refreshed only by a deep scan |
| PlexTelevisionScanner.StatisticsPlanOf | ErsatzTV.Core/Plex/PlexTelevisionLibraryScanner.cs:712-745 | statistics are refreshed exactly for a new episode, a changed etag, a deep scan or a version without streams; the local file is probed exactly for a changed etag or a version without streams when the file exists |
| PlexTelevisionScanner.StatisticsFollowShowRule | ErsatzTV.Core/Plex/PlexTelevisionLibraryScanner.cs:203 | episode statistics are refreshed under the rule that refreshes show metadata (a new show, a changed etag or a deep scan), and also for a version without streams |
| PlexTelevisionScanner.DeepScanDoesNotProbe | ErsatzTV.Core/Plex/PlexTelevisionLibraryScanner.cs:712-745 | a deep scan of an unchanged episode that has streams refreshes without probing the file |
| PlexTelevisionScanner.StateAfterScan | ErsatzTV.Core/Plex/PlexTelevisionLibraryScanner.cs:580-587 | after a scan an episode is Normal exactly when its local file exists and Unavailable exactly when it does not |
| PlexTelevisionScanner.StateAgreesWithoutRemoteStreaming | ErsatzTV.Core/Plex/PlexTelevisionLibraryScanner.cs:580-587 | Plex flags episodes as the media server scanner does for a server without remote streaming |
| PlexTelevisionScanner.OwnedBy | ErsatzTV.Core/Plex/PlexTelevisionLibraryScanner.cs:685-686 | every added row is attached to the episode it is added to, and nothing else about it changes |
| PlexTelevisionScanner.PlexEpisodeItem.UpdateMetadata | ErsatzTV.Core/Plex/PlexTelevisionLibraryScanner.cs:664-695 | the rows whose episode number is no longer incoming are removed and incoming rows with a new number are added to this episode; kept rows are not updated |
| PlexTelevisionScanner.UpdatedEpisodeNumbers | ErsatzTV.Core/Plex/PlexTelevisionLibraryScanner.cs:664-695 | after UpdateMetadata the episode's rows cover exactly the incoming episode numbers |
| FFmpegTypes.StandardSteps | ErsatzTV.FFmpeg/Pipeline/PipelineBuilderBase.cs:152-162 | every transcode starts with eight options, -nostdin first and the given output option seventh |
| FFmpegTypes.SoftwareDecoderFor | ErsatzTV.FFmpeg/Pipeline/PipelineBuilderBase.cs:473-485 | ffmpeg's software decoder for the codec is chosen exactly when ffmpeg has one |
| FFmpegTypes.ModeFor | ErsatzTV.FFmpeg/Pipeline/VaapiPipelineBuilder.cs:121-129 | a side keeps the builder's mode exactly when it can run on the hardware, and is unaccelerated otherwise |
| FFmpegTypes.EncodeCapability | ErsatzTV.FFmpeg/Pipeline/VaapiPipelineBuilder.cs:72-81 | the encode runs on the hardware exactly when the output is not Nut (rawvideo to the parent segmenter) and the hardware can encode the target |
| FFmpegTypes.Nv12Map | ErsatzTV.FFmpeg/Pipeline/NvidiaPipelineBuilder.cs:806-809 | re-wrapping an optional format as nv12 keeps its presence and its name |
| FFmpegTypes.Nv12Of | ErsatzTV.FFmpeg/Pipeline/VaapiPipelineBuilder.cs:186-188 | the nv12 wrapper keeps the display name and is 8-bit |
| PipelineBuilderBase.SetAccelState | ErsatzTV.FFmpeg/Pipeline/NvidiaPipelineBuilder.cs:77-80 | the builder's acceleration state fails exactly for AV1 outside the fragmented-MP4 segmenter on NVIDIA or VAAPI, with the AV1 error; QSV never fails |
| PipelineBuilderBase.DecoderFor | ErsatzTV.FFmpeg/Pipeline/PipelineBuilderBase.cs:437-440 | HLS Direct (a copied video stream) gets no explicit decoder and no decoder filter |
| PipelineBuilderBase.OutputOptionFor | ErsatzTV.FFmpeg/Pipeline/PipelineBuilderBase.cs:146-150 | MP4 output takes the MP4 output options, every other format fast start |
| PipelineBuilderBase.MakeContext | ErsatzTV.FFmpeg/Pipeline/PipelineBuilderBase.cs:171-178 | an image subtitle burned in is an overlay, a text subtitle burned in is text, never both; 10-bit output exactly for a 10-bit desired format; deinterlace and watermark carried over; the Intel flag starts false |
| PipelineBuilderBase.ThreadSteps | ErsatzTV.FFmpeg/Pipeline/PipelineBuilderBase.cs:657-683 | one thread with any hardware acceleration or with a positive seek into realtime output, otherwise the configured count, or no option when none is configured |
| PipelineBuilderBase.ThreadStepsMatchLegacy | ErsatzTV.FFmpeg/Pipeline/PipelineBuilderBase.cs:668-682 | without hardware acceleration the thread option is the one the older single-class builder chooses |
| PipelineBuilderBase.SceneThreshold | ErsatzTV.FFmpeg/Pipeline/PipelineBuilderBase.cs:685-702 | the scene-detect threshold is 1,000,000,000 exactly when the input or output is MPEG-2 or VideoToolbox decodes, and 0 otherwise |
| PipelineBuilderBase.SceneThresholdMatchesLegacy | ErsatzTV.FFmpeg/Pipeline/PipelineBuilderBase.cs:692-701 | apart from VideoToolbox the threshold is the one the older builder uses for the single stream |
| PipelineBuilderBase.SeekFilterSteps | ErsatzTV.FFmpeg/Pipeline/PipelineBuilderBase.cs:718-729 | the filter seek is added exactly when there is a positive start and a text subtitle is burned in |
| PipelineBuilderBase.PreludeTail | ErsatzTV.FFmpeg/Pipeline/PipelineBuilderBase.cs:181-184 | the steps after the standard options start with the scene-detect option, hold a report exactly when one is asked for, a filter seek exactly as SetStreamSeek adds one, a time limit exactly when a finish is set, and no thread option |
| PipelineBuilderBase.PreludeShape | ErsatzTV.FFmpeg/Pipeline/PipelineBuilderBase.cs:146-184 | every pipeline starts with the thread option when there is one (one thread under hardware acceleration) and otherwise with -nostdin; the seventh standard option is the MP4 options exactly for MP4 output |
| PipelineBuilderBase.SubtitleEncoderSteps | ErsatzTV.FFmpeg/Pipeline/PipelineBuilderBase.cs:420-433 | a copied subtitle gets exactly the copy encoder, a converted image subtitle exactly the DVD encoder, anything else nothing |
| PipelineBuilderBase.VideoOutputSteps | ErsatzTV.FFmpeg/Pipeline/PipelineBuilderBase.cs:547-597 | a copied video stream gets none of the frame rate, timescale, bitrate and buffer outputs; otherwise the frame rate and bitrate outputs appear exactly when they are set |
| PipelineBuilderBase.OutputTsOffsetSteps | ErsatzTV.FFmpeg/Pipeline/PipelineBuilderBase.cs:528-545 | the timestamp offset is added exactly when transcoding with a positive offset and a track timescale, carrying both |
| PipelineBuilderBase.ReadrateBurst | ErsatzTV.FFmpeg/Pipeline/PipelineBuilderBase.cs:621-640 | the initial burst is 180 when not realtime; in realtime 5 exactly for loudnorm, 15 exactly for dynaudnorm and 0 exactly without a normaliser |
| PipelineBuilderBase.VideoLoopedOnce | ErsatzTV.FFmpeg/Pipeline/PipelineBuilderBase.cs:599-655 | the video input gets exactly one infinite-loop option when it is a still image or an infinite loop is wanted, none otherwise: the still-image loop and SetInfiniteLoop never both fire |
| PipelineBuilderBase.AudioOptionsAdded | ErsatzTV.FFmpeg/Pipeline/PipelineBuilderBase.cs:610-643 | the audio input first gets the read rate, and an infinite loop exactly when one is wanted |
| PipelineBuilderBase.SameReadrate | ErsatzTV.FFmpeg/Pipeline/PipelineBuilderBase.cs:642-643 | the audio and the video input are given the same read rate |
| PipelineBuilderBase.AudioSteps | ErsatzTV.FFmpeg/Pipeline/PipelineBuilderBase.cs:196-206 | no audio input gives exactly the audio copy encoder; an audio input starts with its encoder and never copies |
| PipelineBuilderBase.AudioFilterSteps | ErsatzTV.FFmpeg/Pipeline/PipelineBuilderBase.cs:346-362 | loudness normalisation is added exactly when a normaliser is chosen, the pad exactly when a duration is wanted |
| PipelineBuilderBase.MetadataSteps | ErsatzTV.FFmpeg/Pipeline/PipelineBuilderBase.cs:285-328 | only metadata options are added; -map_metadata -1 exactly when asked, the subtitle title exactly when one is set |
| PipelineBuilderBase.ServiceSteps | ErsatzTV.FFmpeg/Pipeline/PipelineBuilderBase.cs:306-320 | only the service provider and service name options are added |
| PipelineBuilderBase.LanguageSteps | ErsatzTV.FFmpeg/Pipeline/PipelineBuilderBase.cs:285-299 | only the audio and subtitle language options are added |
| PipelineBuilderBase.OutputFormatSteps | ErsatzTV.FFmpeg/Pipeline/PipelineBuilderBase.cs:247-283 | MKV, MPEG-TS and MP4 each give their format and the pipe protocol; nothing is added exactly for fragmented-MP4 HLS, Nut, or HLS without a playlist path or segment template |
| PipelineBuilderBase.ClosingSteps | ErsatzTV.FFmpeg/Pipeline/PipelineBuilderBase.cs:196-223 | after the video pipeline the audio encoder (or audio copy) comes first and the complex filter last |
| PipelineBuilderBase.BuildShape | ErsatzTV.FFmpeg/Pipeline/PipelineBuilderBase.cs:152-225 | Build's steps start with the prelude and end with the complex filter |
| PipelineBuilderBase.NoAudioCopiesAudio | ErsatzTV.FFmpeg/Pipeline/PipelineBuilderBase.cs:196-199 | with no audio input exactly one audio copy encoder is added, first after the video pipeline |
| PipelineBuilderBase.CopyAddsNoVideoOutputs | ErsatzTV.FFmpeg/Pipeline/PipelineBuilderBase.cs:437-440 | HLS Direct adds no decoder and none of the frame rate, timescale, bitrate, buffer or timestamp-offset outputs |
| PipelineBuilderBase.Av1OnlyWithFragmentedHls | ErsatzTV.FFmpeg/Pipeline/PipelineBuilderBase.cs:435 | an AV1 target is accepted exactly by QSV or with fragmented-MP4 HLS output |
| PipelineBuilderBase.ConcatCopiesToMpegTs | ErsatzTV.FFmpeg/Pipeline/PipelineBuilderBase.cs:72-117 | concatenation copies every stream, writes MPEG-TS to the pipe, and holds a report exactly when one is asked for |
| PipelineBuilderBase.WrapSegmenterOneThread | ErsatzTV.FFmpeg/Pipeline/PipelineBuilderBase.cs:119-142 | the segmenter wrapper runs on exactly one thread and ends by piping MPEG-TS out |
| PipelineBuilderBase.SetCrop | ErsatzTV.FFmpeg/Pipeline/PipelineBuilderBase.cs:513-526 | a crop filter to the current cropped size is added exactly when there is one |
| PipelineBuilderBase.PipelineBuilderBase.constructor | ErsatzTV.FFmpeg/Pipeline/PipelineBuilderBase.cs:30-50 | the builder keeps its capabilities, mode, inputs, watermark and subtitle |
| PipelineBuilderBase.PipelineBuilderBase.Resize | ErsatzTV.FFmpeg/Pipeline/PipelineBuilderBase.cs:52-70 | the image is scaled to a file with the fixed quiet prefix, and the video input, if any, gets exactly the scale filter |
| PipelineBuilderBase.PipelineBuilderBase.Concat | ErsatzTV.FFmpeg/Pipeline/PipelineBuilderBase.cs:72-117 | the concat input gets the concat format, the default read rate and an unaccelerated infinite loop, in that order, and the pipeline is the copy-to-MPEG-TS one |
| PipelineBuilderBase.PipelineBuilderBase.WrapSegmenter | ErsatzTV.FFmpeg/Pipeline/PipelineBuilderBase.cs:119-142 | the concat input gets only the default read rate and the pipeline is the one-thread wrapper |
| PipelineBuilderBase.PipelineBuilderBase.SetThreadCount | ErsatzTV.FFmpeg/Pipeline/PipelineBuilderBase.cs:657-683 | the thread option, when there is one, is inserted in front of the steps already there |
| PipelineBuilderBase.PipelineBuilderBase.SetStreamSeek | ErsatzTV.FFmpeg/Pipeline/PipelineBuilderBase.cs:712-730 | both inputs, when present, get the seek option for a positive start and nothing else |
| PipelineBuilderBase.PipelineBuilderBase.SetRealtimeInput | ErsatzTV.FFmpeg/Pipeline/PipelineBuilderBase.cs:621-644 | both inputs get the read rate of the chosen burst and nothing else |
| PipelineBuilderBase.PipelineBuilderBase.SetInfiniteLoop | ErsatzTV.FFmpeg/Pipeline/PipelineBuilderBase.cs:599-619 | the audio input loops whenever an infinite loop is wanted, the video input only when it is not a still image |
| PipelineBuilderBase.PipelineBuilderBase.SetVideoInputs | ErsatzTV.FFmpeg/Pipeline/PipelineBuilderBase.cs:437-444 | the video input gets the decoder, the still-image loop, the read rate and the infinite loop, and the decoder's filters; the audio input the same read rate and loop |
| PipelineBuilderBase.PipelineBuilderBase.BuildVideoPipeline | ErsatzTV.FFmpeg/Pipeline/PipelineBuilderBase.cs:412-465 | the decoder is the builder's for the accepted state, the filters are the builder's video filters, the steps are subtitle encoders, acceleration, outputs, filters and timestamp offset, and the inputs get exactly the options and filters above |
| PipelineBuilderBase.PipelineBuilderBase.SetAudioFilters | ErsatzTV.FFmpeg/Pipeline/PipelineBuilderBase.cs:342-362 | the audio input, when present, gets exactly the loudness and pad filters |
| PipelineBuilderBase.PipelineBuilderBase.Build | ErsatzTV.FFmpeg/Pipeline/PipelineBuilderBase.cs:144-226 | Build fails exactly when the builder refuses the acceleration state, with its error (the inputs having been given only the seek); otherwise the pipeline is the prelude, the video pipeline and the closing steps, flagged Intel as the builder says for the state Build was given, and each input gets exactly its seek, read rate, loop, decoder and filter additions |
| PipelineBuilder.ParseFrameRate | ErsatzTV.FFmpeg/PipelineBuilder.cs:179-186 | a missing frame-rate text gives no frame rate, and a parsed one is never negative |
| PipelineBuilder.InitialState | ErsatzTV.FFmpeg/PipelineBuilder.cs:188-200 | a stream starts not realtime, not looping, not deinterlaced, in its own codec, pixel format and frame size, with no bitrate, buffer or timescale |
| PipelineBuilder.PositiveStart | ErsatzTV.FFmpeg/PipelineBuilder.cs:156 | only a start strictly after zero seeks |
| PipelineBuilder.ThreadPrefix | ErsatzTV.FFmpeg/PipelineBuilder.cs:126-140 | one thread for a positive seek into realtime output, otherwise the configured count, or nothing |
| PipelineBuilder.SceneThreshold | ErsatzTV.FFmpeg/PipelineBuilder.cs:144-149 | the threshold is 1,000,000,000 exactly when the target or some input stream is MPEG-2, and 0 otherwise |
| PipelineBuilder.SeekOption | ErsatzTV.FFmpeg/PipelineBuilder.cs:156-160 | the inputs get a seek option exactly for a positive start |
| PipelineBuilder.PreludeTail | ErsatzTV.FFmpeg/PipelineBuilder.cs:144-172 | the scene-detect option comes first and only once, no thread option follows it, and a filter seek is present exactly for a positive start with a text subtitle |
| PipelineBuilder.SelectAccel | ErsatzTV.FFmpeg/PipelineBuilder.cs:211-252 | only the two modes change; without an acceleration option both are dropped and nothing is added; otherwise each side the hardware cannot handle is dropped, and the option is added, once, exactly when either side can still use it |
| PipelineBuilder.OverlayFormat | ErsatzTV.FFmpeg/PipelineBuilder.cs:254-265 | only the pixel format of the desired state may change, and nothing changes without an overlay |
| PipelineBuilder.MetadataSteps | ErsatzTV.FFmpeg/PipelineBuilder.cs:745-763 | the metadata options hold no global option and no encoder, and -map_metadata -1 exactly when asked |
| PipelineBuilder.OutputFormatSteps | ErsatzTV.FFmpeg/PipelineBuilder.cs:765-788 | output steps are added exactly for MPEG-TS, or for HLS with both a playlist path and a segment template |
| PipelineBuilder.EncoderOnce | ErsatzTV.FFmpeg/PipelineBuilder.cs:726-743 | the video encoder is added only when no video encoder is among the steps yet, and then exactly when one is found for the mode and format |
| PipelineBuilder.SubtitleCopy | ErsatzTV.FFmpeg/PipelineBuilder.cs:291-294 | the subtitle copy step is neither a global option nor a video encoder |
| PipelineBuilder.OutputSteps | ErsatzTV.FFmpeg/PipelineBuilder.cs:745-800 | a stream closes with options that are neither global nor encoders, ending with the complex filter |
| PipelineBuilder.FinishSteps | ErsatzTV.FFmpeg/PipelineBuilder.cs:291-800 | the end of a stream's processing adds no global option |
| PipelineBuilder.TranscodeSteps | ErsatzTV.FFmpeg/PipelineBuilder.cs:211-272 | the transcode branch adds neither global options nor a video encoder |
| PipelineBuilder.CopyOrTranscode | ErsatzTV.FFmpeg/PipelineBuilder.cs:204-289 | a stream's copy-or-transcode step only appends to the steps, and what it appends is neither global nor an encoder |
| PipelineBuilder.IsDesiredVideoState | ErsatzTV.FFmpeg/PipelineBuilder.cs:806-824 | a copy target is always met; any other target is met exactly when the stream already has its codec, pixel format name, realtime mode, scaled size and padded size, and its bitrate, buffer size, track timescale and frame rate wherever the target specifies one (one "only if" clause per optional field, and the converse) |
| PipelineBuilder.CopiedStreamNeedsNothing | ErsatzTV.FFmpeg/PipelineBuilder.cs:806-824 | a transcode target that a fresh stream already satisfies asks for no realtime, bitrate, buffer, timescale or resize, and keeps the codec |
| PipelineBuilder.DesiredStateReflexive | ErsatzTV.FFmpeg/PipelineBuilder.cs:806-824 | every frame state is the desired state for itself |
| PipelineBuilder.StreamStepAppends | ErsatzTV.FFmpeg/PipelineBuilder.cs:174-801 | processing one stream only appends steps, and none of them is a global option |
| PipelineBuilder.StreamsAppend | ErsatzTV.FFmpeg/PipelineBuilder.cs:174-801 | processing all streams only appends steps, and none of them is a global option |
| PipelineBuilder.PreludeGlobals | ErsatzTV.FFmpeg/PipelineBuilder.cs:126-172 | in the prelude of a fresh builder the thread option, if any, is first and unique, and the scene-detect option sits right after the eight standard options |
| PipelineBuilder.GlobalOptionsOfBuild | ErsatzTV.FFmpeg/PipelineBuilder.cs:124-804 | in a freshly built pipeline the thread option, when there is one, is the first step and the only one; the scene-detect threshold is added exactly once; a filter seek is present exactly for a positive start with a text subtitle |
| PipelineBuilder.FinishStepsEncoderOnce | ErsatzTV.FFmpeg/PipelineBuilder.cs:726-743 | the end of a stream keeps at most one video encoder among the steps |
| PipelineBuilder.StreamStepEncoderOnce | ErsatzTV.FFmpeg/PipelineBuilder.cs:174-801 | one stream keeps at most one video encoder among the steps |
| PipelineBuilder.EncoderAddedOnce | ErsatzTV.FFmpeg/PipelineBuilder.cs:174-801 | however many streams there are, the video encoder is added at most once |
| PipelineBuilder.BuildEncodesOnce | ErsatzTV.FFmpeg/PipelineBuilder.cs:124-804 | a freshly built pipeline holds at most one video encoder |
| PipelineBuilder.PipelineBuilder.constructor | ErsatzTV.FFmpeg/PipelineBuilder.cs:32-64 | the builder starts from the eight standard options, fast start included, and keeps its inputs |
| PipelineBuilder.PipelineBuilder.Resize | ErsatzTV.FFmpeg/PipelineBuilder.cs:66-82 | whatever was built is replaced by the quiet prefix, the scale filter and the file name, and the video input gets exactly the scale filter |
| PipelineBuilder.PipelineBuilder.Concat | ErsatzTV.FFmpeg/PipelineBuilder.cs:84-122 | the concat input gets the concat format, realtime input and an unaccelerated loop; the thread option goes in front of the existing steps and the copy-to-MPEG-TS tail after them |
| PipelineBuilder.PipelineBuilder.ApplyAccel | ErsatzTV.FFmpeg/PipelineBuilder.cs:211-252 | the steps and the state are advanced exactly as the acceleration choice says |
| PipelineBuilder.PipelineBuilder.SetUpTranscode | ErsatzTV.FFmpeg/PipelineBuilder.cs:209-289 | the transcode branch changes the steps, the video input's options and filters and the states exactly as the value-level transcode does |
| PipelineBuilder.PipelineBuilder.FinishInPlace | ErsatzTV.FFmpeg/PipelineBuilder.cs:291-801 | the end of the loop body changes the steps and the video input exactly as the value-level finish does, and leaves the states alone |
| PipelineBuilder.PipelineBuilder.ProcessStream | ErsatzTV.FFmpeg/PipelineBuilder.cs:174-801 | the loop body for one stream has exactly the effect of the value-level stream step |
| PipelineBuilder.PipelineBuilder.Prepare | ErsatzTV.FFmpeg/PipelineBuilder.cs:126-172 | the steps before any stream are exactly the prelude: thread option in front, then scene detect, report, filter seek and time limit |
| PipelineBuilder.PipelineBuilder.SeekInputs | ErsatzTV.FFmpeg/PipelineBuilder.cs:156-160 | both inputs, when present, get the seek option for a positive start and nothing else |
| PipelineBuilder.PipelineBuilder.RunStreams | ErsatzTV.FFmpeg/PipelineBuilder.cs:174-801 | the loop over the streams has exactly the effect of folding the stream step over them |
| PipelineBuilder.PipelineBuilder.Build | ErsatzTV.FFmpeg/PipelineBuilder.cs:124-804 | the result is the builder's own step list: the prelude followed by every stream in turn; the video input's options are its earlier options, the seek option and what the streams add; the audio input's options begin with its earlier options and the seek option |
| NvidiaPipelineBuilder.DecodeCapability | ErsatzTV.FFmpeg/Pipeline/NvidiaPipelineBuilder.cs:82-86 | the decode stays on the hardware exactly when the hardware can decode and the stream is not MPEG-2 that must be deinterlaced |
| NvidiaPipelineBuilder.SetAccelState | ErsatzTV.FFmpeg/Pipeline/NvidiaPipelineBuilder.cs:54-112 | AV1 outside the fragmented-MP4 segmenter is refused; otherwise only the modes and the tonemap flag change, each side is NVENC exactly when it can be (never the encoder for Nut), HDR tonemapping happens exactly for a hardware decode with Vulkan, an HDR stream and no ETV_DISABLE_VULKAN, and a hardware decode (only) adds the CUDA option and disables auto scaling |
| NvidiaPipelineBuilder.AccelStateIgnoresRequestedModes | ErsatzTV.FFmpeg/Pipeline/NvidiaPipelineBuilder.cs:54-112 | the modes the caller passed in play no part in the outcome: any two requests differing only there get the same steps, modes and tonemap flag |
| NvidiaPipelineBuilder.SetDecoder | ErsatzTV.FFmpeg/Pipeline/NvidiaPipelineBuilder.cs:114-150 | HDR tonemapping uses the implicit Vulkan decoder, a hardware decode the implicit CUDA decoder with the software-fallback upload, anything else ffmpeg's software decoder with no filter |
| NvidiaPipelineBuilder.FallbackUploadOnlyWithCuda | ErsatzTV.FFmpeg/Pipeline/NvidiaPipelineBuilder.cs:135-144 | the fallback upload filter is added exactly when the CUDA decoder is chosen, and that happens only for a hardware decode |
| NvidiaPipelineBuilder.SetDeinterlace | ErsatzTV.FFmpeg/Pipeline/NvidiaPipelineBuilder.cs:827-849 | deinterlacing adds yadif on software frames and yadif_cuda on hardware frames, and nothing when not asked |
| NvidiaPipelineBuilder.SetScale | ErsatzTV.FFmpeg/Pipeline/NvidiaPipelineBuilder.cs:759-825 | nothing when the scaled size already matches; at most one step, never one with empty filter text; the software scaler exactly for software-decoded frames that need padding or meet no hardware filter or encoder; scale_cuda, with nv12 for overlays on 8-bit SDR output, otherwise |
| NvidiaPipelineBuilder.CudaScaleFormat | ErsatzTV.FFmpeg/Pipeline/NvidiaPipelineBuilder.cs:792-809 | scale_cuda is asked for no format or the nv12 form of the desired format; never for HDR or 10-bit output, and always nv12 for a watermark or subtitle overlay on 8-bit SDR output |
| NvidiaPipelineBuilder.HardwareDecodeScalesOnGpu | ErsatzTV.FFmpeg/Pipeline/NvidiaPipelineBuilder.cs:776-785 | a stream decoded on the GPU is never scaled in software |
| FFmpegTypes.SoftwarePad | ErsatzTV.FFmpeg/Pipeline/NvidiaPipelineBuilder.cs:743-757 | the NVIDIA builder's SetPad, which the QSV builder repeats word for word (QsvPipelineBuilder.cs:549-563): the software pad filter to the desired padded size is added exactly when there is no crop and the padded size differs |
| VaapiPipelineBuilder.DecodeCapability | ErsatzTV.FFmpeg/Pipeline/VaapiPipelineBuilder.cs:88-101 | the decode stays on the hardware exactly when the hardware can decode, there is not both a subtitle overlay and a watermark, and the stream is not an irregular width on AMD Polaris |
| VaapiPipelineBuilder.IntelUnlessRadeon | ErsatzTV.FFmpeg/Pipeline/VaapiPipelineBuilder.cs:55-58 | over every driver name: Intel is reported exactly when some side runs on VAAPI and the driver is not one whose name begins with "radeon" in any letter case |
| VaapiPipelineBuilder.PolarisWidthRule | ErsatzTV.FFmpeg/Pipeline/VaapiPipelineBuilder.cs:93-101 | on AMD Polaris a width that is not a multiple of 32 is always decoded in software; a multiple of 32 is decided as on any other card |
| PipelineBuilderBase.IntelFlagByBuilder | ErsatzTV.FFmpeg/Pipeline/PipelineBuilderBase.cs:194 | the flag the pipeline carries: QSV on either side for the QSV builder (QsvPipelineBuilder.cs:50-51), VAAPI on either side with a non-Radeon driver for the VAAPI builder, the inherited rule for NVIDIA |
| VaapiPipelineBuilder.DeviceSteps | ErsatzTV.FFmpeg/Pipeline/VaapiPipelineBuilder.cs:104-112 | a configured device gives its acceleration option carrying the decode capability, followed by the driver variable when a driver is configured; no device gives no step |
| VaapiPipelineBuilder.SetAccelState | ErsatzTV.FFmpeg/Pipeline/VaapiPipelineBuilder.cs:60-130 | AV1 outside the fragmented-MP4 segmenter is refused; otherwise only the two modes change, the decoder is VAAPI exactly after the downgrades, the encoder is VAAPI exactly when the output is not Nut and the hardware can encode, and auto scaling is disabled exactly for a VAAPI encode |
| VaapiPipelineBuilder.NoDeviceNoAccelOption | ErsatzTV.FFmpeg/Pipeline/VaapiPipelineBuilder.cs:104-118 | without a configured device the only step SetAccelState can add is the no-auto-scale option |
| VaapiPipelineBuilder.SetDecoder | ErsatzTV.FFmpeg/Pipeline/VaapiPipelineBuilder.cs:132-150 | the VAAPI decoder is chosen exactly for a VAAPI decode, ffmpeg's software decoder for the codec otherwise, and no filter is added |
| VaapiPipelineBuilder.OverlayDesiredState | ErsatzTV.FFmpeg/Pipeline/VaapiPipelineBuilder.cs:183-189 | with any overlay (subtitle, watermark, graphics engine) the desired format becomes nv12 under the desired (or default yuv420p / yuv420p10le) name; without one the desired state is unchanged |
| VaapiPipelineBuilder.SetDeinterlace | ErsatzTV.FFmpeg/Pipeline/VaapiPipelineBuilder.cs:699-720 | deinterlacing adds exactly one filter when asked for, deinterlace_vaapi after a VAAPI decode and yadif otherwise, and nothing when not asked |
| VaapiPipelineBuilder.SetScale | ErsatzTV.FFmpeg/Pipeline/VaapiPipelineBuilder.cs:643-697 | at most one scale step, the chosen one, kept exactly when its filter text is not empty |
| VaapiPipelineBuilder.ScaleFollowsDecoder | ErsatzTV.FFmpeg/Pipeline/VaapiPipelineBuilder.cs:651-684 | the software scaler is chosen exactly when the frames were not decoded by VAAPI, and scale_vaapi after a VAAPI decode is never given a pixel format |
| VaapiPipelineBuilder.ScaleStep | ErsatzTV.FFmpeg/Pipeline/VaapiPipelineBuilder.cs:651-684 | every choice scales to the desired size, in software or with scale_vaapi |
| VaapiPipelineBuilder.SetPad | ErsatzTV.FFmpeg/Pipeline/VaapiPipelineBuilder.cs:618-641 | a pad is added exactly when there is no crop and the padded size differs: the software pad for a software pad mode or HDR tonemapping, pad_vaapi otherwise |
| VaapiPipelineBuilder.Nv12Rule | ErsatzTV.FFmpeg/Pipeline/VaapiPipelineBuilder.cs:376-381 | a yuv420p target outside Nut is turned into nv12 under the same name; every other target is kept |
| VaapiPipelineBuilder.SetPixelFormat | ErsatzTV.FFmpeg/Pipeline/VaapiPipelineBuilder.cs:314-409 | without a desired pixel format nothing is added (what a target adds is stated by the three lemmas below) |
| VaapiPipelineBuilder.ResolveFormat | ErsatzTV.FFmpeg/Pipeline/VaapiPipelineBuilder.cs:326-332 | an nv12 target is replaced by the available format of its name when there is one; any other target is kept |
| VaapiPipelineBuilder.PixelFormatNv12AndUpload | ErsatzTV.FFmpeg/Pipeline/VaapiPipelineBuilder.cs:369-405 | for a yuv420p target outside Nut every converting step carries nv12, at most one conversion plus one upload is added, and the upload sets the format exactly when no format filter precedes it |
| VaapiPipelineBuilder.PixelFormatDifferingConverts | ErsatzTV.FFmpeg/Pipeline/VaapiPipelineBuilder.cs:368-405 | a target whose ffmpeg name differs from the current format's, or with no current format, adds exactly one conversion carrying the target after the nv12 rule: vaapi's format filter for hardware frames, a format filter when VAAPI encodes other frames (then an upload that does not set the format, for software frames), a pixel-format output option otherwise; Nut output and targets other than yuv420p are carried unchanged |
| VaapiPipelineBuilder.PixelFormatMatchingNoConversion | ErsatzTV.FFmpeg/Pipeline/VaapiPipelineBuilder.cs:369-405 | a target whose ffmpeg name matches the current format adds no conversion; only a VAAPI encode of software frames adds the format-setting upload |
| QsvPipelineBuilder.DecodeCapability | ErsatzTV.FFmpeg/Pipeline/QsvPipelineBuilder.cs:78-85 | decoding stays on the hardware exactly when the hardware can decode the stream and it is not 10-bit HEVC or H.264 |
| QsvPipelineBuilder.SetAccelState | ErsatzTV.FFmpeg/Pipeline/QsvPipelineBuilder.cs:54-97 | the QSV option with the configured device is always the one step added; the decoder is QSV after the 10-bit downgrade, the encoder is QSV exactly when the output is not Nut and the hardware can encode; a side that is not QSV is none; nothing else in the state changes |
| QsvPipelineBuilder.TenBitHevcDecodesInSoftware | ErsatzTV.FFmpeg/Pipeline/QsvPipelineBuilder.cs:78-85 | a 10-bit HEVC or H.264 stream is never decoded on QSV, whatever the hardware answers |
| QsvPipelineBuilder.SetDecoder | ErsatzTV.FFmpeg/Pipeline/QsvPipelineBuilder.cs:99-122 | a QSV decode of HEVC, H.264, MPEG-2, VC-1, VP9 or AV1 gets the QSV decoder of that codec; anything else gets ffmpeg's software decoder when it has one; no filter is added |
| QsvPipelineBuilder.DecoderMatchesCodec | ErsatzTV.FFmpeg/Pipeline/QsvPipelineBuilder.cs:105-115 | the chosen decoder, if any, always decodes the stream's own codec |
| QsvPipelineBuilder.OverlayDesiredState | ErsatzTV.FFmpeg/Pipeline/QsvPipelineBuilder.cs:159-167 | with a subtitle overlay or a watermark the desired pixel format is set: the desired (or default yuv420p10le) format for 10-bit output, nv12 keeping the desired (or yuv420p) name otherwise; without overlays the desired state is unchanged |
| QsvPipelineBuilder.SetDeinterlace | ErsatzTV.FFmpeg/Pipeline/QsvPipelineBuilder.cs:625-639 | deinterlacing always uses the vpp_qsv deinterlacer, and only when the context asks for it |
| QsvPipelineBuilder.SetScale | ErsatzTV.FFmpeg/Pipeline/QsvPipelineBuilder.cs:565-623 | at most one scale step, the chosen one, kept exactly when its filter text is not empty |
| QsvPipelineBuilder.ScaleChoice | ErsatzTV.FFmpeg/Pipeline/QsvPipelineBuilder.cs:575-596 | the software scaler is chosen exactly for a size change under the software rule (nothing accelerated and no watermark, overlay or deinterlace, or a software decode of 10-bit frames on Windows); a QSV decode always scales with scale_qsv, which is never given a pixel format |
| QsvPipelineBuilder.ScaleStep | ErsatzTV.FFmpeg/Pipeline/QsvPipelineBuilder.cs:575-596 | every choice scales to the desired size, in software or with scale_qsv |
| QsvPipelineBuilder.UseSoftwareScale | ErsatzTV.FFmpeg/Pipeline/QsvPipelineBuilder.cs:580-588 | software scaling is chosen only after a software decode, and always for a 10-bit software decode on Windows |
| QsvPipelineBuilder.RemoveFirstPixelFormatOutput | ErsatzTV.FFmpeg/Pipeline/QsvPipelineBuilder.cs:396-400 | removing the first pixel-format option shortens the steps by one when there is one and leaves them unchanged otherwise |
| QsvPipelineBuilder.RemoveFirstCount | ErsatzTV.FFmpeg/Pipeline/QsvPipelineBuilder.cs:396-400 | the removal takes away exactly one pixel-format option, or none when there is none |
| QsvPipelineBuilder.PixelFormatSteps | ErsatzTV.FFmpeg/Pipeline/QsvPipelineBuilder.cs:373-404 | outside Nut, a pixel-format option for the target is appended exactly when the current format's ffmpeg name differs from the target's |
| QsvPipelineBuilder.NutPixelFormatExactlyOnce | ErsatzTV.FFmpeg/Pipeline/QsvPipelineBuilder.cs:393-404 | given steps that hold no pixel-format option yet (`PixelFormatOutputs(steps) == 0`), for Nut output the steps end with the target pixel-format option and hold exactly one pixel-format option |

## Left out

- FindByPath / GetOrAdd: when two stored movies share a head path the model returns the first of them, where the lookup in MovieRepository.cs:89 (a single-or-default query) throws; GetOrAdd takes that lookup's result as given.
- Database access (EF Core and Dapper queries, saves, the DB context) is left out. Repository lookups are parameters or oracle functions, and each update is modelled as its in-memory effect on the entity.
- HTTP clients (Refit calls to Plex and Jellyfin) are left out. Their responses are parameters.
- The file system, clocks and randomness are left out; file existence, "now" and the random index are parameters. The random fallback item is the one at `choice % |items|`.
- StreamingProcess.CheckForFallbackFiller: an empty fallback collection gives `Failed(EmptyFallbackCollection)`, where the source throws from the random pick.
- ValidatePlayoutItemPath is left out, because it reads the file system and the database.
- Collection enumerators (shuffled, random, chronological and the rest) are modelled as the finite sequence of items they will yield. The classic scheduler's schedule-items enumerator is modelled in ordered mode only.
- Creating schedulers and enumerators is an oracle of the classic build environment.
- Anchors are assumed to belong to the current program schedule, so ProgramScheduleId is not modelled.
- CalculateEndTimeWithFiller models the greedy peek it performs. No claim is made about whether it agrees with the duration filler's skip-once rule.
- SequentialPlayoutBuilder.RunInstructions: the instruction loop runs with a `fuel` bound. A run that exhausts it stops with `OutOfFuel`, where the source would go on looping.
- SequentialPlayoutBuilder.RunInstructions: the views a turn saw are snapshots. Those of earlier segments are pinned only by being the same throughout their segment, since a later schedule switch flattens the new list, which can rewrite sequence items it shares with earlier lists in place. The views of the first segment are those after Build's initial flattening.
- Sequential scheduling does not model the following:
  - sequence GUIDs and the cycle graph itself (cycle detection is the oracle `hasAnyCycle`);
  - instruction handlers (an oracle) and the ExecuteSequence callback;
  - history replay and the context reset (the restored context is a parameter);
  - YAML loading and validation;
  - guide-group and pre-, mid- and post-roll state in the context;
  - the number of days to build.
- Scheduling engine: these are not modelled:
  - playlist child histories;
  - history-details key derivation and ApplyHistory;
  - the collection, multi-collection, smart-collection, search and show lookups behind the Add* registrations. They are modelled as one registration whose items are a parameter.
- Channel guide: these are not modelled:
  - XML rendering and time zones;
  - re-shifting across several playouts on one channel;
  - the full metadata titles (a title is the head of the metadata's title, or a placeholder per kind).
- HLS session: ffmpeg processes, the file system and the graphics engine are left out. Only the state machine, the throttle decisions, the thresholds and the segment filter are modelled.
- Search escaping uses the escape set of Lucene.NET's query parser, written out in `SearchIndex`. Lucene storage and scoring are left out; hits are a parameter.
- Plex multi-episode merging: dictionary value order is taken as insertion order. Episodes the source mutates in place are modelled as values.
- Removing an episode row from its metadata list is modelled as replacing the list with the rows kept.
- Scan progress, a decimal in the source, is a `real`.
- ffmpeg pipeline: decoder, encoder and hardware-acceleration capability tables are oracles held in a hardware description. The ETV_DISABLE_VULKAN setting and the operating-system test are parameters.
- ffmpeg pipeline: filters and options are opaque step tags. The frame and format effects of each step's NextState are left out. Video filter construction is a hook.
- The software pipeline builder is not part of this model. NvidiaPipelineBuilder takes its Intel VAAPI/QSV test as false.
- The legacy PipelineBuilder's filter chain, audio, subtitle and watermark steps are not modelled, and neither is its software encoder choice. Its integer parsing is `ParseNat`.
- Logging is left out everywhere.
- GetJumpLetter: lowercasing covers the ASCII letters only (`Common.ToLower`), where ToLowerInvariant folds every Unicode letter; a sort title starting with "İ" files under '#' here.
- GetTitleAndYear: the duplicate key is lowercased for ASCII letters only, so "ÉLAN" and "élan" give different keys here and the same key in the source.
- TitleAndYearIgnoresTitleCase: proved for ASCII case differences only, for the same reason.
- IsWhiteSpace: the blank test knows the ASCII whitespace characters only, where IsNullOrWhiteSpace accepts every Unicode space (a no-break space, say). Every member built on it inherits this: `IsBlank`, `IsBlankOpt`, the Trim family, and through them the Jellyfin and Plex guid and provider-id filters, the title and genre splitting and the guide titles.
- StartsWithIgnoreCase and ContainsIgnoreCase compare ASCII letters case-insensitively and every other character exactly, where OrdinalIgnoreCase folds all of Unicode.
- AddCount: the custom title the source sets on each added item is not modelled.
- ProjectToMovie: the metadata columns, genres, tags, studios, release date and artwork, and the catch that returns None on an exception, are not modelled; the projection covers the id, etag, rewritten path, duration, date added, people and provider guids.
- ProjectToEpisode: the same columns and the same catch are not modelled.
- CollectExternalJsonItems: a malformed channel file counts as no items, where JsonConvert.DeserializeObject throws.
- AudioSteps: an audio encoder is always added, where the source adds one only when AvailableEncoders.ForAudioFormat returns it.
- SetPixelFormat: the colorspace filter and the hardware download that precede the conversion (VaapiPipelineBuilder.cs:335-363) are not modelled; the current format and frame location after them are parameters.
- Merge: the `AllHaveMetadata` precondition of the Plex episode merge stands in for Head() throwing on an episode without metadata.
- IdsOf: the ids are listed in first-appearance order, taken as the iteration order of the source's HashSet.
- RefreshedPositions: uses the same first-appearance order.
- Build: the legacy builder's options for a state that is not the desired one are not modelled (PipelineBuilder.cs:303-536): the realtime and infinite-loop input options and the frame-rate, timescale, bitrate, buffer-size and pixel-format outputs. Neither is the audio copy encoder (552-560). The audio input's options are therefore stated only to begin with the earlier options and the seek option.
- AddPadFiller: pads to the corrected grid (PadTarget, PadBase; Findings rows 1 and 2), not to the source's seconds-dropping target and chapter double count.
- PadAndRetime: uses the same corrected grid.
- AddFiller: uses the same corrected grid for a padded block, and the corrected mid-roll pad loop (Findings row 3).
- EndTimeWithFillerBounds: is proved about the corrected grid; PadTargetAsWrittenEndsEarly shows the source's target can fall before the content's end.
- CalculateEndTimeWithFiller: is proved equal to the estimate on the corrected grid.
- The VAAPI builder's overlay upload branch (VaapiPipelineBuilder.cs:209-215) has an empty body, so its forceSoftwareOverlay flag changes nothing and is not modelled.
- PlayoutBuilder.SaveAnchor: reuses the continue anchor whose whole collection key matches (FirstContinueAnchor), the corrected half of Findings row 4. The source matches on collection type, collection id and media item id only (PlayoutBuilder.cs:650-654), so two multi-collections or two smart collections share one anchor there; FirstContinueAnchorAsWritten and ContinueAnchorAsWrittenSharedByMultiCollections model that version.
- PlayoutBuilder.SaveAnchors: each anchor comes from SaveAnchor's corrected whole-key lookup, not the source's partial-key match, so no two collections share an anchor here.
- PlayoutBuilder.Playout.BuildProgramScheduleAnchors: built on the same corrected lookup, so the anchors it saves never hold a second collection's enumerator state in a first collection's anchor, as they can in the source.
- ChannelGuide.WritePlayout: mirror playouts are written with the corrected shift of Findings row 5 (Shift, ShiftAll, CutAndShift, GuideItems), which moves the guide start and finish too. The source moves only start and finish (RefreshChannelDataHandler.cs:227-231, 251-255, 274-278), so for an item with guide times its stop times differ from the source's, which can fall before the programme's start (MirrorShiftAsWrittenStopsBeforeStart).
- PlayoutBuilder.ScheduleCollectionKeys: the collections come in the order they first appear in the schedule. The source keeps them in a LanguageExt `Map` (PlayoutBuilder.cs:557) ordered by key, so the order of the anchors it saves (PlayoutBuilder.cs:648) and which empty collection `Find` reports first (PlayoutBuilder.cs:611) can differ from the model's.

## Findings

| source | as written | input that shows it | evidently intended | confidence | as-written member | corrected member |
|---|---|---|---|---|---|---|
| ErsatzTV.Core/Scheduling/PlayoutModeSchedulerBase.cs:469-486 | the padded end rounds the minute up, then drops the seconds of the original end | content ending 10:45:30 with a 15-minute pad gets 10:45:00, before the content ends | the first whole pad boundary at or after the end, 11:00:00 | not executed | SchedulerBase.PadTargetAsWrittenEndsEarly | SchedulerBase.PadTarget |
| ErsatzTV.Core/Scheduling/PlayoutModeSchedulerBase.cs:464-467 | the length to pad adds every effective chapter on top of the items already placed, which include the chapter items | two 10-minute chapters with a 1-minute mid-roll and a 30-minute post-roll pad give 41 minutes and a pad to the hour | 21 minutes, padded to half past; chapters counted only when the mid-roll preset pads | not executed | SchedulerBase.PadBaseAsWrittenCountsChaptersTwice | SchedulerBase.PadBaseIsBlockEnd |
| ErsatzTV.Core/Scheduling/PlayoutModeSchedulerBase.cs:542-572 | the mid-roll pad loop runs while time is left, even when no filler and no fallback remain | 10 minutes to pad across two chapters from 3-minute filler with no fallback: one minute is left that no turn can place | stop when neither queued filler nor fallback is available | not executed | SchedulerBase.MidRollPadAsWrittenStalls | SchedulerBase.FillBreakFromStops |
| ErsatzTV.Core/Scheduling/PlayoutBuilder.cs:650-654 | an existing continue anchor is matched on collection type, collection id and media item id only | two multi-collections with ids 1 and 2 and one anchor for the first: both find that anchor | match the whole collection key, including multi-collection and smart-collection ids | not executed | PlayoutBuilder.ContinueAnchorAsWrittenSharedByMultiCollections | PlayoutBuilder.SaveAnchor |
| ErsatzTV.Application/Channels/Commands/RefreshChannelDataHandler.cs:227-231 | the playout offset shifts start and finish but not the guide start and guide finish | an item 0:00-0:30 with guide finish 0:30 and a one-hour offset gives a programme that stops before it starts | every instant of an item shifted by the same offset | not executed | ChannelGuide.MirrorShiftAsWrittenStopsBeforeStart | ChannelGuide.ShiftedProgrammes |
| ErsatzTV.Infrastructure/Search/SearchIndex.cs:1220-1228 | the jump letter takes the first character of the sort title without checking that there is one | an empty sort title fails | file an empty sort title under '#', as the Lucene index does | not executed | SearchIndex.OldJumpLetterFailsOnEmptySortTitle | SearchIndex.JumpLetterVersionsAgree |
| ErsatzTV.Scanner/Core/Metadata/LocalMetadataProvider.cs:415-520 | the update loop over matched episode rows returns after the first row | an episode with two matched rows whose NFO title changed: the second row keeps the old title | every matched row updated, as the older Core provider does | not executed | ScannerLocalMetadata.AsWrittenLeavesSecondRowStale | ScannerLocalMetadata.EpisodeRowsFresh |
| ErsatzTV.Infrastructure/Data/Repositories/MovieRepository.cs:20-27 | the number of stored movies among the ids is compared with the length of the id list | the list [id, id] for one stored movie is rejected | true exactly when every listed id is a stored movie | not executed | MovieRepository.AllMoviesExistAsWrittenRejectsRepeats | MovieRepository.AllMoviesExist |
