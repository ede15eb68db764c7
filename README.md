# KSND sound editor core, modelled in Dafny

KSND is a sound editor. A sound (`Snd`) is a sample rate plus one channel per
`BlockSequence`. A block sequence is an ordered run of blocks: an `ArcBlock`
that windows a shared buffer of samples with its min/max peak pyramid
(`Mips`), or a `SilentBlock` that stands for a run of zeros. Every edit is
expressed through the bidirectional `Chunker`, which cuts the blocks of a
sequence at arbitrary sample bounds. Unedited blocks are reused as they are.

The editor keeps its snapshots (`Ctx`) on an undo stack, together with a
console of recent messages. A snapshot holds the sound, the cursor, the
signed selection, the view (zoom and slide), the channel mask, the ruler and
the loop flag. Edits are functions from snapshot to snapshot. They cover:

- gain, linear fade and normalize;
- reverse, resample and pitch;
- delete, crop, paste (insert or replace) and mix-in;
- channel solo, delete and insert.

Each edit changes only the channels the mask marks active, and `flip`
re-fits the cursor and selection to the new sound.

Playback goes through a `Player`. It reads frames at a fractional head,
interpolates between neighbouring samples, loops or stops at the end of its
region, and is driven by the audio system's callback. Around the core sit:

- the ruler, a grid of beat marks;
- the navigation and ruler commands the scripting layer exposes;
- a key-state tracker and a sliding window;
- the single-line text input and the command line widgets.

In the model, samples and positions are `real` and `usize` is `nat`. Value
types (masks, regions, rulers, snapshots, cursors) are datatypes. Objects the
source updates in place are classes with `modifies` frames. These are the
chunker, the block runner, the undo stack, the editor, the console ring, the
key state, the windows, the player and the widget states. Each is proved
against specification functions such as `Samples()`, `Forward()` and
`Items()`.

## Model

| member | source | states |
|---|---|---|
| Util.RangeBounds | src/util/mod.rs:18-34 | an unbounded start is 0 and an unbounded end is the limit; included and excluded bounds shift by at most one; nothing is clamped |
| Util.RangeShapes | src/util/mod.rs:18-34 | `a..b`, `a..`, `..b`, `..` and `(a, b]` resolve to (a, b), (a, limit), (0, b), (0, limit) and (a+1, b+1) |
| Util.MinMax | src/util/mod.rs:36-38 | the pair is ordered and is (x, y) or (y, x) |
| Util.Lerp | src/util/mod.rs:40-43 | fraction 0 gives the left end, fraction 1 the right end |
| Util.LerpBetween | src/util/mod.rs:40-43 | for a fraction in [0, 1] the result lies between the two ends |
| Mips.MinMaxPeak | src/blocks/mips.rs:5-7 | the pair is the true (min, max) of the two samples |
| Mips.MinMaxPair | src/blocks/mips.rs:9-11 | the low end is the smaller of the two minima and the high end the larger of the two maxima |
| Mips.ScanIsCover | src/blocks/mips.rs:43-64 | the scan from (f32::MAX, f32::MIN) over a non-empty run is the run's true (min, max), capped by the sentinels |
| Mips.NextLevel | src/blocks/mips.rs:19-23 | pairing level k up gives level k+1: entry i covers samples [i·2^(k+2), (i+1)·2^(k+2)), an odd last entry dropped |
| Mips.FromBase | src/blocks/mips.rs:14-31 | the result starts with the base and stacks levels, each pairing the one below, until the top has fewer than two entries |
| Mips.Floats | src/blocks/mips.rs:33-41 | the base level has one entry per complete pair of samples (an odd last sample is left out) and the pyramid is valid |
| Mips.PowerChunk | src/blocks/mips.rs:67-76 | for start < end the chunk is a power of two 2^lod that divides start (idx·align = start) and start + align <= end |
| Mips.PowerChunkIsLargest | src/blocks/mips.rs:68-72 | no larger power of two up to ⌊log2(end-start)⌋ divides start |
| Mips.AlignFits | src/blocks/mips.rs:68-75 | an aligned power of two within the log bound fits before end and its log is its exponent |
| Mips.EntryOfRun | src/blocks/mips.rs:55 | an aligned run of 2^lod >= 2 samples inside the base is read from an entry that exists and covers exactly that run |
| Mips.StepReadsRun | src/blocks/mips.rs:48-61 | what one loop step of `peaks` reads is in bounds and is the (min, max) of the run it skips |
| Mips.Peaks | src/blocks/mips.rs:43-64 | for start < end the result equals the naive min/max scan of base[start..end); an empty range returns (f32::MAX, f32::MIN) |
| Mips.ThousandSamplesNineLevels | src/blocks/mips.rs:82-86 | a pyramid over 1000 samples has exactly nine levels |
| Mips.RampPeaks | src/blocks/mips.rs:88-93 | on the ramp 0, 1, 2, … the peaks of [start, end) are (start, end-1), which covers the test's five queries |
| SilentBlocks.New | src/blocks/block/silent_block.rs:9-11 | the block has the given length |
| SilentBlocks.SilentBlock.Len | src/blocks/block/silent_block.rs:13-15 | the length is the number of zeros the block stands for |
| SilentBlocks.SilentBlock.Rng | src/blocks/block/silent_block.rs:17-20 | the cut has the width of the resolved range, all zeros, not clamped to the block |
| SilentBlocks.SilentBlock.GetSample | src/blocks/block/silent_block.rs:22-29 | a sample exists exactly below the length, and it is 0 |
| SilentBlocks.SummaryIsCover | src/blocks/block/silent_block.rs:31-33 | for a non-empty silence the (0, 0) summary is the true (min, max) |
| SilentBlocks.RngWidths | src/blocks/block/silent_block.rs:40-56 | cutting 10..50 then 10..20 of 100 zeros leaves 10; cutting 0..200 grows the block to 200 |
| ArcBlocks.ArcBlock.Len | src/blocks/block/arc_block.rs:14 | the length is the number of samples in the window |
| ArcBlocks.ArcBlock.Rng | src/blocks/block/arc_block.rs:31-43 | the cut shares data and pyramid and its window stays in bounds |
| ArcBlocks.RngSamples | src/blocks/block/arc_block.rs:31-43 | the cut holds the block's samples from the resolved start to the resolved end, each clamped to the block |
| ArcBlocks.RngTwice | src/blocks/block/arc_block.rs:74-83 | cutting a..b then c..d is cutting a+c..a+d of the original |
| ArcBlocks.ArcBlock.GetSample | src/blocks/block/arc_block.rs:45-55 | a sample exists exactly below the length, and it is the window's sample at that index |
| ArcBlocks.Wrap | src/blocks/block/arc_block.rs:16-23 | the block covers all of the data with a valid pyramid |
| ArcBlocks.FromSamples | src/blocks/block/arc_block.rs:25-29 | the block covers all of the samples and its pyramid is valid |
| ArcBlocks.Summary | src/blocks/block/arc_block.rs:57-59 | a non-empty block summarises to the true (min, max) of its window; an empty one to the sentinels |
| Blocks.Data | src/blocks/block.rs:14-17 | a new valid data block whose samples are the given ones |
| Blocks.Silence | src/blocks/block.rs:19-22 | a valid silent block of `len` zeros |
| Blocks.Block.Len | src/blocks/block.rs:26-31 | the length is the number of samples the block stands for, for either kind |
| Blocks.Block.Rng | src/blocks/block.rs:33-38 | the cut keeps the block's kind and stays in bounds |
| Blocks.RngSamples | src/blocks/block.rs:33-38 | a data block is cut to the clamped range; a silent block becomes zeros of the range's width |
| Blocks.RngSlices | src/blocks/block.rs:33-38 | the shapes `s..e`, `s..` and `..e` within a block are safe and select samples [s, e), [s, len) and [0, e) |
| Blocks.RngValid | src/blocks/block.rs:33-38 | a cut shares data and pyramid, so a valid block stays valid |
| Blocks.Block.GetSample | src/blocks/block.rs:40-45 | a sample exists exactly below the length, and it is the block's sample at that index |
| Blocks.Summary | src/blocks/block.rs:47-52 | a non-empty data block summarises to the true (min, max); an empty one to the sentinels; silence to (0, 0) |
| Blocks.Map | src/blocks/block.rs:62-65 | a new valid data block of the same length whose sample i is the function applied to sample i |
| Blocks.BlockRunner.constructor | src/blocks/block.rs:77-85 | the runner starts at 0 and ends at the block's length |
| Blocks.BlockRunner.Next | src/blocks/block.rs:91-99 | at the end it yields nothing and stays; otherwise it yields the sample at `start` and advances by one |
| Blocks.BlockRunner.NextBack | src/blocks/block.rs:104-112 | it steps `end` back first and yields nothing once it meets `start`, so the sample at `start` is never yielded |
| Blocks.Collect | src/blocks/block.rs:54-99 | collecting a block's runner yields every sample in order |
| Blocks.CollectRev | src/blocks/block.rs:104-112 | collecting a runner backwards yields the samples back to front without the first one |
| Blocks.CollectRevDropsFirst | src/blocks/block.rs:104-112 | a data block of [1, 2, 3] collected backwards through the runner gives [3, 2] |
| Sequences.BlockSequence.Len | src/blocks/sequence.rs:12-14 | where the last block stops, or 0 |
| Sequences.BlockSequence.LenIsSamples | src/blocks/sequence.rs:12-14 | the length is the number of samples of the channel |
| Sequences.BlockSequence.BlockSlice | src/blocks/sequence.rs:133-147 | block k's samples sit in the channel at [offset k, offset k + its length) |
| Sequences.BlockSequence.Ordered | src/blocks/sequence.rs:133-147 | blocks come in order without overlap and all stop within the length |
| Sequences.BlockSequence.Search | src/blocks/sequence.rs:25-36 | the binary search finds a block exactly when the index is below the length, and the block found spans the index |
| Sequences.BlockSequence.ContainingIndex | src/blocks/sequence.rs:25-36 | some block is found exactly when idx < len, and its span [offset, offset + len) holds idx |
| Sequences.BlockSequence.GetSample | src/blocks/sequence.rs:42-46 | a sample exists exactly below the number of samples, and it is the channel's sample at idx |
| Sequences.BlockSequence.SampleInBlock | src/blocks/sequence.rs:42-46 | reading block k at idx minus its offset gives the channel's sample idx |
| Sequences.FromIter | src/blocks/sequence.rs:133-147 | the result holds the given blocks in order with sound offsets |
| Sequences.FromIterOffsets | src/blocks/sequence.rs:136-143 | each offset is the number of samples of the blocks before it, and the samples are the blocks' samples one after the other |
| Sequences.FromBlock | src/blocks/sequence.rs:149-153 | a one-block channel holding the block's samples |
| Sequences.WindowJoin | src/blocks/sequence.rs:80-130 | two adjacent windows make one |
| Chunking.FwdCut | src/blocks/sequence.rs:182-194 | one front step yields a chunk and moves start either to end (staying in block si) or to the end of block si (moving to si+1) |
| Chunking.BwdCut | src/blocks/sequence.rs:205-217 | one back step yields a chunk and moves end either to start (staying in block ei) or to the start of block ei (moving to ei-1) |
| Chunking.FwdIn | src/blocks/sequence.rs:185-188 | when end lies inside block si the front yields one last chunk, cut from start to end |
| Chunking.FwdAcross | src/blocks/sequence.rs:189-193 | when end lies at or past the end of block si the front yields the block from start on, then continues at block si+1 |
| Chunking.BwdIn | src/blocks/sequence.rs:208-211 | when start lies inside block ei the back yields one last chunk, cut from start to end |
| Chunking.BwdAcross | src/blocks/sequence.rs:212-216 | when start lies before block ei the back yields the block up to end, then continues at block ei-1 |
| Chunking.Chunker.constructor | src/blocks/sequence.rs:166-171 | both ends are located with the containing-block search, a missing block giving the number of blocks; the back searches max(end, 1) - 1 |
| Chunking.Chunker.Next | src/blocks/sequence.rs:177-195 | nothing is yielded exactly when no chunk remains; otherwise the yielded chunk is the first of the remaining front chunks and the rest remain |
| Chunking.Chunker.NextBack | src/blocks/sequence.rs:199-218 | nothing is yielded exactly when no chunk remains; otherwise the yielded chunk is the last remaining one and the rest remain |
| Chunking.BackIndex | src/blocks/sequence.rs:168 | the back index is past the blocks exactly when max(end,1)-1 is past the channel, and otherwise its block starts before end |
| Chunking.BackChunksWindow | src/blocks/sequence.rs:198-218 | read back to front, the back chunks of a range ending inside the channel cover exactly its window; past the end there are none |
| Chunking.Chunks | src/blocks/sequence.rs:71-74 | the chunker walks the resolved bounds of the range, with its back index located as the constructor does |
| Chunking.Drain | src/blocks/sequence.rs:177-195 | draining a chunker from the front yields exactly its remaining front chunks |
| Chunking.DrainBack | src/blocks/sequence.rs:199-218 | draining a chunker from the back yields exactly its remaining back chunks |
| Chunking.FwdValid | src/blocks/sequence.rs:182-194 | every chunk cut from blocks with valid pyramids is valid |
| Chunking.FwdNonEmpty | src/blocks/sequence.rs:182-194 | over a channel without empty blocks every front chunk holds samples |
| Chunking.BwdNonEmpty | src/blocks/sequence.rs:205-217 | over a channel without empty blocks every back chunk holds samples |
| Chunking.FwdWindow | src/blocks/sequence.rs:177-195 | the front chunks, in order, cover exactly the window from start to end |
| Chunking.BwdWindow | src/blocks/sequence.rs:199-218 | the back chunks, each read forwards but taken back to front, cover exactly the window from start to end |
| SequenceOps.Bounds | src/blocks/sequence.rs:71-74 | `..s`, `e..`, `..` and `s..e` resolve to (0, s), (e, len), (0, len), (s, e) and are safe to chunk |
| SequenceOps.SubSeq | src/blocks/sequence.rs:80-82 | a valid channel holding exactly the range's window |
| SequenceOps.CollectSamples | src/blocks/sequence.rs:76-78 | the samples of the range's window, in order |
| SequenceOps.Delete | src/blocks/sequence.rs:99-104 | the samples before start followed by those from end; within the channel that is the channel with [start, end) cut out |
| SequenceOps.Replace | src/blocks/sequence.rs:124-130 | the samples before start, all of datums, then the samples from end |
| SequenceOps.Insert | src/blocks/sequence.rs:106-122 | datums spliced in at `at`; past the end the gap is filled with silence; the length is max(at, len) + the inserted length |
| SequenceOps.InsertPast | src/blocks/sequence.rs:107-115 | the whole channel, zeros up to `at`, then datums |
| SequenceOps.InsertWithin | src/blocks/sequence.rs:116-121 | the samples before `at`, datums, then the rest |
| SequenceOps.MapChunks | src/blocks/sequence.rs:94 | mapping the chunks in turn with one closure maps their samples in order, each seeing its position in the run |
| SequenceOps.MapRng | src/blocks/sequence.rs:84-97 | the samples before the range, the range's samples passed through the closure, then the rest |
| SequenceOps.MapRngSamples | src/blocks/sequence.rs:84-97 | within the channel map_rng keeps the length and every sample outside [start, end); sample i inside is the closure applied to it |
| SequenceOps.FoldPeaksScan | src/blocks/sequence.rs:64-67 | over chunks that all hold samples, folding the chunk summaries equals the naive scan of their samples |
| SequenceOps.FoldPeaksOf | src/blocks/sequence.rs:64-67 | over any chunks, folding the chunk summaries gives the naive scan of their samples, or that scan combined with (0, 0) when an empty silent chunk took part |
| SequenceOps.FoldStep | src/blocks/sequence.rs:64-67 | folding in one more chunk's summary keeps that relation for the samples so far plus the chunk's |
| SequenceOps.Summary | src/blocks/sequence.rs:48-69 | a reversed or empty in-range request reads the sample at st; a request from the end gives (0, 0); otherwise the scan of the window, possibly combined with (0, 0), and exactly the scan when no block is empty |
| SequenceOps.FoldSummaries | src/blocks/sequence.rs:64-67 | the loop's result is the fold of the chunks' summaries |
| Snds.MaxLen | src/snd/types.rs:25-27 | the fold is at least every channel's length, and 0 without channels |
| Snds.MaxLenAttained | src/snd/types.rs:25-27 | with channels, the fold is the length of one of them |
| Snds.Snd.Len | src/snd/types.rs:25-27 | the longest channel's length: no channel is longer, one is that long, and 0 without channels |
| Snds.Snd.Count | src/snd/types.rs:33-35 | the number of channels |
| Snds.Snd.Channel | src/snd/types.rs:37-39 | None exactly past the last channel, otherwise channel n |
| Snds.Snd.Seconds | src/snd/types.rs:45-47 | the result times the rate is the sample time |
| Snds.NewKeepsChannels | src/snd/types.rs:10-22 | new and from_iter keep the rate and the channels in order |
| Snds.SampleOr0 | src/snd/types.rs:86 | the channel's sample s, or 0 past its end |
| Snds.FramesIndex | src/snd/types.rs:81-96 | value k of the interleaved stream is channel k mod C at sample k div C (0 past that channel's end) |
| Snds.InterLeaved.constructor | src/snd/types.rs:67-76 | the iterator starts at channel 0 of sample 0 and ends at the sound's length |
| Snds.InterLeaved.Next | src/snd/types.rs:81-96 | at the end it yields nothing; otherwise it yields the current channel's sample (0 past that channel) and moves to the next channel, wrapping to channel 0 of the next sample |
| Snds.InterleavedAudio | src/snd/types.rs:49-51 | draining the iterator gives len frames of every channel in channel order, len × channels values |
| Regions.Region.Len | src/util/region.rs:11-13 | start + len is end, and len is non-negative exactly for an ordered region |
| Regions.Region.SampleRange | src/util/region.rs:15-23 | each end rounded up to a whole sample, the start first clamped at 0 and a negative end saturating to 0; ordered regions give ordered ranges |
| Regions.Region.Intersect | src/util/region.rs:25-35 | None exactly when one region ends before the other starts; otherwise the later start and the earlier end |
| Regions.IntersectMeaning | src/util/region.rs:25-35 | two ordered regions intersect exactly when they share a point, and the intersection holds exactly the shared points |
| Regions.TouchingMeetAtAPoint | src/util/region.rs:25-35 | regions that only touch meet in the single point where they touch |
| Regions.Region.Center | src/util/region.rs:45-47 | the centre is as far from the start as from the end, and lies inside an ordered region |
| Regions.Region.Clamp | src/util/region.rs:53-55 | the result lies in the region, equals a point already inside, and is the nearer end otherwise |
| Regions.Region.Slide | src/util/region.rs:57-59 | both ends move by the distance, order and length kept |
| Regions.FromPair | src/util/region.rs:62-67 | the region is ordered and is (s, e) or (e, s) |
| Regions.RegionExamples | src/util/region.rs:79-157 | the unit tests: construction, lengths, sample ranges, intersections, containment of both end points, centres |
| Rulers.New | src/util/ruler.rs:8-15 | the spacing is ⌊max(scale, 1)⌋, so at least 1, and the offset is ⌊offset⌋ |
| Rulers.Ruler.Slide | src/util/ruler.rs:17-22 | same spacing; the offset is ⌊o⌋ reduced by f64 `%`: less than one spacing from 0, on ⌊o⌋'s side |
| Rulers.SlideMarksFloor | src/util/ruler.rs:17-22 | after slide(o), ⌊o⌋ is a mark of the slid ruler |
| Rulers.FRem | src/util/ruler.rs:20 | f64 `%`: the remainder is less than the divisor in size and has the dividend's sign |
| Rulers.Ruler.Rescale | src/util/ruler.rs:24-33 | a divisor <= 0 leaves the ruler; a positive one multiplies the spacing and keeps the offset |
| Rulers.Ruler.Divs | src/util/ruler.rs:36-37 | the whole number of spacings k with mark k <= pos < mark k+1 |
| Rulers.Ruler.PreviousMark | src/util/ruler.rs:35-39 | a mark at or below pos, less than one spacing below it |
| Rulers.PreviousMarkIsGreatest | src/util/ruler.rs:35-39 | every mark at or below pos is at or below the previous mark |
| Rulers.OnMarkIsFixed | src/util/ruler.rs:35-39 | pos is its own previous mark exactly when it is a mark |
| Rulers.Ruler.NextMark | src/util/ruler.rs:41-44 | the mark one spacing past the previous mark: strictly after pos, at most a spacing past it |
| Rulers.NextMarkIsLeast | src/util/ruler.rs:41-44 | every mark strictly after pos is at or after the next mark |
| Rulers.Ruler.NextOrCurrent | src/util/ruler.rs:46-54 | the previous or next mark, at or after pos and less than a spacing past it |
| Rulers.NextOrCurrentIsLeast | src/util/ruler.rs:46-54 | it is a mark, and every mark at or after pos is at or after it |
| Rulers.Ruler.TimePt | src/util/ruler.rs:56-58 | a whole number k of spacings gives mark k |
| Rulers.PreviousMarkExamples | src/util/ruler.rs:76-79 | new(1000, 0) has previous marks 0 at 5 and 1000 at 1999 |
| Rulers.PreviousMarkEdgeExamples | src/util/ruler.rs:80-82 | previous marks -1000 at -10 and 1000 at 1000 |
| Rulers.SlidPreviousMarkExamples | src/util/ruler.rs:84-88 | after slide(250): previous marks 250, 1250, -750 and 2250 at 295, 1999, -10 and 2250 |
| Rulers.NextMarkExample | src/util/ruler.rs:94 | next mark 1000 at 5 |
| Rulers.NextMarkHigherExample | src/util/ruler.rs:95 | next mark 2000 at 1999 |
| Rulers.NextMarkNegativeExample | src/util/ruler.rs:96 | next mark 0 at -10 |
| Rulers.NextMarkOnMarkExample | src/util/ruler.rs:98 | next mark 2000 at the mark 1000 |
| Rulers.SlidNextMarkExamples | src/util/ruler.rs:100-104 | after slide(250): next marks 1250, 2250, 250 and 3250 |
| Rulers.NextOrCurrentExample | src/util/ruler.rs:110 | next_or_current is 1000 at 5 |
| Rulers.NextOrCurrentOnMarkExample | src/util/ruler.rs:111 | next_or_current is 1000 at the mark 1000 |
| ChannelMasks.Default | src/util/channel_mask.rs:9-11 | every one of the 32 channels is on |
| ChannelMasks.Mask.Toggle | src/util/channel_mask.rs:18-20 | channel c flips and every other channel keeps its state |
| ChannelMasks.ToggleTwice | src/util/channel_mask.rs:18-20 | toggling the same channel twice gives the mask back |
| ChannelMasks.Mask.ShiftAfter | src/util/channel_mask.rs:22-29 | deleting channel c: channels below c-1 keep their state, channel c-1 is on if it or c was, each later channel takes the state of the one after it, and the last is off |
| ChannelMasks.ShiftAfterOrsDown | src/util/channel_mask.rs:22-29 | with channel 0 off and channel 1 on, deleting channel 1 turns channel 0 on |
| ChannelMasks.ShiftAfterExample | src/util/channel_mask.rs:42-51 | 0x10101010 becomes 0x08101010, 0x04081010 and 0x02040808 after deleting channels 24, 16 and 0 |
| ChannelMasks.Solo | src/util/channel_mask.rs:31-34 | only channel 0 is on |
| ChannelMasks.LaneValue | src/util/channel_mask.rs:14-16 | the 5-bit shift amount of a channel number below 32 is that number |
| ChannelMasks.ToggleChannels | src/util/channel_mask.rs:18-20 | the XOR with 1 << c flips bit c and only bit c, stated per channel |
| ChannelMasks.ShiftChannels | src/util/channel_mask.rs:23-28 | the split, shift and OR of shift_after give the per-channel states above |
| RingVec.Ring.constructor | src/util/ring_vec.rs:6-8 | a new ring of the given size is empty |
| RingVec.Ring.Items | src/util/ring_vec.rs:15-17 | iteration yields the deque back to front: oldest item first |
| RingVec.Ring.Push | src/util/ring_vec.rs:10-13 | the new item goes to the front and the deque is cut to size; read oldest first, the ring holds the newest `size` items of what it held followed by the new one |
| RingVec.Ring.Clear | src/util/ring_vec.rs:19-21 | the ring is empty |
| RingVec.Newest | src/util/ring_vec.rs:12 | the last min(n, length) items of a sequence, in order |
| RingVec.PushKeepsNewest | src/util/ring_vec.rs:10-17 | pushing at the front and truncating is, read back to front, appending and keeping the newest n |
| RingVec.PushWithRoom | src/util/ring_vec.rs:10-13 | a ring with room keeps every item |
| RingVec.PushWhenFull | src/util/ring_vec.rs:10-13 | a full ring drops its oldest item |
| RingVec.NewestBound | src/util/ring_vec.rs:12 | a ring never holds more than its size, and one with room holds everything pushed |
| RingVec.RingExample | src/util/ring_vec.rs:28-44 | six pushes into a ring of five iterate as 2, 3, 4, 5, 6 |
| RingVec.FirstFive | src/util/ring_vec.rs:30-35 | five pushes into a ring of five keep all five, in order |
| Keystates.Without | src/util/keystate.rs:21 | retain drops k and keeps only keys that were there |
| Keystates.WithoutAbsent | src/util/keystate.rs:20-22 | retaining a key that is absent changes nothing |
| Keystates.AppendFresh | src/util/keystate.rs:10-11 | appending an absent key keeps the held keys free of duplicates |
| Keystates.Keystate.constructor | src/util/keystate.rs:3-6 | no key is held |
| Keystates.Keystate.KeyDown | src/util/keystate.rs:9-17 | true exactly when the key was not held, and then it is appended; otherwise nothing changes; no key is ever held twice |
| Keystates.Keystate.KeyUp | src/util/keystate.rs:19-23 | as written the guard only retains when k is absent, so the held keys never change |
| Keystates.PressRelease | src/util/keystate.rs:9-23 | a key pressed and released is still held |
| Ctxs.Ctx.Len | src/edit/ctx.rs:91-93 | the sound's length in samples, never negative |
| Ctxs.Ctx.Flip | src/edit/ctx.rs:26-63 | the snapshot over the new sound keeps ruler, channel mask, zoom, slide and loop mode; cursor and selection per the lemmas below |
| Ctxs.FlipNoCursor | src/edit/ctx.rs:50 | without a cursor, flip leaves neither cursor nor selection |
| Ctxs.FlipCursorOnly | src/edit/ctx.rs:40-48 | a lone cursor survives exactly when it is not past the new end, and then unchanged |
| Ctxs.FlipClamps | src/edit/ctx.rs:29-38 | with a selection the cursor becomes min(cursor, length) and cursor plus selection lies inside the new sound, the selection keeping its direction |
| Ctxs.FlipKeepsInside | src/edit/ctx.rs:29-38 | a selection already inside the new sound is kept as it is |
| Ctxs.FlipTwice | src/edit/ctx.rs:26-63 | flipping twice onto the same sound is flipping once |
| Ctxs.Ctx.View | src/edit/ctx.rs:66-71 | the viewed region is in order |
| Ctxs.ViewOf | src/edit/ctx.rs:66-71 | for non-negative zoom it starts at slide times the length and is zoom times the length long |
| Ctxs.Ctx.SelectedRegion | src/edit/ctx.rs:74-81 | present exactly with both cursor and selection; in order, as long as the selection's magnitude, starting at the smaller of cursor and cursor plus selection |
| Ctxs.Ctx.SampleRegion | src/edit/ctx.rs:83-85 | the selected region's sample range, or 0 to the length without a selection; in order |
| Ctxs.Ctx.WindowWidth | src/edit/ctx.rs:87-89 | for non-negative zoom, the length of the viewed region |
| Ctxs.WidthOf | src/edit/ctx.rs:87-89 | length times zoom is the view's length |
| Ctxs.Ctx.DefaultClick | src/edit/ctx.rs:109-117 | only the cursor and selection change: the selection goes and the cursor is the click point, ⌊view length · x⌋ samples past the view's start, which lies inside the view for a fraction in 0..1 |
| Ctxs.ClickPoint | src/edit/ctx.rs:110-113 | the cursor is the view's start plus the floor of the fraction of its length, so inside the view for fractions in 0..1 |
| Ctxs.Ctx.DefaultDrag | src/edit/ctx.rs:119-132 | only the selection changes: none without a cursor, otherwise the drag selection from the cursor |
| Ctxs.DragSelection | src/edit/ctx.rs:120-129 | a selection exactly when the floored drag point is at least one sample from the cursor, and then it reaches that point |
| Ctxs.FromSnd | src/edit/ctx.rs:135-148 | no cursor, selection or ruler, loop mode off, every channel on, the whole sound in view and as sample region |
| Ctxs.ActiveIndices | src/edit/ctx.rs:95-97 | the channels below n whose mask bit is on, each once, in increasing order |
| Ctxs.Copy | src/edit/ctx.rs:99-107 | a sound at the same rate holding, for each active channel in order, that channel's samples over the sample region |
| Ctxs.CopyActive | src/edit/ctx.rs:101-104 | the loop of copy: one sub-sequence per active channel, in channel order |
| Ctxs.CopiedSnoc | src/edit/ctx.rs:101-104 | appending the next active channel's copy extends what has been copied |
| EditUtil.AppliedSnoc | src/edit/util.rs:9-25 | handling the next channel (replaced when active, cloned when not) extends the channels done by one |
| EditUtil.SourceChannel | src/edit/util.rs:14 | the inserted sound's channel for channel n: n itself, or its last channel when it has fewer |
| EditUtil.InsertPoint | src/edit/util.rs:6-7 | the floor of the point, 0 for a negative point, never past the end |
| EditUtil.InsertedSamples | src/blocks/sequence.rs:106-122 | the channel grows by the inserted length, and past its end by the gap too |
| EditUtil.InsertedParts | src/blocks/sequence.rs:106-122 | samples before the point, then the inserted samples, then the rest; past the end the gap is silence |
| EditUtil.Inserted | src/edit/util.rs:9-25 | one result per channel |
| EditUtil.InsertMultichannel | src/edit/util.rs:4-28 | same rate; each active channel gets the matching channel of the inserted sound spliced in at the insert point, each inactive one is kept |
| EditUtil.InsertEach | src/edit/util.rs:9-25 | the channel walk: every channel handled, by its mask bit |
| EditUtil.ReplaceBounds | src/edit/util.rs:33-36 | for points inside the sound, the floors of the smaller and the larger point |
| EditUtil.ReplaceBoundsOrdered | src/edit/util.rs:33-36 | the bounds are ordered and inside the sound, and the order the points are given in does not matter |
| EditUtil.ToUsizeMono | src/edit/util.rs:35 | the `as usize` cast keeps order |
| EditUtil.Replaced | src/edit/util.rs:38-54 | one result per channel |
| EditUtil.ReplacedWithin | src/blocks/sequence.rs:124-130 | replacing inside a channel splices the new samples over [s, e), changing the length by their count minus e - s |
| EditUtil.ReplaceMultichannel | src/edit/util.rs:30-57 | same rate; each active channel gets the matching inserted channel over the ordered, clipped bounds, each inactive one is kept |
| EditUtil.ReplaceEach | src/edit/util.rs:38-54 | the channel walk: every channel handled, by its mask bit |
| EditUtil.MappedChannels | src/edit/amp.rs:7-14 | one result per channel |
| EditUtil.MappedChannelsAt | src/blocks/sequence.rs:84-97 | a mapped channel keeps its length; samples outside [s, e) stay and sample i inside becomes f(channel, i - s, sample) |
| EditUtil.MappedAt | src/blocks/sequence.rs:84-97 | one sample i inside [s, e) of a mapped channel becomes f(channel, i - s, sample) |
| EditUtil.MapEach | src/edit/amp.rs:7-14 | the channel walk of every map_rng edit: active channels mapped over [s, e), others kept |
| Undo.Stack.constructor | src/edit/undo.rs:9-11 | only the bottom entry, which is the top |
| Undo.Stack.Top | src/edit/undo.rs:21-23 | the last pushed entry, or the bottom when nothing was pushed |
| Undo.Stack.Entries | src/edit/undo.rs:3-6 | the bottom first, the top last, one more than the pushed entries |
| Undo.Stack.Push | src/edit/undo.rs:13-15 | the new entry is appended and becomes the top |
| Undo.Stack.Pop | src/edit/undo.rs:17-19 | drops the last pushed entry; with none the bottom stays |
| Undo.Stack.Below | src/edit/undo.rs:3-6 | the entries are those below the top followed by the top |
| Undo.Stack.SetTop | src/edit/undo.rs:25-27 | writing through top_mut replaces the top entry, which is the bottom when nothing was pushed; the number of entries and every entry below the top stay |
| Undo.PushPop | src/edit/undo.rs:13-19 | a push then a pop restores the entries and the top |
| Undo.PopBottom | src/edit/undo.rs:17-23 | popping an empty history never loses the bottom |
| Editors.PlaybackOf | src/edit.rs:54-68 | the snapshot's sound and loop mode with start <= end: the selected region with the head at its start, or the whole sound from the cursor, or from 0 without a cursor |
| Editors.Editor.constructor | src/edit.rs:29-36 | a fresh snapshot of the sound as the only entry, dirty, an empty console, the given path |
| Editors.Editor.Ctx | src/edit.rs:38-40 | the top of the undo stack |
| Editors.Editor.SetCtx | src/edit.rs:42-44 | writing through ctx_mut replaces the top snapshot and keeps the history's length and every snapshot below the top |
| Editors.Editor.SetPath | src/edit.rs:50-52 | only the path changes |
| Editors.Editor.PlaybackSettings | src/edit.rs:54-68 | the playback settings of the top snapshot |
| Editors.Editor.PrintNfo | src/edit.rs:70-72 | an info message joins the console, which keeps the newest 20 |
| Editors.Editor.PrintErr | src/edit.rs:74-76 | an error message joins the console, which keeps the newest 20 |
| Editors.Editor.ClearConsole | src/edit.rs:78-80 | the console is empty |
| Editors.Editor.ConTxt | src/edit.rs:82-84 | the console's messages oldest first, never more than 20 |
| Editors.Editor.Undo | src/edit.rs:86-88 | the last pushed snapshot goes, the bottom stays, the dirty flag is untouched |
| Editors.Editor.PushNew | src/edit.rs:90-93 | the new snapshot goes on top of the kept history and the editor is dirty |
| Editors.Editor.Dirty | src/edit.rs:95-97 | the dirty flag |
| Editors.Editor.CleanUp | src/edit.rs:99-101 | not dirty, nothing else changes |
| Editors.Editor.DirtyUp | src/edit.rs:103-105 | dirty, nothing else changes |
| Editors.Editor.ResetStack | src/edit.rs:107-110 | a new stack holding only the given snapshot, dirty, the path kept |
| Editors.TopSound | src/edit/undo.rs:21-23 | the top of a stack of sound snapshots is a sound |
| Editors.StackSound | src/edit/undo.rs:13-15 | a history of sounds with a sound on top is a stack of sounds |
| Editors.StackPrefixSound | src/edit/undo.rs:17-19 | dropping the last snapshots of such a history keeps it one |
| Deletes.Deleted | src/edit/delete.rs:9-16 | one result per channel |
| Deletes.Cropped | src/edit/delete.rs:33-40 | one result per channel |
| Deletes.DeletedWithin | src/blocks/sequence.rs:99-104 | deleting [s, e) inside a channel joins the samples on both sides, e - s shorter |
| Deletes.DeletedPastEnd | src/blocks/sequence.rs:99-104 | deleting from past the end leaves the channel as it was |
| Deletes.CroppedWithin | src/blocks/sequence.rs:80-82 | cropping to [s, e) inside a channel keeps exactly those e - s samples |
| Deletes.RemoveSelected | src/edit/delete.rs:6-27 | None exactly without a selection; otherwise the active channels lose the selected samples, the rest are kept, the rate stays, and the flipped snapshot has its cursor on the first selected sample and no selection |
| Deletes.DeleteEach | src/edit/delete.rs:9-16 | the channel walk: active channels deleted, others kept |
| Deletes.RemoveNonSelected | src/edit/delete.rs:30-52 | None exactly without a selection; otherwise the active channels keep only the selected samples, and the flipped snapshot has neither cursor nor selection |
| Deletes.CropEach | src/edit/delete.rs:33-40 | the channel walk: active channels cropped, others kept |
| Amp.FadeGainLinear | src/edit/amp.rs:26-31 | after k samples the running gain is start + k * step |
| Amp.FadedLinear | src/edit/amp.rs:26-31 | a sample k samples into the fade comes out as sample * (start + k * step) |
| Amp.FadeAtIndex | src/edit/amp.rs:27-31 | in a faded channel, sample s + k of the region is the old sample scaled by the gain reached k samples in |
| Amp.FadeRamp | src/edit/amp.rs:22-31 | the gain starts at start and reaches end one step past the region's last sample |
| Amp.Gain | src/edit/amp.rs:4-18 | the active channels' samples in the sample region are multiplied by amt, the rest kept; the result is the snapshot flipped onto the new sound |
| Amp.GainPointwise | src/edit/amp.rs:7-14 | a gained channel keeps its length; samples outside the region stay and those inside are multiplied by amt |
| Amp.GainAtIndex | src/edit/amp.rs:9 | one sample of the region comes out multiplied by amt |
| Amp.LinFade | src/edit/amp.rs:20-40 | the active channels' samples in the region are scaled by the fade's running gain, the rest kept, and the snapshot is flipped |
| Amp.ChannelPeak | src/edit/amp.rs:48-49 | the larger magnitude of the channel's summary over the region, never negative |
| Amp.ChannelPeakCovers | src/edit/amp.rs:48-49 | every sample of the region is within the channel's peak |
| Amp.ChannelPeaks | src/edit/amp.rs:46-54 | one peak per channel |
| Amp.PeakOf | src/edit/amp.rs:46-54 | the fold from 0 over the active channels' peaks, never negative |
| Amp.PeakCovers | src/edit/amp.rs:46-54 | the fold is at least every active channel's peak |
| Amp.Normalize | src/edit/amp.rs:42-58 | the peak is the largest magnitude over the active channels' regions, for every sound; with a peak the sound is gained by level / peak and flipped, without one there is no result |
| Amp.PeakEach | src/edit/amp.rs:46-54 | the loop over the channel summaries computes the largest magnitude over the active channels' regions, for every sound |
| Amp.PeakFold | src/edit/amp.rs:46-54 | an active channel takes the larger of the accumulator and its peak over the region; an inactive one leaves the accumulator |
| Amp.PeakStep | src/edit/amp.rs:48-49 | whichever case of summary produced it, the larger magnitude of one channel's summary is that channel's peak |
| Amp.FoldMagnitude | src/edit/amp.rs:49-50 | a (0, 0) folded into the scan of a non-empty run leaves its larger magnitude unchanged |
| Amp.NormalizedWithin | src/edit/amp.rs:42-58 | after normalizing every active sample of the region is within the level |
| Amp.NormalizedSample | src/edit/amp.rs:56-57 | a sample within the peak, gained by level / peak, is within the level |
| Amp.GainedWithin | src/edit/amp.rs:9 | a gained sample whose product is within the level stays within it in the new channel |
| Paste.InsertOrReplace | src/edit/paste.rs:7-21 | with a selection the pasted sound replaces it and the snapshot's cursor is the selection's start with a selection as long as the pasted sound; without one the sound goes in at the cursor, or at the end without a cursor |
| Paste.PasteThenCut | src/blocks/sequence.rs:99-122 | inserting a sequence at a point inside a channel and deleting that span gives the channel's samples back |
| Paste.MixRange | src/edit/paste.rs:25-28 | from the cursor rounded up to the end with a lone cursor, else the sample region; ordered, or starting past every channel's end |
| Paste.SrcSample | src/edit/paste.rs:32-35 | the k-th sample of the matching source channel, or 0 once that channel runs out |
| Paste.ChannelSamples | src/edit/paste.rs:33 | the samples of every channel of the source, in order |
| Paste.MixIn | src/edit/paste.rs:24-46 | over the mix range of every active channel the target sample times targetGain plus the matching source sample times srcGain; other channels kept; the snapshot flipped |
| Paste.MixedSample | src/edit/paste.rs:31-37 | in a mixed channel, sample s + k of the range is the old sample times targetGain plus, times srcGain, the source sample met k samples in |
| Paste.SourceSample | src/edit/paste.rs:31-35 | the source sample met k samples in is sample k of the source channel that feeds the target channel, or 0 once it has run out |
| Paste.MixNeutral | src/edit/paste.rs:24-46 | mixing with source gain 0 and target gain 1 leaves every channel's samples |
| Paste.MixReplaces | src/edit/paste.rs:24-46 | mixing with target gain 0 and source gain 1 puts the source's samples in the range |
| ChannelOps.Solo | src/edit/channels.rs:4-10 | only the given channel is left (none when it does not exist), the rate kept, the snapshot flipped with only mask bit 0 on |
| ChannelOps.SoloActive | src/edit/channels.rs:4-10 | after solo the one channel left is the one asked for, and it is active |
| ChannelOps.Without | src/edit/channels.rs:13 | the channels without channel c: those before it stay, those after it move down one |
| ChannelOps.Delete | src/edit/channels.rs:12-18 | channel c goes, the rate stays, and the mask is shifted past c |
| ChannelOps.SoundWithout | src/edit/channels.rs:13-14 | the remaining channels still form a sound |
| ChannelOps.DeleteKeepsFlags | src/edit/channels.rs:12-18 | each remaining channel keeps its samples; channels after c keep their own active flag, the one just below c is active if it or c was |
| ChannelOps.Insert | src/edit/channels.rs:20-27 | the channels kept, then one silent channel as long as the sound; the sound's length unchanged; the snapshot flipped |
| ChannelOps.InsertKeepsLen | src/edit/channels.rs:22-25 | appending silence as long as the sound keeps its length |
| Fx.RevChunk | src/edit/fx.rs:13 | a chunk read back to front by its runner: its samples from the last down to index 1, one fewer than it holds |
| Fx.Reversed | src/edit/fx.rs:10-22 | one result per channel |
| Fx.ReversibleWithoutEmptyBlocks | src/edit/fx.rs:12 | channels without empty blocks yield no empty chunk, so reverse never runs a runner over an empty block |
| Fx.RevBlocks | src/edit/fx.rs:12-15 | each chunk, turned around, as a block of its own; together they hold the reversed section |
| Fx.ReverseChannel | src/edit/fx.rs:12-17 | one channel with its region replaced by the reversed section |
| Fx.ReverseEach | src/edit/fx.rs:10-22 | the channel walk: active channels reversed, others kept |
| Fx.Reverse | src/edit/fx.rs:7-26 | every active channel has its sample region replaced by its chunks back to front, each read back to front; others kept; the snapshot flipped |
| Fx.RevSectionLen | src/edit/fx.rs:12-15 | the reversed section is one sample per chunk shorter than the region |
| Fx.ReversedLen | src/edit/fx.rs:12-17 | inside the channel, reverse shortens it by the number of chunks |
| Fx.ReversedPastEnd | src/edit/fx.rs:12-17 | a region running past the channel's end yields no chunks and truncates the channel at its start |
| Fx.ReversedInOneBlock | src/edit/fx.rs:12-17 | a region inside one block comes back as the samples before it, the region after its first sample turned around, and the rest |
| Fx.OneBlockChunk | src/blocks/sequence.rs:80-82 | a region inside one block is one chunk holding exactly its samples |
| SampleRates.ResampledAll | src/edit/sample_rates.rs:10-12 | one result per channel |
| SampleRates.ResampleEach | src/edit/sample_rates.rs:10-12 | every channel, active or not, becomes one block of its resampled samples |
| SampleRates.OneBlockSnoc | src/edit/sample_rates.rs:10-12 | appending the next channel's one resampled block extends what is done |
| SampleRates.Resample | src/edit/sample_rates.rs:6-17 | the new sound has the target rate cast to usize and as many channels, each one block holding its channel resampled by sample rate / target rate; the snapshot flipped |
| SampleRates.Pitched | src/edit/sample_rates.rs:24-33 | one result per channel |
| SampleRates.OutLenOfActive | src/edit/sample_rates.rs:20-27 | out_sel_len is 0 with no active channel, else the resampled length of an active channel |
| SampleRates.PitchChannel | src/edit/sample_rates.rs:26-28 | one channel with its region replaced by the region resampled, and that resampled length |
| SampleRates.PitchEach | src/edit/sample_rates.rs:24-33 | the channel walk: active channels pitched, others kept, and out_sel_len as the fold leaves it |
| SampleRates.PitchSelection | src/edit/sample_rates.rs:36-47 | only cursor and selection differ from the flipped snapshot |
| SampleRates.PitchKeepsBackwardStart | src/edit/sample_rates.rs:42-45 | a backward selection keeps its start and spans out_sel_len |
| SampleRates.PitchForward | src/edit/sample_rates.rs:38-46 | a forward selection spans out_sel_len from the kept cursor; without cursor and selection nothing changes |
| SampleRates.Pitch | src/edit/sample_rates.rs:19-50 | the region of every active channel is resampled in place, others kept; cursor and selection as PitchSelection with the last active channel's resampled length |
| SampleRates.PitchedLen | src/edit/sample_rates.rs:26-28 | inside a channel, pitch changes its length by the resampled length minus the region's |
| SlidingWindows.ModUnique | src/dsp/sliding_window.rs:17-18 | q laps plus a remainder below the lap size sits in that remainder's slot |
| SlidingWindows.ModLaps | src/dsp/sliding_window.rs:17-18 | moving by whole laps of the buffer does not change the slot |
| SlidingWindows.ModOfMod | src/dsp/sliding_window.rs:17-18 | reducing the head first does not change the slot it leads to |
| SlidingWindows.ModApart | src/dsp/sliding_window.rs:17-18 | values pushed fewer than a buffer apart sit in different slots |
| SlidingWindows.Slot | src/dsp/sliding_window.rs:17 | the slot holding what was pushed j pushes ago is a valid index |
| SlidingWindows.Window.constructor | src/dsp/sliding_window.rs:6-13 | all zeros with the head half way |
| SlidingWindows.Window.Push | src/dsp/sliding_window.rs:16-19 | the value goes half a buffer ahead of the head, the head moves on by one, and every earlier push stays in its slot |
| SlidingWindows.PushedSlot | src/dsp/sliding_window.rs:16-19 | after a push the slot j pushes back is the one j - 1 back before it |
| SlidingWindows.Window.Get | src/dsp/sliding_window.rs:21-30 | the slot idx away from the head, counting negative idx backwards; for idx inside the window, the value pushed size/2 - 1 - idx pushes ago |
| SlidingWindows.IterWindow.constructor | src/dsp/sliding_window.rs:40-52 | size/2 + 1 pulls: as much of the source as that reaches, then zeros, at most size/2 of them |
| SlidingWindows.IterWindow.Pull | src/dsp/sliding_window.rs:54-67 | once the padding is in nothing changes and the answer is true; otherwise the source's next value is pushed, or a zero that uses up one padding slot, and the answer says whether the padding is complete |
| Players.OutChannel | src/audio_sys/player.rs:42-51 | output slot i takes channel i, or the last channel past the sound's channels |
| Players.Voices | src/audio_sys/player.rs:42-52 | the first n output values for a play head, slot by slot |
| Players.InterpolateAt | src/audio_sys/player.rs:44-47 | the lerp of the samples at idx and idx + 1, missing ones read as 0 |
| Players.Interpolate | src/audio_sys/player.rs:38-47 | one channel's value at a play head: floor and fraction of the head pick and weigh the samples |
| Players.VoiceAtWholeHead | src/audio_sys/player.rs:38-47 | at a whole play head inside the channel the output is that sample |
| Players.VoiceBetween | src/audio_sys/player.rs:38-47 | at a non-negative play head the output lies between the two samples it interpolates |
| Players.ChannelVoiceBetween | src/audio_sys/player.rs:38-47 | the same for one channel |
| Players.VoiceAtBetween | src/audio_sys/player.rs:47 | a lerp with a fraction in [0, 1) lies between its two samples |
| Players.VoiceRepeatsLast | src/audio_sys/player.rs:49-51 | slots past the last channel copy the last channel's value |
| Players.VoiceOfChannel | src/audio_sys/player.rs:43-47 | slot i of the sound's channels takes channel i's value |
| Players.FillFrame | src/audio_sys/player.rs:42-52 | the slots of the frame get their values and nothing else in the buffer changes |
| Players.Player.constructor | src/audio_sys/player.rs:19-31 | the fields as given, with the ratio the sound's rate over the output rate |
| Players.Player.Advance | src/audio_sys/player.rs:57-68 | the head moves on by the ratio; without looping playing goes on only while the head is before the end; looping wraps a head at or past the end back by end - start and goes on |
| Players.Player.FillOuts | src/audio_sys/player.rs:37-53 | the frame gets the values for the current play head, the rest of the buffer is untouched |
| Players.Player.Tick | src/audio_sys/player.rs:55-69 | the frame is filled from the head as it was, then head and answer are one Advance of it |
| Players.Player.PlayPos | src/audio_sys/player.rs:71-73 | the whole part of the head, 0 below 1 |
| Players.Player.LoopStaysInRange | src/audio_sys/player.rs:57-66 | a looping player whose step fits its range keeps its head in [start, end) and never stops |
| Players.Player.StopsForGood | src/audio_sys/player.rs:57-62 | a non-looping player moving forward that stopped stays stopped and past the end |
| AudioSys.ClearBuffs | src/audio_sys/mod.rs:245-247 | every slot of the buffer is 0 |
| AudioSys.FillBuffs | src/audio_sys/mod.rs:249-258 | one tick per whole frame of two slots: the head ends where that many Advances take it, the answer is the last tick's (true with no frames), each frame holds the values for the head at its tick, and an odd last slot is untouched |
| AudioSys.FillMsgs | src/audio_sys/mod.rs:97-107 | one message about the player: Stop exactly when it did not keep on, else its position |
| AudioSys.Dispatch | src/audio_sys/mod.rs:111-130 | a Play request installs a new player; a Stop request for the playing id clears it; anything else keeps; at most one message, a Stop |
| AudioSys.DispatchStopsDropped | src/audio_sys/mod.rs:111-130 | a Stop message is sent for exactly the playing player when it is cleared or replaced by a player with another id |
| AudioSys.OneStopPerCallback | src/audio_sys/mod.rs:92-131 | one callback sends at most one Stop message |
| AudioSys.Callback | src/audio_sys/mod.rs:92-131 | the buffer is cleared then filled by the current player; the messages are the fill report then the dispatch's; the next player is the kept one, none, or a fresh player built from the Play request at the device rate |
| RulerCommands.SetRuler | src/lua/commands/ruler.rs:6-20 | only the ruler changes: a ruler of the given scale, else the current ruler's scale, else the sound's length, through Ruler::new; offset ⌊offset⌋, 0 when none is given |
| RulerCommands.PreviousMarkAt | src/lua/commands/ruler.rs:22-33 | 0 without a ruler; else the greatest mark at or below max(pos - 0.5, 0) |
| RulerCommands.NextMarkAt | src/lua/commands/ruler.rs:35-46 | the sound's end without a ruler; else the least mark after pos, capped at the end |
| RulerCommands.NearestMark | src/lua/commands/ruler.rs:48-68 | the previous mark when pos is no further from it than from the next, else the next |
| RulerCommands.NearestIsClosest | src/lua/commands/ruler.rs:60-67 | when the previous mark is not after pos the result is at least as close as either candidate, and a tie goes to the previous mark |
| RulerCommands.SlideRuler | src/lua/commands/ruler.rs:70-80 | without a ruler nothing changes; with one the spacing stays and ⌊amt⌋ becomes a mark |
| RulerCommands.RescaleRuler | src/lua/commands/ruler.rs:82-95 | 0 removes the ruler; a negative amount changes nothing; a positive one multiplies the spacing and keeps the offset |
| RulerCommands.TimeAt | src/lua/commands/ruler.rs:99-112 | inside [0, length]: the ruler's time point when it falls inside; without a ruler, FractionOf raw and the length |
| RulerCommands.FractionOf | src/lua/commands/ruler.rs:109 | inside [0, length], and exactly raw times the length for raw in [0, 1] |
| RulerCommands.SetRulerCmd | src/lua/commands/ruler.rs:6-20 | the editor's current snapshot becomes SetRuler of it and every snapshot below the top stays |
| RulerCommands.SlideRulerCmd | src/lua/commands/ruler.rs:70-80 | the editor's current snapshot becomes SlideRuler of it and every snapshot below the top stays |
| RulerCommands.RescaleRulerCmd | src/lua/commands/ruler.rs:82-95 | the editor's current snapshot becomes RescaleRuler of it and every snapshot below the top stays |
| NavCommands.FloorMono | src/lua/commands/nav.rs:13-14 | the floor keeps order |
| NavCommands.StepScale | src/lua/commands/nav.rs:9-10 | samples in view per pixel of the view's width, at least 1: the ratio or 1, whichever is larger, and exactly 1 for a negative width |
| NavCommands.StepTarget | src/lua/commands/nav.rs:12-14 | the cursor moved by amt steps lands on a whole sample inside the sound, not behind the cursor's sample for a forward step and not after the cursor for a backward one |
| NavCommands.Step | src/lua/commands/nav.rs:3-21 | nothing without a cursor, whatever the width; otherwise only the cursor moves, to the step target, and the selection goes |
| NavCommands.FeatherLen | src/lua/commands/nav.rs:32-34 | a whole length keeping the selection's far end at or before the sound's end (and at or after 0 for a whole cursor), growing with a forward step and shrinking with a backward one |
| NavCommands.FloorWhole | src/lua/commands/nav.rs:34 | a floor is a whole number |
| NavCommands.WholeNeg | src/lua/commands/nav.rs:34 | the negation of a whole number is whole |
| NavCommands.WholeAtMost | src/lua/commands/nav.rs:34 | a whole number at most x is at most ⌊x⌋ |
| NavCommands.Feather | src/lua/commands/nav.rs:23-44 | nothing without a cursor, whatever the width; otherwise only the selection changes, to the feathered length, dropped when it is 0 |
| NavCommands.LeftPoint | src/lua/commands/nav.rs:64-75 | 0 without a ruler; else the greatest mark at or before half a sample back from the far end, cut at 0 |
| NavCommands.RightPoint | src/lua/commands/nav.rs:98-110 | the sound's end without a ruler; else the least mark strictly after the far end, cut at the end |
| NavCommands.SpanTo | src/lua/commands/nav.rs:65-70 | no selection exactly when the point is the cursor, else the selection reaching the point |
| NavCommands.ExpandLeft | src/lua/commands/nav.rs:57-89 | nothing without a cursor; otherwise only the selection changes, to span from the cursor to the left point |
| NavCommands.ExpandRight | src/lua/commands/nav.rs:91-124 | nothing without a cursor; otherwise only the selection changes, to span from the cursor to the right point |
| NavCommands.ExpandLeftReaches | src/lua/commands/nav.rs:57-89 | the selected region afterwards runs between the cursor and the left point, which is at most half a sample back from the old far end or 0 |
| NavCommands.ExpandRightReaches | src/lua/commands/nav.rs:91-124 | the selected region afterwards runs between the cursor and the right point, which is past the old far end unless it is the sound's end |
| NavCommands.SelectLen | src/lua/commands/nav.rs:135-156 | nothing without a cursor; otherwise only the selection changes: its far end moves by amt, kept inside the sound |
| NavCommands.LookAt | src/lua/commands/nav.rs:170-184 | only zoom and slide change, so that the view is [a, b] cut to the sound |
| NavCommands.ViewOfFractions | src/lua/commands/nav.rs:178-181 | the view of the fractions start/len and (end - start)/len is [start, end] |
| NavCommands.CtxSound | src/edit.rs:38-40 | the editor's current snapshot is over a sound |
| NavCommands.StepCmd | src/lua/commands/nav.rs:3-21 | the editor's current snapshot becomes Step of it and every snapshot below the top stays |
| NavCommands.FeatherCmd | src/lua/commands/nav.rs:23-44 | the editor's current snapshot becomes Feather of it and every snapshot below the top stays |
| NavCommands.ClearCursor | src/lua/commands/nav.rs:46-54 | no cursor and no selection, so the sample region is the whole sound and every snapshot below the top stays |
| NavCommands.ExpandLeftCmd | src/lua/commands/nav.rs:57-89 | the editor's current snapshot becomes ExpandLeft of it and every snapshot below the top stays |
| NavCommands.ExpandRightCmd | src/lua/commands/nav.rs:91-124 | the editor's current snapshot becomes ExpandRight of it and every snapshot below the top stays |
| NavCommands.SetCursor | src/lua/commands/nav.rs:126-133 | the cursor at pos and no selection, so no selected region and every snapshot below the top stays |
| NavCommands.SelectLenCmd | src/lua/commands/nav.rs:135-156 | the editor's current snapshot becomes SelectLen of it and every snapshot below the top stays |
| NavCommands.SelectRegion | src/lua/commands/nav.rs:158-168 | the cursor at start with the selection end - start, so the selected region is the pair in order and every snapshot below the top stays |
| NavCommands.LookAtCmd | src/lua/commands/nav.rs:170-184 | the current snapshot becomes LookAt of it and the editor is dirty; the history and the path are unchanged |
| NavCommands.ZoomOut | src/lua/commands/nav.rs:222-231 | zoom 1 and slide 0, so the whole sound is in view, and the editor is dirty; the history and the path are unchanged |
| NavCommands.ZoomToSelected | src/lua/commands/nav.rs:233-247 | with no selection nothing changes; otherwise look_at the selected region, which becomes the view when it lies inside the sound; the history and the path are unchanged |
| TextInputs.Range | src/widgets/text_input/actions.rs:19-33 | a caret's range is empty at it; a selection's range runs from the lesser to the greater of anchor and anchor+len, and one reaching left of 0 wraps its start by 2^64 |
| TextInputs.FitsRange | src/widgets/text_input/actions.rs:19-33 | a cursor placed within the content has an ordered range inside it, as long as the selection, with the anchor at one end |
| TextInputs.Splice | src/widgets/text_input/actions.rs:140-144 | replacing start..end by ins keeps what is before start, puts ins next and then what followed end |
| TextInputs.Moved | src/widgets/text_input/actions.rs:52-115 | Home, End and the arrows keep a placed cursor placed, and every other key leaves it where it is |
| TextInputs.ArrowKeys | src/widgets/text_input/actions.rs:73-115 | plain arrows move the caret by one, stopping at either end; shift-arrows grow or shrink a selection by one, clamped to the content, and a one-character selection collapses to its anchor |
| TextInputs.ShiftLeftThenRight | src/widgets/text_input/actions.rs:157-219 | shift+left then shift+right gives back a caret or selection that has room on the left |
| TextInputs.ShiftRightThenLeft | src/widgets/text_input/actions.rs:157-219 | shift+right then shift+left gives back a caret or selection that has room on the right |
| TextInputs.NamedStep | src/widgets/text_input/actions.rs:43-239 | Enter answers Submit, Escape Cancel and every other key nothing; only Space and Backspace change the content; Enter and Escape keep the cursor; a placed cursor stays placed |
| TextInputs.EditKeys | src/widgets/text_input/actions.rs:116-123 | at a caret Space inserts a blank and Backspace drops the character before it (nothing at 0); over a selection they replace it by a blank or by nothing; the caret lands after the edit |
| TextInputs.SpaceThenBackspace | src/widgets/text_input/actions.rs:47-50 | Backspace right after Space at a caret gives back the content and the caret |
| TextInputs.HexRoundTrip | src/widgets/text_input/actions.rs:250-253 | the hexadecimal digits of a number read back as that number |
| TextInputs.EscapeUnicode | src/widgets/text_input/actions.rs:250-253 | the escape of a character is ASCII, starts with `\u{`, ends with `}` and its digits spell the code point |
| TextInputs.Typed | src/widgets/text_input/actions.rs:243-254 | typing never shortens the content |
| TextInputs.TypeOne | src/widgets/text_input/actions.rs:245-253 | fails exactly when an ASCII character is to go past the end; an ASCII character is spliced in at the caret with the caret after it; any other is appended after the whole content and the caret moves by what was appended |
| TextInputs.TypedStep | src/widgets/text_input/actions.rs:244-254 | typing from the i-th character is one step for that character and then typing the rest |
| TextInputs.TypedAscii | src/widgets/text_input/actions.rs:245-248 | ASCII text typed at a caret goes in back to front, every character at the same place, and the caret ends one past it |
| TextInputs.TypedOne | src/widgets/text_input/actions.rs:245-248 | one ASCII character is spliced in at the caret and the caret moves past it |
| TextInputs.TypedKeepsAscii | src/widgets/text_input/actions.rs:244-254 | typing keeps ASCII content ASCII, since other characters arrive escaped |
| TextInputs.TypedFits | src/widgets/text_input/actions.rs:244-254 | typing at a placed caret leaves a placed caret |
| TextInputs.TypeAt | src/widgets/text_input/actions.rs:244-254 | the loop over the characters computes exactly Typed |
| TextInputs.CharStep | src/widgets/text_input/actions.rs:241-265 | no reply; a selection is replaced by the typed text with the caret after it; a placed cursor stays placed |
| TextInputs.TextInput.constructor | src/widgets/text_input.rs:8-13 | unfocused, empty, caret at 0 |
| TextInputs.TextInput.Reset | src/widgets/text_input.rs:26-30 | unfocused, empty, caret at 0, which is placed |
| TextInputs.TextInput.Focus | src/widgets/text_input.rs:36-38 | focused, with content and cursor unchanged |
| TextInputs.TextInput.NamedKeys | src/widgets/text_input/actions.rs:43-239 | content, cursor and reply become NamedStep of the old ones; focus is kept and a placed cursor stays placed |
| TextInputs.TextInput.CharKey | src/widgets/text_input/actions.rs:241-265 | content, cursor and reply become CharStep of the old ones; focus is kept and a placed cursor stays placed |
| TextInputs.TextInput.Update | src/widgets/text_input.rs:40-78 | keys go to NamedStep or CharStep; RequestFocus answers TakeFocus; SelectAll selects a non-empty content; SetCursor and SetSelection act only when focused, the caret clamped to the content; all but SetSelection keep a placed cursor placed |
| TextInputs.TypeTwo | src/widgets/text_input/actions.rs:245-248 | typing "ab" into an empty input gives "ba" with the caret at 1 |
| CmdLines.CmdLine.constructor | src/widgets/cmd_line.rs:6-10 | inactive and empty |
| CmdLines.CmdLine.Update | src/widgets/cmd_line.rs:24-46 | an edit replaces the text and runs nothing; Submit runs the old text and leaves the line empty and inactive; Quit runs nothing and leaves it empty and inactive |
| CmdLines.TypeThenSubmit | src/widgets/cmd_line.rs:26-37 | the text typed last is the command that submitting runs |
| CmdLines.TypeQuitSubmit | src/widgets/cmd_line.rs:31-44 | after quitting, a submit runs the empty command |

## Left out

- Floating point: `f32` samples and `f64` positions are exact reals. Rounding, `mul_add` fusing and NaN/infinity are not modelled. `fract`, `floor` and `ceil` are the exact real operations.
- Snds.Snd.Seconds: requires a sample rate above 0. The source would divide by zero.
- Amp.Normalize: a peak of 0 gives no edit (`None`). The source divides by zero and applies an infinite or NaN gain.
- Channel masks: the edits that take a `Ctx` through `Valid()` (gain, fade, normalize, paste, mix, copy, delete and crop of a region, reverse, pitch, resample, and ChannelOps.Insert) require at most 32 channels. `Mask::is_on` shifts a `u32` by the channel index, which overflows beyond that. ChannelOps.Solo and ChannelOps.Delete do not carry this requirement. They pick channels by index, yet the source's `seqs()` still calls `is_on` for every channel (ctx.rs:94-96), so with more than 32 channels the model gives a result where the source would overflow.
- EditUtil.InsertMultichannel: requires at least one channel in the inserted sound. The source's `channels() - 1` underflows otherwise. EditUtil.ReplaceMultichannel and Paste.MixIn have the same requirement.
- SampleRates.Resample: the resampling kernel (windowed sinc or linear interpolation from an external crate) is a function parameter, and nothing is assumed of it. The rate must be non-zero.
- SequenceOps.Summary: requires `st < len` when `st > end`. For a reversed range from the end of the channel, the source unwraps a missing sample and panics (sequence.rs:49-51).
- Chunking.Chunker.constructor: requires `from <= to` unless `from` is at or past the end of the channel. A reversed range inside the channel is excluded. On such a range the first chunk would cut its block from `start - i` back to `end - i`, and that reversed `rng` underflows or panics (sequence.rs:185-187). Chunking.Chunks has the same requirement.
- Chunking.Chunks: see Chunking.Chunker.constructor. A reversed range inside the channel is excluded.
- Chunking.ChunksOk: assumes `s <= e` or `s` at or past the end of the channel. A reversed range inside the channel is excluded, as for Chunking.Chunker.constructor.
- Chunking.Chunker.NextBack: requires `start <= end`. A chunker the constructor built over a reversed range (start past the channel's end) cannot be read from the back. The source's `next_back` returns nothing there when end is past the channel's end too, and otherwise cuts a reversed range from end's block (sequence.rs:208-210). Every range the source resolves through `sample_range` is ordered, so no call site reaches this case.
- ArcBlocks.ArcBlock.Rng: requires `RngOk`, that the clamped cut keeps its start at or below its end. The source accepts a reversed range: it clamps both ends and builds a block with start > end, whose `len` (`end - start`) underflows later. Blocks.Block.Rng has the same requirement.
- SilentBlocks.SilentBlock.Rng: requires the range's start to be at most its end, because the source's `end - start` underflows otherwise.
- Blocks.BlockRunner.NextBack: requires `end >= 1`. The source decrements `end` first (block.rs:105), which underflows when it is 0.
- Fx.Reverse: requires that no chunk in the range is empty (`Reversible`). The block runner's `next_back` underflows on an empty chunk. As in the source, each reversed chunk loses its first sample, because `next_back` stops before index 0.
- SlidingWindows.Window.constructor: a window of size 0 is excluded, because `push` would divide by zero. SlidingWindows.Window.Get requires `idx >= -size`, because the source's index arithmetic underflows otherwise.
- SlidingWindows.IterWindow.constructor: the wrapped iterator is a finite sequence of samples.
- Players.Player.constructor: requires a non-zero output sample rate. The ratio is an `f64` division that would be infinite. AudioSys.Callback has the same requirement. A sound without channels cannot fill a frame.
- Amp.LinFade: when the sample region is empty, the source's step divides by `e - s` = 0. The model takes the step as 0. Nothing is mapped over an empty region, so the result is the same.
- NavCommands.Step: with a cursor, requires a non-zero width. At width 0 the source's scale is infinite (or NaN turned into 1 by `max`), and the step can move the cursor by an infinite or NaN amount, which reals cannot hold. A negative width is modelled: its scale is 1. Without a cursor any width is accepted and nothing changes. NavCommands.StepScale, NavCommands.Feather, NavCommands.StepCmd and NavCommands.FeatherCmd have the same requirement.
- NavCommands.LookAt: requires a sound longer than 0. The zoom divides by the length. NavCommands.LookAtCmd and NavCommands.ZoomToSelected have the same requirement.
- NavCommands.LeftPoint: a ruler is assumed to have a positive grid scale (`RulerOk`). `Ruler::new` clamps the scale to at least 1 and `rescale` ignores non-positive factors, so the source never builds another kind. The ruler-based commands share this assumption.
- TextInputs.TextInput.NamedKeys: requires `NamedDefined`, because otherwise `insert`, `remove` or `len - pt` panic in the source. TextInputs.TextInput.CharKey (`CharDefined`) and TextInputs.TextInput.Update have the same kind of requirement.
- TextInputs.Range: positions count characters, not UTF-8 bytes. `usize` wrap-around is modelled only in `Range`, where a negative start is cast to `usize`.
- TextInputs.TextInput.Update: a `SetSelection` message can leave the cursor outside the content, as in the source. The placement invariant is not claimed for it.
- Keystates.Keystate.KeyUp: as written, it never removes a key. The model keeps that behaviour, and Keystates.PressRelease exhibits it.
- ChannelMasks.Mask.ShiftAfter: as written, it ORs bit c into bit c-1. The model keeps that behaviour. ChannelMasks.ShiftAfterOrsDown exhibits it: deleting channel 1 of mask 2 turns channel 0 on. ChannelOps.DeleteKeepsFlags states it for every deletion.
- Lua glue is not modelled: argument conversion and the editor lookup. The commands are modelled as methods on an `Editor`.
- Other parts not modelled: the `mpsc` channels between the GUI and the audio thread, stream and device I/O, WAV decoding and encoding, and the GUI views and widget rendering.
- Query commands are the snapshot's own functions: cursor, selection, selected region and total length. This also covers the editor's `path()`, the player's `id()`, the sliding window's `buff()`, and the text input and command line `view`.
