# dRowAudio core, modelled in Dafny

This project models four components of the dRowAudio JUCE module and proves properties of the model.

- **`CascadedBiquadFilter`** (`cascade.dfy`, on top of `biquad.dfy`).
  - It is an owned, ordered list of biquad sections.
  - `setOrder` grows the list by appending copies of the last section and shrinks it from the tail.
  - Processing (block and single sample) runs the sections in list order.
  - Every `make…` design call is skipped when its frequency equals the remembered `currentFrequency`.
  - A section is a value made of:
    - the record of the last design call it received (shape, sample rate, frequency, Q, gain);
    - its delay line.

    The per-sample difference equation is a function parameter `StepFn`.
- **`FilteringAudioSource`** (`filtering.dfy`). A three-band equaliser stage that holds:
  - three gains, a sample rate and an enable flag;
  - six sections: low, mid and high, for the left and the right channel.

  The gain setters and `prepareToPlay` redesign the sections. `getNextAudioBlock` does one of three things:
  - clears the active region when there is no upstream source;
  - passes the upstream block through when filtering is off;
  - otherwise, filters channel 0 through lowL, midL, highL and channel 1 through lowR, midR, highR, in place.
- **`MultipleAudioThumbnailCache`** (`thumbcache.dfy`). A list of (hash, last-used clock value, serialised data) entries bounded by a capacity. It provides:
  - lookup from the end of the list;
  - store that overwrites the entry with the same hash, appends below capacity, and otherwise evicts the least recently used entry;
  - touch-on-load;
  - clear.
- **The sort comparators** (`comparators.dfy`). These are the `compareElements` functions of:
  - `ValueTreeComparators::Lexicographic`, `Numerical` and `LexicographicWithBackup`;
  - `XmlComparators::LexicographicSorter` and `NumberDataSorter`.

  They are modelled over maps from attribute name to attribute text. The library's string comparison and number conversion are parameters.

The classes keep their state in fields that their methods reassign:
- sections are values held in `seq` fields;
- sample buffers are `array<real>`, processed in place.

Each method is specified against a function on values:
- `Resized`, `Redesigned`, `CascadeBlock`, `CascadeSample` and `BandChain` for the filters;
- `Find`, `Oldest`, `Stored` and `Touched` for the cache.

The lemmas state what the source promises about those functions.

Where the code and its documented intent disagree, the model follows the code:
- **No clamp in `setOrder`.** It does not clamp the order to [1, 10]. The clamp's result is discarded at `dRowAudio/audio/filters/dRowAudio_CascadedBiquadFilter.cpp:44`.
- **No remembered shape.** The design calls remember only the frequency, not the shape. A change of shape at an unchanged frequency is therefore ignored. The method `Cascade.ShapeChangeAtSameFrequencyIsIgnored` demonstrates this.
- **`prepareToPlay` reverts the setters' frequencies.** It redesigns every band with the construction frequencies and Q (70/1000/1300 Hz, Q 1.5). This undoes the 500/2000/3500 Hz, Q 1 designs of the gain setters. The method `Filtering.PrepareToPlayUndoesGainSetterFrequency` demonstrates this.

## Model

| member | source | states |
|---|---|---|
| Biquad.ProcessSingleSample | dRowAudio/audio/filters/dRowAudio_CascadedBiquadFilter.cpp:77 | one sample step of a section never changes its design |
| Biquad.RunBlock | dRowAudio/audio/filters/dRowAudio_CascadedBiquadFilter.cpp:69 | a section's block output has one sample per input sample, and the section keeps its design |
| Biquad.RunBlockSingle | dRowAudio/audio/filters/dRowAudio_CascadedBiquadFilter.cpp:69 | a one-sample block is exactly one single-sample step |
| Biquad.RunBlockSplit | dRowAudio/audio/filters/dRowAudio_CascadedBiquadFilter.cpp:69 | processing a block in two pieces, the second starting from the delay line the first left, equals processing it whole |
| Biquad.RunBlockPrefix | dRowAudio/audio/filters/dRowAudio_CascadedBiquadFilter.cpp:69 | causality: the first k outputs depend only on the first k inputs |
| Biquad.ProcessSamples | dRowAudio/audio/dRowAudio_FilteringAudioSource.cpp:119 | in-place block processing replaces exactly the `count` samples from `offset` on by the section's output; the rest of the buffer is kept, and the section's new state is returned |
| Cascade.Resized | dRowAudio/audio/filters/dRowAudio_CascadedBiquadFilter.cpp:39-63 | after `setOrder(n)` the list has max(n, 0) sections; the first ones are the old sections, and every appended one equals the old last section (coefficients and delay line) |
| Cascade.ResizedSameOrder | dRowAudio/audio/filters/dRowAudio_CascadedBiquadFilter.cpp:41 | `setOrder(currentOrder)` changes nothing |
| Cascade.ResizedKeepsSameDesign | dRowAudio/audio/filters/dRowAudio_CascadedBiquadFilter.cpp:48-53 | growth copies coefficients, so a cascade whose sections share one design keeps sharing it |
| Cascade.GrowThenShrink | dRowAudio/audio/filters/dRowAudio_CascadedBiquadFilter.cpp:46-60 | growing and then shrinking back to the old order restores the old list |
| Cascade.ResizeTwice | dRowAudio/audio/filters/dRowAudio_CascadedBiquadFilter.cpp:55-60 | shrinking removes only tail sections: two resizes, the second no larger, equal one resize |
| Cascade.Redesigned | dRowAudio/audio/filters/dRowAudio_CascadedBiquadFilter.cpp:85-88 | a design call gives every section the same new design and keeps every delay line |
| Cascade.RedesignIdempotent | dRowAudio/audio/filters/dRowAudio_CascadedBiquadFilter.cpp:85-89 | redesigning twice with the same parameters is redesigning once |
| Cascade.CascadeSample | dRowAudio/audio/filters/dRowAudio_CascadedBiquadFilter.cpp:73-80 | folding one sample through the sections keeps the section count and every section's design |
| Cascade.CascadeBlock | dRowAudio/audio/filters/dRowAudio_CascadedBiquadFilter.cpp:65-71 | running the block through each section in turn keeps the block length, the section count and every section's design |
| Cascade.CascadeSeries | dRowAudio/audio/filters/dRowAudio_CascadedBiquadFilter.cpp:65-71 | two cascades connected in series are the cascade of the concatenated section lists |
| Cascade.CascadeBlockOfOneSample | dRowAudio/audio/filters/dRowAudio_CascadedBiquadFilter.cpp:65-80 | block processing of a one-sample block agrees with `processSingleSampleRaw` on the output and on every section's new state |
| Cascade.CascadeBlockStep | dRowAudio/audio/filters/dRowAudio_CascadedBiquadFilter.cpp:68-70 | appending section i runs it on the output of sections 0..i-1 |
| Cascade.ThreeSectionChain | dRowAudio/audio/filters/dRowAudio_CascadedBiquadFilter.cpp:68-70 | a three-section cascade is its three sections run one after another on the previous output |
| Cascade.CascadeBlockKeepsSameDesign | dRowAudio/audio/filters/dRowAudio_CascadedBiquadFilter.cpp:65-71 | block processing keeps a shared design shared |
| Cascade.CascadeSampleKeepsSameDesign | dRowAudio/audio/filters/dRowAudio_CascadedBiquadFilter.cpp:73-80 | single-sample processing keeps a shared design shared |
| Cascade.RunSections | dRowAudio/audio/filters/dRowAudio_CascadedBiquadFilter.cpp:68-70 | the in-place loop over sections leaves in the buffer, and in the sections, exactly the cascade's block result; samples past `numSamples` are kept |
| Cascade.StepSections | dRowAudio/audio/filters/dRowAudio_CascadedBiquadFilter.cpp:75-79 | the loop over sections returns exactly the cascade's single-sample result and new sections |
| Cascade.CascadedBiquadFilter.constructor | dRowAudio/audio/filters/dRowAudio_CascadedBiquadFilter.cpp:27-32 | a new cascade holds one fresh section, order 1, remembered frequency 0 |
| Cascade.CascadedBiquadFilter.SetOrder | dRowAudio/audio/filters/dRowAudio_CascadedBiquadFilter.cpp:39-63 | the sections become `Resized(old, n)`, order equals section count (n for n >= 1, no clamp), frequency kept, shared design kept |
| Cascade.CascadedBiquadFilter.ProcessSamples | dRowAudio/audio/filters/dRowAudio_CascadedBiquadFilter.cpp:65-71 | buffer and sections become the block cascade result of the first `numSamples` samples; order and frequency are kept |
| Cascade.CascadedBiquadFilter.ProcessSingleSampleRaw | dRowAudio/audio/filters/dRowAudio_CascadedBiquadFilter.cpp:73-80 | the result is the sample folded through sections 0..order-1 in index order |
| Cascade.CascadedBiquadFilter.Redesign | dRowAudio/audio/filters/dRowAudio_CascadedBiquadFilter.cpp:85-89 | the shared guard: a call at the remembered frequency changes nothing; otherwise all sections get the design and the frequency is remembered |
| Cascade.CascadedBiquadFilter.MakeLowPass | dRowAudio/audio/filters/dRowAudio_CascadedBiquadFilter.cpp:82-90 | skipped at the remembered frequency, else every section becomes a low-pass design at that frequency |
| Cascade.CascadedBiquadFilter.MakeHighPass | dRowAudio/audio/filters/dRowAudio_CascadedBiquadFilter.cpp:92-100 | as above, high-pass |
| Cascade.CascadedBiquadFilter.MakeBandPass | dRowAudio/audio/filters/dRowAudio_CascadedBiquadFilter.cpp:102-111 | as above, band-pass with Q |
| Cascade.CascadedBiquadFilter.MakeBandStop | dRowAudio/audio/filters/dRowAudio_CascadedBiquadFilter.cpp:113-122 | as above, band-stop with Q |
| Cascade.CascadedBiquadFilter.MakePeakNotch | dRowAudio/audio/filters/dRowAudio_CascadedBiquadFilter.cpp:124-134 | as above, peak/notch with Q and gain, guarded on the centre frequency |
| Cascade.CascadedBiquadFilter.MakeAllpass | dRowAudio/audio/filters/dRowAudio_CascadedBiquadFilter.cpp:136-145 | as above, all-pass with Q |
| Filtering.WriteRegion | dRowAudio/audio/dRowAudio_FilteringAudioSource.cpp:129 | one channel's active region receives the block; the rest of the channel is kept |
| Filtering.WriteChannels | dRowAudio/audio/dRowAudio_FilteringAudioSource.cpp:110 | every channel's active region receives its block; everything outside the region is kept |
| Filtering.ProcessPair | dRowAudio/audio/dRowAudio_FilteringAudioSource.cpp:119-124 | one band processes the left region, then the right region, in place; each region becomes that section's block output |
| Filtering.BandChain | dRowAudio/audio/dRowAudio_FilteringAudioSource.cpp:119-124 | a channel's low-mid-high chain keeps the block length and every band's design |
| Filtering.BandChainIsCascade | dRowAudio/audio/dRowAudio_FilteringAudioSource.cpp:119-124 | a channel's band chain is the cascade of its three sections |
| Filtering.FilterStereo | dRowAudio/audio/dRowAudio_FilteringAudioSource.cpp:115-124 | the six calls, in source order, leave channel 0's region equal to the left chain's output and channel 1's equal to the right chain's |
| Filtering.RenderStereo | dRowAudio/audio/dRowAudio_FilteringAudioSource.cpp:108-125 | upstream block written, then channels 0 and 1 filtered; other channels hold the upstream block |
| Filtering.FilteringAudioSource.constructor | dRowAudio/audio/dRowAudio_FilteringAudioSource.cpp:24-41 | gains 1, sample rate 44100, filtering on; low/mid/high are LowShelf 70 / BandPass 1000 / HighShelf 1300 at Q 1.5, the same on both channels |
| Filtering.FilteringAudioSource.SetLowEQGain | dRowAudio/audio/dRowAudio_FilteringAudioSource.cpp:49-55 | the gain is stored and both low filters become LowShelf 500 Hz, Q 1, at that gain; nothing else changes |
| Filtering.FilteringAudioSource.SetMidEQGain | dRowAudio/audio/dRowAudio_FilteringAudioSource.cpp:57-63 | likewise for the mid band: BandPass 2000 Hz, Q 1 |
| Filtering.FilteringAudioSource.SetHighEQGain | dRowAudio/audio/dRowAudio_FilteringAudioSource.cpp:65-71 | likewise for the high band: HighShelf 3500 Hz, Q 1 |
| Filtering.FilteringAudioSource.SetFilterSource | dRowAudio/audio/dRowAudio_FilteringAudioSource.cpp:73-76 | only the flag changes; designs and gains are untouched |
| Filtering.FilteringAudioSource.PrepareToPlay | dRowAudio/audio/dRowAudio_FilteringAudioSource.cpp:78-94 | the sample rate is stored and all six filters are redesigned at the construction frequencies and Q with the current gains |
| Filtering.FilteringAudioSource.ReleaseResources | dRowAudio/audio/dRowAudio_FilteringAudioSource.cpp:96-102 | the stage's own state is unchanged |
| Filtering.FilteringAudioSource.GetNextAudioBlock | dRowAudio/audio/dRowAudio_FilteringAudioSource.cpp:104-131 | no input: region cleared; input and filtering off: region is the upstream block; filtering on: channels 0 and 1 and the six filters are the two band chains' results, other channels hold the upstream block; left and right designs stay equal |
| Filtering.FilteringAudioSource.RenderFiltered | dRowAudio/audio/dRowAudio_FilteringAudioSource.cpp:112-125 | the filtering branch: the six filters become the chains' new states and channels 0 and 1 the chains' outputs |
| ThumbnailCache.FindBelow | dRowAudio/gui/audiothumbnail/dRowAudio_MultipleAudioThumbnailCache.cpp:47-51 | the scan below n yields the highest index with the hash, and nothing exactly when no entry below n has it |
| ThumbnailCache.Find | dRowAudio/gui/audiothumbnail/dRowAudio_MultipleAudioThumbnailCache.cpp:45-52 | lookup gives the last entry with the hash, and nothing exactly when the hash is absent |
| ThumbnailCache.FindUnique | dRowAudio/gui/audiothumbnail/dRowAudio_MultipleAudioThumbnailCache.cpp:45-52 | with distinct hashes lookup finds the one entry holding the hash |
| ThumbnailCache.OldestBelow | dRowAudio/gui/audiothumbnail/dRowAudio_MultipleAudioThumbnailCache.cpp:105-112 | the downward scan with strict `<` either keeps its start or picks the least clock value, the highest index among ties |
| ThumbnailCache.Oldest | dRowAudio/gui/audiothumbnail/dRowAudio_MultipleAudioThumbnailCache.cpp:102-112 | the scan starts at index 0 with time `now + 1`; the victim of a non-empty list is within the list |
| ThumbnailCache.OldestIsLeastRecentlyUsed | dRowAudio/gui/audiothumbnail/dRowAudio_MultipleAudioThumbnailCache.cpp:100-114 | the victim holds the minimum clock value and no later entry shares it; index 0 when no entry was used at or before `now` |
| ThumbnailCache.Slot | dRowAudio/gui/audiothumbnail/dRowAudio_MultipleAudioThumbnailCache.cpp:89-115 | the slot a store writes to is within the list or just past its end |
| ThumbnailCache.Stored | dRowAudio/gui/audiothumbnail/dRowAudio_MultipleAudioThumbnailCache.cpp:86-122 | a store grows the list by at most one and leaves the entry (hash, now, data) in it |
| ThumbnailCache.StoredWritesOneSlot | dRowAudio/gui/audiothumbnail/dRowAudio_MultipleAudioThumbnailCache.cpp:86-122 | a store writes one entry (hash, now, data), grows the list by at most one and leaves every other entry as it was |
| ThumbnailCache.StoredIsFound | dRowAudio/gui/audiothumbnail/dRowAudio_MultipleAudioThumbnailCache.cpp:118-121 | after a store the hash is found, with clock value `now` and the stored data |
| ThumbnailCache.StoredHitKeepsSize | dRowAudio/gui/audiothumbnail/dRowAudio_MultipleAudioThumbnailCache.cpp:89-91 | storing a hash already present keeps the size |
| ThumbnailCache.StoredMissWhenFullEvicts | dRowAudio/gui/audiothumbnail/dRowAudio_MultipleAudioThumbnailCache.cpp:100-115 | a new hash in a full cache replaces the victim in place and keeps the size |
| ThumbnailCache.StoredKeepsUnique | dRowAudio/gui/audiothumbnail/dRowAudio_MultipleAudioThumbnailCache.cpp:89-99 | hashes stay pairwise distinct, because an entry is created only when lookup fails |
| ThumbnailCache.StoredKeepsBound | dRowAudio/gui/audiothumbnail/dRowAudio_MultipleAudioThumbnailCache.cpp:96-115 | the size never exceeds the capacity (or one, for a capacity below one) |
| ThumbnailCache.Touched | dRowAudio/gui/audiothumbnail/dRowAudio_MultipleAudioThumbnailCache.cpp:56-60 | a load keeps size, hashes and data; only the found entry's clock value changes, to `now` |
| ThumbnailCache.TouchedKeepsUnique | dRowAudio/gui/audiothumbnail/dRowAudio_MultipleAudioThumbnailCache.cpp:54-68 | a load keeps the hashes distinct |
| ThumbnailCache.MultipleAudioThumbnailCache.constructor | dRowAudio/gui/audiothumbnail/dRowAudio_MultipleAudioThumbnailCache.cpp:34-39 | a new cache is empty with the given capacity |
| ThumbnailCache.MultipleAudioThumbnailCache.FindThumbFor | dRowAudio/gui/audiothumbnail/dRowAudio_MultipleAudioThumbnailCache.cpp:45-52 | the downward loop returns an entry with the hash if one exists and nothing otherwise |
| ThumbnailCache.MultipleAudioThumbnailCache.LoadThumb | dRowAudio/gui/audiothumbnail/dRowAudio_MultipleAudioThumbnailCache.cpp:54-68 | true iff the hash is present; on a hit the found entry's data is returned and only its clock value changes |
| ThumbnailCache.MultipleAudioThumbnailCache.FindOldest | dRowAudio/gui/audiothumbnail/dRowAudio_MultipleAudioThumbnailCache.cpp:102-112 | the eviction loop returns the victim `Oldest` |
| ThumbnailCache.MultipleAudioThumbnailCache.StoreThumb | dRowAudio/gui/audiothumbnail/dRowAudio_MultipleAudioThumbnailCache.cpp:86-122 | the list becomes `Stored(old, capacity, hash, data, now)`, keeping distinct hashes and the size bound |
| ThumbnailCache.MultipleAudioThumbnailCache.AddEntry | dRowAudio/gui/audiothumbnail/dRowAudio_MultipleAudioThumbnailCache.cpp:91-116 | a new entry goes to the slot `Slot` names: appended below capacity, otherwise written over the victim |
| ThumbnailCache.MultipleAudioThumbnailCache.Clear | dRowAudio/gui/audiothumbnail/dRowAudio_MultipleAudioThumbnailCache.cpp:161-164 | the cache is empty |
| AttributeSort.DirectionOf | dRowAudio/utility/dRowAudio_Comparators.h:31 | the direction is 1 exactly when sorting forwards, else -1 |
| ValueTreeComparators.NewLexicographic | dRowAudio/utility/dRowAudio_Comparators.h:29-33 | the comparator keeps the attribute and has direction 1 exactly when forwards |
| ValueTreeComparators.Lexicographic.CompareElements | dRowAudio/utility/dRowAudio_Comparators.h:35-42 | the result is 0 iff the attribute texts compare equal, and its sign is the direction times the comparison's sign |
| ValueTreeComparators.NewNumerical | dRowAudio/utility/dRowAudio_Comparators.h:52-56 | the comparator keeps the attribute and has direction 1 exactly when forwards |
| ValueTreeComparators.Numerical.CompareElements | dRowAudio/utility/dRowAudio_Comparators.h:58-65 | never 0: +direction iff the first value is greater, otherwise -direction |
| ValueTreeComparators.NewLexicographicWithBackup | dRowAudio/utility/dRowAudio_Comparators.h:75-80 | the comparator keeps both attributes and has direction 1 exactly when forwards |
| ValueTreeComparators.LexicographicWithBackup.CompareElements | dRowAudio/utility/dRowAudio_Comparators.h:82-92 | a primary difference decides the sign; the result is 0 iff both the primary and the backup texts compare equal |
| ValueTreeComparators.BackwardsNegates | dRowAudio/utility/dRowAudio_Comparators.h:29-92 | for each value-tree comparator, sorting backwards negates every result |
| ValueTreeComparators.LexicographicAntisymmetric | dRowAudio/utility/dRowAudio_Comparators.h:35-42 | an anti-symmetric string comparison makes the comparator anti-symmetric |
| ValueTreeComparators.WithBackupAntisymmetric | dRowAudio/utility/dRowAudio_Comparators.h:82-92 | an anti-symmetric string comparison makes the comparator anti-symmetric |
| ValueTreeComparators.WithBackupIgnoresBackupUnlessTie | dRowAudio/utility/dRowAudio_Comparators.h:86-89 | when the primary texts differ in the comparison, the backup values do not affect the result |
| ValueTreeComparators.WithBackupOnTie | dRowAudio/utility/dRowAudio_Comparators.h:88-91 | on a primary tie the result is the direction times the backup comparison |
| ValueTreeComparators.NumericalSelfCompare | dRowAudio/utility/dRowAudio_Comparators.h:62-64 | an element compared with itself gives -direction, so anti-symmetry fails on it |
| ValueTreeComparators.NumericalEqualValuesNotAntisymmetric | dRowAudio/utility/dRowAudio_Comparators.h:62-64 | two elements with equal values give -direction in both orders |
| XmlComparators.NewLexicographicSorter | dRowAudio/utility/dRowAudio_Comparators.h:109-113 | the comparator keeps the attribute and has direction 1 exactly when forwards |
| XmlComparators.LexicographicSorter.CompareElements | dRowAudio/utility/dRowAudio_Comparators.h:115-125 | a primary difference decides the sign; the result is 0 iff both the primary and the "ID" texts compare equal |
| XmlComparators.NewNumberDataSorter | dRowAudio/utility/dRowAudio_Comparators.h:137-141 | the comparator keeps the attribute and has direction 1 exactly when forwards |
| XmlComparators.NumberDataSorter.CompareElements | dRowAudio/utility/dRowAudio_Comparators.h:143-158 | never 0; -direction when either attribute is empty; otherwise +direction iff the first value is greater |
| XmlComparators.BackwardsNegates | dRowAudio/utility/dRowAudio_Comparators.h:109-158 | for both XML comparators, sorting backwards negates every result |
| XmlComparators.SorterIsWithBackupOnId | dRowAudio/utility/dRowAudio_Comparators.h:115-125 | the XML sorter equals the value-tree comparator with "ID" as its backup attribute |
| XmlComparators.SorterAntisymmetric | dRowAudio/utility/dRowAudio_Comparators.h:115-125 | an anti-symmetric string comparison makes the XML sorter anti-symmetric |
| XmlComparators.NumberDataSorterMissingNotAntisymmetric | dRowAudio/utility/dRowAudio_Comparators.h:145-148 | a missing attribute gives -direction in both orders |

## Left out

- **BiquadFilter design formulas and difference equation.** The coefficient formulas and the difference equation of `BiquadFilter` are not part of this model. A design is the record of the call's arguments, and one sample step is the parameter `StepFn`. `BiquadFilter::processSamples` is taken to be `processSingleSampleRaw` applied to each sample in turn with the same `StepFn`; `Cascade.CascadeBlockOfOneSample` depends on that. Design calls that pass no Q or gain record `None` for it.
- **Floating point.** All sample arithmetic is over `real`. There is no `float`/`double` rounding, and `float` gains are stored as reals.
- **Concurrency.** The `SpinLock` and the unlocked gain setters racing the render callback are not modelled; every call is sequential.
- **The upstream `AudioSource`.**
  - `getNextAudioBlock` takes the upstream block as the parameter `upstream`.
  - The calls `prepareToPlay` and `releaseResources` forward to the input are not modelled.
  - The constructor's `deleteInputWhenDeleted` and `numChannels` arguments have no effect on the model (the latter is unused in the source too).
- **Thumbnail serialisation.** `saveTo`/`loadFrom` through memory streams is not modelled. A thumbnail is the byte string it serialises to; `LoadThumb` returns those bytes.
- **The cache's thread.** The `TimeSliceThread` base of the cache is not modelled.
- **The millisecond clock.**
  - The clock is the parameter `now`, one value per call. `storeThumb` reads the counter twice (lines 103 and 118); both readings are the same `now`.
  - The `uint32` wrap of `now + 1` and of the clock value are not modelled.
- **Hash width.** The 64-bit hash is an unbounded `int`. Nothing in the cache computes with it.
- **Attribute values.** `ValueTree` attribute values (`var`) and XML attributes are modelled as their text. A missing attribute reads as the empty string. `compareLexicographically`, `var`-to-`double` and `getDoubleValue` are parameters.
- **Cascade.CascadedBiquadFilter.SetOrder:** requires that the cascade is not grown from zero sections. The source would copy from index -1 there. Clamping and non-positive orders are modelled as the code does them.
- **Filtering.FilteringAudioSource.GetNextAudioBlock:** requires at least two channels when filtering, because the source takes the sample pointer of channel 1. The upstream block is taken to fill every channel's active region.
- **Other repository files.** The file browser, the drop target and the waveform display are UI code and are not part of this model.
