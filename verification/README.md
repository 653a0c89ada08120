# MusicVisualizer: the audio-to-uniform mapping, in Dafny

This project models the per-frame logic of an audio-reactive 3D visualizer.
Each animation tick, the `Visualizer` reads two things from an audio analyser:

- an average frequency;
- a frame of 2048 byte magnitudes (half of the 4096-point FFT).

From these it derives three uniform values:

- a spike scalar, `max(avg - 100, 0) / 50`;
- a spike profile of bucket means over the normalised frame;
- a twelve-channel colour profile, taken from fixed bin groups.

It writes all three values into the uniform table of every registered mesh.
The model also covers:

- the initial two-ball scene;
- the ball-selection handler, which shows exactly the mesh with the selected name;
- the render loop's two-level glitch-factor switch.

All arithmetic uses exact reals. The modules follow the program's structure:

- `Frame`: frame size, bytes, normalisation, sums and means;
- `Spike`: the spike scalar and profile, including the source's double loop as a method;
- `Color`: the colour profile and its calibration groups;
- `AudioVisualizer`: meshes, uniform tables, the constructor and the two broadcasting updates;
- `Scene`: the initial scene, ball selection, JavaScript's `>` on the glitch operand, and one tick.

The spike profile follows the code. `FFT_SIZE/64` suggests 64 buckets, but it
is the slice size: the loop walks `FFT_SIZE/2 = 2048` bins in steps of 64, so
it produces 32 buckets of 64 bins each.

## Model

| member | source | states |
|---|---|---|
| Frame.Normalize | src/main.js:120 | each byte becomes a value in [0,1]; scaling it back by 255 gives the byte; length is kept |
| Spike.Scalar | src/main.js:119 | never negative; zero whenever the average is at most 100; above 100, the average is recovered as `100 + 50 * r` |
| Spike.ScalarMonotone | src/main.js:119 | a larger average frequency never gives a smaller scalar |
| Spike.ScalarBounded | src/main.js:119 | for averages in [0,255] the scalar lies in [0, 3.1] |
| Spike.Slices | src/main.js:121-127 | cutting into 64-bin slices gives `len/64` slices; slice `k` is bins `[64k, 64k+64)` |
| Spike.SlicesPartition | src/main.js:123-127 | the slices are contiguous, in order, non-overlapping and cover the frame: joining them gives it back |
| Spike.BucketOfBin | src/main.js:123-127 | every bin `j` below 2048 lies in exactly one bucket, bucket `j / 64` (below 32), and that slice holds bin `j` at offset `j % 64` |
| Spike.Profile | src/main.js:120-129 | exactly 32 entries; entry `k` is the mean of normalised bins `[64k, 64k+64)` |
| Spike.ComputeProfile | src/main.js:120-129 | the nested summing loop, reading only indices below 2048, yields the reference profile |
| Spike.SliceSum | src/main.js:124-127 | the inner loop's running total over bins `i .. i+63` is the sum of that slice |
| Spike.ProfileReadsOnlyFrame | src/main.js:123-127 | the profile depends only on the first 2048 bins; nothing at or past 2048 is read |
| Spike.ProfileInUnit | src/main.js:120-129 | unit-interval samples give a profile in [0,1] |
| Spike.ProfileOfConstant | src/main.js:120-129 | a frame constant at `c` gives a profile that is `c` in every bucket |
| Spike.ProfileExtremes | src/main.js:120-129 | an all-zero frame gives all 0; an all-255 frame gives all 1 |
| Spike.ProfileTotal | src/main.js:123-129 | down-sampling keeps the total: the profile's sum times 64 is the sum of the 2048 samples |
| Color.GroupsAreInBand | src/main.js:155-168 | there are 12 calibration groups, each non-empty, reading only bins 24..45 |
| Color.Profile | src/main.js:154-168 | the colour array always has exactly 12 entries |
| Color.ProfileIsGroupMeans | src/main.js:155-168 | the literal array agrees with a group-mean reference definition, one calibration group per channel |
| Color.ProfileReadsOnlyBand | src/main.js:155-168 | frames agreeing on bins 24..45 give the same colours, so any frame of 46 or more bins is safe |
| Color.ProfileInUnit | src/main.js:154-168 | unit-interval samples give colours in [0,1] |
| Color.ProfileOfConstant | src/main.js:155-168 | a frame constant at `c` over bins 24..45 gives `c` on all 12 channels |
| Color.ProfileExtremes | src/main.js:154-168 | an all-zero frame gives all-zero colours; an all-255 frame gives all-one colours |
| AudioVisualizer.SetUniform | src/main.js:130-134 | writing a uniform to every mesh sets that key on each mesh and keeps every other key, name and visibility |
| AudioVisualizer.Create | src/main.js:76-98 | every mesh gets the average-frequency uniform `0`, the spike uniform `[]` and the colour uniform `[]`; nothing else changes |
| AudioVisualizer.UpdateSpike | src/main.js:118-134 | every mesh's average-frequency uniform holds the spike scalar and its spike uniform the spike profile; other uniforms, names and visibility are unchanged |
| AudioVisualizer.UpdateColor | src/main.js:153-171 | every mesh's colour uniform holds the colour profile; other uniforms, names and visibility are unchanged |
| AudioVisualizer.SpikeBroadcastIdentical | src/main.js:130-134 | after a spike update any two meshes, hidden or shown, hold identical values: 32 entries in [0,1] |
| AudioVisualizer.ColorBroadcastIdentical | src/main.js:169-171 | after a colour update any two meshes hold identical colour values: 12 entries in [0,1] |
| Scene.Init | src/main.js:227-300 | valid scene; only the spiky ball is visible; the three audio uniforms start at 0, [], []; the glitch factor starts at 0.8 |
| Scene.SelectBall | src/main.js:269-273 | after a selection each mesh is visible exactly when its name equals the selected value; names and uniforms are kept |
| Scene.Select | src/main.js:269-273 | a selection keeps the scene valid, keeps uniforms and glitch factor, and shows exactly the meshes named by the value |
| Scene.SelectShowsExactlyOne | src/main.js:55-60 | choosing either offered option (`noisy-ball`, `spiky-ball`) in the selection handler leaves exactly one mesh visible |
| Scene.InitMatchesInitialSelection | src/main.js:240-263 | the initial visibility equals selecting the panel's default, `spiky-ball` |
| Scene.GreaterThan | src/main.js:318 | JavaScript `a > b` is true only when `a` converts to a number; on a plain number it is ordinary `>` |
| Scene.GlitchFactorAsWritten | src/main.js:318 | the factor as written, comparing the uniform record itself with 0.6, is always one of 0.7 and 0.1 |
| Scene.AsWrittenGlitchNeverStrong | src/main.js:318 | as written, the uniform record converts to NaN, so the factor is always 0.1 |
| Scene.AsWrittenGlitchCounterexample | src/main.js:318 | after a full-volume tick the value is 3.1 and the intended factor is 0.7, but the as-written factor is 0.1 |
| Scene.GlitchFactor | src/main.js:318 | the factor is always 0.7 or 0.1, and it is 0.7 exactly when the level exceeds 0.6 |
| Scene.Tick | src/main.js:308-318 | a tick keeps the scene valid and the visibility and broadcasts the three payloads. With the corrected comparison on the record's `.value`, it sets the factor to 0.7 exactly when the average frequency exceeds 130, so only this tick's input decides it. As written the factor is `Scene.GlitchFactorAsWritten`, always 0.1 |
| Scene.VisibleCountSameShape | src/main.js:308-323 | meshes with the same names and visibility show the same number of visible meshes |
| Scene.TickKeepsExactlyOne | src/main.js:308-323 | a tick leaves visibility alone, so if exactly one mesh was visible before it, that same mesh is the only visible one after it |

## Left out

- Audio plumbing is left out because it is external library code. This covers the audio listener, source and loader, `load`, attaching the listener to meshes, and the analyser's FFT and averaging. Its outputs enter as parameters: the average frequency as a real, and each frame as 2048 bytes.
- Rendering is left out because it is foreign library code and GPU work. This covers the scene graph, camera, renderer, effect composer and passes, shaders, orbit controls and stats.
- The resize handler and the pixel-ratio cap are left out as browser plumbing.
- The animation-frame scheduling and the `uTime = timestamp / 1000` write are left out because they are driven by wall-clock time.
- Scene.Init: does not state that the meshes' own initial uniforms, such as `uTime`, survive construction. The general `AudioVisualizer.Create` contract does state that keys other than the three audio uniforms are kept.
- The amplitude, width and height panel bindings are left out because they only pass the widget's value into a uniform.
- The WebGL capability check and its error message are left out as environment detection.
- The commented-out tween easing is dead code and is not modelled.
- The TypeError that writing through a missing uniform record would raise is not modelled. Both updates require `AudioVisualizer.Ready`, which `AudioVisualizer.Create` establishes and both updates preserve.
- IEEE-754 rounding of the divisions is not modelled; the model uses exact reals.
- Scene.GreaterThan: models JavaScript's `>` only for the operand kinds the glitch comparison can meet. These are `undefined`, a number and a plain uniform record; arrays and strings are not modelled.
- Scene.Tick: does not tie the spike frame to the colour frame. The source reads the analyser once in `updateSpike` and once in `updateColor`, so a tick takes the two frames as separate parameters.

## Findings

| source | as written | input that shows it | evidently intended | confidence | as-written member | corrected member |
|---|---|---|---|---|---|---|
| src/main.js:318 | compares the uniform record `uniforms["uAudioAverageFrequency"]` with 0.6; a plain object converts to NaN, so the comparison is always false and the factor is always 0.1 | a tick with average frequency 255: the uniform's value is 3.1 > 0.6, yet the factor is 0.1 | compare the record's `.value`, giving 0.7 whenever the value exceeds 0.6 | high; not executed | Scene.AsWrittenGlitchCounterexample | Scene.Tick |
