# Firework and snow demos: a Dafny model

This project models the program logic of two OpenGL demos:

- **Firework demo** (`project_2022_01`):
  - A pool of five firework slots. Each slot is launched with parameters built by one of three factories (`create_default`, `create_random`, `create_random_at`).
  - Each firework goes through the stages FLYING1, EXPLOSION and FLYING2 as its `alive_time` grows. It is deactivated once the time passes its end.
  - Each frame a firework issues a compute dispatch and a point draw, and contributes one point light.
  - The application keeps an auto-spawn countdown and three one-shot spawn requests. It admits a new firework into the first free slot and uploads the lights through a bounded uniform-buffer vector (`UBOVector`).
  - The support code also has linear maps, HSV to RGB conversion and a lazily created random generator.
- **Snow demo** (`project_2022_02`), its frame-state flags only:
  - the ping-pong between the two snow accumulation textures;
  - the one-shot shadow and plane-base passes;
  - the particle count that follows its target;
  - the particle-count combo;
  - the deferred settings reset.

The model is split as follows:

| file | module | what it holds |
|---|---|---|
| `math_util.dfy` | `MathUtil` | linear maps, HSV conversion, the random singleton |
| `firework_params.dfy` | `FireworkParameters` | the parameter records, the factories, the GPU record and its layout |
| `firework.dfy` | `Fireworks` | the stage machine and the `Firework` slot |
| `ubo_vector.dfy` | `UboVector` | the bounded buffer vector |
| `application.dfy` | `FireworkApplication` | the pool and its per-frame logic |
| `snow.dfy` | `SnowApplication` | the snow demo's flags |

How the model represents the program:

- Floats are reals.
- Every random draw is an input.
- OpenGL calls become events in ghost logs:
  - `Firework.gl`;
  - the `writes` of a `UBOVector`;
  - the `passes` of the snow application.
- Objects whose fields the source updates in place are classes. Their methods state the complete new state.
- The application keeps a ghost `pool`, the value of each slot (active flag, state, GPU record and events), and a ghost `spawnLog` of spawn attempts, each with its kind, its parameters and the slot it launched. Its methods state the pool they leave through pure functions (`UpdatedPool`, `Spawned`, `Attempts`), and lemmas state what those do.

One behaviour of the source is worth noting. `update_gpu` binds the colour and timing buffers only on the update where the stage goes from FLYING1 to EXPLOSION. A single update whose delta carries alive_time past both explosion_time and flying2_time goes straight to FLYING2, so that binding never happens for that firework (`ExplosionEdgeSkipped`). Otherwise the edge is seen at most once (`ExplosionEdgeAtMostOnce`).
- Pure computations are functions, and lemmas state their properties.

## Model

| member | source | states |
|---|---|---|
| MathUtil.LinmapEndpoints | project_2022_01/src/math_util.cpp:96-99 | linmap sends a0 to b0 and a1 to b1 whenever a0 ≠ a1 |
| MathUtil.Linmap01IsLinmap | project_2022_01/src/math_util.cpp:101-105 | linmap01(b0, b1, x) equals linmap(0, 1, b0, b1, x), as its comment says, and gives b0 at 0 and b1 at 1 |
| MathUtil.Linmap01Between | project_2022_01/src/math_util.cpp:102-105 | for x in [0, 1], linmap01 stays between b0 and b1, whichever of the two is larger |
| MathUtil.Linmap01vProperties | project_2022_01/src/math_util.cpp:107-111 | linmap01v(v, x) equals linmap01(-v, v, x), as its comment says; it is 0 at x = 0.5 and lies in [-v, v] for v ≥ 0 and x in [0, 1] |
| MathUtil.FMod | project_2022_01/src/math_util.cpp:71 | glm::mod by 1 or by 2, the divisors the source uses, lands in [0, divisor) |
| MathUtil.Chroma | project_2022_01/src/math_util.cpp:69 | chroma = saturation · value lies in [0, value] for a saturation in [0, 1] |
| MathUtil.HueWeight | project_2022_01/src/math_util.cpp:71 | the triangle wave 1 - \|mod(6h, 2) - 1\| lies in [0, 1] for every hue |
| MathUtil.Secondary | project_2022_01/src/math_util.cpp:71 | the middle component x = chroma · weight lies in [0, chroma] |
| MathUtil.HsvToRgba | project_2022_01/src/math_util.cpp:91 | the vec4 overload converts the first three components with the vec3 overload and keeps alpha |
| MathUtil.HsvRed | project_2022_01/src/math_util.cpp:63-86 | hue 0 at full saturation and value is red (1, 0, 0) |
| MathUtil.HsvYellow | project_2022_01/src/math_util.cpp:63-86 | hue 1/6 at full saturation and value is yellow (1, 1, 0) |
| MathUtil.HsvGreen | project_2022_01/src/math_util.cpp:63-86 | hue 2/6 at full saturation and value is green (0, 1, 0) |
| MathUtil.HsvCyan | project_2022_01/src/math_util.cpp:63-86 | hue 3/6 at full saturation and value is cyan (0, 1, 1) |
| MathUtil.HsvBlue | project_2022_01/src/math_util.cpp:63-86 | hue 4/6 at full saturation and value is blue (0, 0, 1) |
| MathUtil.HsvMagenta | project_2022_01/src/math_util.cpp:63-86 | hue 5/6 at full saturation and value is magenta (1, 0, 1) |
| MathUtil.SextantChoice | project_2022_01/src/math_util.cpp:74-86 | the sextant is picked by strict `<`: hue6 = 1 takes the second branch, every hue6 ≥ 5 (including unwrapped hues of 1 or more) takes the last, and a negative hue6 takes the first |
| MathUtil.SextantSpans | project_2022_01/src/math_util.cpp:73-86 | for 0 ≤ x ≤ chroma ≤ value, every branch yields components in [value - chroma, value] whose largest is value and smallest is value - chroma |
| MathUtil.HsvComponentBounds | project_2022_01/src/math_util.cpp:63-86 | for saturation and value in [0, 1] and any hue, every output component lies in [v - s·v, v], the largest equals v and the smallest equals v - s·v |
| MathUtil.HsvGrey | project_2022_01/src/math_util.cpp:69-86 | zero saturation gives the grey (v, v, v) whatever the hue |
| MathUtil.RandomSingleton.constructor | project_2022_01/src/math_util.cpp:8 | the static optional starts empty |
| MathUtil.RandomSingleton.Init | project_2022_01/src/math_util.cpp:30-33 | init (re)creates the generator from a fresh seed with no draws taken |
| MathUtil.RandomSingleton.EnsureInit | project_2022_01/src/math_util.cpp:35-40 | ensure_init keeps an existing generator unchanged and creates one only when there is none |
| MathUtil.RandomSingleton.GetRandomGenerator | project_2022_01/src/math_util.cpp:42-46 | afterwards the generator exists, the one returned is the stored one, and an existing one is never re-created |
| MathUtil.RandomSingleton.Random01 | project_2022_01/src/math_util.cpp:48-52 | the draw lies in [0, 1); an existing generator keeps its seed and advances by exactly one draw, and an absent one is created and then drawn from once |
| FireworkParameters.U32 | project_2022_01/src/firework.cpp:148-149 | the size_t to unsigned int conversion yields a value below 2^32, never larger than its argument, and equal to it when it fits |
| FireworkParameters.TimesOrdered | project_2022_01/src/firework.cpp:75-88 | explosion time is flying1_duration; flying2 time and end time each add the duration of the phase in between; with non-negative durations 0 ≤ explosion ≤ flying2 ≤ end |
| FireworkParameters.FadeAndBlinkInSecondFlight | project_2022_01/src/firework.cpp:90-98 | with fade and blink delays in [0, 1], fade_start and blink_start both lie in [flying2_time, end_time] |
| FireworkParameters.FireworkParams.SetParticleCount | project_2022_01/src/firework.cpp:25-28 | only particle_count changes, to the argument truncated to unsigned int |
| FireworkParameters.FireworkParams.SetPhysics | project_2022_01/src/firework.cpp:30-36 | pos, vel and the two explosion-force fields take the arguments; every other field keeps its value |
| FireworkParameters.FireworkParams.SetSizing | project_2022_01/src/firework.cpp:38-42 | the two sizing fields take the arguments; every other field keeps its value |
| FireworkParameters.FireworkParams.SetColor | project_2022_01/src/firework.cpp:44-49 | colour and the two colour variances take the arguments; every other field keeps its value |
| FireworkParameters.FireworkParams.SetTiming | project_2022_01/src/firework.cpp:51-56 | the three durations take the arguments; every other field keeps its value |
| FireworkParameters.FireworkParams.SetFading | project_2022_01/src/firework.cpp:58-64 | the four fading fields take the arguments; every other field keeps its value |
| FireworkParameters.FireworkParams.SetBlinking | project_2022_01/src/firework.cpp:66-73 | the five blinking fields take the arguments; every other field keeps its value |
| FireworkParameters.FireworkParams.CreateDefault | project_2022_01/src/firework.cpp:103-125 | a new object whose value is the deterministic DefaultParams of the ranges (properties in DefaultParamsProperties) |
| FireworkParameters.FireworkParams.CreateRandom | project_2022_01/src/firework.cpp:127-137 | create_random is create_random_at at the start position RandomPosition draws, one linmap01 per axis |
| FireworkParameters.FireworkParams.CreateRandomAt | project_2022_01/src/firework.cpp:139-203 | a new object whose value is RandomAtParams of the draws; the 750/70/1100 placeholder timing of line 143 does not survive the final set_timing |
| FireworkParameters.RandomHue | project_2022_01/src/firework.cpp:182 | the hue, shifted and wrapped with mod 1, lies in [0, 1) |
| FireworkParameters.JitterBetween | project_2022_01/src/firework.cpp:196-198 | base · (1 + linmap01v(v, u)) lies between base·(1 - v) and base·(1 + v) for u in [0, 1], and is the base itself at u = 0.5 |
| FireworkParameters.JitterNonNegative | project_2022_01/src/firework.cpp:196-198 | a non-negative base jittered by a variance of at most 1 stays non-negative |
| FireworkParameters.DefaultParamsProperties | project_2022_01/src/firework.cpp:103-125 | create_default's count (min + max) / 2 lies in [min, max]; the position is inside the start box on every axis; the velocity is up · vel_size_base; the durations are the three bases; the fade and blink presets are set |
| FireworkParameters.RandomPositionInBox | project_2022_01/src/firework.cpp:127-134 | each coordinate create_random picks lies between start_pos_min and start_pos_max |
| FireworkParameters.RandomAtCount | project_2022_01/src/firework.cpp:148-149 | the particle count of a random firework lies in [particle_count_min, particle_count_max] |
| FireworkParameters.RandomAtJitter | project_2022_01/src/firework.cpp:170-198 | every jittered field of create_random_at (explosion force and its variance, particle size, both colour variances, the three durations) lies in its base's band base·(1 ± variance) |
| FireworkParameters.RandomAtDurationsNonNegative | project_2022_01/src/firework.cpp:195-200 | with non-negative duration bases and variances of at most 1, the drawn durations are non-negative |
| FireworkParameters.RandomSaturationInRange | project_2022_01/src/firework.cpp:184-186 | the saturation lies between sat_min and sat_max, both clipped to [0, 1], so it lies in [0, 1] whenever sat_min ≤ sat_max |
| FireworkParameters.RandomAtColor | project_2022_01/src/firework.cpp:182-188 | the colour of a random firework has largest component 1 and every component in [0, 1] |
| FireworkParameters.GpuFromParamsProperties | project_2022_01/src/firework.cpp:210-227 | the GPU record carries the firework's count and end time = sum of the durations, and with delays in [0, 1] its fade and blink starts lie in [flying2 time, end time] |
| FireworkParameters.PackedFieldsEnd | project_2022_01/src/firework.hpp:128-153 | with only 4-byte, 4-aligned fields there is no padding: the first k fields end at byte 4k |
| FireworkParameters.GpuLayout | project_2022_01/src/firework.hpp:161-178 | FireworkParamsGpu has 17 fields, field k sits at offset 4k, and its size is 68, as the static_asserts demand |
| Fireworks.StageMonotone | project_2022_01/src/firework.cpp:338-344 | a later alive time never picks a stage of smaller enum value, whatever the thresholds |
| Fireworks.StageAtPhases | project_2022_01/src/firework.cpp:338-344 | with explosion ≤ flying2: FLYING1 iff t ≤ explosion time, EXPLOSION iff explosion < t ≤ flying2, FLYING2 iff t > flying2 time (strict thresholds) |
| Fireworks.StateFromParamsProperties | project_2022_01/src/firework.cpp:242-254 | a new state has alive_time 0, stage FLYING1, avg_pos = pos, avg_vel = vel, zero acceleration and the parameters' count; with non-negative durations and fade delay in [0, 1], 0 ≤ explosion ≤ flying2 ≤ fade_start ≤ end |
| Fireworks.StepPreservesStage | project_2022_01/src/firework.cpp:331-352 | an update that does not expire advances alive_time by delta, records the previous stage in last_stage, picks the stage from the new time, keeps the stage invariant, and never moves to an earlier stage when delta ≥ 0 |
| Fireworks.RunProperties | project_2022_01/src/firework.cpp:325-353 | over any run of non-negative steps a firework still alive has lived the sum of the steps, has not passed its end time, keeps its phase times, and has not gone back to an earlier stage |
| Fireworks.DispatchGroupsIsCeiling | project_2022_01/src/firework.cpp:376 | (count - 1) / local + 1 groups is the ceiling of count / local: (groups - 1)·local < count ≤ groups·local |
| Fireworks.CountMultProperties | project_2022_01/src/firework.cpp:402 | count_mult is 0.5 in FLYING1 and 1.5 in FLYING2; during the explosion it lies in (0.5, 1.5] and is 1.5 when the second flight begins |
| Fireworks.FadeMultProperties | project_2022_01/src/firework.cpp:401 | fade_mult is 1 up to fade_start, reaches 1 - pow(1 - fade_size_mult, 1.5) at end_time, and lies between the two in the fading window |
| Fireworks.ComputeEventsProperties | project_2022_01/src/firework.cpp:361-376 | the compute pass binds the colour and timing buffers exactly on the FLYING1 to EXPLOSION edge, passes the stage as its enum value, and ends with a dispatch of the ceiling of count / local groups |
| Fireworks.ExplosionEdgeAtMostOnce | project_2022_01/src/firework.cpp:331-369 | over any run of non-negative steps, the FLYING1 to EXPLOSION edge that binds the colour and timing buffers is seen by at most one update, and by none once the firework has left FLYING1 |
| Fireworks.ExplosionEdgeSkipped | project_2022_01/src/firework.cpp:335-369 | one step that takes alive_time from FLYING1 past flying2_time (but not past end_time) lands in FLYING2 with last_stage FLYING1, so that update never sees the edge and the buffers are not bound for this firework |
| Fireworks.ClampCount | project_2022_01/src/firework.cpp:301 | std::min: the result is at most both arguments and equal to one of them |
| Fireworks.Firework.constructor | project_2022_01/src/firework.cpp:259-297 | the slot starts inactive with its capacity, and allocates four vec4 and two vec2 buffers sized for that capacity |
| Fireworks.Firework.Activate | project_2022_01/src/firework.cpp:299-318 | the slot becomes active; its state and GPU record are built from the parameters with the count clamped to min(requested, capacity); the record is uploaded and the first position, velocity and colour written |
| Fireworks.Firework.Deactivate | project_2022_01/src/firework.cpp:320-323 | the slot becomes inactive and nothing else changes |
| Fireworks.Firework.Update | project_2022_01/src/firework.cpp:325-353 | nothing happens to an inactive slot; otherwise the slot deactivates, with only the clock and last_stage advanced, once alive_time passes end_time, and otherwise takes the restaged, integrated state; the slot invariant is kept |
| Fireworks.Firework.UpdateGpu | project_2022_01/src/firework.cpp:355-377 | an inactive slot issues nothing; an active one issues exactly the compute events of its state |
| Fireworks.Firework.Render | project_2022_01/src/firework.cpp:379-393 | an inactive slot issues nothing; an active one binds its parameters, passes stage and alive time, and draws 1 point in FLYING1 and particle_count points otherwise |
| Fireworks.Firework.GenerateLight | project_2022_01/src/firework.cpp:395-403 | there is no light exactly when the slot is inactive; otherwise a point light at avg_pos with diffuse colour count_mult · fade_mult · colour and zero ambient and specular |
| UboVector.FlushWithinStorage | project_2022_01/src/ubo_vector.hpp:55-64 | every write of update_opengl_data ends inside the alignment + sizeof(T)·max_count bytes allocated |
| UboVector.FlushContents | project_2022_01/src/ubo_vector.hpp:59-63 | the header gets the full, unclamped count; elements are written only when max_count and count are both non-zero, and then exactly the first min(count, max_count) of them, at byte offset alignment |
| UboVector.FlushReadBack | project_2022_01/src/ubo_vector.hpp:59-63 | reading the buffer back gives the CPU data when it fits and its first max_count elements otherwise, in which case the header announces more elements than were written |
| UboVector.UBOVector.constructor | project_2022_01/src/ubo_vector.hpp:23-26 | a new vector with the given capacity, flags and target, no data, storage of alignment + sizeof(T)·max_count bytes and no writes yet |
| UboVector.UBOVector.UpdateOpenglData | project_2022_01/src/ubo_vector.hpp:55-64 | the writes made are exactly those of a flush of the current data; the CPU side and the storage do not change and no write goes past the storage |
| UboVector.UBOVector.GetData | project_2022_01/src/ubo_vector.hpp:72-73 | get_data hands out the CPU-side vector, as many elements as it holds |
| UboVector.UBOVector.DataClear | project_2022_01/src/ubo_vector.hpp:72 | clearing the vector get_data returns empties the CPU data and writes nothing to the device |
| UboVector.UBOVector.DataPushBack | project_2022_01/src/ubo_vector.hpp:72 | a push_back on the vector get_data returns appends to the CPU data and writes nothing to the device |
| UboVector.UBOVector.MoveAssign | project_2022_01/src/ubo_vector.hpp:33-45 | move assignment takes over the other vector's handle, target, cpu_only, max_count, data and flags |
| FireworkApplication.CountdownProperties | project_2022_01/application.cpp:317-326 | a paused countdown with time left neither moves nor fires; a running one fires exactly when delta uses up the remaining time; a fired one restarts within delay·(1 ± variance); one that did not fire has time left |
| FireworkApplication.SpawnOrderProperties | project_2022_01/application.cpp:328-342 | one spawn attempt per raised request, the automatic one first and the default one last |
| FireworkApplication.CreateRequested | project_2022_01/application.cpp:328-341 | each request calls its own factory (create_random, create_random_at at the clicked point, or create_default), and every requested firework has a count in [min, max] |
| FireworkApplication.FirstFree | project_2022_01/application.cpp:347-352 | the slot try_spawn_firework picks is inactive and every slot before it active; there is none exactly when every slot is active |
| FireworkApplication.SpawnedProperties | project_2022_01/application.cpp:345-355 | a spawn on a full pool changes nothing; otherwise exactly the first inactive slot becomes Launched with the parameters (active, state and GPU record from the clamped parameters, the activation events appended) and every other slot is unchanged |
| FireworkApplication.AttemptsFollowRequests | project_2022_01/application.cpp:328-342 | one attempt per request, in order, each with its request's kind and the parameters of that request's factory; the pool keeps its size |
| FireworkApplication.AttemptsLaunch | project_2022_01/application.cpp:328-355 | every attempt that found a slot found it inactive before the series, and the slot ends launched with that attempt's parameters |
| FireworkApplication.AttemptsDistinct | project_2022_01/application.cpp:328-355 | no slot is launched by two attempts of one update |
| FireworkApplication.AttemptsKeepOthers | project_2022_01/application.cpp:328-355 | a slot no attempt launched ends as it was |
| FireworkApplication.AttemptsKeepActive | project_2022_01/application.cpp:328-355 | a slot active before the spawns is left untouched by them |
| FireworkApplication.AttemptsFailWhenFull | project_2022_01/application.cpp:345-355 | an attempt fails only if every slot is active, and they all stay active to the end of the update |
| FireworkApplication.AttemptsProperties | project_2022_01/application.cpp:328-355 | the above together: the spawns of one update launch distinct, previously inactive slots with their requests' parameters and leave every other slot as it was |
| FireworkApplication.AttemptsAppend | project_2022_01/application.cpp:328-342 | serving two lists of requests one after the other gives the attempts and pool of serving their concatenation |
| FireworkApplication.SpawnOrderAttempts | project_2022_01/application.cpp:328-342 | the four `if` blocks served one after the other make exactly the attempts of SpawnOrder, and leave the same pool |
| FireworkApplication.UpdateSlot | project_2022_01/application.cpp:306-313 | one slot is updated and runs its compute pass: an inactive slot is unchanged, an expiring one is deactivated with only its clock and last_stage moved, and a live one takes the stepped state and issues its compute events |
| FireworkApplication.UpdateEach | project_2022_01/application.cpp:306-313 | the update loop: every slot ends as UpdatedSlot of itself, in order, and the five slots stay distinct and valid |
| FireworkApplication.RebuildLights | project_2022_01/application.cpp:357-369 | the light list becomes one light per active slot in slot order, as many as there are active slots, and exactly a flush of that list is written to the buffer |
| FireworkApplication.ActiveLightsCount | project_2022_01/application.cpp:357-369 | the light list has exactly one light per active slot, so never more lights than slots |
| FireworkApplication.Application.constructor | project_2022_01/application.cpp:9-45 | five inactive slots, the default ranges, no spawn requested, not paused, and the countdown at the full delay of 1400 |
| FireworkApplication.Application.PrepareFireworks | project_2022_01/application.cpp:162-177 | five new, distinct, inactive slots of capacity 4096 are appended, and the light buffer takes over a new one with room for five lights |
| FireworkApplication.Application.ResetFireworksConfig | project_2022_01/application.cpp:223-272 | the auto-spawn delay becomes 1400 with variance 0.4 and the randomisation ranges take their default values; nothing else changes |
| FireworkApplication.Application.TrySpawn | project_2022_01/application.cpp:345-355 | a firework is spawned iff some slot was inactive; the pool ends as Spawned says (see SpawnedProperties); the requests, the settings and the log do not change |
| FireworkApplication.Application.UpdateAll | project_2022_01/application.cpp:306-313 | every slot ends as UpdatedSlot of itself (updated, then its compute pass on the updated state); requests, settings and log do not change |
| FireworkApplication.Application.UpdateFireworks | project_2022_01/application.cpp:297-343 | the countdown advances as Countdown says; the slots are updated as UpdatedPool says, and then the attempts of SpawnOrder (fired countdown, then the three requests) are logged with the slot each launched, and the pool ends as those attempts leave it (see AttemptsProperties); all three requests end cleared; the configuration is unchanged |
| FireworkApplication.Application.AdvanceCountdown | project_2022_01/application.cpp:317-326 | the countdown and whether it fired are those of Countdown; nothing else changes |
| FireworkApplication.Application.ServeRequests | project_2022_01/application.cpp:328-342 | the log gains the attempts of SpawnOrder (auto, at, random, default), each with its parameters and the slot it launched, and the pool ends as Attempts says; every request ends cleared |
| FireworkApplication.Application.ServeIf | project_2022_01/application.cpp:331-334 | a raised request makes one attempt, logged with its slot, launches that slot as Spawned says, and is cleared; otherwise nothing changes |
| FireworkApplication.Application.Serve | project_2022_01/application.cpp:339-341 | the request is cleared, its attempt is logged with the first free slot (None if there was none), and the pool ends as Spawned says |
| FireworkApplication.Application.ClearRequest | project_2022_01/application.cpp:332-333 | `spawn_* = false` clears the one flag of the request served; the automatic spawn has no flag; nothing else changes |
| FireworkApplication.Application.UpdateFireworkLights | project_2022_01/application.cpp:357-369 | the light list becomes one light per active slot in slot order, at most five, and is flushed to the buffer |
| FireworkApplication.CollectLights | project_2022_01/application.cpp:359-366 | the list is cleared, then one light is appended per active slot in slot order; nothing is written to the device |
| FireworkApplication.Application.SetParticleCountMin | project_2022_01/application.cpp:732-738 | the minimum takes the slider's value and the maximum rises to it if needed, so min ≤ max is kept; no other range changes |
| FireworkApplication.Application.SetParticleCountMax | project_2022_01/application.cpp:740-746 | the maximum takes the slider's value and the minimum falls to it if needed, so min ≤ max is kept; no other range changes |
| FireworkApplication.Application.RequestSpawnDefault | project_2022_01/application.cpp:883-886 | the D key raises the default request and leaves the other requests alone |
| FireworkApplication.Application.RequestSpawnRandom | project_2022_01/application.cpp:887-890 | the space key raises the random request and leaves the other requests alone |
| FireworkApplication.Application.RequestSpawnRandomAt | project_2022_01/application.cpp:891-897 | the F key over the launch box raises the request to launch at the point under the mouse |
| FireworkApplication.Application.ToggleAutoSpawnPause | project_2022_01/application.cpp:718-719 | the pause button toggles the pause flag and nothing else |
| SnowApplication.PingPong | project_2022_02/application.cpp:341-386 | neither the accumulation pass nor the blur pass samples the texture it writes; the blur reads what the accumulation just wrote; render, whose flag ends as it started, samples what the blur wrote |
| SnowApplication.OneShotRunsOnce | project_2022_02/application.cpp:293-302 | over any series of updates a pending one-shot pass runs exactly once if snow is ever on, and never otherwise |
| SnowApplication.Log2FloorPow2 | project_2022_02/application.cpp:665 | log2 of a power of two 2^k is exactly k |
| SnowApplication.ComboRoundTrip | project_2022_02/application.cpp:664-668 | for each of the ten combo entries 2^(k+8), the shown index is k and choosing it gives back 2^(k+8) |
| SnowApplication.ComboIndexOfEntry | project_2022_02/application.cpp:665-667 | a count that is a combo entry shows as an index in [0, 10) whose target is that count again |
| SnowApplication.SnowParticleInBox | project_2022_02/application.cpp:248 | with draws in [0, 1], a particle lies in [-13, 13] × [0, 50] × [-13, 13] |
| SnowApplication.ParticlePositionsProperties | project_2022_02/application.cpp:243-249 | one position per particle, each built from its own draw, and all inside the box when the draws lie in [0, 1] |
| SnowApplication.SnowApp.constructor | project_2022_02/application.cpp:7-26 | settings at their defaults, no reset pending, both one-shot passes pending, output flag on texture a, and 2048 particles loaded |
| SnowApplication.SnowApp.ResetSettings | project_2022_02/application.cpp:215-232 | every setting takes its default value (the target becomes 2048) and nothing else changes |
| SnowApplication.SnowApp.ReloadSnowParticles | project_2022_02/application.cpp:235-265 | the count takes the target's value, the positions are those of the draws, and storage for that many particles is created |
| SnowApplication.SnowApp.UpdateSnowAccum | project_2022_02/application.cpp:312-393 | the broom, accumulation and blur passes run as AccumPasses says and the output flag ends as it started |
| SnowApplication.SnowApp.Update | project_2022_02/application.cpp:268-310 | a pending reset runs first; each one-shot flag moves by StillPending, the step OneShotRuns counts over; with snow on, the pending one-shot passes run and are cleared, the accumulation passes run, and the count ends equal to its target; with snow off nothing else changes |
| SnowApplication.SnowApp.UpdateSnow | project_2022_02/application.cpp:292-309 | the snow part of update: the one-shot passes, the accumulation and a reload if stale, after which the count equals the target |
| SnowApplication.SnowApp.RunOneShotPasses | project_2022_02/application.cpp:294-302 | each pending one-shot pass runs once and its flag is cleared |
| SnowApplication.SnowApp.ReloadIfStale | project_2022_02/application.cpp:306-308 | the particles are reloaded exactly when the count differs from its target, which it equals afterwards |
| SnowApplication.SnowApp.Render | project_2022_02/application.cpp:496 | render samples the accumulation texture the output flag selects |
| SnowApplication.SnowApp.RenderUi | project_2022_02/application.cpp:664-681 | a combo choice sets the target to its entry, the clear and reset buttons set their flags for the next frame, and nothing else changes |

## Left out

- OpenGL itself (buffer and texture creation, sub-data writes, binds, dispatches, draws, barriers, `glFinish`, framebuffers, VAOs) is recorded only as abstract events; the shaders, which hold the per-particle explosion logic, are not part of this model.
- The launch direction of `create_random_at` (cone sampling with sin, cos, sqrt and normalize) is an input `direction` of the draws; its length and cone are not modelled.
- `pow(1 - fade_size_mult, 1.5)` in `generate_light` is an input (`fadePow`, or the `pow15` function in the application); `glm::radians(8)` and `glm::radians(180)` are inputs too.
- The `log2`-based accumulation speed of `update_snow_accum`, the snow demo's camera, light, render passes other than the texture choice, and its `prepare_*` steps other than the flags they set are left out.
- `std::mt19937`, `uniform_int_distribution`, `uniform_real_distribution`, `std::random_device` and `rand()`: every draw is an input. A `rand() / RAND_MAX` draw is taken to lie in [0, 1].
- The per-slot hash31 seed draw of `update_fireworks` only feeds a shader uniform and is left out.
- ImGui panels other than the particle-count sliders, the snow combo and the clear and reset buttons; mouse picking (`get_mouse_box_pos_ws`, matrix inverse), cameras, HDR and mirror setup are not part of this model.
- The 22-argument `FireworkParams` constructor is not used by the modelled code and is left out; `FireworkParams.constructor` promises nothing, as the defaulted constructor leaves fields uninitialised.
- `FireworkState.explosion_force` is never written by the source and is not modelled.
- `last_stage` is left uninitialised by the `FireworkState` constructor: the model keeps whatever value the slot held before, and no contract depends on it before the first update.
- The `UBOVector` move constructor initialises `max_count` and `flags` from themselves; it is never used by the modelled code and is left out.
- UboVector.UBOVector.UpdateOpenglData: the header write copies the low four bytes of a `size_t`, which the model takes to be the count modulo 2^32 (a little-endian machine).
- Fireworks.Firework.UpdateGpu: requires an active slot to hold at least one particle, because with a count of 0 the unsigned `(count - 1)` wraps and the dispatch size is not meaningful.
- FireworkApplication.Application.TrySpawn: requires a count of at least 1, which keeps the pool's slots launchable by `UpdateGpu`; every factory yields at least `particle_count_min` ≥ 10 particles.
- Fireworks.Firework.GenerateLight: requires `end_time ≠ fade_start` once fading has started, because the float division by zero there yields inf or NaN, which reals do not have.
- FireworkApplication.Application.UpdateFireworkLights: requires the same of every active slot, for the same reason.
- MathUtil.Linmap: requires `a1 ≠ a0`, for the same reason.
- MathUtil.FMod: states the range of `glm::mod` only for the divisors 1 and 2, the ones the source uses.
- FireworkApplication.Application.SetParticleCountMin and SetParticleCountMax assume the slider's value lies in [10, 4096]. The `SliderInt` calls have no always-clamp flag, so a value typed with Ctrl+Click can fall outside that range, and a negative one wraps through the `static_cast<size_t>`; neither case is modelled.
- SnowApplication.SnowApp.RenderUi: the combo's choice is an input in [0, 10), as ImGui guarantees; the reset and clear clicks are inputs.
- The snow settings that `reset_settings` restores are grouped into one `settings` field; the particle count and its target are `nat`, not `int`.
- Float rounding is not modelled anywhere: every float is a real.
