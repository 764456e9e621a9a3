# westernDuel core, modelled in Dafny

westernDuel is a two-player virtual-reality duel. An Oculus Rift client
renders the scene and sends its `Player` record to a small RPC server,
which keeps one record per player and echoes them back. This project
models the sequential logic of that system:

- **`ringBuffer`** (`ring_buffer.dfy`, module `RingBuffers`): the fixed-capacity
  circular store of matrices. It is a class over an `array`, with the
  counters `first`, `last` and `sz`. `push`, `pop`, `empty`, `full` and
  `operator[]` are proved against a FIFO window of everything pushed.
  `pop` is modelled twice: as written, and corrected.
- **The server's two-slot store** (`server_store.dfy`, module `ServerStore`):
  the globals `first` and `second`, the `"in"` procedure (`foo`) and the
  `"out"` lambda. They are a class over a two-record state, with
  last-write-wins lemmas.
- **The keyed serialisation of `Player`** (`wire.dfy`, `server_player.dfy`,
  `client_player.dfy`, `player_schemas.dfy`):
  - the two `MSGPACK_DEFINE_MAP` key lists, as lists of scalar slots;
  - encoding to a keyed map and decoding into an existing record;
  - round trips, key order and coverage;
  - how the client's record and the server's record read each other's
    encodings.
- **`ExampleApp::update` and `renderScene`** (`controls.dfy`, module `Controls`):
  - the edge-triggered button counters;
  - the tracking lag `frameLag` and its circular buffer `ringBuf`;
  - the rendering delay `renderLag`.

  `update` is a class whose methods change its fields one control at a
  time. They are proved against a step function.
- **The eye loop of `RiftApp::draw`** (`eyes.dfy`, module `Eyes`): the B-mode pose
  selection over the `renderEye`/`lastEye` arrays and the A-mode dispatch
  of `renderScene` calls.
- **The X-mode branch of `Scene::render`** (`scene.dfy`, module `Scenes`).
- **`Model::scaleProcess` and `Model::fire`** (`bounding_box.dfy`, module
  `BoundingBoxes`):
  - the two min/max scans over the vertex positions;
  - the six extreme vertices appended to `boxVertices`;
  - the sixteen corner points appended to `boundingbox`;
  - the `fire` counter.

Matrices, poses, vectors, quaternions and floats are type parameters that
the model only moves around. Coordinates are `real`s, compared only with
`<` and `>`. The `INFINITY` and `-INFINITY` starting bounds are the ends of
the datatype `Ext`.

## Model

| member | source | states |
|---|---|---|
| RingBuffers.Window | Minimal/ringBuffer.h:20-27 | what a FIFO store of capacity `cap` retains: the last `min(n, cap)` elements received, oldest first |
| RingBuffers.WindowPush | Minimal/ringBuffer.h:20-27 | receiving one more element is appending it to the last window and dropping the oldest when over capacity |
| RingBuffers.WindowForgetsOlder | Minimal/ringBuffer.h:20-48 | once `cap` or more elements were pushed, exactly the last `cap` are retained, the newest at index `cap - 1` |
| RingBuffers.PushView | Minimal/ringBuffer.h:20-27 | `push` on the slots makes the entries the window of the old entries plus the new matrix, and keeps `last ≡ first + sz` |
| RingBuffers.PopView | Minimal/ringBuffer.h:29-41 | removing the oldest entry moves `first` by one slot, leaves the remaining entries in order and keeps the alignment |
| RingBuffers.View | Minimal/ringBuffer.h:44-48 | the entries of the buffer: `sz` slots read from `first` on, wrapping past the end; `At`, `Push` and `Pop` are stated over it |
| RingBuffers.RingBuffer.AlignedIsCongruence | Minimal/ringBuffer.h:22-55 | the alignment invariant is `last % cap == (first + sz) % cap` |
| RingBuffers.RingBuffer.constructor | Minimal/ringBuffer.h:16-55 | a new buffer has capacity `cap`, `first = last = sz = 0`, no entries, and is aligned |
| RingBuffers.RingBuffer.Empty | Minimal/ringBuffer.h:17 | true exactly when the buffer holds no entries |
| RingBuffers.RingBuffer.Full | Minimal/ringBuffer.h:18 | true exactly when the number of entries equals the capacity |
| RingBuffers.RingBuffer.At | Minimal/ringBuffer.h:44-48 | `operator[](pos)` for `pos < sz` is the `pos`-th entry, oldest first |
| RingBuffers.RingBuffer.AtAliases | Minimal/ringBuffer.h:44-48 | there is no bounds check: `pos` and `pos + cap` name the same slot, and on a full buffer any `pos` reads entry `pos % cap` |
| RingBuffers.RingBuffer.Push | Minimal/ringBuffer.h:20-27 | writes slot `last` (0 once `last` reached the end); not full: `sz` grows and `first` stays; full: `sz` stays and `first` advances mod `cap`; the entries become the window of old entries plus `m`; alignment is kept |
| RingBuffers.RingBuffer.PopAsWritten | Minimal/ringBuffer.h:29-42 | empty: the underrun error and nothing changes; otherwise no value is returned, `sz` drops by one, `first` moves one slot when it wraps and two otherwise, which breaks the alignment |
| RingBuffers.RingBuffer.Pop | Minimal/ringBuffer.h:29-42 | corrected `pop`: the underrun error on an empty buffer, otherwise returns the oldest entry and leaves the rest in order, keeping the alignment |
| RingBuffers.PushAll | Minimal/ringBuffer.h:20-27 | a sequence of pushes leaves the window of the old entries followed by everything pushed |
| RingBuffers.FromHistory | Minimal/ringBuffer.h:16-48 | after any history of pushes into a new buffer, `operator[](0..sz-1)` are the last `min(n, cap)` matrices pushed, oldest first |
| RingBuffers.PopAsWrittenLosesEntry | Minimal/ringBuffer.h:29-42 | pushing a, b, c into capacity 3, then `pop` as written, leaves `sz == 2` with `[c, a]` reachable: b is lost and the popped a is still there |
| RingBuffers.PopKeepsOrder | Minimal/ringBuffer.h:29-42 | the same pushes with the corrected `pop` return a and leave `[b, c]` |
| ServerStore.Write | Server/Server.cpp:37-42 | the store after `in(id, p)`: `first` replaced for id 1, `second` for every other id; its meaning is stated by `ReadOwnWrite`, `WriteIsolated` and `SameRecordSameEffect` |
| ServerStore.Read | Server/Server.cpp:53-58 | what `out(id)` returns: `first` for id 1, `second` otherwise; `ReadOwnWrite` ties it to `Write` |
| ServerStore.ReadOwnWrite | Server/Server.cpp:37-58 | `out(id)` after `in(id, p)` returns `p`, for every id |
| ServerStore.WriteIsolated | Server/Server.cpp:37-58 | a write to one slot leaves what the other slot reads unchanged |
| ServerStore.SameRecordSameEffect | Server/Server.cpp:37-58 | every id other than 1 reads and writes exactly as id 2 does: no id is rejected |
| ServerStore.LaterWriteWins | Server/Server.cpp:37-42 | a second write to the same slot replaces the first |
| ServerStore.WriteIdempotent | Server/Server.cpp:37-42 | `in(id, p); in(id, p)` leaves the same store as one call |
| ServerStore.WritesCommute | Server/Server.cpp:37-42 | writes to different slots commute |
| ServerStore.Replay | Server/Server.cpp:37-42 | the store after a sequence of `in` calls in order; `ReplayLastWrite` says what each slot then holds |
| ServerStore.ReplayAppend | Server/Server.cpp:37-42 | replaying calls then one more call is one more write |
| ServerStore.ReplayLastWrite | Server/Server.cpp:37-58 | after any sequence of `in` calls, `out(id)` returns the record of the last call addressed to the same slot, or the initial one |
| ServerStore.Store.constructor | Server/Server.cpp:34-35 | both globals start as the given record |
| ServerStore.Store.In | Server/Server.cpp:37-42 | the store becomes `Write(old, id, p)`: only the addressed slot changes |
| ServerStore.Store.Out | Server/Server.cpp:53-58 | returns the addressed slot and changes nothing |
| Wire.Lookup | Server/Player.h:19-26 | the decoder's lookup of a key in the received entries; `LookupFirst` states that the first entry under the key wins |
| Wire.LookupFirst | Server/Player.h:19-26 | a key is found exactly when some entry has it, and then the value is that of the first such entry |
| Wire.LookupDistinct | Server/Player.h:19-26 | with pairwise distinct keys a lookup finds the one entry under the key |
| Wire.Dotted | Server/Player.h:20-25 | a component key is the member name, a dot, and the component name |
| Wire.DottedInjective | Server/Player.h:20-25 | a dotted key fixes its member name and its component name |
| Wire.Group | Server/Player.h:18-25 | a flag is one slot, a vector the three slots x, y, z, a quaternion the four slots x, y, z, w, all owned by that member |
| Wire.Expand | Server/Player.h:19-25 | a key list as its scalar slots, member after member; `ExpandOwners`, `ExpandCovers` and `ExpandDistinct` state its coverage |
| Wire.ExpandOwners | Server/Player.h:19-25 | every slot of a key list belongs to a listed member |
| Wire.ExpandCovers | Server/Player.h:19-25 | every component of every listed member is in the key list |
| Wire.ExpandDistinct | Server/Player.h:19-25 | listing each member once lists each slot once |
| Wire.ExpandAppend | Server/Player.h:19-25 | the slots of two member lists are the slots of the first, then of the second |
| Wire.SlicesSubsequence | Minimal/Player.h:15-19 | two slices of a list form a subsequence of it at their positions |
| ServerPlayer.KeyOf | Server/Player.h:19-25 | the key under which each scalar of the server record is serialised; `VecKeyIsDotted`, `QuatKeyIsDotted` and `KeyOfInjective` state its form |
| ServerPlayer.Encode | Server/Player.h:18-26 | the serialised record: one (key, value) entry per slot in key-list order; `RoundTrip` and `LookupEncode` state its meaning |
| ServerPlayer.Decode | Server/Player.h:18-26 | reading entries into an existing record; `RoundTrip`, `DecodeFields` and `DecodeFails` state its meaning |
| ServerPlayer.VecKeyIsDotted | Server/Player.h:20-24 | every vector component key is `member.component`, and `headPos`'s z is spelled `headPos. z` |
| ServerPlayer.QuatKeyIsDotted | Server/Player.h:21-25 | every quaternion key is `member.x/y/z/w` |
| ServerPlayer.KeyOfInjective | Server/Player.h:19-25 | different slots have different keys |
| ServerPlayer.MembersCoveredOnce | Server/Player.h:7-25 | the ten members are each declared once and each named once in the key list |
| ServerPlayer.OrderMovesDead | Server/Player.h:7-19 | `dead`, declared fourth, is encoded second; the rest keep declaration order, so the two orders differ |
| ServerPlayer.SlotsCoveredOnce | Server/Player.h:7-25 | the key list has 25 slots covering every scalar of the record exactly once |
| ServerPlayer.SlotsLayout | Server/Player.h:19-25 | the key list is the four flags, then each vector with its quaternion after it |
| ServerPlayer.KeyLayout | Server/Player.h:19-25 | the encoded keys, in order, are `fire, dead, pickedUp, finishFire`, then `pos.*`, `rotation.*`, `handpos.*`, `handrotation.*`, `headPos.*`, `headrotation.*` |
| ServerPlayer.EncodeKeysDistinct | Server/Player.h:18-26 | the 25 encoded keys are pairwise distinct |
| ServerPlayer.LookupEncode | Server/Player.h:19-26 | the encoding, looked up under a slot's key, gives the slot's value |
| ServerPlayer.LookupEncodeUnknown | Server/Player.h:19-26 | a key of no slot is absent from every encoding |
| ServerPlayer.RoundTrip | Server/Player.h:18-26 | decoding the encoding of any record into any record gives the encoded record |
| ServerPlayer.DecodeOwnFields | Server/Player.h:19-26 | a map from which every slot receives its value in `p` decodes to `p` |
| ServerPlayer.DecodeFromMembers | Server/Player.h:19-26 | a map giving every member its value in `p`, whole or by components, decodes to `p` |
| ServerPlayer.DecodeMembers | Server/Player.h:19-26 | a successful decode gives every member the value the map supplies for it |
| ServerPlayer.DecodeFields | Server/Player.h:19-26 | a successful decode gives every slot the first entry under its key, or its old value when absent |
| ServerPlayer.FieldFits | Server/Player.h:19-26 | a slot's value has the right kind exactly when the entry under its key, if any, has it |
| ServerPlayer.AllFitMeans | Server/Player.h:19-26 | the decoder's kind test is a test of every slot |
| ServerPlayer.DecodeFails | Server/Player.h:19-26 | decoding fails exactly when the first entry under some key of the record holds the wrong kind |
| ServerPlayer.AbsentKeysKeepTarget | Server/Player.h:19-26 | a map with none of the record's keys leaves the target record as it was |
| ClientPlayer.KeyOf | Minimal/Player.h:15-19 | the key under which each scalar of the client record is serialised; `VecKeyIsDotted`, `QuatKeyIsDotted` and `KeyOfInjective` state its form |
| ClientPlayer.Encode | Minimal/Player.h:14-20 | the serialised client record, one entry per slot in key-list order; `RoundTrip` and `LookupEncode` state its meaning |
| ClientPlayer.Decode | Minimal/Player.h:14-20 | reading entries into an existing client record; `RoundTrip`, `DecodeFields` and `DecodeFails` state its meaning |
| ClientPlayer.VecKeyIsDotted | Minimal/Player.h:16-18 | every vector component key is `member.x/y/z` |
| ClientPlayer.QuatKeyIsDotted | Minimal/Player.h:17-19 | every quaternion key is `member.x/y/z/w` |
| ClientPlayer.KeyOfInjective | Minimal/Player.h:15-19 | different slots have different keys |
| ClientPlayer.MembersCoveredOnce | Minimal/Player.h:7-19 | the six members are each declared once, and the key list names them in declaration order |
| ClientPlayer.SlotsCoveredOnce | Minimal/Player.h:7-19 | the key list has 16 slots covering every scalar exactly once |
| ClientPlayer.SlotsLayout | Minimal/Player.h:15-19 | the key list is the two flags, then each vector with its quaternion after it |
| ClientPlayer.KeyLayout | Minimal/Player.h:15-19 | the encoded keys, in order, are `fire, dead`, then `pos.*`, `rotation.*`, `handpos.*`, `handrotation.*` |
| ClientPlayer.EncodeKeysDistinct | Minimal/Player.h:14-20 | the 16 encoded keys are pairwise distinct |
| ClientPlayer.LookupEncode | Minimal/Player.h:15-20 | the encoding, looked up under a slot's key, gives the slot's value |
| ClientPlayer.LookupEncodeUnknown | Minimal/Player.h:15-20 | a key of no slot is absent from every encoding |
| ClientPlayer.RoundTrip | Minimal/Player.h:14-20 | decoding the encoding of any client record into any record gives the encoded record |
| ClientPlayer.DecodeOwnFields | Minimal/Player.h:15-20 | a map from which every slot receives its value in `p` decodes to `p` |
| ClientPlayer.DecodeFromMembers | Minimal/Player.h:15-20 | a map giving every member its value in `p` decodes to `p` |
| ClientPlayer.DecodeMembers | Minimal/Player.h:15-20 | a successful decode gives every member the value the map supplies for it |
| ClientPlayer.DecodeFields | Minimal/Player.h:15-20 | a successful decode gives every slot the first entry under its key, or its old value |
| ClientPlayer.FieldFits | Minimal/Player.h:15-20 | a slot's value has the right kind exactly when the entry under its key, if any, has it |
| ClientPlayer.AllFitMeans | Minimal/Player.h:15-20 | the decoder's kind test is a test of every slot |
| ClientPlayer.DecodeFails | Minimal/Player.h:15-20 | decoding fails exactly when the first entry under some key holds the wrong kind |
| ClientPlayer.AbsentKeysKeepTarget | Minimal/Player.h:15-20 | a map with none of the record's keys leaves the target as it was |
| PlayerSchemas.Restrict | Minimal/Player.h:7-12 | each server slot of a member the client also has comes from the client slot of the same name |
| PlayerSchemas.EmbedKeepsKey | Minimal/Player.h:15-19 | each client slot has the same key as the server slot of the same member |
| PlayerSchemas.ServerOnlyKey | Server/Player.h:19-25 | the keys of `pickedUp`, `finishFire`, `headPos`, `headrotation` are not client keys |
| PlayerSchemas.ClientSlotsInServer | Minimal/Player.h:15-19 | the client's slots are the server's slots 0-1 and 4-17 |
| PlayerSchemas.ClientKeysAreServerSlices | Minimal/Player.h:15-19 | the client's keys are the server's with keys 2-3 and 18-24 taken out |
| PlayerSchemas.ClientKeysInServerOrder | Minimal/Player.h:15-19 | the client key list is a subsequence of the server key list, in the same relative order |
| PlayerSchemas.ServerOnlyKeys | Server/Player.h:19-25 | the server adds `pickedUp, finishFire` after the first two flags and the seven head keys at the end |
| PlayerSchemas.ServerReadsClient | Server/Player.h:19-26 | the server decodes a client's encoding into `into` as the client's members, with the server-only members left as in `into` |
| PlayerSchemas.ClientReadsServer | Minimal/Player.h:15-20 | a client decodes a server encoding to the server record's shared members; the server-only keys are ignored |
| Controls.LagStep | Minimal/main.cpp:952-967 | the lag stage as written: an RT release raises `frameLag` to at most 30 and pushes `camMt`, an LT release lowers it to at least 0 and calls `pop_back` whatever the buffer holds; `FrameLagMoves`, `StepKeepsLockStep` and `LtReleaseAtZeroUnderruns` state its effect |
| Controls.ButtonStage | Minimal/main.cpp:928-939 | the three button edges; `ACounterAdvancesOnRelease` and its B and X forms state their effect |
| Controls.IndexStage | Minimal/main.cpp:952-967 | `LagStep` on this poll's RT and LT releases, with the two flags following the triggers |
| Controls.HandStage | Minimal/main.cpp:970-983 | the two hand-trigger edges on `renderLag`; `RenderLagMoves` states their effect |
| Controls.Step | Minimal/main.cpp:925-986 | one `update`: nothing on a failed poll, else the button, index and hand stages in order; `StepKeepsRanges`, `PressedFollowsInput` and `StepKeepsLockStep` state its effect |
| Controls.Run | Minimal/main.cpp:925-986 | a sequence of updates; `RunKeepsRanges`, `RunKeepsLockStep` and `EmptyUntilRtRelease` state its effect |
| Controls.PushBack | Minimal/main.cpp:952-959 | `push_back` on the capacity-30 buffer: length `min(30, n + 1)`, the new matrix last, the others the newest of the old ones in order |
| Controls.StepKeepsRanges | Minimal/main.cpp:928-983 | `buttonA` in [0,5), `buttonB` and `buttonX` in [0,4), `frameLag` in [0,30], `renderLag` in [0,10], at most 30 matrices: every update keeps all of these |
| Controls.ACounterAdvancesOnRelease | Minimal/main.cpp:928-931 | `buttonA` changes exactly when A is released, and then it becomes `(buttonA + 1) % 5` |
| Controls.BCounterAdvancesOnRelease | Minimal/main.cpp:932-935 | the same for `buttonB`, modulo 4 |
| Controls.XCounterAdvancesOnRelease | Minimal/main.cpp:936-939 | the same for `buttonX`, modulo 4 |
| Controls.HoldThenRelease | Minimal/main.cpp:928-931 | holding A over any number of updates leaves `buttonA` alone; the release after that advances it exactly once |
| Controls.HeldKeepsA | Minimal/main.cpp:928-931 | updates with A held never change `buttonA` |
| Controls.HeldSetsFlag | Minimal/main.cpp:928-931 | after at least one update with A held, `buttonAPressed` is set |
| Controls.RunAppend | Minimal/main.cpp:925-986 | running updates over two sequences of polls is one run after the other |
| Controls.RunKeepsRanges | Minimal/main.cpp:925-986 | every sequence of updates keeps the counters in range |
| Controls.PressedFollowsInput | Minimal/main.cpp:928-983 | after an update, each `*Pressed` flag says whether its control is held |
| Controls.FailedPollChangesNothing | Minimal/main.cpp:927 | an update whose input poll fails changes nothing |
| Controls.FrameLagMoves | Minimal/main.cpp:952-967 | an RT release alone gives `min(30, frameLag + 1)`, an LT release alone `max(0, frameLag - 1)`, no release no change |
| Controls.RenderLagMoves | Minimal/main.cpp:970-983 | despite the doubled `++`/`--`, an RH release alone gives `min(10, r + 1)` and an LH release alone `max(0, r - 1)` |
| Controls.StepKeepsLockStep | Minimal/main.cpp:952-967 | with `ringBuf.size() == frameLag`, an update pops an empty buffer exactly when LT is released at lag 0 without an RT release; otherwise the two stay in step |
| Controls.RightReleaseRecordsCamera | Minimal/main.cpp:952-959 | after an RT release the newest buffered matrix is `camMt` |
| Controls.LtReleaseAtZeroUnderruns | Minimal/main.cpp:960-967 | from the initial state, pressing and releasing LT calls `pop_back` on the empty buffer |
| Controls.GuardedLagStepKeepsLockStep | Minimal/main.cpp:952-967 | the corrected step keeps the counter and the buffer in step on every input, also for an LT release at 0 |
| Controls.GuardedAgreesWithoutUnderrun | Minimal/main.cpp:952-967 | the corrected step equals the written one whenever the written one does not pop an empty buffer |
| Controls.EmptyUntilRtRelease | Minimal/main.cpp:952-996 | from an empty buffer, every run of updates without an RT release leaves it empty, so `back()` in `renderScene` has no matrix |
| Controls.NoMatrixBeforeFirstRtRelease | Minimal/main.cpp:952-996 | from the freshly constructed state, `back()` has no matrix after any run of updates before the first RT release |
| Controls.RunKeepsLockStep | Minimal/main.cpp:952-967 | as long as no update pops an empty buffer, `ringBuf.size() == frameLag` holds after every update of a run |
| Controls.FirstRenderHasNoMatrix | Minimal/main.cpp:987-996 | after the first update from the initial state, `back()` would read an empty buffer |
| Controls.App.constructor | Minimal/main.cpp:814-816 | every counter is 0, every flag is clear and the buffer is empty |
| Controls.App.Update | Minimal/main.cpp:925-986 | the new state and the underrun report are those of the step function `Step` |
| Controls.App.PollButtons | Minimal/main.cpp:928-939 | the three button edges, in order |
| Controls.App.PollIndexTriggers | Minimal/main.cpp:952-967 | the RT then LT edges, as `LagStep` |
| Controls.App.PollHandTriggers | Minimal/main.cpp:970-983 | the RH then LH edges |
| Controls.App.PollA | Minimal/main.cpp:928-931 | `buttonA` advances mod 5 on a release, the flag follows the button; the frame names only those two fields |
| Controls.App.PollB | Minimal/main.cpp:932-935 | `buttonB` advances mod 4 on a release, the flag follows the button; the frame names only those two fields |
| Controls.App.PollX | Minimal/main.cpp:936-939 | `buttonX` advances mod 4 on a release, the flag follows the button; the frame names only those two fields |
| Controls.App.PollRightIndex | Minimal/main.cpp:952-959 | an RT release raises `frameLag` to at most 30 and pushes `camMt`; the frame names only `frameLag`, `ringBuf` and the RT flag |
| Controls.App.PollLeftIndex | Minimal/main.cpp:960-967 | an LT release lowers `frameLag` to at least 0 and pops the newest matrix, reporting an underrun exactly when the buffer was empty |
| Controls.App.PollRightHand | Minimal/main.cpp:970-976 | the doubled increment nets `renderLag := min(10, renderLag + 1)` on a release |
| Controls.App.PollLeftHand | Minimal/main.cpp:977-983 | the doubled decrement nets `renderLag := max(0, renderLag - 1)` on a release |
| Controls.App.RenderScene | Minimal/main.cpp:987-996 | records the head pose as `camMt` and renders from `back()` of the buffer, which is an error on an empty buffer |
| Eyes.Select | Minimal/main.cpp:690-700 | B mode 0 takes the tracked pose, 1 the tracked position, 2 the tracked orientation, any other mode neither |
| Eyes.Dispatch | Minimal/main.cpp:722-751 | the A-mode branch for one eye: stereo, mono, left only, right only, otherwise inverted; `WhoDraws`, `StereoAndInverted`, `MonoAndSingleEye` and `ProjectionMatchesPose` state its effect |
| Eyes.CallsOf | Minimal/main.cpp:722-751 | the `renderScene` calls of one eye, read from `renderEye` as it is at that iteration |
| Eyes.FrameCalls | Minimal/main.cpp:385-751 | as written: the left eye is drawn while `renderEye` still holds the previous right pose; `InvertedLeftEyeUsesOldPose` exhibits the consequence |
| Eyes.FrameCallsSelectedFirst | Minimal/main.cpp:690-751 | corrected: both poses are selected before either eye is drawn; `SelectedFirstInvertedSwaps` states the intended swap |
| Eyes.SelectModes | Minimal/main.cpp:690-700 | the four B modes give the tracked pose, tracked position with last orientation, last position with tracked orientation, and the last pose |
| Eyes.SelectUnchangedPose | Minimal/main.cpp:690-700 | no mode changes a part of the pose that the tracker reports unchanged |
| Eyes.LeftFlagNamesPose | Minimal/main.cpp:722-751 | the `left` flag of every call is set exactly when the left eye's pose is rendered |
| Eyes.ProjectionMatchesPose | Minimal/main.cpp:722-751 | every call uses one eye's projection and pose together, except the right eye in mono mode |
| Eyes.WhoDraws | Minimal/main.cpp:722-751 | an eye draws nothing exactly in mode 2 for the right eye and mode 3 for the left |
| Eyes.StereoAndInverted | Minimal/main.cpp:722-749 | mode 0 uses each eye's own projection and pose; every mode above 3 and every negative one swaps them |
| Eyes.MonoAndSingleEye | Minimal/main.cpp:722-751 | mode 1 draws each eye with its own projection and the left pose, flagged left; mode 2 draws the left eye and mode 3 the right eye, each with its own projection and pose |
| Eyes.FrameCallsAgree | Minimal/main.cpp:385-751 | outside inverted stereo, the loop's calls are those made with both poses selected first |
| Eyes.InvertedLeftEyeUsesOldPose | Minimal/main.cpp:385-749 | as written, inverted stereo draws the left eye from the right eye's pose of the previous frame |
| Eyes.SelectedFirstInvertedSwaps | Minimal/main.cpp:742-749 | with both poses selected first, inverted stereo swaps the eyes' projections and new poses exactly |
| Eyes.Rift.constructor | Minimal/main.cpp:516 | the two pose arrays start as the arbitrary poses `renderInit` and `lastInit` |
| Eyes.Rift.Draw | Minimal/main.cpp:385-751 | `renderEye` becomes `SelectBoth` of the old `lastEye`, `lastEye := renderEye`, the compositor gets the tracked poses, and the calls are `FrameCalls` in loop order |
| Scenes.SceneDraws | Minimal/main.cpp:851-891 | the draw calls of one `render` for an X mode; `SphereAlwaysFirst`, `OneSkyboxPerMode`, `SkyboxChoice` and `CubesOnlyInModeZero` state them |
| Scenes.SphereAlwaysFirst | Minimal/main.cpp:851-866 | the sphere is drawn first in every mode, and only once |
| Scenes.OneSkyboxPerMode | Minimal/main.cpp:868-891 | modes 0-3 draw exactly one skybox, right after the sphere; any other mode draws only the sphere |
| Scenes.SkyboxChoice | Minimal/main.cpp:868-891 | `skybox_l` is drawn in mode 2 or for the left eye in modes 0-1, `skybox_r` for the right eye in modes 0-1, `skybox` in mode 3 |
| Scenes.CubesOnlyInModeZero | Minimal/main.cpp:876-884 | only mode 0 draws cubes, every instance once, in order, after the skybox |
| Scenes.Scene.constructor | Minimal/main.cpp:825-828 | the scene has the two instance positions, near then far |
| Scenes.Scene.Render | Minimal/main.cpp:851-891 | the draw calls, the cube loop included, are `SceneDraws` of the X mode |
| BoundingBoxes.MinBound | Minimal/Model.h:71-106 | the first scan's lower bound on one axis, from `INFINITY`; `MinBoundIsMinimum` states its meaning |
| BoundingBoxes.MaxBound | Minimal/Model.h:71-106 | the first scan's upper bound on one axis, from `-INFINITY`; `MaxBoundIsMaximum` states its meaning |
| BoundingBoxes.MinScan | Minimal/Model.h:149-161 | the second scan's lowest coordinate and vertex, replaced only on a strictly smaller value; `MinScanFindsFirstMin` states its meaning |
| BoundingBoxes.MaxScan | Minimal/Model.h:162-173 | the second scan's highest coordinate and vertex, replaced only on a strictly larger value; `MaxScanFindsFirstMax` states its meaning |
| BoundingBoxes.MinBoundIsMinimum | Minimal/Model.h:71-106 | on a non-empty list the first scan's lower bound is finite, is attained by some vertex, and is at most every vertex's coordinate |
| BoundingBoxes.MaxBoundIsMaximum | Minimal/Model.h:71-106 | likewise the upper bound is finite, attained, and at least every coordinate |
| BoundingBoxes.DimsNotNegative | Minimal/Model.h:119-122 | on a non-empty model `dimX`, `dimY`, `dimZ` are finite and not negative |
| BoundingBoxes.FirstMinIndex | Minimal/Model.h:149-161 | the first index of a lowest coordinate: no vertex is lower, and every earlier one is strictly higher |
| BoundingBoxes.FirstMaxIndex | Minimal/Model.h:162-173 | the first index of a highest coordinate: no vertex is higher, and every earlier one is strictly lower |
| BoundingBoxes.MinScanFindsFirstMin | Minimal/Model.h:149-161 | on a non-empty list the second scan records the first lowest vertex and its coordinate |
| BoundingBoxes.MaxScanFindsFirstMax | Minimal/Model.h:162-173 | on a non-empty list the second scan records the first highest vertex and its coordinate |
| BoundingBoxes.ScansAgree | Minimal/Model.h:71-174 | the second scan's bounds are the first scan's bounds of the same list |
| BoundingBoxes.SecondScanBounds | Minimal/Model.h:142-174 | every vertex lies between the recorded extremes on each axis, each bound is its recorded vertex's coordinate, and on ties the earliest vertex is recorded |
| BoundingBoxes.EmptyScan | Minimal/Model.h:142-146 | on an empty list the bounds stay infinite and the recorded vertices are the uninitialised locals |
| BoundingBoxes.CornerEnds | Minimal/Model.h:184-251 | which end of each axis the k-th pushed point takes, in the order of the 48 pushes; `CornersFromExtremes` and `EveryCornerListed` state what they amount to |
| BoundingBoxes.CornersAfter | Minimal/Model.h:184-251 | appending `n` corner points adds exactly `3 * n` scalars |
| BoundingBoxes.CornersAfterAt | Minimal/Model.h:184-251 | scalars `3k`, `3k + 1`, `3k + 2` after the prior entries are the `k`-th corner point |
| BoundingBoxes.CornerListedAt | Minimal/Model.h:184-251 | the point whose ends are given is listed at its index |
| BoundingBoxes.CornersAfterAppends | Minimal/Model.h:184-251 | the 48 pushes append the same 48 scalars whatever `boundingbox` held before |
| BoundingBoxes.CornersFromExtremes | Minimal/Model.h:184-251 | the corners are 48 scalars, 16 points, each point's x in {minX, maxX}, y in {minY, maxY}, z in {minZ, maxZ} |
| BoundingBoxes.EveryCornerListed | Minimal/Model.h:184-251 | each of the box's eight corners is among the sixteen points |
| BoundingBoxes.Model.constructor | Minimal/Model.h:37-59 | `Model(path)`: `toWorld` is the identity and `duration` 150; after loading, `scaleProcess` runs once, so the first-scan bounds are those of the loaded vertices, the second-scan bounds those of the normalised ones, `boxVertices` holds exactly the six recorded extreme vertices and `boundingbox` exactly the 48 corner scalars |
| BoundingBoxes.Model.FirstScan | Minimal/Model.h:71-106 | the six bounds are `MinBound`/`MaxBound` of the vertex list on each axis |
| BoundingBoxes.Model.SecondScan | Minimal/Model.h:142-174 | the six bounds and their six vertices are `MinScan`/`MaxScan` of the list on each axis |
| BoundingBoxes.Model.AppendBoxVertices | Minimal/Model.h:176-181 | `boxVertices` keeps its entries and gains exactly `maxVertX, minVertX, maxVertY, minVertY, maxVertZ, minVertZ` |
| BoundingBoxes.Model.PushPoint | Minimal/Model.h:184-186 | `boundingbox` keeps its entries and gains exactly the three scalars of one point |
| BoundingBoxes.Model.AppendCorners | Minimal/Model.h:184-251 | `boundingbox` keeps its entries and gains exactly the 48 corner scalars |
| BoundingBoxes.Model.ScaleProcess | Minimal/Model.h:67-251 | the first scan's bounds are those of the loaded vertices, the second's those of the normalised ones, and both box lists gain their entries built from the second scan |
| BoundingBoxes.Model.BuildBoxes | Minimal/Model.h:142-251 | the second scan's bounds are those of `vertices`, `boxVertices` gains the six recorded extreme vertices and `boundingbox` the 48 corner scalars |
| BoundingBoxes.Model.Fire | Minimal/Model.h:254-260 | `toWorld` becomes the moved matrix, `duration` drops by exactly one, `isFired` is cleared, and nothing else changes |

## Left out

- Graphics, VR and windowing plumbing: OpenGL, GLFW, the Oculus session, swap chains, the mirror blit, shaders, the `toGlm`/`fromGlm` conversions and the skybox, cube and sphere drawing. These are foreign calls. The model records which calls are made, with which arguments.
- glm arithmetic: the translation in `fire`, the model matrices in `Scene::render`, and `glm::inverse` in `renderScene`. Matrices are opaque. The moved matrix of `fire` is a parameter.
- Floating-point adjustments:
  - the `iod` and `scalor` thumbstick adjustments in `update` (Minimal/main.cpp:941-950);
  - the centring and uniform scaling of the vertices between the two scans (Minimal/Model.h:108-139), whose result is the parameter `normalised` of `Model.ScaleProcess`.
- Eyes.Rift.constructor: `lastEye` and `renderEye` (Minimal/main.cpp:516) are never initialised by `RiftApp`, so they hold indeterminate poses until the first frame stores into them; the model lets them start as any two poses, `lastInit` and `renderInit`, and the first frame of B modes 1-3 reads those.
- BoundingBoxes.Model.ScaleProcess: a degenerate mesh whose vertices all coincide has every extent 0, the uniform scaling of Minimal/Model.h:125-139 then divides 0 by 0 and every normalised coordinate is NaN. Every comparison of the second scan fails, the bounds stay at `INFINITY` and `-INFINITY` and `boxVertices` receives the six uninitialised locals. Coordinates here are reals, so the model does not capture this case; `normalised` has as many vertices as before, as the in-place normalisation keeps.
- RingBuffers.RingBuffer.At: `first + pos` is unbounded here; with a `pos` near the top of `std::size_t` the sum would wrap before the modulo.
- Timing: `Sleep(renderLag * 2)` in `renderScene`, and the console output of `update`.
- Controller input is reduced to one held/not-held boolean per control. A button is held when its bit is set; a trigger is held when its value exceeds 0.5.
- `ovr_GetInputState` and `ovr_GetEyePoses` are not modelled; their results are parameters. The same goes for the uninitialised locals `minVert*`/`maxVert*` (the parameter `unset`) and the uninitialised `isFired`.
- Model loading through assimp and texture loading (`loadModel`, `processNode`, `processMesh`, `loadMaterialTextures`, `TextureFromFile`): library I/O. `processMesh` writes `xmin`/`xmax` also for the y and z axes (Minimal/Model.h:324-331). It is not modelled further.
- Minimal/TexturedCube.cpp and Minimal/TexturedCube.h: file reading and GPU upload. These files are not part of this model.
- RPC networking, the server thread and its update loop, and concurrent access to `first`/`second`. The store is modelled as sequential calls.
- Value kinds: a map value is a boolean, a number the serialiser converts to a float (floats and integers alike), or another kind. Which numeric encodings convert, and their precision, are not modelled; "the wrong kind" in the decode rows means a non-boolean under a flag key and a value no float conversion accepts under a component key.
- The msgpack byte format. A serialised record is a list of (key, value) entries.
- A participant id check, a peer-of mapping, a "trigger" procedure, locking and a box intersection test do not exist in the code, and the model does not invent them.
- `boost::circular_buffer` in `update` is modelled as a bounded sequence. `pop_back` and `back` on an empty buffer are reported as errors (`underrun`, `EmptyBuffer`); what the library would do there is undefined, and in the model the buffer simply stays empty.

## Findings

| source | as written | input that shows it | evidently intended | confidence | as-written member | corrected member |
|---|---|---|---|---|---|---|
| Minimal/ringBuffer.h:29-42 | `pop` pre-increments `first` and then, off the wrap path, advances it again; it never returns `toReturn` | capacity 3, push a, b, c, pop: `sz` is 2 and `[0]`, `[1]` read c and a; b is lost | remove and return the oldest entry, advancing `first` by one | not executed | RingBuffers.RingBuffer.PopAsWritten, RingBuffers.PopAsWrittenLosesEntry | RingBuffers.RingBuffer.Pop, RingBuffers.PopKeepsOrder |
| Minimal/main.cpp:960-967 | an LT release decrements `frameLag` with a clamp at 0 but calls `ringBuf.pop_back()` unconditionally | a fresh app, LT pressed, then released: `pop_back` on the empty buffer | pop only when the buffer holds a matrix, so `frameLag == ringBuf.size()` holds | not executed | Controls.LagStep, Controls.LtReleaseAtZeroUnderruns | Controls.GuardedLagStep, Controls.GuardedLagStepKeepsLockStep |
| Minimal/main.cpp:690-751 | the per-eye loop draws the left eye before the right eye's pose is selected, and in inverted stereo the left eye is drawn from `renderEye[Right]` | A mode 4 with the right eye tracked at a new pose: the left eye shows the right pose of the previous frame | the two eyes swap this frame's poses | not executed | Eyes.FrameCalls, Eyes.InvertedLeftEyeUsesOldPose | Eyes.FrameCallsSelectedFirst, Eyes.SelectedFirstInvertedSwaps |
