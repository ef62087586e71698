# VirtualC64 rendering core and two emulator components in Dafny

This project models five parts of VirtualC64, a Commodore 64 emulator for
macOS, and proves properties of them.

- **MetalView** (`metal_view.dfy`) is the frame loop of the Metal view. It covers:
  - the dirty flag that `setFrameSize` sets and `draw` clears;
  - the `reshape` size check;
  - the enable switch;
  - the one-permit semaphore that keeps at most one frame on the GPU;
  - the choice between the 2D quad and the 3D cube, the background draw and the cube's vertex range;
  - the alpha override for a halted emulator;
  - the frame counter;
  - the texture cut-out computed from the PAL/NTSC border and canvas geometry.

  Every GPU-side call becomes an `Event` appended to a trace. Each operation is first written as pure functions: the new `ViewState` and the events issued. The class `MetalView` performs the operation in place and is proved equal to those functions. The semaphore is the pair `Gate(permits, inFlight)`, where `inFlight` counts committed command buffers whose completion handler has not yet signalled.
- **MetalSetup** (`metal_setup.dfy`) covers the vertex and uniform buffers:
  - `setVertex` writes 8 floats per vertex. `buildVertexBuffer` writes 48 vertices into a 384-float array.
  - `fillMatrix`, `fillAlpha`, `fillBuffer` and `fillFragmentShaderUniforms` write fixed byte ranges of the 80-byte and 24-byte uniform buffers. Float values are opaque: the writers take their 4-byte encodings.
  - `buildBuffers` allocates the buffers.
- **Shaders** (`shaders.dfy`) covers the compute kernels:
  - the texture dimension constants and the thread-group geometry;
  - one tag per kernel subclass, with its program name, sampler, pre-blur flag, CRT parameter record and blur-weight table size;
  - the failable constructor;
  - the command sequence `apply` encodes;
  - the sample positions that `getBlurWeights` visits.
- **Mouse1351** (`mouse1351.dfy`) is the 1351 proportional mouse:
  - the position chases the target by at most 31 per step;
  - `setXY` snaps the position when the jump exceeds 255;
  - the two button bits have opposite polarities;
  - the position is encoded into the SID pot registers.
- **TAPContainer** (`tap_container.dfy`) is the TAP tape image container:
  - the `isTAPFile` checks;
  - the little-endian header length;
  - copying an image into and out of the container;
  - name extraction and `dealloc`.

`wrappers.dfy` holds the `Option` type.

Notes on the source's behaviour:
- The animated cube draws 24 vertices from vertex 6 (faces -Z, +Z, -X, +X), not all 36 cube vertices.
- The background quad is drawn exactly when not in fullscreen and the cube animates or the C64 texture is hidden. It is skipped in every fullscreen case.
- The kernels' dispatch geometry is computed from the `FILTERED_TEXTURE` constant, which is 2048 x 4096 (factor 4 x 8). This gives 128 x 256 x 1 groups.
- The filtered texture that `buildTextures` allocates is 2048 x 2048 (`OSX/MacGUI/MetalSetup.swift` lines 104-111). The 128 x 256 dispatch therefore covers twice the height of the texture the kernels write into (`Shaders.DispatchVersusAllocation`).
- When `nextDrawable()` returns nil, `draw` does not give the semaphore permit back (see Findings).

## Model

| member | source | states |
|---|---|---|
| Mouse1351.Approach | C64/Mouse1351.cpp:115-118 | one execute() step on one axis moves toward the target by min(distance, 31), never overshoots, and leaves distance max(0, d - 31) |
| Mouse1351.Snap | C64/Mouse1351.cpp:72-73 | the position jumps to the target if and only if the two differ by more than 255; otherwise it stays |
| Mouse1351.StepsToReach | C64/Mouse1351.cpp:115-118 | the number of steps is the ceiling of d / 31 |
| Mouse1351.ReachedAfterSteps | C64/Mouse1351.cpp:115-118 | after ceil(d/31) execute() steps the position equals the target |
| Mouse1351.NotReachedEarlier | C64/Mouse1351.cpp:115-118 | after n < ceil(d/31) steps the distance is exactly d - 31n, so the target has not been reached |
| Mouse1351.ApproachNAtTarget | C64/Mouse1351.cpp:112-113 | once the position equals the target, further steps leave it there |
| Mouse1351.LeftButtonPort | C64/Mouse1351.cpp:89-97 | bit 4 is clear exactly when the left button is pressed (active low); all other bits are unchanged |
| Mouse1351.RightButtonPort | C64/Mouse1351.cpp:99-107 | bit 0 is set exactly when the right button is pressed (active high); all other bits are unchanged |
| Mouse1351.PotValue | C64/Mouse1351.cpp:123-124 | the pot register value is twice the coordinate's low six bits |
| Mouse1351.PotValueEncodesCoordinate | C64/Mouse1351.cpp:123-124 | the pot value is even, at most 126, and half of it agrees with the coordinate modulo 64 |
| Mouse1351.PotValueDeterminesCoordinate | C64/Mouse1351.cpp:123-124 | two coordinates give the same pot value if and only if they agree modulo 64 |
| Mouse1351.Mouse.constructor | C64/Mouse1351.cpp:23-38 | the mouse starts connected to no control port, and it keeps the SID it is built for. The position, target and control-port byte start at zero; this start is assumed, not set by the source (see Left out) |
| Mouse1351.Mouse.Reset | C64/Mouse1351.cpp:44-49 | the position and target are cleared, the control port becomes 0xFF, and the port is kept |
| Mouse1351.Mouse.Connect | C64/Mouse1351.cpp:51-64 | records port 0, 1 or 2. Port 0 sets both pot registers to 0xFF; other ports leave them unchanged. Nothing else changes |
| Mouse1351.Mouse.SetXY | C64/Mouse1351.cpp:66-73 | the target becomes (x, y) and each axis of the position is snapped as Snap says |
| Mouse1351.Mouse.SetLeftButton | C64/Mouse1351.cpp:89-97 | the control port becomes LeftButtonPort of the old port; nothing else changes |
| Mouse1351.Mouse.SetRightButton | C64/Mouse1351.cpp:99-107 | the control port becomes RightButtonPort of the old port; nothing else changes |
| Mouse1351.Mouse.Execute | C64/Mouse1351.cpp:109-126 | each axis takes one Approach step. The pot registers get PotValue of the new position only when the position moved, the mouse model is the 1351 and the mouse port is not 0. Otherwise they are unchanged |
| TAPContainer.LoLoHiHi | C64/TAPContainer.cpp:102 | four bytes read little-endian give a value below 2^32 whose low byte is the first byte |
| TAPContainer.EncodeLE32 | C64/TAPContainer.cpp:102 | a 32-bit value as four little-endian bytes (the inverse of LoLoHiHi) |
| TAPContainer.EncodeThenDecode | C64/TAPContainer.cpp:102 | decoding the encoding of any 32-bit value gives the value back |
| TAPContainer.DecodeThenEncode | C64/TAPContainer.cpp:102 | encoding the decoded value of any four bytes gives the bytes back |
| TAPContainer.DeclaredLength | C64/TAPContainer.cpp:102 | the header's declared data length is a 32-bit value |
| TAPContainer.DeclaredLengthBytes | C64/TAPContainer.cpp:102 | the declared length is exactly what bytes 0x10..0x13 encode |
| TAPContainer.SizeMismatchMeaning | C64/TAPContainer.cpp:102-105 | for an image shorter than 4 GiB, the 32-bit comparison warns if and only if the declared length differs from size - 0x14 |
| TAPContainer.CheckTAPFile | C64/TAPContainer.cpp:33-50 | a file is accepted if and only if it has a .TAP or .tap suffix, at least 0x15 bytes and the 12-byte "C64-TAPE-RAW" magic. The suffix is checked first, then the size, then the magic |
| TAPContainer.AcceptedImageTooShortForName | C64/TAPContainer.cpp:40-47 | a 21-byte image with the magic header is accepted, yet it is shorter than the 25 bytes `getName` reads (see Findings) |
| TAPContainer.CheckNamedTAPFile | C64/TAPContainer.cpp:40-47 | the corrected check accepts exactly the files `isTAPFile` accepts that hold at least 25 bytes, so an accepted image holds the header and every name byte. An image `isTAPFile` accepts and this check rejects is reported as too small |
| TAPContainer.Container.constructor | C64/TAPContainer.cpp:21-26 | a new container has no data, size 0 and file pointer -1 |
| TAPContainer.Container.Dealloc | C64/TAPContainer.cpp:66-73 | data becomes null, size 0 and file pointer -1, whatever the state before (so a second call changes nothing) |
| TAPContainer.Container.ReadFromBuffer | C64/TAPContainer.cpp:93-108 | returns true exactly when allocation succeeds. The data is then an exact copy of the first `length` bytes and size is `length`. A size mismatch only warns, and the warning is raised exactly when the 32-bit check fails |
| TAPContainer.Container.WriteToBuffer | C64/TAPContainer.cpp:110-119 | returns size. A non-null buffer receives exactly the image and is unchanged beyond it |
| TAPContainer.Container.GetName | C64/TAPContainer.cpp:75-85 | the name is the 17 bytes at 0x08..0x18 followed by a 0 terminator, for an image of at least 25 bytes (see Left out) |
| TAPContainer.ReadThenWrite | C64/TAPContainer.cpp:93-119 | when allocation succeeds, reading an image into the container always succeeds, and writing it out then reproduces the source bytes exactly |
| Shaders.DispatchVersusAllocation | OSX/MacGUI/MetalSetup.swift:104-111 | the 16 x 16 groups cover the allocated 2048 x 2048 filtered texture's width exactly and twice its height |
| Shaders.TextureConstants | OSX/MacGUI/Shaders.swift:14-37 | the upscaled texture is 2048 x 2048 with cut-out 1712 x 1136, and the filtered texture is 2048 x 4096 with cut-out 1712 x 2272. Each cut-out lies inside its texture |
| Shaders.GroupCount | OSX/MacGUI/Shaders.swift:69-70 | the fewest groups of 16 that cover a dimension: count * 16 >= dim and (count - 1) * 16 < dim |
| Shaders.ThreadgroupCount | OSX/MacGUI/Shaders.swift:68-71 | the groups cover the filtered texture on both axes |
| Shaders.ThreadgroupCountValue | OSX/MacGUI/Shaders.swift:60-74 | the group count is 128 x 256 x 1 |
| Shaders.SamplerOf | OSX/MacGUI/Shaders.swift:196-250 | the sampler is nearest exactly for the Bypass, EPX and XBR upscalers and the bypass filter. The default (line 119) is linear, and the smooth, blur, CRT and scanline filters keep it |
| Shaders.IsPreBlurRequired | OSX/MacGUI/Shaders.swift:52-54 | pre-blur is required exactly for the blur and scanline filters |
| Shaders.BlurRadius | OSX/MacGUI/Shaders.swift:252-257 | only the blur filter (its own radius) and the scanline filter (radius 4) build a weight table |
| Shaders.Round | OSX/MacGUI/Shaders.swift:154 | round() lies within 0.5 of its argument and is non-negative for a non-negative argument |
| Shaders.BlurWeightCount | OSX/MacGUI/Shaders.swift:154 | the weight table size round(radius) * 2 + 1 is odd and lies between 2 * radius and 2 * radius + 2 |
| Shaders.BlurWeightCounts | OSX/MacGUI/Shaders.swift:151-154 | radius 0 gives 1 entry, and radius 4 (the scanline filter) gives 9 |
| Shaders.BlurSamples | OSX/MacGUI/Shaders.swift:151-174 | the loop visits one sample per table entry. The first sample is -radius and, with more than one entry, the last is +radius. The samples are symmetric about 0 and lie within [-radius, radius]. For a radius that is not positive, the step and exponent scale stay 0 |
| Shaders.BlurScales | OSX/MacGUI/Shaders.swift:153-162 | for a positive radius the exponent scale is -1/(2 sigma^2) with sigma = radius/2, and (size - 1) steps span 2 * radius. Otherwise both stay 0 |
| Shaders.SamplePositions | OSX/MacGUI/Shaders.swift:168-174 | sample j is -radius + j * delta |
| Shaders.SampleSymmetry | OSX/MacGUI/Shaders.swift:168-174 | sample j and sample size-1-j are opposite, and each lies within [-radius, radius] |
| Shaders.ComputeKernel.Init | OSX/MacGUI/Shaders.swift:60-74 | the group size is 16 x 16 x 1 and the group count covers the filtered texture. Nothing is bound yet; the sampler starts linear, folding in the default set at Shaders.swift line 119 |
| Shaders.ComputeKernel.SetPreBlurTexture | OSX/MacGUI/Shaders.swift:56-58 | the pre-blur texture is set; nothing else changes |
| Shaders.ComputeKernel.GetBlurWeights | OSX/MacGUI/Shaders.swift:151-189 | the weight texture has round(radius) * 2 + 1 entries; nothing else changes |
| Shaders.ComputeKernel.SetBloomingFactor | OSX/MacGUI/Shaders.swift:272-274 | the CRT parameter record holds the new blooming factor; nothing else changes |
| Shaders.ComputeKernel.Configure | OSX/MacGUI/Shaders.swift:286-288 | the configure hook pushes exactly one parameter record, at index 0, for the CRT and scanline filters, and nothing for the others |
| Shaders.ComputeKernel.Apply | OSX/MacGUI/Shaders.swift:132-149 | nothing is encoded without an encoder. Otherwise the commands are Encoding of the kernel's program, textures, configure hook and geometry |
| Shaders.OptionalTexture | OSX/MacGUI/Shaders.swift:138-143 | an optional texture is bound, at its index, exactly when it is present |
| Shaders.EncodingFrame | OSX/MacGUI/Shaders.swift:132-149 | the encoding starts with the pipeline, the source at 0 and the target at 1. It ends with the configure commands, one dispatch with the kernel's geometry, and end-of-encoding |
| Shaders.EncodingDispatchesOnce | OSX/MacGUI/Shaders.swift:144-147 | the only dispatch is the one just before the end of encoding |
| Shaders.EncodingBindsOnlyOptionalTextures | OSX/MacGUI/Shaders.swift:136-143 | after source and target, the only textures bound are the weight texture at 2 and the pre-blur texture at 3 |
| Shaders.EncodingBindsOptionalTextures | OSX/MacGUI/Shaders.swift:138-143 | index 2 is bound if and only if there is a weight texture, and index 3 if and only if there is a pre-blur texture |
| Shaders.MakeKernel | OSX/MacGUI/Shaders.swift:76-120 | returns nil exactly when the library lacks the program or the pipeline cannot be built. Otherwise it returns a kernel with the variant's sampler, CRT record (blooming factor 1.0) and weight table, and no pre-blur texture |
| Shaders.BloomingFactorRoundTrip | OSX/MacGUI/Shaders.swift:272-284 | a new CRT filter reports blooming factor 1.0, and after setBloomingFactor(v) it reports v |
| MetalSetup.Record | OSX/MacGUI/MetalSetup.swift:273-281 | one vertex record is 8 floats |
| MetalSetup.BackgroundGroup | OSX/MacGUI/MetalSetup.swift:295-302 | the background is six vertices |
| MetalSetup.FaceGroup | OSX/MacGUI/MetalSetup.swift:304-356 | each cube face is six vertices |
| MetalSetup.FlatGroup | OSX/MacGUI/MetalSetup.swift:358-365 | the 2D quad is six vertices |
| MetalSetup.VertexTable | OSX/MacGUI/MetalSetup.swift:295-365 | the vertex table has 48 entries |
| MetalSetup.TableLayout | OSX/MacGUI/MetalSetup.swift:295-365 | vertices 0..5 are the background, 6 + 6f .. 11 + 6f is face f in the order -Z, +Z, -X, +X, -Y, +Y, and 42..47 is the 2D quad |
| MetalSetup.BackgroundQuad | OSX/MacGUI/MetalSetup.swift:284-302 | every background vertex lies at z = -bgz = 6.8 with texture coordinates in {0, 1} |
| MetalSetup.FlatQuad | OSX/MacGUI/MetalSetup.swift:358-365 | every 2D-quad vertex lies at z = 0 with x, y in {-1, 1}, and its texture coordinate is a corner of the cut-out |
| MetalSetup.CubeFaces | OSX/MacGUI/MetalSetup.swift:290-356 | every vertex of a face keeps that face's coordinate at its half extent, and its texture coordinate is a corner of the cut-out |
| MetalSetup.SetVertex | OSX/MacGUI/MetalSetup.swift:271-282 | floats i*8 .. i*8+7 become [x, y, z, 1.0, tx, ty, 0, 0], and every other float is unchanged |
| MetalSetup.WriteVertices | OSX/MacGUI/MetalSetup.swift:295-365 | after the 48 setVertex calls, every vertex slot holds its table row |
| MetalSetup.BuildVertexBuffer | OSX/MacGUI/MetalSetup.swift:262-371 | there is no buffer without a device. Otherwise the buffer is 384 floats (1536 bytes) and slot v holds row v of the vertex table |
| MetalSetup.CopyInto | OSX/MacGUI/MetalSetup.swift:175 | a memcpy overwrites exactly the bytes it is given and leaves the rest |
| MetalSetup.FillMatrix | OSX/MacGUI/MetalSetup.swift:170-177 | a non-null buffer gets the matrix in bytes 0..63, and the rest is unchanged |
| MetalSetup.FillAlpha | OSX/MacGUI/MetalSetup.swift:179-186 | a non-null buffer gets the alpha in bytes 64..67, and the rest is unchanged |
| MetalSetup.FillBuffer | OSX/MacGUI/MetalSetup.swift:208-212 | bytes 0..67 of an 80-byte buffer become the matrix then the alpha, and the padding is unchanged |
| MetalSetup.FragmentLayoutVersusComment | OSX/MacGUI/MetalSetup.swift:146-154 | the write order agrees with the documented record except that scanlines and scanlineBrightness are swapped (offsets 0 and 4) |
| MetalSetup.FillFragmentShaderUniforms | OSX/MacGUI/MetalSetup.swift:188-205 | the 24-byte buffer holds scanlines, scanlineBrightness, scanlineWeight, bloomFactor, dotMask and maskBrightness, in that order, each at its own 4-byte offset |
| MetalSetup.BuildBuffers | OSX/MacGUI/MetalSetup.swift:132-168 | builds the vertex buffer, three fresh 80-byte transform buffers and a fresh 24-byte fragment buffer. The matrix and alpha fit in 80 bytes |
| MetalView.MetalView.SetupMetal | OSX/MacGUI/MetalSetup.swift:25-37 | issues the five build steps in order, then the reshape. Metal is enabled only at the end. The vertex buffer is built and holds the 48-row vertex table for the current cut-out, one 8-float record per vertex |
| MetalView.SetupReshapeIsNoOp | OSX/MacGUI/MetalSetup.swift:25-56 | the reshape at the end of setupMetal never rebuilds anything, because buildMetal has just recorded the drawable size |
| MetalView.MetalView.constructor | OSX/MacGUI/MetalView.swift:172-177 | the view starts with one semaphore permit, no frame in flight, a dirty zero-sized layer, Metal disabled and an empty trace |
| MetalView.MetalView.SetFrameSize | OSX/MacGUI/MetalView.swift:386-390 | only the dirty flag is set |
| MetalView.MetalView.Reshape | OSX/MacGUI/MetalView.swift:408-428 | the new state and events are ReshapeState/ReshapeEvents of the old state |
| MetalView.ReshapeIdempotent | OSX/MacGUI/MetalView.swift:408-428 | reshape records the drawable size, issues events exactly when the size changed, and changes nothing else. A second reshape at the same size does nothing |
| MetalView.ReshapeRebuildsOnce | OSX/MacGUI/MetalView.swift:416-427 | at a new size, the background matrix (alpha 1.0), the 2D matrix (alpha 1.0), the 3D matrix (current alpha) and the depth texture are each rebuilt exactly once |
| MetalView.ReshapeEventFacts | OSX/MacGUI/MetalView.swift:408-428 | reshape events rebuild if and only if the size changed. They contain no draw, alpha write, end of encoding or commit |
| MetalView.MetalView.EndFrame | OSX/MacGUI/MetalView.swift:370-384 | the new state and events are EndFrameState/EndFrameEvents: the frame is counted, and it is presented and committed only with a drawable |
| MetalView.EndFrameCounts | OSX/MacGUI/MetalView.swift:370-384 | endFrame ends encoding exactly once, and commits once with a drawable and never without one |
| MetalView.EndFrameEventFacts | OSX/MacGUI/MetalView.swift:370-384 | endFrame issues no draw, no reshape step and no alpha write |
| MetalView.MetalView.DrawScene2D | OSX/MacGUI/MetalView.swift:314-327 | the new state and events are those of the 2D scene followed by endFrame |
| MetalView.MetalView.DrawScene3D | OSX/MacGUI/MetalView.swift:329-368 | the new state and events are Scene3DState/Scene3DEvents: animation step, frame start, alpha, background and cube draws, then endFrame |
| MetalView.PassesFacts | OSX/MacGUI/MetalView.swift:314-365 | the scene passes neither reshape, end encoding nor commit |
| MetalView.MetalView.Refresh | OSX/MacGUI/MetalView.swift:440-444 | the new state and events are RefreshState/RefreshEvents: reshape when dirty, then clear the flag |
| MetalView.RefreshEventFacts | OSX/MacGUI/MetalView.swift:440-444 | the refresh rebuilds if and only if the layer was dirty and the size changed. It never draws, writes alpha, ends encoding or commits |
| MetalView.RefreshStateFacts | OSX/MacGUI/MetalView.swift:440-444 | the refresh clears the dirty flag and changes nothing outside the layer |
| MetalView.MetalView.DrawFrame | OSX/MacGUI/MetalView.swift:446-455 | the new state and events are FrameState/FrameEvents: with a drawable, update the texture and draw the 2D or the 3D scene; without one, nothing |
| MetalView.FrameNoReshape | OSX/MacGUI/MetalView.swift:446-455 | drawing a frame rebuilds nothing |
| MetalView.FrameStateFacts | OSX/MacGUI/MetalView.swift:446-455 | drawing a frame keeps the layer, the free permits and the display switches |
| MetalView.FrameCounts | OSX/MacGUI/MetalView.swift:446-455 | a frame with a drawable ends encoding and commits exactly once; without one it does neither. The frame counter and in-flight count grow by exactly those counts |
| MetalView.NoWaitInFrame | OSX/MacGUI/MetalView.swift:446-455 | drawing a frame never waits on the semaphore |
| MetalView.MetalView.Draw | OSX/MacGUI/MetalView.swift:430-456 | the new state and events are DrawReleasingState/DrawReleasingEvents, which is draw() with the permit given back on the nil-drawable path |
| MetalView.DrawCounts | OSX/MacGUI/MetalView.swift:430-456 | an admitted draw takes one permit, leaves the layer clean, and counts as many frames and in-flight buffers as it ends and commits. It commits exactly when there is a drawable |
| MetalView.WaitsOncePerDraw | OSX/MacGUI/MetalView.swift:432-438 | an enabled draw with a free permit waits on the semaphore exactly once; any other draw does not wait |
| MetalView.DisabledDrawIsNoOp | OSX/MacGUI/MetalView.swift:432-434 | with Metal disabled, draw changes nothing and issues nothing |
| MetalView.FirstFrameAfterResizeReshapes | OSX/MacGUI/MetalView.swift:386-444 | after setFrameSize, the next draw clears the dirty flag and rebuilds if and only if the drawable size differs from the recorded one |
| MetalView.CleanLayerDrawDoesNotReshape | OSX/MacGUI/MetalView.swift:440-444 | a draw on a clean layer rebuilds nothing and leaves the layer clean |
| MetalView.DrawsOfDraw | OSX/MacGUI/MetalView.swift:430-456 | the draw calls of draw() are exactly those of its frame |
| MetalView.DrawsOfFrame | OSX/MacGUI/MetalView.swift:447-455 | with a drawable, the frame's draw calls are those of the 2D scene when stretched, and those of the 3D scene otherwise |
| MetalView.TwoDimensionalPath | OSX/MacGUI/MetalView.swift:314-327 | in stretched fullscreen, the only draw call is the flat quad at vertices 42..47 with the 2D uniforms |
| MetalView.DrawsOf3DScene | OSX/MacGUI/MetalView.swift:345-365 | the 3D scene's draw calls are the background draw followed by the cube draw |
| MetalView.ThreeDimensionalDraws | OSX/MacGUI/MetalView.swift:450-454 | otherwise the draw calls of draw() are the background draw followed by the cube draw |
| MetalView.SceneDraws | OSX/MacGUI/MetalView.swift:332-365 | the background (vertices 0..5) is drawn if and only if not fullscreen and (animating or C64 texture hidden). The cube is drawn from vertex 6 with 24 or 6 vertices if and only if the C64 texture is shown. No draw reaches vertex 30 or uses the 2D uniforms. When both are drawn, the background comes first |
| MetalView.ThreeDimensionalPath | OSX/MacGUI/MetalView.swift:329-365 | the same four facts about the draw calls of a whole non-stretched draw() with a drawable |
| MetalView.SceneAlphaIsTheOnlyAlpha | OSX/MacGUI/MetalView.swift:342-343 | the only value the 3D scene's `fillAlpha` call writes into the 3D uniforms is the scene alpha |
| MetalView.HaltedTextureIsTranslucent | OSX/MacGUI/MetalView.swift:331-343 | the value `fillAlpha` writes is 0.5 while halted. Otherwise it is the animated alpha when animating and the current alpha when not |
| MetalView.SceneAlphaIsLast | OSX/MacGUI/MetalView.swift:331-365 | counting both `fillBuffer` and `fillAlpha` writes to the 3D uniforms, the last alpha written before the cube is drawn is the scene alpha. It overwrites the alpha the animation step writes |
| MetalView.HaltedAlphaIsLast | OSX/MacGUI/MetalView.swift:329-368 | after a 3D draw the 3D uniforms last received 0.5 when halted. Otherwise they last received the animated alpha when animating and the current alpha when not |
| MetalView.FramesCountEndFrames | OSX/MacGUI/MetalView.swift:370-384 | the frame counter grows by the number of endFrame calls, the in-flight count by the number of commits, and a draw counts at most one frame |
| MetalView.MetalView.CompleteFrame | OSX/MacGUI/MetalView.swift:374-376 | a completion handler of a committed buffer gives its permit back |
| MetalView.GateBoundedPreserved | OSX/MacGUI/MetalView.swift:374-383 | free permits plus frames in flight never exceed one. This holds initially and is kept by draw (as written and corrected), completion, setFrameSize and setupMetal |
| MetalView.CommitOnlyWhenIdle | OSX/MacGUI/MetalView.swift:436-438 | a draw that commits started with no frame in flight and leaves exactly one |
| MetalView.DrawWithoutDrawableDeadlocks | OSX/MacGUI/MetalView.swift:447-455 | as written, a draw whose nextDrawable() is nil takes the only permit and leaves the view deadlocked |
| MetalView.DeadlockIsPermanent | OSX/MacGUI/MetalView.swift:436-438 | a deadlocked view stays deadlocked: later draws and setFrameSize change nothing, and no completion can signal |
| MetalView.ReleasingDrawKeepsGateLive | OSX/MacGUI/MetalView.swift:447-455 | corrected: if the permit is given back on the nil-drawable path, exactly one permit is free or in flight after every draw, so the view never deadlocks |
| MetalView.GateLiveSteps | OSX/MacGUI/MetalView.swift:374-376 | the initial state, completions, setFrameSize and setupMetal also keep exactly one permit free or in flight |
| MetalView.MetalView.UpdateScreenGeometry | OSX/MacGUI/MetalView.swift:206-240 | the cut-out is the visible area (canvas plus the PAL or NTSC border) divided by 512. The vertex buffer is rebuilt from it when there is a device |
| MetalView.CutoutGeometry | OSX/MacGUI/MetalView.swift:210-230 | scaled back by 512, the cut-out starts one border before the canvas and ends one border after it, on both axes |
| MetalView.CutoutInUnitSquare | OSX/MacGUI/MetalView.swift:227-230 | an area inside the 512 x 512 texture gives a cut-out inside the unit square |

## Left out

- Metal, CoreAnimation and AppKit calls are not modelled. This covers device, queue, library, pipeline and depth-state creation, texture creation and upload, the render and compute encoders, present and commit. They are foreign APIs, so each is an abstract `Event` or a parameter, such as `hasDevice`, `encoderAvailable`, `allocates` or `Library`.
- `startFrame`'s three kernel passes, render pass descriptor and encoder set-up are one `StartFrame` event.
- Matrix maths in `buildMatricesBg`, `buildMatrices2D` and `buildMatrices3D` is not modelled. It is floating point through helpers that are outside the modelled files. Only the alpha each one writes is kept.
- Floats are `real` and byte encodings are opaque 4-byte sequences. Float rounding is not modelled.
- The Gaussian weight values and their normalisation in `getBlurWeights` are not modelled, because they are floating-point numerics. Only the table size and the sample positions are kept.
- `Shaders.BlurSamples`, `Shaders.ComputeKernel.GetBlurWeights` and `Shaders.MakeKernel` require the weight count `round(radius) * 2 + 1` to be at least 1. This excludes radii of -0.5 and below. For those radii the source's `size` is negative and `UnsafeMutablePointer.allocate(capacity:)` traps. The callers in the modelled files pass only 4.0 and the blur filter's own radius.
- Shaders.BlurScales keeps delta at 0 when 0 < radius < 0.5. There the table has one entry and the source divides by zero, producing a value that is never used.
- Real concurrency is not modelled. The semaphore and the GPU completion handler are a sequential counter, and `CompleteFrame` is the handler running. A `draw` that would block in `semaphore.wait()` is modelled as changing nothing.
- `updateAngles()`, `animates()`, `controller.c64.isHalted()` and `metalLayer.nextDrawable()` are outside the modelled files. Their results are the `FrameInput` fields.
- `isPAL()` and the PAL/NTSC border and canvas constants are outside the modelled files. They are parameters (`CanvasGeometry`).
- `updateTexture`, `checkForMetal`, drag and drop, `adjustHeight`/`shrink`/`expand`, `buildTextures`, `buildKernels`, `buildPipeline` and `buildDepthBuffer` are events or left out: they are Metal or AppKit plumbing with no decision logic the model could state. For the same reason the GaussFilter, ScanlineUpscaler and upscaler/filter arrays used by `buildKernels` are not part of this model.
- `MetalSetup.BuildBuffers` creates the uniform buffers, but the `FillBuffer` and `FillAlpha` events of `MetalView` name a uniform slot, not one of those arrays. Which array a write lands in is not tied to the buffers `BuildBuffers` returns.
- `MetalView.TextureCutout` reads the standardized width and height of the visible area, as CGRect's `width` and `height` do. The geometry lemmas about it assume a non-negative canvas extent.
- The vertex descriptor is not modelled. Its 24-byte stride conflicts with the 32-byte records `setVertex` writes, and the shader that reads them is not available.
- The counter `frames` is a `nat`. The source's 64-bit wrap-around is unreachable in practice.
- `MetalView.MetalView.Draw`: the class performs the corrected draw, which gives the permit back when there is no drawable. The as-written draw is the pure function `DrawState`, about which the deadlock lemmas are proved.
- The view's fields are grouped into `Layer`, `Gate` and `Display` records. The `drawable` handle is reduced to `hasDrawable`.
- `TAPContainer.CheckTAPFile` takes the file name and contents as values. The file-system helpers `checkFileSuffix`, `checkFileSize` and `checkFileHeader` are outside the modelled files, so the checks are stated on the contents.
- `containerFromTAPFile`, `readFromFile` and `fileIsValid` are not modelled because they are file I/O.
- The disabled `selectItem`/`getByte` block is not modelled because it is not compiled.
- `TAPContainer.Container.ReadFromBuffer`: the old data buffer is dropped without `free`, which is a memory leak the model cannot express. A failed allocation sets data to null, as in the source, but the model does not show the old buffer leaking.
- `TAPContainer.Container.ReadFromBuffer` requires `length` to be at least the 0x14-byte header. The source reads bytes 0x10 to 0x13 without checking, which is out of bounds for a shorter buffer. The model excludes those calls rather than modelling the out-of-bounds read.
- `TAPContainer.Container.GetName` requires the image to hold at least 25 bytes, the end of the name field. `isTAPFile` accepts images from 21 bytes on, and for a 21- to 24-byte image the source reads past the end of the buffer. The model excludes those calls rather than modelling the out-of-bounds read (see Findings).
- The TAP `name` buffer is modelled as 18 bytes: 17 name bytes and the terminator.
- The `int` conversion of a declared length of 2^31 or more is modelled as the unsigned 32-bit value compared modulo 2^32. This is the same comparison the source's mixed signed and unsigned `!=` performs.
- `Mouse1351.Mouse.constructor`: the source constructor only registers the fields as snapshot items cleared on reset and does not set them. Their declarations in `Mouse1351.h` are not part of this model, so the zero initial values are assumed. Zero is the value these snapshot items are cleared to.
- `Mouse1351.Mouse`: the int64 position and target are unbounded integers, so overflow near 2^63 is not modelled. The `debug` output is left out.
- The machine-wide mouse model and mouse port that `execute()` reads are parameters.

## Findings

| source | as written | input that shows it | evidently intended | confidence | as-written member | corrected member |
|---|---|---|---|---|---|---|
| OSX/MacGUI/MetalView.swift:438-455 | `draw` takes the semaphore's only permit before calling `nextDrawable()`. When that returns nil, no frame is encoded, no completion handler is registered and nothing signals the semaphore | Metal enabled, one free permit, nothing in flight, and `nextDrawable()` returns nil: every later `draw` waits forever | give the permit back on the nil-drawable path so the semaphore is released on every exit | not executed | MetalView.DrawWithoutDrawableDeadlocks | MetalView.ReleasingDrawKeepsGateLive |
| C64/TAPContainer.cpp:75-85 | `isTAPFile` demands only 0x15 bytes (line 43), but `getName` reads bytes 0x08 to 0x18 without a bounds check | the 21-byte file `tape.tap` holding the magic header and nine zero bytes is accepted, and `getName` then reads four bytes past its end | the size check covers every byte `getName` reads (at least 25 bytes) | not executed | TAPContainer.AcceptedImageTooShortForName | TAPContainer.CheckNamedTAPFile |
