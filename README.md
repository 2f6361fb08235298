# ExoPlayer GL demo processors and player-activity bookkeeping, in Dafny

This project models three pieces of an ExoPlayer demo application.

- **BitmapOverlayVideoProcessor**, a video processor built on GlUtil. Each frame it
  uploads the frame sampler and two overlay scales as uniforms. Its shader program
  reflects a model-view-projection (MVP) uniform, and at that uniform it reconciles a
  mirror latch and uploads the MVP matrix. It then binds every attribute and every
  other uniform, and draws a 4-vertex triangle strip through an orthographic
  projection.
- **GLVideoProcessor**, which uploads a fixed quad, its texture coordinates and a
  6-entry triangle index list to GL buffer objects once. Each frame it draws them
  with one indexed draw through a perspective projection, using the same mirror latch.
- **PlayerActivity's bookkeeping**:
  - pairing the DRM key-request properties;
  - recognising a behind-live-window playback error;
  - the saved start position (cleared, refreshed from the player, used for the seek
    and the position reset when the player is prepared);
  - the bounded media-source retry counter;
  - saving and restoring that state when the activity is re-created.

How the model represents what the source does:

- **Objects that update fields** are Dafny classes with the same fields. This covers
  both processors, the short buffer and the activity.
- **GL calls** are entries appended to a `log` field. A draw is specified by the exact
  list of calls it issues.
- **Values GL reports** are method parameters. This covers the compiled program, the
  reflected attribute and uniform lists, the uniform locations, the generated buffer
  ids, and whether the shader assets could be read.
- **Matrices** are symbolic products of the factors the program builds
  (`Transform.Matrix`). `Transform.Apply` gives them their exact action on a point
  over the reals.

Two geometric facts follow and are proved:

- With the overlay's orthographic projection, the mirror negates clip x on the quad's
  plane.
- With the GL video processor's perspective projection, the mirror also negates clip
  x on its z = 0 vertices. Mirroring, which is the initial state, takes vertices 0
  and 3 (z = -1) onto the eye plane, where clip w is 0. Unmirrored, their clip w is 2.

`QuadAgreement` compares the two quads:
- the overlay's strip and the GL video processor's index list name the same two
  triangles over the same vertex numbers, up to rotation of their vertices;
- each scheme's triangles are counter-clockwise on its own vertex table;
- the two vertex tables agree in x, y and the s, t texture coordinates.

The quads differ in z and in projection, so they do not land on the same screen
positions.

Modules, one per file:

- `Options`: the Option datatype.
- `Transform`: matrices and their action on points.
- `Gl`: GL values and the calls the model records.
- `BitmapOverlay`, `GLVideo`, `QuadAgreement`: the two processors and how their quads agree.
- `PlayerDemo`: the activity's bookkeeping.

## Model

| member | source | states |
|---|---|---|
| Transform.MultiplyMMApplies | demos/gl/src/main/java/com/google/android/exoplayer2/gldemo/BitmapOverlayVideoProcessor.java:109 | multiplyMM composes: the product applied to a point is the right operand applied first, then the left |
| Transform.DepthTranslateMoves | demos/gl/src/main/java/com/google/android/exoplayer2/gldemo/BitmapOverlayVideoProcessor.java:107 | a translation by d along z adds d times w to a point's z and leaves x, y and w alone |
| Transform.FlippedDepthTranslateMoves | demos/gl/src/main/java/com/google/android/exoplayer2/gldemo/BitmapOverlayVideoProcessor.java:107-108 | the same translation after the half turn about y negates x and z, then adds d times w to z |
| Transform.PlainModelMoves | demos/gl/src/main/java/com/google/android/exoplayer2/gldemo/BitmapOverlayVideoProcessor.java:112-116 | the unmirrored model matrix only adds the depth times w to z |
| Transform.MirroredModelMoves | demos/gl/src/main/java/com/google/android/exoplayer2/gldemo/BitmapOverlayVideoProcessor.java:105-110 | the mirrored model matrix negates x and z, then adds the depth times w to z |
| Transform.ModelMatrixMoves | demos/gl/src/main/java/com/google/android/exoplayer2/gldemo/BitmapOverlayVideoProcessor.java:105-116 | the model matrix moves a point by the depth along z, and when mirrored first turns it half round the y axis (x and z negated) |
| Transform.MirroredMvpIsFlip | demos/gl/src/main/java/com/google/android/exoplayer2/gldemo/BitmapOverlayVideoProcessor.java:105-116 | for any projection, the mirrored MVP applied to a point equals the unmirrored MVP applied to the point turned half round the y axis |
| Transform.OrthoOddInX | demos/gl/src/main/java/com/google/android/exoplayer2/gldemo/BitmapOverlayVideoProcessor.java:77 | an orthographic frustum with left = -right is odd in x: negating a point's x negates its clip x and leaves clip y, z and w unchanged |
| BitmapOverlay.SurfaceScale | demos/gl/src/main/java/com/google/android/exoplayer2/gldemo/BitmapOverlayVideoProcessor.java:171-174 | the scales times the 512x256 reference size give back the surface width and height |
| BitmapOverlay.BitmapOverlayVideoProcessor.constructor | demos/gl/src/main/java/com/google/android/exoplayer2/gldemo/BitmapOverlayVideoProcessor.java:71-83 | starts with mirror and wantMirror true, the mirrored model matrix and MVP under the orthographic projection, no attributes or uniforms, no GL calls |
| BitmapOverlay.BitmapOverlayVideoProcessor.SetMirror | demos/gl/src/main/java/com/google/android/exoplayer2/gldemo/BitmapOverlayVideoProcessor.java:101-103 | only wantMirror changes, to the given value |
| BitmapOverlay.BitmapOverlayVideoProcessor.MakeMirrorMatrix | demos/gl/src/main/java/com/google/android/exoplayer2/gldemo/BitmapOverlayVideoProcessor.java:105-110 | the model matrix becomes translate(0,0,-2) then rotate 180 about y, and the MVP becomes projection times model |
| BitmapOverlay.BitmapOverlayVideoProcessor.MakeNotMirrorMatrix | demos/gl/src/main/java/com/google/android/exoplayer2/gldemo/BitmapOverlayVideoProcessor.java:112-116 | the model matrix becomes translate(0,0,-2), and the MVP becomes projection times model |
| BitmapOverlay.BitmapOverlayVideoProcessor.UpdateMatrix | demos/gl/src/main/java/com/google/android/exoplayer2/gldemo/BitmapOverlayVideoProcessor.java:118-128 | afterwards mirror equals wantMirror and the MVP matches it; when they already agreed nothing changes, so a second call is a no-op |
| BitmapOverlay.BitmapOverlayVideoProcessor.Initialize | demos/gl/src/main/java/com/google/android/exoplayer2/gldemo/BitmapOverlayVideoProcessor.java:131-168 | unreadable assets change nothing; otherwise the program is kept on a compile failure, a_position gets the 16-float 4-component buffer, a_texcoord the 12-float 3-component buffer, other attributes are untouched, the lists are stored and cull-face is disabled |
| BitmapOverlay.BitmapOverlayVideoProcessor.SetSurfaceSize | demos/gl/src/main/java/com/google/android/exoplayer2/gldemo/BitmapOverlayVideoProcessor.java:171-174 | the scales become the surface size over the reference size and nothing else changes |
| BitmapOverlay.BitmapOverlayVideoProcessor.SetUniforms | demos/gl/src/main/java/com/google/android/exoplayer2/gldemo/BitmapOverlayVideoProcessor.java:184-204 | every uniform gets its latched value by name; the latch is reconciled exactly when some uniform is uMvpMatrix, and the MVP is uploaded once per such uniform |
| BitmapOverlay.BitmapOverlayVideoProcessor.SetUniform | demos/gl/src/main/java/com/google/android/exoplayer2/gldemo/BitmapOverlayVideoProcessor.java:185-203 | one case of the switch: the sampler gets the frame at unit 0, scaleX and scaleY the scales, uMvpMatrix reconciles the latch and uploads the MVP, other names nothing |
| BitmapOverlay.BitmapOverlayVideoProcessor.BindAttributes | demos/gl/src/main/java/com/google/android/exoplayer2/gldemo/BitmapOverlayVideoProcessor.java:205-207 | binds every attribute in order |
| BitmapOverlay.BitmapOverlayVideoProcessor.BindUniforms | demos/gl/src/main/java/com/google/android/exoplayer2/gldemo/BitmapOverlayVideoProcessor.java:208-213 | binds every uniform except uMvpMatrix, in order |
| BitmapOverlay.BitmapOverlayVideoProcessor.Draw | demos/gl/src/main/java/com/google/android/exoplayer2/gldemo/BitmapOverlayVideoProcessor.java:177-218 | before initialize it fails and changes nothing; otherwise it issues use-program, the MVP uploads, the binds, clear, one 4-vertex strip draw and the error check, with the mirror latch reconciled iff uMvpMatrix is present |
| BitmapOverlay.BitmapOverlayVideoProcessor.RunProgram | demos/gl/src/main/java/com/google/android/exoplayer2/gldemo/BitmapOverlayVideoProcessor.java:183-216 | with both lists present: every uniform latched by name, the mirror latch reconciled iff uMvpMatrix is present, and the log extended by exactly the draw's call list |
| BitmapOverlay.MvpCountZero | demos/gl/src/main/java/com/google/android/exoplayer2/gldemo/BitmapOverlayVideoProcessor.java:195-202 | no MVP upload happens exactly when no uniform is named uMvpMatrix |
| BitmapOverlay.AttributeBindsAll | demos/gl/src/main/java/com/google/android/exoplayer2/gldemo/BitmapOverlayVideoProcessor.java:205-207 | the attribute bind phase has one bind per attribute, in order |
| BitmapOverlay.UniformBindsSkipMvp | demos/gl/src/main/java/com/google/android/exoplayer2/gldemo/BitmapOverlayVideoProcessor.java:208-213 | the uniform bind phase binds only uniforms other than uMvpMatrix, and skips exactly as many as there are uMvpMatrix uniforms |
| BitmapOverlay.UniformBindsCover | demos/gl/src/main/java/com/google/android/exoplayer2/gldemo/BitmapOverlayVideoProcessor.java:208-213 | every uniform other than uMvpMatrix is bound |
| BitmapOverlay.DrawCallsDrawOnce | demos/gl/src/main/java/com/google/android/exoplayer2/gldemo/BitmapOverlayVideoProcessor.java:214-216 | a draw issues exactly one draw call, a 4-vertex triangle strip, followed only by the error check |
| BitmapOverlay.SurfaceScaleDoubled | demos/gl/src/main/java/com/google/android/exoplayer2/gldemo/BitmapOverlayVideoProcessor.java:172-173 | a 1024x512 surface gives scales of 2 |
| BitmapOverlay.QuadBuffersHoldFourVertices | demos/gl/src/main/java/com/google/android/exoplayer2/gldemo/BitmapOverlayVideoProcessor.java:146-162 | both attribute buffers hold four vertices; positions lie in the z = 0 plane with w = 1 |
| BitmapOverlay.MirrorFlipsClipX | demos/gl/src/main/java/com/google/android/exoplayer2/gldemo/BitmapOverlayVideoProcessor.java:77-83 | with the orthographic projection, mirroring negates the clip x of every point of the quad's plane and changes nothing else |
| GLVideo.ShortBuffer.AllocateDirect | demos/gl/src/main/java/com/google/android/exoplayer2/gldemo/GLVideoProcessor.java:209 | a zeroed buffer of byte count / 2 shorts with position 0 and limit at capacity |
| GLVideo.ShortBuffer.Put | demos/gl/src/main/java/com/google/android/exoplayer2/gldemo/GLVideoProcessor.java:210 | copies the source at the position and advances it, or reports overflow and changes nothing when fewer elements remain than the source holds |
| GLVideo.ShortBuffer.Flip | demos/gl/src/main/java/com/google/android/exoplayer2/gldemo/GLVideoProcessor.java:210 | the limit becomes the position and the position 0 |
| GLVideo.CreateShortBuffer | demos/gl/src/main/java/com/google/android/exoplayer2/gldemo/GLVideoProcessor.java:208-211 | a fresh buffer whose readable contents equal the input, with position 0 and limit the input's length |
| GLVideo.GLVideoProcessor.constructor | demos/gl/src/main/java/com/google/android/exoplayer2/gldemo/GLVideoProcessor.java:82-95 | starts with mirror and wantMirror true, the mirrored model matrix and MVP under the perspective projection, and three distinct one-element buffer-id arrays |
| GLVideo.GLVideoProcessor.SetMirror | demos/gl/src/main/java/com/google/android/exoplayer2/gldemo/GLVideoProcessor.java:98-100 | only wantMirror changes, to the given value |
| GLVideo.GLVideoProcessor.MakeMirrorMatrix | demos/gl/src/main/java/com/google/android/exoplayer2/gldemo/GLVideoProcessor.java:102-107 | the model matrix becomes translate(0,0,-1) then rotate 180 about y, and the MVP becomes projection times model |
| GLVideo.GLVideoProcessor.MakeNotMirrorMatrix | demos/gl/src/main/java/com/google/android/exoplayer2/gldemo/GLVideoProcessor.java:109-113 | the model matrix becomes translate(0,0,-1), and the MVP becomes projection times model |
| GLVideo.GLVideoProcessor.UpdateMatrix | demos/gl/src/main/java/com/google/android/exoplayer2/gldemo/GLVideoProcessor.java:115-125 | afterwards mirror equals wantMirror and the MVP matches it; when they already agreed nothing changes |
| GLVideo.GLVideoProcessor.Initialize | demos/gl/src/main/java/com/google/android/exoplayer2/gldemo/GLVideoProcessor.java:128-163 | unreadable assets change nothing; otherwise the program is kept on a compile failure, the three buffers get their generated ids and uploads of 64, 32 and 12 bytes holding the vertices, texture coordinates and indices, and glBindAttribLocation is issued for a_position at 0 and a_texcoord at 1 |
| GLVideo.GLVideoProcessor.SetSurfaceSize | demos/gl/src/main/java/com/google/android/exoplayer2/gldemo/GLVideoProcessor.java:166-168 | changes nothing |
| GLVideo.GLVideoProcessor.Draw | demos/gl/src/main/java/com/google/android/exoplayer2/gldemo/GLVideoProcessor.java:171-194 | reconciles the latch once, then uploads the reconciled MVP, binds the frame at sampler unit 0, binds the three buffers, draws 6 indices as triangles and checks for errors |
| GLVideo.QuadShape | demos/gl/src/main/java/com/google/android/exoplayer2/gldemo/GLVideoProcessor.java:53-63 | 16 vertex floats and 8 texture floats for 4 vertices, every w is 1, z is -1 at vertices 0 and 3 and 0 at vertices 1 and 2 |
| GLVideo.IndexShape | demos/gl/src/main/java/com/google/android/exoplayer2/gldemo/GLVideoProcessor.java:65-68 | the index list has 6 entries, the count the draw uses, whole triangles, and every entry names one of the 4 vertices |
| GLVideo.UploadSizes | demos/gl/src/main/java/com/google/android/exoplayer2/gldemo/GLVideoProcessor.java:140-153 | each upload size is the array length times the element size: 16x4, 8x4 and 6x2 bytes |
| GLVideo.DrawCallsShape | demos/gl/src/main/java/com/google/android/exoplayer2/gldemo/GLVideoProcessor.java:174-189 | a draw issues exactly one draw call, which uses every index, after the MVP upload and with sampler unit 0 |
| GLVideo.MirrorOnQuadVertices | demos/gl/src/main/java/com/google/android/exoplayer2/gldemo/GLVideoProcessor.java:53-57 | mirroring negates clip x of the z = 0 vertices; mirrored, vertices 0 and 3 have clip w 0 (on the eye plane), unmirrored clip w 2 |
| GLVideo.PerspectiveClip | demos/gl/src/main/java/com/google/android/exoplayer2/gldemo/GLVideoProcessor.java:102-113 | under both MVP matrices, clip x is (negated) x, clip y is y, clip w is w plus or minus z, and z = 0 points get the same depth either way |
| QuadAgreement.StripMatchesIndexList | demos/gl/src/main/java/com/google/android/exoplayer2/gldemo/GLVideoProcessor.java:65-68 | the index list's two triangles are the overlay strip's two triangles, each up to rotation of its vertices |
| QuadAgreement.StripTrianglesCounterClockwise | demos/gl/src/main/java/com/google/android/exoplayer2/gldemo/BitmapOverlayVideoProcessor.java:146-153 | both triangles of the overlay strip wind counter-clockwise |
| QuadAgreement.ListTrianglesCounterClockwise | demos/gl/src/main/java/com/google/android/exoplayer2/gldemo/GLVideoProcessor.java:53-68 | both triangles of the index list wind counter-clockwise on the GL video processor's vertices |
| QuadAgreement.QuadVerticesAgree | demos/gl/src/main/java/com/google/android/exoplayer2/gldemo/GLVideoProcessor.java:53-63 | the two processors' vertices agree in x and y, and their s and t texture coordinates agree |
| PlayerDemo.CreateMediaDrmCallback | demos/main/src/main/java/com/google/android/exoplayer2/demo/PlayerActivity.java:425-438 | no property array sets nothing; otherwise the properties set are exactly the consecutive (key, value) pairs of the array, in order |
| PlayerDemo.KeyValuePairsRoundTrip | demos/main/src/main/java/com/google/android/exoplayer2/demo/PlayerActivity.java:431-436 | the pairs are half the array rounded down, and spelled out they give the array without an odd trailing key |
| PlayerDemo.FlattenRoundTrip | demos/main/src/main/java/com/google/android/exoplayer2/demo/PlayerActivity.java:431-436 | pairs spelled out as an array and paired again give the same pairs |
| PlayerDemo.IsBehindLiveWindow | demos/main/src/main/java/com/google/android/exoplayer2/demo/PlayerActivity.java:511-523 | true iff the error is a source error and some element of its cause chain is a BehindLiveWindowException |
| PlayerDemo.PlayerActivity.constructor | demos/main/src/main/java/com/google/android/exoplayer2/demo/PlayerActivity.java:217-231 | restores the parameters and the start position from saved state, or takes the default parameters and a cleared start position |
| PlayerDemo.PlayerActivity.ClearStartPosition | demos/main/src/main/java/com/google/android/exoplayer2/demo/PlayerActivity.java:479-483 | auto-play true, window INDEX_UNSET, position TIME_UNSET |
| PlayerDemo.PlayerActivity.UpdateStartPosition | demos/main/src/main/java/com/google/android/exoplayer2/demo/PlayerActivity.java:471-477 | a no-op without a player; otherwise copies play-when-ready and the window, and sets the position to the content position clamped at 0, so it is never negative |
| PlayerDemo.PlayerActivity.UpdateTrackSelectorParameters | demos/main/src/main/java/com/google/android/exoplayer2/demo/PlayerActivity.java:465-469 | takes the selector's current parameters when there is a selector, otherwise keeps the stored ones |
| PlayerDemo.PlayerActivity.ReleasePlayer | demos/main/src/main/java/com/google/android/exoplayer2/demo/PlayerActivity.java:440-454 | a no-op without a player; otherwise saves the parameters and the start position from the old player and selector, releases the player, and then clears player, media source and selector |
| PlayerDemo.PlayerActivity.InitializePlayer | demos/main/src/main/java/com/google/android/exoplayer2/demo/PlayerActivity.java:360-413 | an unrecognized abr algorithm finishes before any player exists; otherwise a player (new or kept) gets play-when-ready if new, a seek iff there is a start window, and a prepare that resets the position iff there is none |
| PlayerDemo.PlayerActivity.OnPlayerError | demos/main/src/main/java/com/google/android/exoplayer2/demo/PlayerActivity.java:536-559 | the retry counter rises by one only while below 4; an error that is not behind the live window changes nothing but the counter; a behind-live-window error clears the start position and then leaves the player, selector, media source, calls and finished flag exactly as initializing from the cleared position does |
| PlayerDemo.PlayerActivity.OnSaveInstanceState | demos/main/src/main/java/com/google/android/exoplayer2/demo/PlayerActivity.java:310-318 | saves the refreshed parameters, auto-play, window and position |
| PlayerDemo.SavedStateRoundTrip | demos/main/src/main/java/com/google/android/exoplayer2/demo/PlayerActivity.java:217-231 | re-creating the activity from saved state, initializing the player and saving again gives back the saved state: the position clamped at 0 when there was a start window, window 0 and position 0 when there was not, unchanged when the abr algorithm is unrecognized |
| PlayerDemo.StartCallsSeekIffStartWindow | demos/main/src/main/java/com/google/android/exoplayer2/demo/PlayerActivity.java:407-411 | a seek is issued iff there is a start window and only to the start position; the last call is a prepare that resets the position iff there is no start window; play-when-ready is set iff the player is new |

## Left out

- Floating point: the matrices are symbolic products whose action is exact over the reals. The float arithmetic of Matrix.orthoM, perspectiveM, translateM, rotateM and multiplyMM is not modelled. For example, rotateM's float sine of 180 degrees is not exactly 0.
- BitmapOverlay.SurfaceScale: computes the scales with exact real division rather than float division.
- Transform.Apply: gives an exact action only for the factors the program builds: translations, a half turn about y, non-degenerate orthographic frusta, and the 90-degree perspective. Anything else is None.
- GlUtil and GLES20 are foreign calls. compileProgram, getAttributes, getUniforms, glGetUniformLocation and glGenBuffers supply their results as parameters. Attribute.setBuffer and the Uniform setters (setFloat, setSamplerTexId) are updates of the Attribute and Uniform records. createBuffer is the float payload of the glBufferData entry. Only Attribute.bind, Uniform.bind and the GLES20 calls are log entries. What GL then does with them is not modelled, including the link-time effect of glBindAttribLocation.
- BitmapOverlay.BitmapOverlayVideoProcessor.Draw: no GlUtil or GL call fails in the model. An exception from checkGlError, Attribute.bind or Uniform.bind (a bind with no buffer or texture set, say) would leave this draw; this path is not modelled.
- GLVideo.GLVideoProcessor.Draw: no GL call fails in the model. The source catches and logs every exception inside this draw, so a failing call would end the draw early and quietly; this path is not modelled.
- Shader asset loading is file I/O. It is a boolean parameter: an unreadable asset makes initialize fail before any state changes.
- The overlay constructor's Paint, Bitmap and Canvas setup and its application-icon lookup are framework calls, and are not modelled.
- Logging, timing (System.currentTimeMillis) and the unused frame timestamp are not modelled.
- setMirror is called from another thread without synchronisation. The model is sequential.
- GLVideo.ShortBuffer: not modelled are byte order, the mark, bulk put from an offset, and the int overflow of length times 2 for arrays over 2^30 elements (the index list has 6).
- PlayerActivity lifecycle callbacks other than onCreate's saved-state branch and onSaveInstanceState are not modelled: onNewIntent, onStart, onResume, onPause, onStop, onDestroy and the permission result. Also not modelled: the spherical stereo-mode branch of onCreate, UI (views, toasts, button visibility, controls, the track-selection dialog), the ads loader, the data-source and renderer factories, onTracksChanged, onPlayerStateChanged and the error-message provider.
- The media source is always the same progressive source. createTopLevelMediaSource never returns null, so initializePlayer's early return for a null source is not reachable. The media URI is not modelled.
- The player is a stand-in whose reported state changes only through the calls the activity makes. setPlayWhenReady sets play-when-ready. seekTo moves to the given window and position, stored as given even when that is TIME_UNSET. A prepare that resets the position moves to window 0 at position 0, the default position of on-demand media. Playback progress, live windows and the player's own events are not modelled.
- PlayerDemo.CreateMediaDrmCallback: states the ordered setKeyRequestProperty calls, not the callback's property map, where a repeated key keeps its last value. The license data-source factory is not modelled.
- PlayerDemo.IsBehindLiveWindow: the cause chain is a finite sequence. A cyclic chain of causes, on which the source's loop would not end, is not representable.
- onPlayerError's switch over the media-source kinds has only empty cases, and is modelled as the counter step alone.
- C.java is not part of this model: INDEX_UNSET (-1) and TIME_UNSET (Long.MIN_VALUE + 1) are written out as constants.
