# Star background of the portfolio page, modelled in Dafny

The portfolio page (`app/page.tsx`) is mostly layout. Its only logic sits in
the animated star backgrounds. This project models that logic and proves
properties of it:

- **Shooting star frame step** (`ShootingStarMotion`, `TrailBuffer`). Each
  `useFrame` callback of a `ShootingStar` moves the mesh by
  `direction * speed * delta`. It then shifts the 30-point trail buffer one
  point toward the tail, in place, with a descending loop. It writes the new
  position into slots 0-2. If `|x| > 5` or `|y| > 5`, it puts the star back
  at its spawn point. The class `ShootingStar` holds the mesh position, the
  two refs and the buffer as an `array<real>`. `Frame` is proved against the
  pure one-frame function `Step`. `Run` and `Moves` fold `Step` over a series
  of frames, and lemmas state what the trail and the position are after any
  number of frames.
- **Trail buffer** (`TrailBuffer`). `Push` is the in-place shift followed by
  the head write, proved equal to `Pushed`. `History` proves that after any
  series of pushes, point j is the j-th most recent push. The renderer draws
  only the first 10 of the 30 points (`Rendered`).
- **Spawn data and random layouts** (`StarSpawning`, `RandomRanges`). These
  are the eight shooting stars' spawn data, the subtle background's box of
  500 points (a loop that fills a fresh buffer), and the hero field's shell
  radius. Each draw of `Math.random()` is a parameter. Each range is proved
  in both directions: a draw in [0, 1) lands in the range, and a value in
  the range comes only from such a draw.
- **Pointer tilt** (`PointerTilt`). The `mousemove` handler maps client
  coordinates to [-1, 1], with y flipped, and assigns the field's rotation
  directly.
- **CSS shooting stars** (`CssShootingStars`). The interval appends a
  record. The record's timeout filters out its id. Timer firings are
  modelled as a series of `Spawn` and `Expire` events.

Each `ShootingStar` owns its position and its buffer. The `modifies` clause of
`Frame` names only that star's position field and its trail array. Stars are
therefore independent as long as their buffers are distinct, which holds
because `AllocateTrail` always allocates a fresh array.
`FramesAreIndependent` proves that under that condition, a frame of one star
leaves another star's position and trail contents unchanged. The host, the
renderer committing the `<mesh>` and `<points>` elements, attaches the two
refs through `AttachRefs`.

## Model

| member | source | states |
|---|---|---|
| `Geometry.Abs` | app/page.tsx:99 | Math.abs: the result is non-negative and is either the argument or its negation |
| `RandomRanges.Centered` | app/page.tsx:148-153 | definition of `(Math.random() - 0.5) * width`, no contract; its range is stated by `CenteredRange` and `CenteredOnto` |
| `RandomRanges.Offset` | app/page.tsx:154 | definition of `Math.random() * span + low`, no contract; its range is stated by `OffsetRange` and `OffsetOnto` |
| `RandomRanges.CenteredRange` | app/page.tsx:148-153 | for width > 0, `(r - 0.5) * width` lies in [-width/2, width/2) if and only if r is a draw in [0, 1) |
| `RandomRanges.OffsetRange` | app/page.tsx:154 | for span > 0, `r * span + low` lies in [low, low + span) if and only if r is a draw in [0, 1) |
| `RandomRanges.CenteredOnto` | app/page.tsx:148-153 | every value in [-width/2, width/2) is produced by some draw |
| `RandomRanges.OffsetOnto` | app/page.tsx:223-224 | every value in [low, low + span) is produced by some draw |
| `TrailBuffer.Shifted` | app/page.tsx:85-89 | after the shift loop, point 0 is unchanged, and each point k ≥ 1 holds the old point k-1 |
| `TrailBuffer.Pushed` | app/page.tsx:85-94 | one push keeps the length; point 0 is the pushed position; each point k ≥ 1 is the old point k-1; the old last point is dropped |
| `TrailBuffer.PushAll` | app/page.tsx:70 | any number of pushes keeps the buffer at its allocated length |
| `TrailBuffer.History` | app/page.tsx:85-94 | after a series of pushes, point j is the j-th most recent push; past the pushes it is the old point j - (number of pushes) |
| `TrailBuffer.Rendered` | app/page.tsx:117 | the renderer sees 10 points, and they are the buffer's first 10 |
| `TrailBuffer.RenderedAreLatest` | app/page.tsx:85-117 | after 10 or more frames, the 10 drawn points are the 10 latest positions, newest first |
| `TrailBuffer.ShiftInPlace` | app/page.tsx:85-89 | the descending in-place loop leaves the array equal to `Shifted` of its old contents; no slot is read after it has been overwritten |
| `TrailBuffer.Push` | app/page.tsx:85-94 | the shift loop plus the writes to slots 0-2 leave the array equal to `Pushed(old contents, p)` |
| `ShootingStarMotion.Advance` | app/page.tsx:77-79 | each axis advances by direction * speed * delta; with direction z = 0 the depth does not change |
| `ShootingStarMotion.OutOfBounds` | app/page.tsx:99 | definition of the reset test (strict `> 5` on \|x\| or \|y\|, z not tested), no contract; its effect is stated by `StepReset` and `RunStaysInBounds` |
| `ShootingStarMotion.Step` | app/page.tsx:77-101 | one frame keeps the trail a whole number of points and keeps its length |
| `ShootingStarMotion.Run` | app/page.tsx:74-103 | any number of frames keeps the trail's length |
| `ShootingStarMotion.Moves` | app/page.tsx:77-94 | each frame integrates exactly one position; that these positions are what is pushed onto the trail is stated by `RunTrail` |
| `ShootingStarMotion.StepReset` | app/page.tsx:92-101 | the head of the trail is always the integrated position, even one out of bounds; if that position is out of bounds, the star is at its spawn point exactly; otherwise it stays where it flew |
| `ShootingStarMotion.ResetIsNotClamp` | app/page.tsx:99-101 | a star spawned at the origin flying +x at speed 10 goes from x = 4.5 to x = 5.5 in a 0.1 s frame; it resets to x = 0, not to 5, and the trail records 5.5 |
| `ShootingStarMotion.RunStaysInBounds` | app/page.tsx:99-101 | a star spawned inside the square \|x\|, \|y\| ≤ 5 is inside it after any number of frames |
| `ShootingStarMotion.RunKeepsDepth` | app/page.tsx:77-79 | with direction z = 0, the position and every recorded trail point keep the spawn depth |
| `ShootingStarMotion.RunTrail` | app/page.tsx:85-94 | the trail after a run is the starting trail with every integrated position pushed, in order |
| `ShootingStarMotion.TrailHistory` | app/page.tsx:82-94 | after any run, trail point j is where the star flew j frames ago, before any reset |
| `ShootingStarMotion.ShootingStar.constructor` | app/page.tsx:59-66 | the mesh starts at the spawn position; neither ref is attached and no buffer exists yet |
| `ShootingStarMotion.ShootingStar.AllocateTrail` | app/page.tsx:68-72 | the mount effect allocates a fresh buffer of 90 zeros |
| `ShootingStarMotion.ShootingStar.AttachRefs` | app/page.tsx:108-117 | the commit sets whether the mesh ref and the points ref are attached, and changes nothing else |
| `ShootingStarMotion.ShootingStar.Frame` | app/page.tsx:74-103 | with the mesh ref, the points ref and the buffer present, the new position and trail are `Step` of the old ones; otherwise nothing changes; the buffer itself is never replaced |
| `ShootingStarMotion.FramesAreIndependent` | app/page.tsx:189-191 | two distinct stars with distinct buffers: a frame of one leaves the other's position, buffer and buffer contents unchanged |
| `StarSpawning.SpawnStar` | app/page.tsx:147-155 | six draws in [0, 1) give exactly the spawn ranges: position in [-2,2)×[-2,2)×[-1,1), direction in [-1,1)² with z = 0, speed in [0.5,1.5); direction z is 0 always |
| `StarSpawning.ShootingStarsData` | app/page.tsx:146-156 | eight stars, each built from its own six consecutive draws and in range |
| `StarSpawning.SpawnedStarStaysInBounds` | app/page.tsx:146-156 | every spawn point is inside the reset square, so a spawned star never leaves it |
| `StarSpawning.SpawnedStarKeepsDepth` | app/page.tsx:153 | a spawned star keeps its spawn depth on every frame |
| `StarSpawning.SubtleCoordinate` | app/page.tsx:201-203 | a coordinate lies in [-5,5) on x and y and in [-2.5,2.5) on z if and only if its draw is in [0, 1) |
| `StarSpawning.SubtleStars` | app/page.tsx:198-206 | the loop fills a fresh 1500-slot buffer; slot i is from draw i on axis i mod 3; with draws in [0, 1), every point is in the box |
| `StarSpawning.ShellRadius` | app/page.tsx:134 | the hero field's radius `r * 2 + 0.5` lies in [0.5, 2.5) if and only if r is a draw |
| `PointerTilt.FractionRange` | app/page.tsx:161-162 | a coordinate's fraction of the window is in [0, 1] exactly when the coordinate is inside the window; 0 at one edge, 1 at the other |
| `PointerTilt.NormalizeX` | app/page.tsx:161 | normalised x is in [-1, 1] exactly when the pointer is inside the window's width; -1 at the left edge, +1 at the right |
| `PointerTilt.NormalizeY` | app/page.tsx:162 | normalised y is in [-1, 1] exactly when the pointer is inside the window's height; +1 at the top, -1 at the bottom (flipped) |
| `PointerTilt.NormalizeRoundTrip` | app/page.tsx:161-162 | both normalisations can be inverted: the pointer coordinate is recovered from the normalised value |
| `PointerTilt.NormalizeMonotone` | app/page.tsx:161-162 | normalised x increases with clientX; normalised y decreases with clientY |
| `PointerTilt.TiltFromPointer` | app/page.tsx:161-164 | for a pointer inside the window, both rotations lie in [-0.05, 0.05]; the top edge gives rotation x = +0.05, the right edge gives rotation y = +0.05 |
| `PointerTilt.StarPoints.constructor` | app/page.tsx:176 | the field's points object starts unrotated |
| `PointerTilt.HandleMouseMove` | app/page.tsx:159-166 | with the field mounted, its rotation is assigned from this event alone, with no easing; with no field, nothing changes |
| `CssShootingStars.NewStar` | app/page.tsx:221-225 | the record has the given id; left is in [0, 100) and the duration in [2, 5) exactly when their draws are in [0, 1) |
| `CssShootingStars.RemovalDelayMs` | app/page.tsx:230-235 | the removal timeout, `animationDuration * 1000`, lies in [2000, 5000) ms exactly when the duration lies in [2, 5) s |
| `CssShootingStars.AddStar` | app/page.tsx:227 | creation appends exactly one record at the end; the existing records are unchanged and in order |
| `CssShootingStars.RemoveStar` | app/page.tsx:231 | a record survives removal if and only if it was listed and its id differs from the removed one; the list never grows |
| `CssShootingStars.RemoveSplits` | app/page.tsx:231 | removal distributes over concatenation, so survivors keep their relative order |
| `CssShootingStars.RemoveAbsent` | app/page.tsx:231 | removing an id that no record carries leaves the list unchanged |
| `CssShootingStars.RemoveIdempotent` | app/page.tsx:231 | removing the same id twice is the same as removing it once |
| `CssShootingStars.AddThenRemove` | app/page.tsx:227-231 | creating a star with a fresh id and then removing that id restores the original list |
| `CssShootingStars.Apply` | app/page.tsx:227-231 | definition of one timer firing (the interval's append or a timeout's filter), no contract; its effect is stated by `PresentUntilExpired` and `StaysAbsent` |
| `CssShootingStars.Replay` | app/page.tsx:227-231 | definition of a series of timer firings in order, no contract; its effect is stated by `PresentUntilExpired`, `GoneAfterExpire` and `StaysAbsent` |
| `CssShootingStars.PresentUntilExpired` | app/page.tsx:227-232 | a listed star stays listed through every timer firing until the one that expires its id |
| `CssShootingStars.GoneAfterExpire` | app/page.tsx:230-232 | after a star's timeout fires, no record with its id returns unless a new star reuses the id |
| `CssShootingStars.StaysAbsent` | app/page.tsx:227-232 | a list without an id stays without it through any firings that do not spawn it |

## Left out

- Rendering and styling are not modelled: JSX, materials, `CustomCursor`, `AnimatedSection`, `ProjectCard`, the page sections and the `needsUpdate` flag (app/page.tsx:96).
- The hero field's sphere-shell positions (app/page.tsx:131-143) need `sin`, `cos` and `acos`, which Dafny's reals do not have. Only the radius range (`ShellRadius`) is modelled. The fill loop, the 2000-point count and the uniformity of the sampling are not.
- Timers are left out: the 3000 ms `setInterval`, each star's `setTimeout` and `clearInterval` on unmount (app/page.tsx:230-236). Their firings are the `Spawn` and `Expire` events, so lifetimes are ordered events rather than wall-clock times.
- CSS star ids (`Date.now() + Math.random()`, app/page.tsx:222) are parameters. Their uniqueness is a precondition of the lemmas that need it, not a proved fact.
- The generator behind `Math.random()` is not modelled. Draws are parameters and only their range [0, 1) is used.
- Float32Array storage rounds to single precision, and JavaScript numbers are IEEE doubles. The model uses exact reals.
- Document-level effects are not modelled: cursor hiding, smooth scrolling, `scrollToSection` and event-listener registration (app/page.tsx:35-43, 168-169, 336-353). Neither are the static `projects` and `skills` data.
- `PointerTilt.HandleMouseMove`: requires a positive window width and height. app/page.tsx:161-162 divides by them with no guard, so a zero-size window gives Infinity or NaN there rather than a no-op. The model does not claim a no-op for that case.
- `PointerTilt.NormalizeX`: requires a positive window width, for the same unguarded division at app/page.tsx:161.
- `PointerTilt.NormalizeY`: requires a positive window height, for the same unguarded division at app/page.tsx:162.
- `PointerTilt.TiltFromPointer`: requires a positive window width and height, for the same unguarded divisions at app/page.tsx:161-162.
- `ShootingStarMotion.FramesAreIndependent`: requires the two stars' buffers to be distinct. Nothing in the class stops a client from making two stars share one array. Only `AllocateTrail`, which always allocates a fresh array, rules that out.
- `TrailBuffer.Push` and `TrailBuffer.ShiftInPlace`: require a buffer of whole points, at least one. The page always allocates 90 numbers (app/page.tsx:70), and the loop's behaviour on other lengths is not modelled.
- The `state` argument of the `useFrame` callback is unused by the source and does not appear in the model.
