# Radar sweep animation: a verified model of its state machine and scan-sequence builder

`RadarAnimation.py` animates a weather radar's volume coverage pattern (VCP). A VCP is an ordered list of elevation scans. The animation shows one sweep per step. Each scan step has:

- a product: reflectivity `Z`, velocity `V`, or both `Z/V`;
- an elevation text such as `"1.3°"`;
- a speed;
- a cone width;
- one range, or a pair of ranges for a `Z/V` step.

The model covers the `RadarApp` class. It has three parts.

- **Scan-sequence builder** (modules `Scan`, `Catalog`, `Inserts`).
  - The catalog holds four VCPs: 212, 35, 215 and 12.
  - SAILS (supplemental low-level scans) adds a two-step block after the last step at each anchor elevation.
  - MRLE (mid-volume rescans of low-level elevations) adds a rescan block after the last 5.1° step, for VCP 212 and VCP 12 only.
  - The functions `SailsAt`, `SailsFold`, `WithSails`, `WithMrle` and `BuildSequence` state the result. The methods `ApplySails` and `ApplyMrle` compute it as the application does: a reverse index scan with `break`, slice insertion, appends, and collecting the 5.1° indices. Each method is proved equal to its function.
- **Properties of the builder** (modules `InsertProperties`, `Placement`, `VcpCases`):
  - every base step survives in its original order;
  - the length grows by two per SAILS anchor found;
  - each block lands right after the last matching step;
  - for SAILS 3, the 1.3° anchor passes over Z steps;
  - MRLE applies only to VCP 212 and VCP 12;
  - concrete cases on the catalog.
- **Sweep state machine** (module `Radar`, class `RadarApp`).
  - The fields are the angle, the running flag, the VCP-selected flag, the speed mode and its multiplier, the step index, the sequence, the loaded step's display values, and the SAILS and MRLE choices.
  - Each handler is a method that states the whole new state. The tick, the Run/Stop button and the speed button have field-level `modifies` frames that leave the sequence and the choices alone. The three menu handlers may modify the whole object, and their postconditions say which fields keep their old values. Every handler keeps three invariants:
    - `Valid()`: the index is in bounds, the multiplier is in {1, 2, 4, 8}, the loaded speed is in range, and a running sweep shows the current step;
    - `ChoicesOk()`: SAILS and MRLE exclude each other, and both are "None" before a VCP is chosen;
    - `Built()`: once a VCP is chosen, the sequence is the one built for it and the current choices.
  - Only the menu handlers write the fields that `ChoicesOk()` and `Built()` read. The tick, the Run/Stop button, the speed button, `RunAnimation` and `PlayOnce` keep both invariants through their `modifies` frames.
  - `RunAnimation` models the 25 ms self-rescheduling of the tick as a loop that runs while the tick reschedules. It proves that one full pass ends and stops the animation, with the index back at 0 and the sweep at 90 degrees. A ghost result lists the steps loaded on the way: each later step once, in order.

Numbers are exact scaled integers in hundredths: speed −0.35 is `-35`, angle 90 is `9000`, and the −270 degree end of a sweep is `-27000`. A tick moves the angle by |speed| × 5. The loaded speed is at most 0.50 × 8, so one tick moves at most 2000 hundredths, far less than one sweep.

In VCP 212 the V step at 1.3° directly follows the Z step at 1.3° and is the last step at that elevation. `VcpCases.Vcp212Last13V` and `VcpCases.Vcp212Last13` show that the V-only search and an unrestricted search both return index 5. So on VCP 212 the SAILS 3 restriction of the 1.3° anchor to V steps places the block where an unrestricted search would have placed it (`VcpCases.Sails3LowAnchorOn212`). `Placement.Sails3PassesOverZ` states what the restriction does on any pattern.

## Model

| member | source | states |
|---|---|---|
| Scan.ConeRadius | RadarAnimation.py:217-220 | a non-`Z/V` step shows its single range; a `Z/V` step shows a radius at least both of its ranges and equal to one of them |
| Catalog.Vcp212 | RadarAnimation.py:318-336 | the VCP 212 table has 17 steps, each well formed with a clockwise speed of at most 0.50 |
| Catalog.Vcp35 | RadarAnimation.py:337-350 | the VCP 35 table has 12 steps, each well formed with a clockwise speed of at most 0.50 |
| Catalog.Vcp215 | RadarAnimation.py:351-370 | the VCP 215 table has 18 steps, each well formed with a clockwise speed of at most 0.50 |
| Catalog.Vcp12 | RadarAnimation.py:371-389 | the VCP 12 table has 17 steps, each well formed with a clockwise speed of at most 0.50 |
| Catalog.Pattern | RadarAnimation.py:317-392 | the catalog lookup gives 17, 12, 18 and 17 steps for VCP 212, 35, 215 and 12, and the empty list exactly for any other name |
| Catalog.SailsBlock | RadarAnimation.py:401-404 | the SAILS block is a Z then a V step, both at 0.5° with speed −0.50 |
| Catalog.MrleBlock | RadarAnimation.py:429-443 | the MRLE block has 4 steps, 6 for a count of 3 or more, and 7 for a count of 4; its contents are the 0.5° and 0.9° rescans, then the 1.3° pair, then the `Z/V` 1.8° step |
| Inserts.FindLastBefore | RadarAnimation.py:411-420 | the backward search below n finds the last matching index, and finds none exactly when no step below n matches |
| Inserts.FindLast | RadarAnimation.py:411-420 | the found index matches and no later step matches; nothing is found exactly when no step matches |
| Inserts.InsertAfter | RadarAnimation.py:416 | slice insertion after step i lengthens the pattern by the block's size |
| Inserts.InsertAfterSteps | RadarAnimation.py:416 | the inserted pattern's steps are exactly those of the pattern and of the block |
| Inserts.InsertPoints | RadarAnimation.py:404-410 | each SAILS choice has at most three anchor elevations, and any other choice has none, as with `.get(sails, [])` |
| Inserts.InsertPointsAvoidBlock | RadarAnimation.py:404-410 | exactly SAILS 1, 2 and 3 have anchors, and no anchor is 0.5°, the elevation of the SAILS block |
| Inserts.Matches | RadarAnimation.py:413-418 | a step matches an anchor on its elevation, and also on being a V step when only V will do; see `Inserts.AnchorRule` |
| Inserts.AnchorNeedsV | RadarAnimation.py:415-418 | only the 1.3° anchor of SAILS 3 is restricted to V steps; see `Inserts.AnchorRule` |
| Inserts.AnchorRule | RadarAnimation.py:413-420 | a step is a hit exactly when one of the two branches of the reverse scan takes it: the V step at 1.3° for SAILS 3, or any step at the anchor otherwise |
| Inserts.SailsAt | RadarAnimation.py:411-420 | one anchor never shortens the pattern and keeps every step well formed |
| Inserts.SailsFold | RadarAnimation.py:410-420 | the anchors applied in list order never shorten the pattern and keep every step well formed |
| Inserts.WithSails | RadarAnimation.py:398-420 | the SAILS choice never shortens the pattern and keeps every step well formed; `Inserts.ApplySails` computes it by the application's loops, and `InsertProperties.WithSailsLength` gives its exact length |
| Inserts.MrleCount | RadarAnimation.py:426 | the rescan count read from the choice's last digit lies in 0..9 |
| Inserts.WithMrle | RadarAnimation.py:425-449 | the MRLE insertion never shortens the pattern and keeps every step well formed |
| Inserts.BuildSequence | RadarAnimation.py:392-451 | every step of the built sequence is well formed, with a clockwise speed of at most 0.50 |
| Inserts.BuildSequenceBase | RadarAnimation.py:392-395 | the built sequence is empty exactly for an unknown VCP; with both choices "None" it is the catalog pattern |
| Inserts.InsertAfterLastAnchor | RadarAnimation.py:412-420 | the reverse scan for one anchor, splicing at the first hit and stopping, computes exactly the insertion after the last matching step |
| Inserts.ApplySails | RadarAnimation.py:398-420 | the reverse scan with `break` and slice insertion computes exactly the SAILS fold over the choice's anchors |
| Inserts.IndicesBelow | RadarAnimation.py:446 | the collected indices lie below n and are all at the given elevation; none are collected exactly when the backward search below n finds nothing, and otherwise the last one collected is the one it finds |
| Inserts.IndicesBelowComplete | RadarAnimation.py:446 | every index below n at the given elevation is collected |
| Inserts.IndicesBelowSorted | RadarAnimation.py:446 | the indices are collected in strictly increasing order |
| Inserts.AngleIndices | RadarAnimation.py:446 | the loop over the pattern collects exactly the indices of the steps at the given elevation |
| Inserts.MrleScans | RadarAnimation.py:429-443 | the four base rescans, extended by appends for a count of 3 or more and of 4, are exactly the MRLE block of that count |
| Inserts.ApplyMrle | RadarAnimation.py:424-449 | appending the rescans, collecting the 5.1° indices and splicing after the last computes exactly the MRLE insertion |
| InsertProperties.IdentityEmbeds | RadarAnimation.py:392 | a pattern keeps its own steps in order |
| InsertProperties.InsertEmbeds | RadarAnimation.py:416 | a slice insertion keeps every original step, in order |
| InsertProperties.EmbedsCompose | RadarAnimation.py:410-449 | order preservation carries over through successive insertions |
| InsertProperties.SailsFoldKeepsOrder | RadarAnimation.py:410-420 | every SAILS anchor pass keeps the original steps in their relative order |
| InsertProperties.WithMrleKeepsOrder | RadarAnimation.py:445-449 | the MRLE insertion keeps the original steps in their relative order |
| InsertProperties.BuildKeepsOrder | RadarAnimation.py:392-451 | every step of the catalog pattern appears in the built sequence, in its original order |
| InsertProperties.InsertKeepsMatch | RadarAnimation.py:411-420 | an anchor present before an insertion is still found after it |
| InsertProperties.InsertAddsNoMatch | RadarAnimation.py:411-420 | an inserted block without the anchor creates no match that was not there before |
| InsertProperties.InsertKeepsAnchor | RadarAnimation.py:411-420 | inserting a block without the anchor leaves unchanged whether the anchor is found |
| InsertProperties.LastMatchIs | RadarAnimation.py:411-420 | a matching step with no later match is the one the search returns |
| InsertProperties.InsertNoLaterMatch | RadarAnimation.py:411-420 | after an insertion, no step after the shifted last match matches |
| InsertProperties.InsertShiftsLastMatch | RadarAnimation.py:411-420 | after an insertion at i, the last match moves by the block's size when it lay beyond i, and stays put otherwise |
| InsertProperties.SailsInsertKeepsFound | RadarAnimation.py:410-420 | a SAILS block does not change which of the later anchors are found |
| InsertProperties.SailsFoldLength | RadarAnimation.py:410-420 | the SAILS passes add exactly two steps per anchor found |
| InsertProperties.WithSailsLength | RadarAnimation.py:398-420 | a SAILS choice adds exactly two steps per one of its anchors that the pattern contains; absent anchors are skipped |
| InsertProperties.AllFound | RadarAnimation.py:410-420 | when the pattern holds a matching step for every anchor, every anchor is found |
| InsertProperties.AllAnchorsFoundLength | RadarAnimation.py:398-420 | a SAILS choice whose anchors all occur in the pattern adds two steps per anchor |
| Placement.SailsAfterLastMatch | RadarAnimation.py:411-420 | the SAILS block goes right after the last step matching the anchor |
| Placement.SailsAbsentAnchor | RadarAnimation.py:411-420 | an anchor that no step matches leaves the pattern unchanged |
| Placement.Sails3PassesOverZ | RadarAnimation.py:412-417 | for SAILS 3, the 1.3° block goes after the last V step at 1.3°; later Z steps at 1.3° are passed over |
| Placement.OtherAnchorsIgnoreLabel | RadarAnimation.py:418-420 | every other anchor of every choice takes the last step at its elevation, whatever its product |
| Placement.MrleAfterLast51 | RadarAnimation.py:445-449 | for VCP 212 and VCP 12, the MRLE block of the choice's count goes right after the last 5.1° step |
| Placement.MrleWithout51 | RadarAnimation.py:446-447 | without a 5.1° step the MRLE choice inserts nothing |
| Placement.MrleOnlyFor212And12 | RadarAnimation.py:425 | for any VCP other than 212 and 12, an MRLE choice leaves the catalog pattern unchanged |
| VcpCases.BuildWithoutMrle | RadarAnimation.py:392-420 | for a catalog VCP and no MRLE choice, the build is the SAILS insertion into the catalog pattern |
| VcpCases.BuildWithoutSails | RadarAnimation.py:392-449 | for a catalog VCP and no SAILS choice, the build is the MRLE insertion into the catalog pattern |
| VcpCases.Sails1Single | RadarAnimation.py:404-405 | SAILS 1 is the single insertion after the last 3.1° step |
| VcpCases.Vcp212Last31 | RadarAnimation.py:318-336 | the last 3.1° step of VCP 212 is its ninth |
| VcpCases.Sails1On212 | RadarAnimation.py:398-420 | SAILS 1 on VCP 212 puts the block right after the 3.1° step, the ninth |
| VcpCases.Vcp212Last13V | RadarAnimation.py:412-417 | in VCP 212 the last V step at 1.3° is at index 5, and the step at index 4 is the Z step at 1.3° |
| VcpCases.Vcp212Last13 | RadarAnimation.py:318-336 | without the V-only restriction the last 1.3° step of VCP 212 is the same index 5 |
| VcpCases.Vcp212Last40 | RadarAnimation.py:418-420 | the last 4.0° step of VCP 212 is at index 9 |
| VcpCases.Vcp212Last80 | RadarAnimation.py:418-420 | the last 8.0° step of VCP 212 is at index 12 |
| VcpCases.Sails3Length | RadarAnimation.py:404-420 | SAILS 3 on a pattern holding all three of its anchors adds six steps |
| VcpCases.Sails3LengthOn212 | RadarAnimation.py:392-420 | SAILS 3 on VCP 212 gives 23 steps, six more than the catalog's 17, since all three of its anchors are present |
| VcpCases.Sails3LowAnchorOn212 | RadarAnimation.py:412-417 | SAILS 3 on VCP 212 puts its first block right after the V step at 1.3°, which follows the Z step at 1.3° |
| VcpCases.Vcp12Last51 | RadarAnimation.py:371-389 | the last 5.1° step of VCP 12 is its eleventh |
| VcpCases.Mrle4On12 | RadarAnimation.py:424-449 | MRLE 4 on VCP 12 puts the seven rescans right after the 5.1° step, the eleventh |
| Radar.NextFastMode | RadarAnimation.py:226 | the next speed mode always lies in 1..4; `Radar.SpeedCycle` gives its cycle |
| Radar.Multiplier | RadarAnimation.py:227 | the multiplier of any mode 1..4 is 1, 2, 4 or 8 |
| Radar.SpeedCycle | RadarAnimation.py:226-227 | one press moves the mode to the next of 1..4 and doubles the multiplier, wrapping 8 back to 1; four presses return to the start |
| Radar.ScaledSpeedBound | RadarAnimation.py:213 | a loaded speed times the multiplier lies between −4.00 and −0.01 |
| Radar.LoadedSpeedBound | RadarAnimation.py:211-213 | any step of a well-formed sequence, loaded at any multiplier, gives such a speed |
| Radar.RadarApp.constructor | RadarAnimation.py:88-95 | the start state: angle 90, stopped, no VCP, multiplier 1 in mode 1, index 0, empty sequence, no supplemental choice |
| Radar.RadarApp.AdvancePatternStep | RadarAnimation.py:199-220 | on an empty sequence it only stops the animation; otherwise it clamps an out-of-range index to 0, sets the angle to 90 and shows the step at the current multiplier |
| Radar.RadarApp.BuildPatternSequence | RadarAnimation.py:315-451 | the sequence becomes the one built from the VCP and the two choices |
| Radar.RadarApp.Tick | RadarAnimation.py:149-168 | while stopped nothing changes; otherwise the sweep moves by the absolute speed times 5; at −270 degrees the next step is loaded at 90 degrees, and after the last step the index returns to 0 and the animation stops; it reschedules exactly when still running |
| Radar.RadarApp.ToggleAnimation | RadarAnimation.py:134-147 | with no VCP nothing changes; from stopped it restarts at step 0 and runs, having ticked once, and with no steps the loaded speed, width, label and radius keep their values; from running it stops and keeps the index and the angle |
| Radar.RadarApp.SpeedMultiply | RadarAnimation.py:225-230 | the mode moves to the next in the cycle and the multiplier follows; with a sequence loaded the current step is reloaded at the new speed and the angle returns to 90, and the index is kept |
| Radar.RadarApp.RebuildAndLoad | RadarAnimation.py:247-248 | rebuilding and reloading gives the sequence for the current choices and clamps the index into it, with the animation stopped |
| Radar.RadarApp.LoadCurrentStep | RadarAnimation.py:199-220 | loading the current step of a stopped animation keeps the invariant, clamps the index into the sequence and shows the step at 90 degrees; with no steps nothing else changes |
| Radar.RadarApp.Restart | RadarAnimation.py:244-248 | after a menu choice the animation is stopped at step 0 and angle 90, with the sequence rebuilt for the choices and its first step shown; with no steps the loaded speed, width, label and radius keep their values |
| Radar.RadarApp.ChooseSails | RadarAnimation.py:232-238 | with no VCP the SAILS choice goes back to "None"; otherwise it is stored, and a choice other than "None" clears MRLE; the choices stay consistent |
| Radar.RadarApp.ChooseMrle | RadarAnimation.py:254-260 | with no VCP the MRLE choice goes back to "None"; otherwise it is stored, and a choice other than "None" clears SAILS; the choices stay consistent |
| Radar.RadarApp.ChooseVcp | RadarAnimation.py:271-299 | the animation stops, the VCP is selected and recorded, and both choices become "None" |
| Radar.RadarApp.SailsSelected | RadarAnimation.py:232-252 | with no VCP the choice is reset and nothing else changes; otherwise a choice other than "None" clears MRLE, and the animation stops at step 0 and angle 90 with the rebuilt sequence's first step shown, or, with no steps, the loaded speed, width, label and radius kept |
| Radar.RadarApp.MrleSelected | RadarAnimation.py:254-268 | with no VCP the choice is reset and nothing else changes; otherwise a choice other than "None" clears SAILS, and the animation stops at step 0 and angle 90 with the rebuilt sequence's first step shown, or, with no steps, the loaded speed, width, label and radius kept |
| Radar.RadarApp.SetVcp | RadarAnimation.py:270-313 | the VCP is marked selected and recorded, both choices are cleared, the animation is stopped, and the catalog pattern is loaded; the index is kept when it is still in range and clamped to 0 otherwise; the second rebuild and reload changes nothing |
| Radar.Steps | RadarAnimation.py:158-163 | the indices from lo below hi, in increasing order, each once |
| Radar.StepsSnoc | RadarAnimation.py:158-163 | extending the range by one step appends that step |
| Radar.RunAnimation | RadarAnimation.py:149-168 | ticking while the animation reschedules ends; when it was running, it stops with the index at 0 and the sweep at 90 degrees, with the sequence unchanged and the last step still shown; the steps loaded on the way are every later step, once each, in order; only the angle, the running flag, the index and the loaded step's speed, width, label and radius may change |
| Radar.PlayOnce | RadarAnimation.py:134-168 | pressing Run on a loaded, stopped animation loads every step once, in order from step 0, and stops at step 0 and angle 90, still showing the last step; the speed mode, the VCP, the choices and the sequence keep their values |

## Left out

- Widget construction, layout, button labels, dropdown enable and disable states, and canvas label updates (lines 27-86, 104-122, and the `config`/`itemconfig` calls inside the handlers) are GUI plumbing and are not modelled.
- `draw_static_elements` and `draw_sweep_cone` (lines 124-132, 170-197) are canvas drawing with floating-point trigonometry and are not modelled.
- The `label_colors` table (lines 98-102) is used only for rendering and is not modelled.
- `sweep_progress` (lines 93, 155, 209) is written but never read, so it is not modelled.
- `root.after(25, ...)` is a timer. `Radar.RunAnimation` models it as calls to `Tick` repeated while the tick reschedules. Timing is not modelled. In particular, a Stop, a menu choice or a VCP button followed by Run within 25 ms leaves the earlier `root.after` callback pending. That callback finds `running` true and carries on, so two tick chains run and the sweep moves twice as fast. The state still changes only through `animate` calls, each of which `Tick` models, but the model does not say how the calls of two chains interleave in time.
- `print` messages, `webbrowser.open_new` and the PIL logo (lines 112, 118-122, 136, 201) are I/O and are not modelled.
- Speeds and angles are exact scaled integers, so the model does not reproduce IEEE float rounding. The float sum of `angle -= abs(sweep_speed) * 5` could differ from the exact sum at the −270 boundary.
- For VCP 35, `set_vcp` shrinks the SAILS menu to "None" and "SAILS 1" (lines 287-300). Menus are not modelled, so `Radar.RadarApp.SailsSelected` accepts any choice. On VCP 35, SAILS 2 and SAILS 3 would still insert after whichever of their anchors the pattern contains.
- Radar.RadarApp.MrleSelected: requires the choice to be "None" or end in a digit, for every VCP. The application reads `int(mrle[-1])` only when the VCP is 212 or 12 (lines 425-426). So on VCP 35 or 215 it would accept a choice ending in another character, and on VCP 212 or 12 it would raise. The MRLE menu (line 71) offers only "None" and choices ending in a digit, so no choice the application can receive is excluded.
- Attributes that the application first sets only when a step is loaded (`sweep_speed`, `cone_angle_width`, `current_label`, `sweep_radius`), and `selected_vcp`, which `set_vcp` first sets (line 275), start at neutral values in the constructor, not as missing attributes. The speed, width and radius start at 0, the label at Z, and `selected_vcp` as the empty string.
- Radar.RadarApp.SetVcp: accepts any name. The application calls `set_vcp` only with the four button names (lines 50-53). For an unknown name the model loads the empty sequence and keeps the loaded speed, width, label and radius, as `advance_pattern_step` does when it returns at line 204. A Run press then ticks at that kept speed until the sweep reaches −270 degrees, and then stops with the index at 0, as lines 160-165 do. If no step was ever loaded, the kept speed is the constructor's 0, and the model goes on ticking without moving. `Radar.RunAnimation` requires a non-empty sequence while running, so it does not cover this running-on-an-empty-sequence state; only single `Tick` calls do. In that case the application instead fails in `draw_sweep_cone` on the missing `cone_angle_width` (line 176). It also fails there when the kept label is Z/V, because it indexes the empty sequence (line 179). Drawing is not modelled.
- `deepcopy` of the catalog and of the inserted blocks has no counterpart. Steps are values, so no aliasing can arise.
- `set_sails` (lines 250-252) stores the choice and then runs `sails_selected`. `Radar.RadarApp.SailsSelected` covers both, because it stores its argument first.
