# Modding tools: particle editors and tools manager, modelled in Dafny

The modding tools add in-game editors for a Vintage Story block's particle effects
(`AdvancedParticleProperties`). A hotkey arms a context popup. The popup takes a
snapshot of what the player targets and offers "Edit particle effects" for the
targeted block or the block in the hovered slot. Each block code gets one editor
window, which leaves the registry when the window is closed.

The repository holds two generations of this code, modelled as separate modules:

- **Newer tree** (`source/`):
  - `Widgets`: the button styles and the confirmation button.
  - `EvolvingEditors`: the nullable evolve editor with its side table `mPrevValues`. Both trees use it.
  - `Particles`: the list-of-effects editor `ParticleEditor` with its selected index; the per-effect `ParticlePropertiesEditor` with its tabs, velocity-evolve checkbox, restore and export.
  - `Tools`: `ToolsManager` and `Selection`.
- **Older tree** (`src/`):
  - `LegacyParticles`: the one-window editor. It restores from a backup index by index, numbers the non-null effects and edits each effect under a collapsing header.
  - `LegacyTools`: the older `ToolsManager`, with the cursor-lock dialog toggle, the "Edit item model" entry and the model-matrix sliders. Its `Selection` is the same class as in the newer tree, apart from console output, so `Tools.Selection` models both.

How the game is represented:

- `Engine` models the game types the editors touch.
- An `AdvancedParticleProperties` is a class holding a `Payload` value, so aliasing and `Clone()` are visible; `Clone()` is a fresh object with an equal payload.
- A `Block` has a mutable `particleProperties` array.
- GUI input (button presses, checkbox clicks, edited widget values, which headers or tabs are open, which windows were closed) is a parameter of each frame's method.

## Model

| member | source | states |
|---|---|---|
| `Engine.ToByte` | moddingtools/source/Tools/ParticleEditor.cs:497-519 | the `(byte)` cast keeps a value in 0..255, is congruent to its input modulo 256, and leaves the slider range 0..255 unchanged |
| `Engine.ClampToShort` | moddingtools/source/Tools/ParticleEditor.cs:521-523 | the normal lands in the `short` range; in-range values are kept; values below or above become the nearer bound |
| `Engine.ClampToShortMonotone` | moddingtools/src/ParticlesEditor.cs:321-323 | the clamp keeps order and is idempotent, so storing an already stored normal again changes nothing |
| `Engine.AdvancedParticleProperties.Clone` | moddingtools/source/Tools/ParticleEditor.cs:28-31 | a clone is a new object with an equal payload |
| `Engine.AdvancedParticleProperties.constructor` | moddingtools/source/Tools/ParticleEditor.cs:118-121 | a new effect carries the game's default payload |
| `Engine.AdvancedParticleProperties.FromPayload` | moddingtools/source/Tools/ParticleEditor.cs:640-644 | a parsed effect carries exactly the parsed payload |
| `Engine.Effects` | moddingtools/source/Tools/ParticleEditor.cs:25 | a block's effect list is its array's contents, or empty when the array is null |
| `Engine.NewEffectArray` | moddingtools/source/Tools/ParticleEditor.cs:118-128 | a fresh array holding exactly the given effects |
| `Widgets.Styles.InitStyles` | moddingtools/source/Utils/Widgets.cs:12-30 | without a default style it returns false and assigns nothing; otherwise the red and green styles are both derived from the default and the widgets are ready |
| `Widgets.Styles.constructor` | moddingtools/source/Utils/Widgets.cs:9-10 | both styles start unset |
| `Widgets.ButtonWithConfirmation` | moddingtools/source/Utils/Widgets.cs:32-73 | without styles the title button is a plain button; with styles a title press opens the confirmation, confirm returns true and closes it, cancel closes it, and true is returned only on a confirm press |
| `Widgets.Run` | moddingtools/source/Utils/Widgets.cs:32-73 | one result per frame; without styles every frame returns its own title press; with styles a frame returns true only if its confirm button was pressed |
| `Widgets.ConfirmationsNeedTitlePresses` | moddingtools/source/Utils/Widgets.cs:32-73 | over any sequence of frames, accepted confirmations are at most the title presses, plus one if a confirmation was already open |
| `Widgets.ConfirmOnlyOnConfirmPress` | moddingtools/source/Utils/Widgets.cs:48-56 | a frame that returns true had the confirm button pressed and leaves the confirmation closed |
| `Widgets.IdleFramesNeverConfirm` | moddingtools/source/Utils/Widgets.cs:32-73 | frames with no press never return true |
| `EvolvingEditors.ApplyEdit` | moddingtools/source/Tools/ParticleEditor.cs:703-710 | the combo and drag widgets rebuild the value from its parts; each part is replaced only if its widget was changed |
| `EvolvingEditors.NullableStep` | moddingtools/source/Tools/ParticleEditor.cs:685-711 | the field is non-null afterwards exactly when it was non-null xor the checkbox was clicked; the side table is written only when a non-null value is switched off, under the id |
| `EvolvingEditors.DisableSaves` | moddingtools/source/Tools/ParticleEditor.cs:691-696 | switching a non-null field off stores it under the id and yields null |
| `EvolvingEditors.EnableRestores` | moddingtools/source/Tools/ParticleEditor.cs:698-701 | switching a null field on takes the value stored under the id, or (LINEAR, 0) when there is none, and keeps the side table |
| `EvolvingEditors.SlotSurvives` | moddingtools/source/Tools/ParticleEditor.cs:685-711 | calls that switch no non-null field off leave the side table unchanged |
| `EvolvingEditors.ToggleOffOnRestores` | moddingtools/source/Tools/ParticleEditor.cs:685-711 | switching off and later back on a field returns its old value, if nothing else under that id was switched off in between |
| `EvolvingEditors.SharedSlotOverwrites` | moddingtools/source/Tools/ParticleEditor.cs:333-354 | under one id all fields share one slot: Opacity off, Red off, then Opacity on gives Opacity Red's value |
| `EvolvingEditors.PrevValues.constructor` | moddingtools/source/Tools/ParticleEditor.cs:684 | the shared side table starts empty |
| `EvolvingEditors.PrevValues.EvolvingNatFloatEditorNullable` | moddingtools/source/Tools/ParticleEditor.cs:685-711 | the static editor's field value and side table after the call are those of `NullableStep` |
| `Particles.EditAxes` | moddingtools/source/Tools/ParticleEditor.cs:437-450 | each axis takes only its own widget's edits: an axis whose widget reports no change keeps its value, so no edits leave the velocity evolve as it is |
| `Particles.EditAxesIdempotent` | moddingtools/source/Tools/ParticleEditor.cs:437-450 | the widgets report absolute values, so applying the same edits again changes nothing |
| `Particles.VelocityFrame` | moddingtools/source/Tools/ParticleEditor.cs:403-451 | the checkbox flips on a click; unchecked, the field is null and the stash keeps the first value it saw; checked, a null field takes the stash (emptying it) or three defaults, and the axis edits apply |
| `Particles.IdleUncheckedKeepsStash` | moddingtools/source/Tools/ParticleEditor.cs:403-416 | while unchecked and not clicked, the state stays the same over any number of frames |
| `Particles.VelocityToggleRoundTrip` | moddingtools/source/Tools/ParticleEditor.cs:403-451 | unchecking a velocity evolve and checking it again after any idle frames restores exactly the old value and empties the stash |
| `Particles.FirstFrameStashes` | moddingtools/source/Tools/ParticleEditor.cs:403-416 | the checkbox starts unchecked, so an editor's first Behavior frame stashes the record's velocity evolve and nulls the field |
| `Particles.EditedFlags` | moddingtools/source/Tools/ParticleEditor.cs:493-526 | glow level, Z offset and wind data are byte casts; the normal is clamped into the short range; reflective, lod0 and wind mode are taken as edited |
| `Particles.ExportStep` | moddingtools/source/Tools/ParticleEditor.cs:536-584 | the popup opens on the button and stays open until its close control is used; a radio pick counts only while the modal shows; an Apply with the JSON format chosen reports a parse failure as "Error: …" or clears the error flag; otherwise the error state stays |
| `Particles.ControlledPayload` | moddingtools/source/Tools/ParticleEditor.cs:247-259 | the record changes only on an accepted restore or an applied parse: an applied parse of JSON (offered only while not confirming) wins, otherwise an accepted restore gives the backup |
| `Particles.OpacityRedStep` | moddingtools/source/Tools/ParticleEditor.cs:335-343 | opacity and red go through the nullable editor; each is non-null afterwards exactly when it was non-null xor its checkbox was clicked; modified when either old or new value is non-null; side-table slots of other ids stay |
| `Particles.GreenBlueStep` | moddingtools/source/Tools/ParticleEditor.cs:345-353 | the same for green and blue |
| `Particles.ColourEvolveStep` | moddingtools/source/Tools/ParticleEditor.cs:333-354 | the four colour evolves in order: each non-null afterwards exactly when it was non-null xor clicked; the modified flag follows the reference comparison; nothing else in the record changes; other ids' slots stay |
| `Particles.ColoursStep` | moddingtools/source/Tools/ParticleEditor.cs:260-332 | color-by-block flips on a click; edited colour and variance are written; the flag is set exactly when something was clicked, a picker changed a value or a colour evolve was shown; velocity, size and flags stay |
| `Particles.BehaviorStep` | moddingtools/source/Tools/ParticleEditor.cs:268-279 | the velocity checkbox flips on a click and the velocity evolve is non-null exactly when it is checked; the size evolve goes through the nullable editor; no modification is reported |
| `Particles.TabStep` | moddingtools/source/Tools/ParticleEditor.cs:179-206 | only the open tab changes the record: no tab changes nothing; tabs other than Behavior keep the checkbox, stash and velocity evolve; only Flags writes the vertex flags; only Colours reports a modification |
| `Particles.DrawStep` | moddingtools/source/Tools/ParticleEditor.cs:175-211 | the value returned is the flag before clearing, set by an earlier edit, an accepted restore or the colour tab; the flag is cleared; the confirmation follows the button; the export popup runs only while not confirming |
| `Particles.IdleFrameChangesNothing` | moddingtools/source/Tools/ParticleEditor.cs:175-211 | a frame with nothing pressed, no tab and the popup closed changes nothing and returns false |
| `Particles.ConfirmedRestoreRestores` | moddingtools/source/Tools/ParticleEditor.cs:247-253 | a confirmed restore puts the backup back, returns true and closes the confirmation |
| `Particles.OnlyColoursTabReports` | moddingtools/source/Tools/ParticleEditor.cs:175-211 | outside the colour tab, the value returned is the old flag or an accepted restore |
| `Particles.ParticlePropertiesEditor.constructor` | moddingtools/source/Tools/ParticleEditor.cs:165-171 | the editor wraps the given record; its byte backup is the record's payload at construction; nothing is modified or confirming |
| `Particles.ParticlePropertiesEditor.InitialStateOf` | moddingtools/source/Tools/ParticleEditor.cs:165-171 | an editor just built is in the state `InitialState` names: the record's payload, nothing modified, unchecked, no stash, no confirmation, the popup closed |
| `Particles.ParticlePropertiesEditor.Restore` | moddingtools/source/Tools/ParticleEditor.cs:212-215 | the record's payload goes back to the backup |
| `Particles.ParticlePropertiesEditor.Duplicate` | moddingtools/source/Tools/ParticleEditor.cs:216 | a new editor over a fresh clone of the record |
| `Particles.ParticlePropertiesEditor.Draw` | moddingtools/source/Tools/ParticleEditor.cs:175-211 | the editor's whole new state (record, side table, flags, velocity checkbox and stash, confirmation, export popup) and the value returned are those of `DrawStep` on its old state: the control row, then the open tab, then the flag is returned and cleared |
| `Particles.ParticlePropertiesEditor.DrawTab` | moddingtools/source/Tools/ParticleEditor.cs:179-206 | the record, side table, modified flag, checkbox and stash become `TabStep` of the old ones: only the open tab's widgets run, and with no tab bar nothing changes |
| `Particles.ParticlePropertiesEditor.ControlButtons` | moddingtools/source/Tools/ParticleEditor.cs:247-259 | the confirmation follows the confirmation button; an accepted restore sets the modified flag; the record becomes `ControlledPayload` (the backup on an accepted restore, then a parsed JSON record on an Apply); the export popup runs only while not confirming, so a pending confirmation leaves it as it was; the velocity checkbox and stash stay |
| `Particles.ParticlePropertiesEditor.Export` | moddingtools/source/Tools/ParticleEditor.cs:536-563 | the popup stays open until its close control is used; the record changes only on an apply of a successfully parsed record |
| `Particles.ParticlePropertiesEditor.DeserializeFromJson` | moddingtools/source/Tools/ParticleEditor.cs:635-655 | a parse failure leaves the record alone, raises the error flag and sets the message "Error: …" with the stack trace; a success replaces the payload and clears the flag |
| `Particles.ParticlePropertiesEditor.Colours` | moddingtools/source/Tools/ParticleEditor.cs:260-332 | the record, side table and modified flag become `ColoursStep` of the old ones: the colour-by-block checkbox, the colour and the variance pickers each mark the record modified when they change its value, then the colour evolves |
| `Particles.ParticlePropertiesEditor.ColorEvolving` | moddingtools/source/Tools/ParticleEditor.cs:333-354 | the record, side table and modified flag become `ColourEvolveStep` of the old ones: the four evolves go through the nullable editor in order under the editor's id |
| `Particles.ParticlePropertiesEditor.Channel` | moddingtools/source/Tools/ParticleEditor.cs:335-338 | one evolve through the nullable editor; modified when its old or new value is non-null |
| `Particles.ParticlePropertiesEditor.VelocityEvolve` | moddingtools/source/Tools/ParticleEditor.cs:403-451 | the checkbox, stash and field change as `VelocityFrame` says |
| `Particles.ParticlePropertiesEditor.SizeProperties` | moddingtools/source/Tools/ParticleEditor.cs:452-461 | the size evolve goes through the nullable editor under the editor's id; no modification is reported |
| `Particles.ParticlePropertiesEditor.FlagProperties` | moddingtools/source/Tools/ParticleEditor.cs:493-526 | the vertex flags become `EditedFlags` of the widgets, nothing else in the record changes |
| `Particles.ClampedIndex` | moddingtools/source/Tools/ParticleEditor.cs:64-69 | the index is clamped first to count - 1 and then up to 0, so it lies in range whenever there is an effect, is 0 otherwise, and an in-range index is kept |
| `Particles.ClampedIndexIdempotent` | moddingtools/source/Tools/ParticleEditor.cs:64-69 | validating twice is validating once |
| `Particles.RemoveAt` | moddingtools/source/Tools/ParticleEditor.cs:129-135 | removing entry k keeps the other entries in order |
| `Particles.AddStep` | moddingtools/source/Tools/ParticleEditor.cs:75-87 | Add and Duplicate only append new entries and keep the old ones in place; with a confirmation pending, or nothing pressed, nothing changes |
| `Particles.RemoveStep` | moddingtools/source/Tools/ParticleEditor.cs:129-135 | a non-empty list loses one entry and keeps the others; an empty one stays empty; the index ends clamped |
| `Particles.Restored` | moddingtools/source/Tools/ParticleEditor.cs:144-153 | one new record per backup entry, holding that entry's payload |
| `Particles.RestoreStep` | moddingtools/source/Tools/ParticleEditor.cs:144-153 | the list becomes `Restored` of the backup and the index is clamped to the backup's length |
| `Particles.RemoveButtonStep` | moddingtools/source/Tools/ParticleEditor.cs:89-97 | Remove is disabled while Restore all awaits confirmation; it only drops entries, and the count is refreshed only after a removal |
| `Particles.RestoreButtonStep` | moddingtools/source/Tools/ParticleEditor.cs:99-104 | Restore all is hidden while Remove awaits confirmation; the list stays or becomes the restored one; the count is refreshed only after a restore |
| `Particles.ConfirmStep` | moddingtools/source/Tools/ParticleEditor.cs:89-104 | Remove then Restore all: no kept entry appears that was not there, and never both confirmations pending |
| `Particles.IndexAfter` | moddingtools/source/Tools/ParticleEditor.cs:106-116 | with no effects the index stays; the typed index is clamped to the count from above only; the slider's pick is taken as it is |
| `Particles.SelectorStep` | moddingtools/source/Tools/ParticleEditor.cs:71-117 | the selector row keeps every kept entry pointing into the list of before and never leaves both confirmations pending |
| `Particles.PendingRestoreLocksList` | moddingtools/source/Tools/ParticleEditor.cs:75-104 | while Restore all awaits confirmation the list stays as it was or is restored |
| `Particles.PendingRemovalLocksList` | moddingtools/source/Tools/ParticleEditor.cs:75-104 | while Remove awaits confirmation the list stays, loses the selected entry, or is restored |
| `Particles.TypedIndexUsesCountBeforeAdd` | moddingtools/source/Tools/ParticleEditor.cs:73-116 | typing the index of the effect just added selects the one before it, since the bound is the count read before Add |
| `Particles.ConfirmedRestoreAllRebuilds` | moddingtools/source/Tools/ParticleEditor.cs:99-104 | a confirmed Restore all with nothing else pressed rebuilds every entry from the backup, clears both confirmations and clamps the index |
| `Particles.ParticleEditor.constructor` | moddingtools/source/Tools/ParticleEditor.cs:21-43 | one fresh clone of each effect in the backup; the initial editors wrap those clones, not the block's own records; no block or no array gives an empty editor |
| `Particles.ParticleEditor.ValidateCurrentIndex` | moddingtools/source/Tools/ParticleEditor.cs:64-69 | the index becomes `ClampedIndex` of itself; reports whether there is any effect |
| `Particles.ParticleEditor.AddEffect` | moddingtools/source/Tools/ParticleEditor.cs:118-128 | a new default effect is appended to both the array and the editor list, which stay the same length, and the old entries are kept |
| `Particles.ParticleEditor.RemoveEffect` | moddingtools/source/Tools/ParticleEditor.cs:129-135 | the selected entry (after clamping) leaves both lists; the others keep their order; an empty list stays empty |
| `Particles.ParticleEditor.RemoveSelected` | moddingtools/source/Tools/ParticleEditor.cs:132-134 | with the index in range, that entry leaves both lists, the others keep their order, and the index is clamped again |
| `Particles.ParticleEditor.DuplicateEffect` | moddingtools/source/Tools/ParticleEditor.cs:136-143 | a clone of the selected effect with its editor is appended to both lists; nothing happens without effects |
| `Particles.ParticleEditor.Rebuild` | moddingtools/source/Tools/ParticleEditor.cs:146-151 | a fresh array of fresh clones of the backup and one fresh editor in its initial state per clone, wrapping exactly that clone |
| `Particles.ParticleEditor.RestoreAll` | moddingtools/source/Tools/ParticleEditor.cs:144-153 | the block gets a fresh array of fresh clones of the backup and a fresh editor for each; the index is clamped to the backup's length |
| `Particles.ParticleEditor.EffectSelector` | moddingtools/source/Tools/ParticleEditor.cs:71-117 | the new selected index, both confirmations and both lists are those of `SelectorStep` on the old state: each entry of the result is the editor and effect that stood at its index before, or a new editor beside its own new record; the payloads of new records are those `SelectorStep` names; every editor built in the row is still in its initial state, so the one at the clamped index, if new, is in the initial state over its payload; the shared side table is unchanged |
| `Particles.ParticleEditor.AfreshState` | moddingtools/source/Tools/ParticleEditor.cs:118-153 | an editor built by Add, Duplicate or Restore all, while still as built, is in the initial state over its entry's payload and the side table |
| `Particles.ParticleEditor.SelectorRow` | moddingtools/source/Tools/ParticleEditor.cs:73-116 | the row from a given selector state: the result is `SelectorStep` of it |
| `Particles.ParticleEditor.IndexWidgets` | moddingtools/source/Tools/ParticleEditor.cs:106-116 | the index becomes `IndexAfter` of itself against the count handed over |
| `Particles.ParticleEditor.AddButtons` | moddingtools/source/Tools/ParticleEditor.cs:75-87 | the new state is `AddStep` of the old one: Add appends a default entry and Duplicate a copy of the selected entry, each only while no confirmation is pending, Duplicate only for a positive count of before |
| `Particles.ParticleEditor.AddButton` | moddingtools/source/Tools/ParticleEditor.cs:75-79 | Add appends a default entry unless a confirmation is pending |
| `Particles.ParticleEditor.DuplicateButton` | moddingtools/source/Tools/ParticleEditor.cs:82-85 | Duplicate appends a copy of the selected entry for a positive count of before, unless a confirmation is pending |
| `Particles.ParticleEditor.ConfirmButtons` | moddingtools/source/Tools/ParticleEditor.cs:89-110 | the new state and the count handed to the index widgets are `ConfirmStep` of the old ones: Remove, then Restore all, each behind its confirmation |
| `Particles.ParticleEditor.RemoveButton` | moddingtools/source/Tools/ParticleEditor.cs:89-97 | the new state and count are `RemoveButtonStep` of the old ones |
| `Particles.ParticleEditor.RemoveConfirmed` | moddingtools/source/Tools/ParticleEditor.cs:91-93 | an accepted Remove: the new state is `RemoveStep` of the old one with the flag cleared; no editor is added and every editor left that was built this frame is still as built |
| `Particles.ParticleEditor.RestoreButton` | moddingtools/source/Tools/ParticleEditor.cs:99-104 | the new state and count are `RestoreButtonStep` of the old ones |
| `Particles.ParticleEditor.RestoreConfirmed` | moddingtools/source/Tools/ParticleEditor.cs:100-102 | an accepted Restore all: the new state is `RestoreStep` of the old one with the flag cleared; every editor is fresh and in its initial state over its restored record |
| `Particles.ParticleEditor.DrawParticleEditor` | moddingtools/source/Tools/ParticleEditor.cs:155-160 | the index is clamped; with effects, the selected editor's new state is `DrawStep` of its old one, which for an editor of a new entry is the initial state over that entry's payload, and every other editor and record is unchanged; without effects the side table is unchanged |
| `Particles.ParticleEditor.Draw` | moddingtools/source/Tools/ParticleEditor.cs:45-52 | without a block nothing changes; otherwise the selector's new state is `SelectorStep` of the old one, except that the index is then clamped, and the selected editor's new state is `DrawStep` of `shown`; when its entry is new (Add, Duplicate or Restore all this frame), `shown` is the initial state over that entry's payload and the side table of before |
| `Tools.Selection.Select` | moddingtools/source/ToolsManager.cs:144-169 | a latch: the first call after a deselect captures the targets (the block entity only under a block), later calls change nothing |
| `Tools.Selection.Deselect` | moddingtools/source/ToolsManager.cs:170-173 | only the latch is cleared; the captured targets stay |
| `Tools.Selection.constructor` | moddingtools/source/ToolsManager.cs:136-142 | no target is captured and the latch is open |
| `Tools.WorldBlockEntry` | moddingtools/source/ToolsManager.cs:81-89 | the world-block entry is offered exactly when no slot is hovered and a block is targeted |
| `Tools.ClickedBlocks` | moddingtools/source/ToolsManager.cs:81-98 | the blocks a frame's clicks hand to OpenParticleEditor: the targeted block when its entry is offered and clicked, and the slot's block when it has one and its entry is clicked, and no others |
| `Tools.ToolsManager.constructor` | moddingtools/source/ToolsManager.cs:14-26 | no popup pending, no editor windows, a fresh open selection and the GUI not shown |
| `Tools.ToolsManager.EnablePopup` | moddingtools/source/ToolsManager.cs:61-66 | the snapshot is dropped, the popup is armed and the key is not consumed |
| `Tools.ToolsManager.OpenParticleEditor` | moddingtools/source/ToolsManager.cs:127-133 | an existing block code keeps its editor; a new code gets a fresh, valid editor over the block, and other entries stay; a new code needs a block without null effects |
| `Tools.ToolsManager.ShowPopup` | moddingtools/source/ToolsManager.cs:69-126 | an unshown popup drops the snapshot and changes nothing else; a shown one sets the latch, capturing exactly the hovered block, entity, slot and (under a block) block entity when the latch was open and keeping the captured targets otherwise, and each new editor comes from a clicked entry for the targeted or slot block; only the blocks a click would open must be openable |
| `Tools.ToolsManager.RenderTools` | moddingtools/source/ToolsManager.cs:28-59 | a pending popup request is consumed and the GUI shown, and without one the GUI's visibility is kept; closed windows leave the registry and open ones stay; the selection is taken exactly when the popup is shown, capturing the hovered targets only when the latch was open, and the captured targets are kept otherwise; without the popup the registry only loses closed windows; each new editor is fresh and built over the targeted block (for a world-block click with an entry) or the slot's block (for a slot click); the mouse is grabbed exactly when an editor window remains |
| `Tools.ToolsManager.DrawEditorWindows` | moddingtools/source/ToolsManager.cs:41-56 | the registry loses exactly the closed windows; reports whether any window stays open |
| `Tools.PruneClosed` | moddingtools/source/ToolsManager.cs:41-56 | the enumeration that removes closed windows leaves exactly the open ones and reports whether there is any |
| `Tools.PruneStep` | moddingtools/source/ToolsManager.cs:41-56 | visiting one more window removes it exactly when it was closed |
| `Tools.PruneDone` | moddingtools/source/ToolsManager.cs:41-56 | after every window was visited exactly the closed ones are gone, and nothing stays exactly when every window was closed |
| `LegacyParticles.NonNullCount` | moddingtools/src/ParticlesEditor.cs:61-65 | the number of non-null effects is at most the number of entries |
| `LegacyParticles.NonNullCountBounds` | moddingtools/src/ParticlesEditor.cs:61-65 | that number equals the number of entries exactly when no entry is null, and is zero exactly when every entry is null |
| `LegacyParticles.Numbering` | moddingtools/src/ParticlesEditor.cs:55-68 | the headers are numbered 1, 2, … without gaps, one per non-null effect, and each is an effect of the block |
| `LegacyParticles.NumberingCoversEffects` | moddingtools/src/ParticlesEditor.cs:55-68 | every non-null effect gets a header |
| `LegacyParticles.NumberingExtends` | moddingtools/src/ParticlesEditor.cs:62-66 | a null entry takes no number; a non-null one takes the next |
| `LegacyParticles.NeverOpenedExtends` | moddingtools/src/ParticlesEditor.cs:61-67 | an effect stays unopened after one more header exactly when it was and that header is not an expanded one of the same effect |
| `LegacyParticles.ColourEdit` | moddingtools/src/ParticlesEditor.cs:104-117 | with the header open, color-by-block flips on a click and edited colour and variance are written; nothing else changes |
| `LegacyParticles.ColourEvolveEdit` | moddingtools/src/ParticlesEditor.cs:118-139 | with the header open, the four evolves go through the nullable editor under the effect's number; nothing else in the record changes |
| `LegacyParticles.SizeEdit` | moddingtools/src/ParticlesEditor.cs:187-202 | with the header open, the size evolve goes through the nullable editor; nothing else changes |
| `LegacyParticles.VelocityEdit` | moddingtools/src/ParticlesEditor.cs:203-252 | the velocity evolve exists afterwards exactly when it existed or "Add" was pressed, and "Remove" was not; an added one starts as three defaults; the axis edits apply |
| `LegacyParticles.FlagsEdit` | moddingtools/src/ParticlesEditor.cs:289-328 | with the header open, the vertex flags are rebuilt from the widgets with the normal clamped into the short range; nothing else changes |
| `LegacyParticles.CollapsedEffectUnchanged` | moddingtools/src/ParticlesEditor.cs:70-91 | with every header collapsed, neither the record nor the side table changes |
| `LegacyParticles.EffectStepKeepsOtherSlots` | moddingtools/src/ParticlesEditor.cs:388-415 | editing effect number n touches only the side table's entry n, so effects do not share slots |
| `LegacyParticles.VelocityAddRemove` | moddingtools/src/ParticlesEditor.cs:221-249 | "Add" creates three default entries; "Remove" takes them away again |
| `LegacyParticles.VelocityRemoveForgets` | moddingtools/src/ParticlesEditor.cs:221-249 | removing and re-adding gives the defaults, not the removed value |
| `LegacyParticles.CloneEffects` | moddingtools/src/ParticlesEditor.cs:23-27 | a fresh clone of every entry, in order |
| `LegacyParticles.ParticleEditor.constructor` | moddingtools/src/ParticlesEditor.cs:17-35 | as written: the backup holds a fresh clone of each effect and is empty without a block; the enumeration needs a non-null array without null entries |
| `LegacyParticles.ParticleEditor.Guarded` | moddingtools/src/ParticlesEditor.cs:17-35 | the constructor as evidently intended: without a block or with a null array the backup is empty; otherwise it holds a fresh clone of each effect |
| `LegacyParticles.ParticleEditor.RenderWindow` | moddingtools/src/ParticlesEditor.cs:37-44 | without a block nothing changes; otherwise the side table changes only under expanded effect numbers |
| `LegacyParticles.ParticleEditor.RestoreFromBackup` | moddingtools/src/ParticlesEditor.cs:45-54 | a press writes a fresh clone of backup entry i at index i for every i in the backup and leaves later indices alone; an empty backup or no press changes nothing |
| `LegacyParticles.ParticleEditor.ProcessParticleEffects` | moddingtools/src/ParticlesEditor.cs:55-69 | the headers are `Numbering` of the effects (none for a null array); an effect none of whose headers was expanded keeps its record; the side table changes only under expanded numbers |
| `LegacyParticles.ParticleEditor.NumberEffects` | moddingtools/src/ParticlesEditor.cs:59-68 | the loop over the array: the headers are `Numbering` of its entries; an effect none of whose headers was expanded keeps its record; the side table changes only under expanded numbers |
| `LegacyParticles.ParticleEditor.ShowNumbered` | moddingtools/src/ParticlesEditor.cs:63-67 | one header: an effect that stays never-opened keeps its record, and the side table changes only under an expanded number |
| `LegacyParticles.ParticleEditor.ShowParticleEffectGui` | moddingtools/src/ParticlesEditor.cs:70-91 | the record and side table become `EffectStep` of the headers in source order; side-table entries under other numbers stay |
| `LegacyParticles.ParticleEditor.ColorEditor` | moddingtools/src/ParticlesEditor.cs:104-117 | the record becomes `ColourEdit` of its old value |
| `LegacyParticles.ParticleEditor.ColorEvolveEditor` | moddingtools/src/ParticlesEditor.cs:118-139 | the record and side table become `ColourEvolveEdit` of the old ones |
| `LegacyParticles.ParticleEditor.SizeEditor` | moddingtools/src/ParticlesEditor.cs:187-202 | the record and side table become `SizeEdit` of the old ones |
| `LegacyParticles.ParticleEditor.VelocityEditor` | moddingtools/src/ParticlesEditor.cs:203-252 | the velocity evolve becomes `VelocityEdit` of the old one when the header is open |
| `LegacyParticles.ParticleEditor.FlagsEditor` | moddingtools/src/ParticlesEditor.cs:289-328 | the record becomes `FlagsEdit` of its old value |
| `LegacyParticles.ParticleEditor.EvolvingNatFloatEditorNullable` | moddingtools/src/ParticlesEditor.cs:388-415 | the editor-owned side table and the field follow `NullableStep` |
| `LegacyTools.Dialog.TryOpen` | moddingtools/src/ToolsManager.cs:104 | the dialog is open afterwards |
| `LegacyTools.Dialog.TryClose` | moddingtools/src/ToolsManager.cs:100 | the dialog is closed afterwards |
| `LegacyTools.Dialog.constructor` | moddingtools/src/ToolsManager.cs:33 | the dialog starts closed |
| `LegacyTools.ItemRenderer.constructor` | moddingtools/src/TestItemGuiRenderer.cs:19-34 | no slot, an empty shape path and the initial sixteen-entry model matrix |
| `LegacyTools.ItemRenderer.EditModelMatrix` | moddingtools/src/ToolsManager.cs:82-90 | each group of four entries takes its slider's row when the slider was moved and keeps its values otherwise |
| `LegacyTools.NullArrayClickBreaksConstructor` | moddingtools/src/ToolsManager.cs:129-137 | clicking the entry for a targeted block with a null effect array hands it to a constructor that cannot take it |
| `LegacyTools.ToolsManager.constructor` | moddingtools/src/ToolsManager.cs:23-38 | no popup pending, no editors, a closed dialog, a renderer without a slot and a fresh selection |
| `LegacyTools.ToolsManager.ToggleCursorLock` | moddingtools/src/ToolsManager.cs:96-108 | the dialog closes when open and opens otherwise; the key is consumed |
| `LegacyTools.ToolsManager.EnablePopup` | moddingtools/src/ToolsManager.cs:109-114 | the snapshot is dropped, the popup is armed and the key is not consumed |
| `LegacyTools.ToolsManager.OpenParticleEditor` | moddingtools/src/ToolsManager.cs:175-181 | an existing block code keeps its editor; a new code gets a fresh editor over the block, built by the corrected constructor, and other entries stay |
| `LegacyTools.ToolsManager.ShowPopup` | moddingtools/src/ToolsManager.cs:117-174 | as in the newer tree (including the snapshot captured from the hover only when the latch was open, and kept otherwise), plus "Edit item model" hands the hovered slot and its item's shape path to the renderer when the item has a shape |
| `LegacyTools.ToolsManager.RenderTools` | moddingtools/src/ToolsManager.cs:40-94 | a pending popup request opens the popup once and is cleared; closed editor windows leave the registry and open ones stay; the selection is taken exactly when the popup is shown, capturing the hovered targets only when the latch was open, and the captured targets are kept otherwise; without the popup the registry only loses closed windows; each new editor is fresh and built over the targeted block or the slot's block; an item-model click on a slot with a shape hands that slot and shape path to the renderer, otherwise the renderer keeps its slot and path; with a slot handed over, the model matrix follows the sliders |

## Left out

- Floating point: floats are `real`. The colour picker's scaling by 255 and back is not modelled: the picker (`HsvaColor[i].avg`) and the variance fields (`HsvaColor[i].var`) are each one four-value `Hsva` written as edited. The `NatFloat` editors (gravity, life length, quantity, spawn intervals, position offset, velocity, size) are not modelled. The payload keeps only the fields the modelled widgets change.
- The boolean property checkboxes, the particle-model combo, the spawn and motion sections and the read-only JSON view: plain field copies through widgets, with no control logic.
- Serialisation: the byte backup, the JSON text and C# code export, and the clipboard. The byte round trip is taken as lossless, so the backup is a `Payload`. Parsing is a parameter, either a parsed payload or a message with a stack trace.
- `Engine.DefaultPayload`: the default values of a new `AdvancedParticleProperties` come from the game, which is not part of this model; the constant's fields are placeholders, and nothing proved depends on their values.
- ImGui layout, styling, ids and titles (`TitleGeneral`, `Title`, the `_id` hash codes, which are a parameter), window sizes and the disabled-state rendering. A disabled button is taken to be reported as not pressed.
- Only the selected tab's widgets run in a frame, which is how ImGui tab bars behave.
- `ImGuiModSystem.Show()` is the flag `guiShown`. `ImGui.OpenPopup` is the result of the older `RenderTools`.
- `Particles.ParticleEditor.constructor`: requires every effect in a non-null array to be non-null. The source clones each entry with `property.Clone()` (moddingtools/source/Tools/ParticleEditor.cs:28-30), which throws a NullReferenceException on a null entry. So `Tools.ToolsManager.OpenParticleEditor` requires `NoNullEffects` of a block whose code is new, and the popup's requires asks it only of the blocks the frame's clicks would open.
- `LegacyParticles.ParticleEditor.Guarded`: keeps the same demand of non-null entries as the newer constructor, for the same reason (moddingtools/src/ParticlesEditor.cs:24-27).
- `Particles.ParticleEditor.Draw`: for a selected entry kept from before, `shown` is left unconstrained: the contract does not state that this editor is still in its state of before the frame, although the selector row never touches a kept editor. It also does not restate that the other editors and records are unchanged. `DrawParticleEditor` states both facts, but relative to the state after the selector row. Carrying them back across the selector row means framing every kept editor through the row's calls, and that proof is beyond the verifier's resource limit here.
- `Tools.ToolsManager.RenderTools`: does not run each editor's own `Draw` inside the window loop (that frame is `Particles.ParticleEditor.Draw`, modelled separately). The same holds for `RenderWindow` in `LegacyTools.ToolsManager.RenderTools`.
- `LegacyParticles.ParticleEditor.ProcessParticleEffects`: does not state the new records of expanded effects, because one object listed twice in the array is edited twice. Each single edit is stated exactly by `ShowParticleEffectGui`.
- `LegacyParticles.ParticleEditor.RenderWindow`: states what happens to the side table, the restore and the per-effect editing through the methods it calls, but not the final records.
- `LegacyTools.Dialog.TryOpen`: always succeeds. The game's dialog may refuse to open, which the tools manager ignores.
- `LegacyTools.Dialog.TryClose`: always succeeds, for the same reason.
- `VelocityEvolve` arrays are modelled as three-axis triples; a shorter array would make the source throw.
- The vertex flags' bit packing (`VertexFlags.All`): the flags are a record of their fields.
- `EvolvingNatFloat` is a value. The source's `!=` on it compares references; `ColorEvolving` models that comparison's outcome.
- Shape rendering, the shape editors (`OpenShapeEditor` does nothing), the item renderer's GL work, the texture view and `RowEditor` over `mMVP`, which nothing calls. `TestItemGuiRenderer` is not part of this model beyond the three fields the tools manager writes.
- The host's hotkey registration and `Console.WriteLine` diagnostics. The targets the player hovers (block, entity, slot, block entity) enter as a `Hover` value.
- Both `ToolsManager`s remove closed windows from the dictionary while enumerating it (moddingtools/source/ToolsManager.cs:41-56, moddingtools/src/ToolsManager.cs:50-63). .NET Core 3.0 and later allow `Remove` during enumeration, so the model visits every window once and removes the closed ones.

## Findings

| source | as written | input that shows it | evidently intended | confidence | as-written member | corrected member |
|---|---|---|---|---|---|---|
| moddingtools/src/ParticlesEditor.cs:21-27 | the older constructor checks only for a null block, then enumerates `block.ParticleProperties` | targeting a block whose effect array is null and clicking "Edit particle effects" (moddingtools/src/ToolsManager.cs:129-137) enumerates a null array and throws | a null array gives an empty backup, as `ProcessParticleEffects` (moddingtools/src/ParticlesEditor.cs:57) and the newer constructor (moddingtools/source/Tools/ParticleEditor.cs:25) treat it | not executed | `LegacyParticles.ParticleEditor.constructor`, `LegacyTools.NullArrayClickBreaksConstructor` | `LegacyParticles.ParticleEditor.Guarded` |
