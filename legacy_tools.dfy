/**
 * The older tools manager: the same hotkey-armed popup and registry of particle
 * editors as the newer one, plus a cursor-lock hotkey that toggles a dialog and an
 * "Edit item model" entry that hands a slot to an item renderer whose model matrix
 * is edited row by row.
 */
module LegacyTools {
  import opened Wrappers
  import opened Engine
  import Tools
  import LegacyParticles

  /**
   * With no slot hovered, the popup offers "Edit particle effects" for any targeted
   * block, and a click hands it to OpenParticleEditor; for a block whose array is
   * null the constructor as written cannot run, since its foreach enumerates null.
   */
  lemma NullArrayClickBreaksConstructor(b: Block)
    requires b.particleProperties == null
    ensures Tools.ClickedBlocks(b, null, true, false) == {b}
    ensures !LegacyParticles.Editable(b)
  {
  }

  /** The vanilla GUI dialog that the cursor-lock hotkey opens and closes. */
  class Dialog {
    var isOpen: bool

    constructor ()
      ensures !isOpen
    {
      isOpen := false;
    }

    method TryOpen()
      modifies this
      ensures isOpen
    {
      isOpen := true;
    }

    method TryClose()
      modifies this
      ensures !isOpen
    {
      isOpen := false;
    }
  }

  /** One row of the model-matrix sliders. */
  datatype Row = Row(x: real, y: real, z: real, w: real)

  /** Component `j` (0 to 3) of a row. */
  function Component(r: Row, j: int): real
  {
    if j == 0 then r.x else if j == 1 then r.y else if j == 2 then r.z else r.w
  }

  /** The renderer's initial model matrix, column-major (float literals kept as reals). */
  const InitialModelMat: seq<real> :=
    [2.0, 0.04, 0.0, 0.0, 0.04, 1.99, 0.14, 0.0, 0.0, -0.14, 2.0, 0.0, 1.04, -0.64, -1.65, 1.0]

  /** The entry of the matrix after the row sliders: slider `i` (labelled by its first index) sets entries i .. i+3. */
  function EditedEntry(old_: real, sliders: map<int, Row>, k: int): real
  {
    var start := k - k % 4;
    if start in sliders then Component(sliders[start], k % 4) else old_
  }

  /** The item renderer's state that the tools manager writes: the slot to draw, its shape and the model matrix. */
  class ItemRenderer {
    var slot: ItemSlot?
    var shapePath: string
    const modelMat: array<real>

    constructor ()
      ensures slot == null && shapePath == ""
      ensures fresh(modelMat) && modelMat[..] == InitialModelMat
    {
      slot := null;
      shapePath := "";
      modelMat := new real[16](i requires 0 <= i < 16 => InitialModelMat[i]);
    }

    /**
     * The "Item model" window's four sliders, one per group of four entries; a slider
     * that was not moved writes back the values it read (`sliders` holds the moved ones,
     * keyed by the group's first index).
     */
    method EditModelMatrix(sliders: map<int, Row>)
      requires modelMat.Length == 16
      modifies modelMat
      ensures forall k :: 0 <= k < 16 ==> modelMat[k] == EditedEntry(old(modelMat[k]), sliders, k)
    {
      var i := 0;
      while i < 16
        invariant 0 <= i <= 16 && i % 4 == 0
        invariant forall k :: 0 <= k < i ==> modelMat[k] == EditedEntry(old(modelMat[k]), sliders, k)
        invariant forall k :: i <= k < 16 ==> modelMat[k] == old(modelMat[k])
      {
        var row := Row(modelMat[i + 0], modelMat[i + 1], modelMat[i + 2], modelMat[i + 3]);
        if i in sliders {
          row := sliders[i];
        }
        modelMat[i + 0] := row.x;
        modelMat[i + 1] := row.y;
        modelMat[i + 2] := row.z;
        modelMat[i + 3] := row.w;
        assert forall k :: i <= k < i + 4 ==> k - k % 4 == i && k % 4 == k - i;
        i := i + 4;
      }
    }
  }

  /**
   * The popup's inputs in one frame. ImGui shows a popup in the frame its OpenPopup
   * call is made; `popupShown` is left free, so the model also admits a requested
   * popup that is not shown, which only drops the snapshot.
   */
  datatype PopupFrame = PopupFrame(
    popupShown: bool,      // BeginPopup("Modding tools") returned true
    hover: Hover,          // what the player currently targets
    pickWorldBlock: bool,  // the world-block "Edit particle effects" entry was clicked
    pickSlotBlock: bool,   // the slot-block "Edit particle effects" entry was clicked
    pickItemModel: bool)   // the "Edit item model" entry was clicked

  class ToolsManager {
    var openPopup: bool
    var particleEditors: map<string, LegacyParticles.ParticleEditor>
    const dialog: Dialog
    const renderer: ItemRenderer
    const selection: Tools.Selection

    constructor ()
      ensures !openPopup && particleEditors == map[]
      ensures fresh(dialog) && !dialog.isOpen
      ensures fresh(renderer) && renderer.slot == null && renderer.modelMat.Length == 16
      ensures fresh(selection) && !selection.selected
    {
      openPopup := false;
      particleEditors := map[];
      dialog := new Dialog();
      renderer := new ItemRenderer();
      selection := new Tools.Selection();
    }

    /** The cursor-lock hotkey: closes the dialog when it is open, opens it otherwise, and consumes the key. */
    method ToggleCursorLock() returns (handled: bool)
      modifies dialog
      ensures dialog.isOpen == !old(dialog.isOpen)
      ensures handled
    {
      if dialog.isOpen {
        dialog.TryClose();
      } else {
        dialog.TryOpen();
      }
      handled := true;
    }

    /** The popup hotkey: drops the snapshot, arms the popup, and lets the key through. */
    method EnablePopup() returns (handled: bool)
      modifies this`openPopup, selection`selected
      ensures openPopup && !selection.selected && !handled
    {
      selection.Deselect();
      openPopup := true;
      handled := false;
    }

    /**
     * An editor is built only for a code not yet in the registry, and the corrected
     * constructor needs a block without null effects.
     */
    predicate Openable(block: Block)
      reads this`particleEditors, block, block.particleProperties
    {
      block.code in particleEditors || Tools.NoNullEffects(block)
    }

    /**
     * Adds an editor for a new block code; an existing entry is left as it is. The
     * editor is built by the corrected constructor, which accepts a null array.
     */
    method OpenParticleEditor(block: Block)
      requires Openable(block)
      modifies this`particleEditors
      ensures block.code in old(particleEditors) ==> particleEditors == old(particleEditors)
      ensures block.code !in old(particleEditors) ==>
                particleEditors.Keys == old(particleEditors).Keys + {block.code}
      ensures block.code !in old(particleEditors) ==>
                fresh(particleEditors[block.code]) && particleEditors[block.code].selectedBlock == block
      ensures forall c :: c in old(particleEditors) ==> c in particleEditors && particleEditors[c] == old(particleEditors)[c]
    {
      var code := block.code;
      if code in particleEditors {
        return;
      }
      var editor := new LegacyParticles.ParticleEditor.Guarded(block);
      particleEditors := particleEditors[code := editor];
    }

    /**
     * The popup: when ImGui does not show it the snapshot is dropped; otherwise the
     * snapshot is taken (once) and the entries offered act. The shape-editor entries
     * open an editor that does nothing.
     */
    method ShowPopup(f: PopupFrame)
      requires f.popupShown ==>
                 var (b, s) := if selection.selected then (selection.blockSelection, selection.slotSelection)
                               else (f.hover.block, f.hover.slot);
                 forall c :: c in Tools.ClickedBlocks(b, s, f.pickWorldBlock, f.pickSlotBlock) ==> Openable(c)
      modifies this`particleEditors, selection, renderer`slot, renderer`shapePath
      ensures !f.popupShown ==> particleEditors == old(particleEditors) && !selection.selected
      ensures !f.popupShown ==> renderer.slot == old(renderer.slot) && renderer.shapePath == old(renderer.shapePath)
      ensures f.popupShown ==> selection.selected
      ensures f.popupShown && !old(selection.selected) ==> selection.Captures(f.hover)
      ensures old(selection.selected) || !f.popupShown ==> selection.Snapshot() == old(selection.Snapshot())
      ensures forall c :: c in old(particleEditors) ==> c in particleEditors && particleEditors[c] == old(particleEditors)[c]
      ensures forall c :: c in particleEditors && c !in old(particleEditors) ==>
                fresh(particleEditors[c])
                && ((particleEditors[c].selectedBlock == selection.blockSelection && f.pickWorldBlock
                     && Tools.WorldBlockEntry(selection.blockSelection, selection.slotSelection).Some?)
                    || (selection.slotSelection != null && f.pickSlotBlock
                        && particleEditors[c].selectedBlock == selection.slotSelection.stackBlock))
      ensures f.popupShown && f.pickItemModel && selection.slotSelection != null && selection.slotSelection.itemShape.Some? ==>
                renderer.slot == selection.slotSelection && renderer.shapePath == selection.slotSelection.itemShape.value
      ensures !(f.popupShown && f.pickItemModel && selection.slotSelection != null && selection.slotSelection.itemShape.Some?) ==>
                renderer.slot == old(renderer.slot) && renderer.shapePath == old(renderer.shapePath)
    {
      if !f.popupShown {
        selection.Deselect();
        return;
      }
      selection.Select(f.hover);
      var worldBlock := Tools.WorldBlockEntry(selection.blockSelection, selection.slotSelection);
      if worldBlock.Some? && f.pickWorldBlock {
        OpenParticleEditor(worldBlock.value);
      }
      if selection.slotSelection != null && selection.slotSelection.stackBlock != null && f.pickSlotBlock {
        OpenParticleEditor(selection.slotSelection.stackBlock);
      }
      if selection.slotSelection != null && selection.slotSelection.itemShape.Some? && f.pickItemModel {
        renderer.slot := selection.slotSelection;
        renderer.shapePath := selection.slotSelection.itemShape.value;
      }
    }

    /**
     * One frame: a pending popup request opens the popup and is consumed (the result
     * says whether it was); then the popup; then every editor window, those whose
     * window was closed this frame (`closed`) leaving the registry; then, once a slot
     * was handed to the renderer, the model-matrix sliders.
     */
    method RenderTools(f: PopupFrame, closed: set<string>, sliders: map<int, Row>) returns (popupOpened: bool)
      requires f.popupShown ==>
                 var (b, s) := if selection.selected then (selection.blockSelection, selection.slotSelection)
                               else (f.hover.block, f.hover.slot);
                 forall c :: c in Tools.ClickedBlocks(b, s, f.pickWorldBlock, f.pickSlotBlock) ==> Openable(c)
      requires renderer.modelMat.Length == 16
      modifies this, selection, renderer, renderer.modelMat
      ensures popupOpened == old(openPopup) && !openPopup
      ensures forall c :: c in closed ==> c !in particleEditors
      ensures forall c :: c in old(particleEditors) && c !in closed ==>
                c in particleEditors && particleEditors[c] == old(particleEditors)[c]
      ensures forall c :: c in particleEditors && c !in old(particleEditors) ==>
                fresh(particleEditors[c])
                && ((particleEditors[c].selectedBlock == selection.blockSelection && f.pickWorldBlock
                     && Tools.WorldBlockEntry(selection.blockSelection, selection.slotSelection).Some?)
                    || (selection.slotSelection != null && f.pickSlotBlock
                        && particleEditors[c].selectedBlock == selection.slotSelection.stackBlock))
      ensures !f.popupShown ==> particleEditors == old(particleEditors) - closed && !selection.selected
      ensures f.popupShown ==> selection.selected
      ensures f.popupShown && !old(selection.selected) ==> selection.Captures(f.hover)
      ensures old(selection.selected) || !f.popupShown ==> selection.Snapshot() == old(selection.Snapshot())
      ensures f.popupShown && f.pickItemModel && selection.slotSelection != null && selection.slotSelection.itemShape.Some? ==>
                renderer.slot == selection.slotSelection && renderer.shapePath == selection.slotSelection.itemShape.value
      ensures !(f.popupShown && f.pickItemModel && selection.slotSelection != null && selection.slotSelection.itemShape.Some?) ==>
                renderer.slot == old(renderer.slot) && renderer.shapePath == old(renderer.shapePath)
      ensures renderer.slot == null ==> unchanged(renderer.modelMat)
      ensures renderer.slot != null ==>
                forall k :: 0 <= k < 16 ==> renderer.modelMat[k] == EditedEntry(old(renderer.modelMat[k]), sliders, k)
    {
      popupOpened := false;
      if openPopup {
        popupOpened := true;
        openPopup := false;
      }
      ShowPopup(f);
      var remaining, _ := Tools.PruneClosed(particleEditors, closed);
      particleEditors := remaining;
      if renderer.slot != null {
        renderer.EditModelMatrix(sliders);
      }
    }
  }
}
