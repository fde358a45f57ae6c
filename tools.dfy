/**
 * The newer tools manager: a hotkey arms a context popup, the popup snapshots what
 * the player targets, and particle editors are kept in a registry keyed by block code.
 */
module Tools {
  import opened Wrappers
  import opened Engine
  import Widgets
  import opened EvolvingEditors
  import Particles

  datatype DialogStatus = GrabMouse | Closed

  /** An editor can be built over the block: none of its effects is null. */
  predicate NoNullEffects(b: Block?)
    reads b, if b != null then {b.particleProperties} else {}
  {
    b != null && b.particleProperties != null ==>
      forall i :: 0 <= i < b.particleProperties.Length ==> b.particleProperties[i] != null
  }

  /** The snapshot of the player's targets, refreshed only after a Deselect. */
  class Selection {
    var blockSelection: Block?
    var entitySelection: Entity?
    var slotSelection: ItemSlot?
    var blockEntitySelection: BlockEntity?
    var selected: bool

    constructor ()
      ensures blockSelection == null && entitySelection == null && slotSelection == null
      ensures blockEntitySelection == null && !selected
    {
      blockSelection, entitySelection, slotSelection, blockEntitySelection := null, null, null, null;
      selected := false;
    }

    /** The four captured targets, as one value. */
    function Snapshot(): (Block?, Entity?, ItemSlot?, BlockEntity?)
      reads this
    {
      (blockSelection, entitySelection, slotSelection, blockEntitySelection)
    }

    /** The snapshot holds the targets of `h`, the block entity only under a block. */
    predicate Captures(h: Hover)
      reads this
    {
      Snapshot() == (h.block, h.entity, h.slot, if h.block == null then null else h.blockEntityAtTarget)
    }

    /** Captures the snapshot once; a no-op while already selected. */
    method Select(h: Hover)
      modifies this
      ensures selected
      ensures old(selected) ==> blockSelection == old(blockSelection) && entitySelection == old(entitySelection)
      ensures old(selected) ==> slotSelection == old(slotSelection) && blockEntitySelection == old(blockEntitySelection)
      ensures !old(selected) ==> blockSelection == h.block && entitySelection == h.entity && slotSelection == h.slot
      ensures !old(selected) ==> blockEntitySelection == (if h.block == null then null else h.blockEntityAtTarget)
    {
      if !selected {
        selected := true;
        blockSelection := h.block;
        entitySelection := h.entity;
        slotSelection := h.slot;
        blockEntitySelection := if blockSelection == null then null else h.blockEntityAtTarget;
      }
    }

    /** Clears the latch only; the snapshot fields keep their values. */
    method Deselect()
      modifies this`selected
      ensures !selected
      ensures blockSelection == old(blockSelection) && entitySelection == old(entitySelection)
      ensures slotSelection == old(slotSelection) && blockEntitySelection == old(blockEntitySelection)
    {
      selected := false;
    }
  }

  /** The block an entry of the popup would open, if any: the targeted block when no slot is hovered. */
  function WorldBlockEntry(blockSelection: Block?, slotSelection: ItemSlot?): (r: Option<Block>)
    ensures r.Some? <==> slotSelection == null && blockSelection != null
    ensures r.Some? ==> r.value == blockSelection
  {
    if slotSelection == null && blockSelection != null then Some(blockSelection) else None
  }

  /** The blocks the popup's entries hand to OpenParticleEditor in a frame, given the snapshot. */
  function ClickedBlocks(blockSelection: Block?, slotSelection: ItemSlot?, pickWorldBlock: bool, pickSlotBlock: bool): (r: set<Block>)
    reads slotSelection
    ensures forall b :: b in r ==>
              (pickWorldBlock && WorldBlockEntry(blockSelection, slotSelection) == Some(b))
              || (pickSlotBlock && slotSelection != null && slotSelection.stackBlock == b)
    ensures pickWorldBlock && WorldBlockEntry(blockSelection, slotSelection).Some? ==>
              WorldBlockEntry(blockSelection, slotSelection).value in r
    ensures pickSlotBlock && slotSelection != null && slotSelection.stackBlock != null ==> slotSelection.stackBlock in r
  {
    (if pickWorldBlock && WorldBlockEntry(blockSelection, slotSelection).Some? then {blockSelection} else {})
    + (if pickSlotBlock && slotSelection != null && slotSelection.stackBlock != null then {slotSelection.stackBlock} else {})
  }

  /**
   * The popup's inputs in one frame. ImGui shows a popup in the frame its OpenPopup
   * call is made; `popupShown` is left free, so the model also admits a requested
   * popup that is not shown, which only drops the snapshot.
   */
  datatype PopupFrame = PopupFrame(
    popupShown: bool,      // BeginPopup("Modding tools") returned true
    hover: Hover,          // what the player currently targets
    pickWorldBlock: bool,  // the world-block "Edit particle effects" entry was clicked
    pickSlotBlock: bool)   // the slot-block "Edit particle effects" entry was clicked

  class ToolsManager {
    var openPopup: bool
    var particleEditors: map<string, Particles.ParticleEditor>
    const selection: Selection
    const hash: HashCode
    /** The GUI system's visible state, raised by Show(). */
    var guiShown: bool

    constructor (hash: HashCode)
      ensures !openPopup && particleEditors == map[] && fresh(selection) && !selection.selected
      ensures this.hash == hash && !guiShown
    {
      openPopup := false;
      particleEditors := map[];
      selection := new Selection();
      this.hash := hash;
      guiShown := false;
    }

    /** The hotkey handler: drops the snapshot, arms the popup, and lets the key through. */
    method EnablePopup() returns (handled: bool)
      modifies this`openPopup, selection`selected
      ensures openPopup && !selection.selected && !handled
    {
      selection.Deselect();
      openPopup := true;
      handled := false;
    }

    /**
     * An editor is built only for a code not yet in the registry, and building one
     * needs a block without null effects.
     */
    predicate Openable(block: Block)
      reads this`particleEditors, block, block.particleProperties
    {
      block.code in particleEditors || NoNullEffects(block)
    }

    /** Adds an editor for a new block code; an existing entry is left as it is. */
    method OpenParticleEditor(block: Block)
      requires Openable(block)
      modifies this`particleEditors
      ensures block.code in old(particleEditors) ==> particleEditors == old(particleEditors)
      ensures block.code !in old(particleEditors) ==>
                && particleEditors.Keys == old(particleEditors).Keys + {block.code}
                && fresh(particleEditors[block.code])
                && particleEditors[block.code].selectedBlock == block
                && particleEditors[block.code].Valid()
                && forall c :: c in old(particleEditors) ==> particleEditors[c] == old(particleEditors)[c]
    {
      var code := block.code;
      if code in particleEditors {
        return;
      }
      var editor := new Particles.ParticleEditor(block, hash);
      particleEditors := particleEditors[code := editor];
    }

    /**
     * The popup: when ImGui does not show it, the snapshot is dropped; otherwise the
     * snapshot is taken (once) and the entries offered open editors.
     */
    method ShowPopup(f: PopupFrame)
      requires f.popupShown ==>
                 var (b, s) := if selection.selected then (selection.blockSelection, selection.slotSelection)
                               else (f.hover.block, f.hover.slot);
                 forall c :: c in ClickedBlocks(b, s, f.pickWorldBlock, f.pickSlotBlock) ==> Openable(c)
      modifies this`particleEditors, selection
      ensures !f.popupShown ==> particleEditors == old(particleEditors) && !selection.selected
      ensures f.popupShown ==> selection.selected
      ensures f.popupShown && !old(selection.selected) ==> selection.Captures(f.hover)
      ensures old(selection.selected) || !f.popupShown ==> selection.Snapshot() == old(selection.Snapshot())
      ensures forall c :: c in old(particleEditors) ==> c in particleEditors && particleEditors[c] == old(particleEditors)[c]
      ensures forall c :: c in particleEditors && c !in old(particleEditors) ==>
                fresh(particleEditors[c]) && particleEditors[c].Valid()
                && ((particleEditors[c].selectedBlock == selection.blockSelection && f.pickWorldBlock
                     && WorldBlockEntry(selection.blockSelection, selection.slotSelection).Some?)
                    || (selection.slotSelection != null && f.pickSlotBlock
                        && particleEditors[c].selectedBlock == selection.slotSelection.stackBlock))
    {
      if !f.popupShown {
        selection.Deselect();
        return;
      }
      selection.Select(f.hover);
      var worldBlock := WorldBlockEntry(selection.blockSelection, selection.slotSelection);
      if worldBlock.Some? && f.pickWorldBlock {
        OpenParticleEditor(worldBlock.value);
      }
      if selection.slotSelection != null && selection.slotSelection.stackBlock != null && f.pickSlotBlock {
        OpenParticleEditor(selection.slotSelection.stackBlock);
      }
    }

    /**
     * One frame: a pending popup request is consumed and the popup opened; then the
     * popup; then every editor window, those whose window was closed this frame
     * (`closed`) leaving the registry. The mouse is grabbed exactly when some editor
     * window is still open.
     */
    method RenderTools(f: PopupFrame, closed: set<string>) returns (status: DialogStatus)
      requires f.popupShown ==>
                 var (b, s) := if selection.selected then (selection.blockSelection, selection.slotSelection)
                               else (f.hover.block, f.hover.slot);
                 forall c :: c in ClickedBlocks(b, s, f.pickWorldBlock, f.pickSlotBlock) ==> Openable(c)
      modifies this, selection
      ensures !openPopup
      ensures guiShown == (old(openPopup) || old(guiShown))
      ensures forall c :: c in closed ==> c !in particleEditors
      ensures forall c :: c in old(particleEditors) && c !in closed ==>
                c in particleEditors && particleEditors[c] == old(particleEditors)[c]
      ensures forall c :: c in particleEditors && c !in old(particleEditors) ==>
                fresh(particleEditors[c]) && particleEditors[c].Valid()
                && ((particleEditors[c].selectedBlock == selection.blockSelection && f.pickWorldBlock
                     && WorldBlockEntry(selection.blockSelection, selection.slotSelection).Some?)
                    || (selection.slotSelection != null && f.pickSlotBlock
                        && particleEditors[c].selectedBlock == selection.slotSelection.stackBlock))
      ensures status == GrabMouse <==> particleEditors != map[]
      ensures !f.popupShown ==> particleEditors == old(particleEditors) - closed && !selection.selected
      ensures f.popupShown ==> selection.selected
      ensures f.popupShown && !old(selection.selected) ==> selection.Captures(f.hover)
      ensures old(selection.selected) || !f.popupShown ==> selection.Snapshot() == old(selection.Snapshot())
    {
      if openPopup {
        openPopup := false;
        guiShown := true;
      }
      ShowPopup(f);
      var anyOpen := DrawEditorWindows(closed);
      status := if anyOpen then GrabMouse else Closed;
    }
  
    /**
     * The foreach over the registry: each window reports whether it is still open;
     * closed ones are removed (removal during enumeration is allowed for a .NET
     * Dictionary), the others stay. Returns whether any window stayed open.
     */
    method DrawEditorWindows(closed: set<string>) returns (anyOpen: bool)
      modifies this`particleEditors
      ensures particleEditors == old(particleEditors) - closed
      ensures anyOpen <==> particleEditors != map[]
    {
      particleEditors, anyOpen := PruneClosed(particleEditors, closed);
    }
  }

  /** The loop of DrawEditorWindows, on the registry as a value. */
  method PruneClosed<V>(windows: map<string, V>, closed: set<string>) returns (remaining: map<string, V>, anyOpen: bool)
    ensures remaining == windows - closed
    ensures anyOpen <==> remaining != map[]
  {
    anyOpen := false;
    ghost var done: set<string> := {};
    remaining := windows;
    var pending := windows.Keys;
    while pending != {}
      invariant pending !! done && pending + done == windows.Keys
      invariant remaining == windows - (done * closed)
      invariant anyOpen <==> done - closed != {}
      decreases |pending|
    {
      var code :| code in pending;
      PruneStep(windows, done, closed, code);
      // the window's close control turns `open` false; the editor's own frame is ParticleEditor.Draw
      var open := code !in closed;
      if open {
        anyOpen := true;
      } else {
        remaining := remaining - {code};
      }
      pending := pending - {code};
      done := done + {code};
    }
    PruneDone(windows, closed);
  }

  /** Visiting one more window: a closed one leaves the registry, an open one stays. */
  lemma PruneStep<V>(windows: map<string, V>, done: set<string>, closed: set<string>, code: string)
    ensures code in closed ==> windows - ((done + {code}) * closed) == (windows - (done * closed)) - {code}
    ensures code !in closed ==> windows - ((done + {code}) * closed) == windows - (done * closed)
    ensures (done + {code}) - closed == if code in closed then done - closed else (done - closed) + {code}
  {
  }

  /** After every window was visited, exactly the closed ones are gone. */
  lemma PruneDone<V>(windows: map<string, V>, closed: set<string>)
    ensures windows - (windows.Keys * closed) == windows - closed
    ensures windows - closed == map[] <==> windows.Keys - closed == {}
  {
    if windows.Keys - closed != {} {
      var c :| c in windows.Keys - closed;
      assert c in windows - closed;
    }
  }
}
