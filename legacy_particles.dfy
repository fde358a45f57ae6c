/**
 * The older particle editor (one window per block, a collapsing header per effect).
 * It keeps a cloned backup of the block's effects, restores them index by index,
 * numbers the non-null effects 1, 2, ... and edits each one in place. Its side table
 * for switched-off evolves belongs to the editor and is keyed by the effect's number.
 */
module LegacyParticles {
  import opened Wrappers
  import opened Engine
  import opened EvolvingEditors
  import Particles

  // ---------------------------------------------------------------------------
  // Numbering the effects
  // ---------------------------------------------------------------------------

  /** The number of non-null entries. */
  function NonNullCount(s: seq<AdvancedParticleProperties?>): (n: nat)
    ensures n <= |s|
    decreases |s|
  {
    if s == [] then 0
    else NonNullCount(s[..|s| - 1]) + (if s[|s| - 1] == null then 0 else 1)
  }

  /** Every entry counts exactly when none is null, and none counts exactly when all are. */
  lemma {:induction false} NonNullCountBounds(s: seq<AdvancedParticleProperties?>)
    ensures NonNullCount(s) == |s| <==> forall i :: 0 <= i < |s| ==> s[i] != null
    ensures NonNullCount(s) == 0 <==> forall i :: 0 <= i < |s| ==> s[i] == null
    decreases |s|
  {
    if s != [] {
      var init := s[..|s| - 1];
      NonNullCountBounds(init);
      assert forall i :: 0 <= i < |init| ==> init[i] == s[i];
    }
  }

  /**
   * The headers ProcessParticleEffects draws, in order: each non-null entry with its
   * number; null entries are skipped without using a number.
   */
  function Numbering(s: seq<AdvancedParticleProperties?>): (r: seq<(int, AdvancedParticleProperties)>)
    ensures |r| == NonNullCount(s)
    ensures forall k :: 0 <= k < |r| ==> r[k].0 == k + 1
    ensures forall k :: 0 <= k < |r| ==> r[k].1 in s
    decreases |s|
  {
    if s == [] then []
    else
      var r := Numbering(s[..|s| - 1]);
      if s[|s| - 1] == null then r else r + [(|r| + 1, s[|s| - 1])]
  }

  /** Every non-null entry gets a header, and the numbers run through 1 .. the number of non-null entries. */
  lemma {:induction false} NumberingCoversEffects(s: seq<AdvancedParticleProperties?>, j: int)
    requires 0 <= j < |s| && s[j] != null
    ensures exists k :: 0 <= k < |Numbering(s)| && Numbering(s)[k].1 == s[j]
    decreases |s|
  {
    var init := s[..|s| - 1];
    if j == |s| - 1 {
      var k := |Numbering(init)|;
      assert Numbering(s)[k].1 == s[j];
    } else {
      assert init[j] == s[j];
      NumberingCoversEffects(init, j);
      var k :| 0 <= k < |Numbering(init)| && Numbering(init)[k].1 == init[j];
      assert Numbering(s)[k] == Numbering(init)[k];
    }
  }

  /** A null entry at the end changes nothing; a non-null one opens the next number. */
  lemma NumberingExtends(s: seq<AdvancedParticleProperties?>, e: AdvancedParticleProperties?)
    ensures e == null ==> Numbering(s + [e]) == Numbering(s)
    ensures e != null ==> Numbering(s + [e]) == Numbering(s) + [(NonNullCount(s) + 1, e)]
  {
    assert (s + [e])[..|s + [e]| - 1] == s;
  }

  /** Whether no header of `e` was expanded in this frame (`e` may sit in the array more than once). */
  predicate NeverOpened(e: AdvancedParticleProperties, shown: seq<(int, AdvancedParticleProperties)>, frames: map<int, EffectFrame>)
  {
    forall m :: 0 <= m < |shown| && shown[m].1 == e ==> shown[m].0 !in frames
  }

  /** One more header: an effect stays never-opened if it was and the new header is not an expanded one of it. */
  lemma NeverOpenedExtends(x: AdvancedParticleProperties, shown: seq<(int, AdvancedParticleProperties)>,
                           id: int, e: AdvancedParticleProperties, frames: map<int, EffectFrame>)
    ensures NeverOpened(x, shown + [(id, e)], frames) <==> NeverOpened(x, shown, frames) && (x == e ==> id !in frames)
  {
    var s := shown + [(id, e)];
    assert forall m :: 0 <= m < |shown| ==> s[m] == shown[m];
    assert s[|shown|] == (id, e);
  }

  // ---------------------------------------------------------------------------
  // One frame's input to one effect: a `None` header is collapsed
  // ---------------------------------------------------------------------------

  /** The colour header: the colour-by-block checkbox, the picker and the variance fields. */
  datatype ColourInputs = ColourInputs(colorByBlockClicked: bool, colour: Option<Hsva>, variance: Option<Hsva>)

  /** The colour-evolve header: four nullable evolves. */
  datatype ColourEvolveInputs = ColourEvolveInputs(opacity: NullableInput, red: NullableInput, green: NullableInput, blue: NullableInput)

  /** The velocity header: the add button (shown while null), the three axis editors and the remove button. */
  datatype VelocityInputs = VelocityInputs(addPressed: bool, edits: Particles.VelocityEdits, removePressed: bool)

  datatype EffectFrame = EffectFrame(
    colour: Option<ColourInputs>,
    colourEvolve: Option<ColourEvolveInputs>,
    size: Option<NullableInput>,
    velocity: Option<VelocityInputs>,
    flags: Option<Particles.FlagsFrame>)

  const AllCollapsed: EffectFrame := EffectFrame(None, None, None, None, None)

  /** An effect's record and the editor's side table after some editing. */
  datatype EffectResult = EffectResult(payload: Payload, slots: map<int, EvolvingNatFloat>)

  // ---------------------------------------------------------------------------
  // What each header does to the record
  // ---------------------------------------------------------------------------

  /** ColorEditor: the checkbox flips ColorByBlock; the picker and the variance fields overwrite. */
  function ColourEdit(q: Payload, c: Option<ColourInputs>): (r: Payload)
    ensures c.None? ==> r == q
    ensures c.Some? ==> r.colorByBlock == (q.colorByBlock != c.value.colorByBlockClicked)
    ensures c.Some? && c.value.colour.Some? ==> r.hsvaColor == c.value.colour.value
    ensures c.Some? && c.value.variance.Some? ==> r.hsvaVariance == c.value.variance.value
    ensures r.(colorByBlock := q.colorByBlock, hsvaColor := q.hsvaColor, hsvaVariance := q.hsvaVariance) == q
  {
    if c.None? then q
    else
      var i := c.value;
      q.(colorByBlock := q.colorByBlock != i.colorByBlockClicked,
         hsvaColor := if i.colour.Some? then i.colour.value else q.hsvaColor,
         hsvaVariance := if i.variance.Some? then i.variance.value else q.hsvaVariance)
  }

  /** ColorEvolveEditor: the four nullable editors in order, all under the effect's number. */
  function ColourEvolveEdit(slots: map<int, EvolvingNatFloat>, id: int, q: Payload, c: Option<ColourEvolveInputs>): (r: EffectResult)
    ensures c.None? ==> r == EffectResult(q, slots)
    ensures r.payload.(opacityEvolve := q.opacityEvolve, redEvolve := q.redEvolve,
                       greenEvolve := q.greenEvolve, blueEvolve := q.blueEvolve) == q
  {
    if c.None? then EffectResult(q, slots)
    else
      var o := NullableStep(slots, id, q.opacityEvolve, c.value.opacity);
      var r := NullableStep(o.slots, id, q.redEvolve, c.value.red);
      var g := NullableStep(r.slots, id, q.greenEvolve, c.value.green);
      var b := NullableStep(g.slots, id, q.blueEvolve, c.value.blue);
      EffectResult(q.(opacityEvolve := o.value, redEvolve := r.value, greenEvolve := g.value, blueEvolve := b.value), b.slots)
  }

  /** SizeEditor: the nullable size evolve under the effect's number. */
  function SizeEdit(slots: map<int, EvolvingNatFloat>, id: int, q: Payload, c: Option<NullableInput>): (r: EffectResult)
    ensures c.None? ==> r == EffectResult(q, slots)
    ensures r.payload.(sizeEvolve := q.sizeEvolve) == q
  {
    if c.None? then EffectResult(q, slots)
    else
      var s := NullableStep(slots, id, q.sizeEvolve, c.value);
      EffectResult(q.(sizeEvolve := s.value), s.slots)
  }

  /**
   * VelocityEditor: "Add" (offered only while there is no velocity evolve) creates three
   * default entries; the three axis editors run while there is one; "Remove" (offered
   * only while there is one) sets it back to null. Nothing is remembered.
   */
  function VelocityEdit(v: Option<Axes<EvolvingNatFloat>>, c: VelocityInputs): (r: Option<Axes<EvolvingNatFloat>>)
    ensures r.Some? <==> (v.Some? || c.addPressed) && !c.removePressed
    ensures r.Some? && v.Some? ==> r.value == Particles.EditAxes(v.value, c.edits)
    ensures r.Some? && v.None? ==> r.value == Particles.EditAxes(DefaultVelocityEvolve, c.edits)
  {
    var added := if v == None && c.addPressed then Some(DefaultVelocityEvolve) else v;
    var edited := if added.Some? then Some(Particles.EditAxes(added.value, c.edits)) else added;
    if edited.Some? && c.removePressed then None else edited
  }

  /** FlagsEditor: the vertex flags rebuilt from the widgets, the normal clamped to a short. */
  function FlagsEdit(q: Payload, c: Option<Particles.FlagsFrame>): (r: Payload)
    ensures c.None? ==> r == q
    ensures c.Some? ==> r.vertexFlags == Particles.EditedFlags(c.value) && ShortMin <= r.vertexFlags.normal <= ShortMax
    ensures r.(vertexFlags := q.vertexFlags) == q
  {
    if c.None? then q else q.(vertexFlags := Particles.EditedFlags(c.value))
  }

  /** ShowParticleEffectGui: the headers in the order the source draws them. */
  function EffectStep(slots: map<int, EvolvingNatFloat>, id: int, q: Payload, f: EffectFrame): (r: EffectResult)
  {
    var q1 := ColourEdit(q, f.colour);
    var ce := ColourEvolveEdit(slots, id, q1, f.colourEvolve);
    var se := SizeEdit(ce.slots, id, ce.payload, f.size);
    var q2 := se.payload.(velocityEvolve := if f.velocity.Some? then VelocityEdit(se.payload.velocityEvolve, f.velocity.value) else se.payload.velocityEvolve);
    EffectResult(FlagsEdit(q2, f.flags), se.slots)
  }

  /** With every header collapsed, an effect's record and the side table stay as they are. */
  lemma CollapsedEffectUnchanged(slots: map<int, EvolvingNatFloat>, id: int, q: Payload)
    ensures EffectStep(slots, id, q, AllCollapsed) == EffectResult(q, slots)
  {
  }

  /** Editing effect number `id` touches only the side table's entry under `id`. */
  lemma EffectStepKeepsOtherSlots(slots: map<int, EvolvingNatFloat>, id: int, q: Payload, f: EffectFrame, k: int)
    requires k != id
    ensures var r := EffectStep(slots, id, q, f);
            (k in r.slots <==> k in slots) && (k in slots ==> r.slots[k] == slots[k])
  {
  }

  /** "Add" on a record without velocity evolve creates the three defaults; "Remove" takes them away again. */
  lemma VelocityAddRemove(e: Particles.VelocityEdits)
    ensures VelocityEdit(None, VelocityInputs(true, Particles.NoVelocityEdits, false)) == Some(DefaultVelocityEvolve)
    ensures VelocityEdit(VelocityEdit(None, VelocityInputs(true, e, false)), VelocityInputs(false, Particles.NoVelocityEdits, true)) == None
  {
  }

  /**
   * Unlike the newer editor's checkbox, removing forgets the value: removing a velocity
   * evolve and adding one back yields the defaults, whatever was there before.
   */
  lemma VelocityRemoveForgets(v: Axes<EvolvingNatFloat>)
    ensures var removed := VelocityEdit(Some(v), VelocityInputs(false, Particles.NoVelocityEdits, true));
            removed == None
            && VelocityEdit(removed, VelocityInputs(true, Particles.NoVelocityEdits, false)) == Some(DefaultVelocityEvolve)
  {
  }

  /** The effects of a block, as the set of objects the editor may change. */
  function EffectObjects(b: Block): set<AdvancedParticleProperties>
    reads b, b.particleProperties
  {
    set e: AdvancedParticleProperties | e in Effects(b)
  }

  /** The older editor clones every effect without a check: a block needs an array of non-null effects. */
  predicate Editable(b: Block?)
    reads b, if b != null then {b.particleProperties} else {}
  {
    b != null ==>
      b.particleProperties != null
      && forall i :: 0 <= i < b.particleProperties.Length ==> b.particleProperties[i] != null
  }

  /** The foreach of the constructor: a fresh clone of every entry, in order. */
  method CloneEffects(a: array<AdvancedParticleProperties?>) returns (clones: seq<AdvancedParticleProperties>)
    requires forall i :: 0 <= i < a.Length ==> a[i] != null
    ensures |clones| == a.Length
    ensures forall i :: 0 <= i < a.Length ==> fresh(clones[i]) && clones[i].payload == a[i].payload
  {
    clones := [];
    var i := 0;
    while i < a.Length
      invariant 0 <= i <= a.Length && |clones| == i
      invariant forall j :: 0 <= j < i ==> fresh(clones[j]) && clones[j].payload == a[j].payload
    {
      var c := a[i].Clone();
      clones := clones + [c];
      i := i + 1;
    }
  }

  class ParticleEditor {
    const selectedBlock: Block?
    const backup: seq<AdvancedParticleProperties>
    /** The side table of switched-off evolves, keyed by effect number. */
    var prevValues: map<int, EvolvingNatFloat>

    /**
     * Clones every effect of the block into the backup. The source enumerates the
     * array and clones each entry without a null check, so a block needs an array
     * of non-null effects; without a block the backup is empty.
     */
    constructor (block: Block?)
      requires Editable(block)
      ensures selectedBlock == block && prevValues == map[]
      ensures block == null ==> backup == []
      ensures block != null ==> |backup| == block.particleProperties.Length
      ensures block != null ==>
                forall i :: 0 <= i < |backup| ==>
                  fresh(backup[i]) && backup[i].payload == block.particleProperties[i].payload
    {
      var clones: seq<AdvancedParticleProperties> := [];
      if block != null {
        clones := CloneEffects(block.particleProperties);
      }
      selectedBlock := block;
      backup := clones;
      prevValues := map[];
    }

    /**
     * The constructor as evidently intended: a block whose array is null gets an
     * empty backup, as ProcessParticleEffects already treats a null array as no effects.
     */
    constructor Guarded(block: Block?)
      requires block != null && block.particleProperties != null ==>
                 forall i :: 0 <= i < block.particleProperties.Length ==> block.particleProperties[i] != null
      ensures selectedBlock == block && prevValues == map[]
      ensures block == null || block.particleProperties == null ==> backup == []
      ensures block != null && block.particleProperties != null ==>
                && |backup| == block.particleProperties.Length
                && forall i :: 0 <= i < |backup| ==>
                     fresh(backup[i]) && backup[i].payload == block.particleProperties[i].payload
    {
      var clones: seq<AdvancedParticleProperties> := [];
      if block != null && block.particleProperties != null {
        clones := CloneEffects(block.particleProperties);
      }
      selectedBlock := block;
      backup := clones;
      prevValues := map[];
    }

    /**
     * One frame of the window: the restore button, then the effects. Without a block
     * nothing is drawn and nothing changes. Restoring writes index by index, so a
     * non-empty backup needs the block's array to be at least as long.
     */
    method RenderWindow(restorePressed: bool, frames: map<int, EffectFrame>)
      requires selectedBlock != null && restorePressed && |backup| > 0 ==>
                 selectedBlock.particleProperties != null && selectedBlock.particleProperties.Length >= |backup|
      modifies this`prevValues
      modifies if selectedBlock != null then {selectedBlock.particleProperties} else {}
      modifies if selectedBlock != null then EffectObjects(selectedBlock) else {}
      ensures selectedBlock == null ==> prevValues == old(prevValues)
      ensures selectedBlock != null ==>
                forall k :: !(k in frames && 1 <= k <= NonNullCount(Effects(selectedBlock))) ==>
                  (k in prevValues <==> k in old(prevValues)) && (k in prevValues ==> prevValues[k] == old(prevValues)[k])
    {
      if selectedBlock != null {
        RestoreFromBackup(restorePressed);
        var shown := ProcessParticleEffects(selectedBlock, frames);
      }
    }

    /** "Restore to defaults": a fresh clone of each backup entry at its index; later indices are untouched. */
    method RestoreFromBackup(pressed: bool)
      requires selectedBlock != null
      requires pressed && |backup| > 0 ==>
                 selectedBlock.particleProperties != null && selectedBlock.particleProperties.Length >= |backup|
      modifies selectedBlock.particleProperties
      ensures !pressed || |backup| == 0 ==> selectedBlock.particleProperties == null || unchanged(selectedBlock.particleProperties)
      ensures pressed && |backup| > 0 ==>
                var a := selectedBlock.particleProperties;
                forall i :: 0 <= i < a.Length ==>
                  if i < |backup| then a[i] != null && fresh(a[i]) && a[i].payload == backup[i].payload
                  else a[i] == old(a[i])
    {
      if pressed && |backup| > 0 {
        var a := selectedBlock.particleProperties;
        var index := 0;
        while index < |backup|
          invariant 0 <= index <= |backup|
          invariant forall i :: 0 <= i < a.Length ==>
                      if i < index then a[i] != null && fresh(a[i]) && a[i].payload == backup[i].payload
                      else a[i] == old(a[i])
        {
          var c := backup[index].Clone();
          a[index] := c;
          index := index + 1;
        }
      }
    }

    /**
     * Numbers the non-null effects 1, 2, ... and runs the editor of each one whose
     * header is expanded (`frames` holds the expanded numbers). Returns the headers
     * drawn. An effect none of whose headers was expanded keeps its record, and the
     * side table changes only under expanded numbers.
     */
    method ProcessParticleEffects(block: Block, frames: map<int, EffectFrame>) returns (shown: seq<(int, AdvancedParticleProperties)>)
      modifies this`prevValues, EffectObjects(block)
      ensures shown == Numbering(Effects(block))
      ensures forall j :: 0 <= j < |Effects(block)| && Effects(block)[j] != null && NeverOpened(Effects(block)[j], shown, frames) ==>
                Effects(block)[j].payload == old(Effects(block)[j].payload)
      ensures forall k :: !(k in frames && 1 <= k <= |shown|) ==>
                (k in prevValues <==> k in old(prevValues)) && (k in prevValues ==> prevValues[k] == old(prevValues)[k])
    {
      shown := [];
      if block.particleProperties == null {
        return;
      }
      shown := NumberEffects(block.particleProperties, frames, EffectObjects(block));
    }

    /** The loop of ProcessParticleEffects over the block's array `a`, whose effects lie in `objs`. */
    method NumberEffects(a: array<AdvancedParticleProperties?>, frames: map<int, EffectFrame>, ghost objs: set<AdvancedParticleProperties>)
      returns (shown: seq<(int, AdvancedParticleProperties)>)
      requires forall j :: 0 <= j < a.Length && a[j] != null ==> a[j] in objs
      modifies this`prevValues, objs
      ensures shown == Numbering(a[..])
      ensures forall j :: 0 <= j < a.Length && a[j] != null && NeverOpened(a[j], shown, frames) ==>
                a[j].payload == old(a[j].payload)
      ensures forall k :: !(k in frames && 1 <= k <= |shown|) ==>
                (k in prevValues <==> k in old(prevValues)) && (k in prevValues ==> prevValues[k] == old(prevValues)[k])
    {
      shown := [];
      var id := 0;
      var i := 0;
      while i < a.Length
        invariant 0 <= i <= a.Length
        invariant shown == Numbering(a[..i]) && id == |shown|
        invariant forall j :: 0 <= j < a.Length && a[j] != null && NeverOpened(a[j], shown, frames) ==>
                    a[j].payload == old(a[j].payload)
        invariant forall k :: !(k in frames && 1 <= k <= id) ==>
                    (k in prevValues <==> k in old(prevValues)) && (k in prevValues ==> prevValues[k] == old(prevValues)[k])
      {
        var e := a[i];
        assert a[..i + 1] == a[..i] + [e];
        NumberingExtends(a[..i], e);
        if e != null {
          id := id + 1;
          ShowNumbered(a, i, id, shown, frames);
          shown := shown + [(id, e)];
        }
        i := i + 1;
      }
      assert a[..i] == a[..];
    }

    /**
     * The header of entry `i` under number `id`, run when that number is expanded. An
     * effect that stays never-opened with this header added keeps its record, and the
     * side table changes only under an expanded `id`.
     */
    method ShowNumbered(a: array<AdvancedParticleProperties?>, i: int, id: int,
                        ghost shown: seq<(int, AdvancedParticleProperties)>, frames: map<int, EffectFrame>)
      requires 0 <= i < a.Length && a[i] != null
      modifies this`prevValues, a[i]
      ensures forall j :: 0 <= j < a.Length && a[j] != null && NeverOpened(a[j], shown + [(id, a[i])], frames) ==>
                NeverOpened(a[j], shown, frames) && a[j].payload == old(a[j].payload)
      ensures forall k :: !(k in frames && k == id) ==>
                (k in prevValues <==> k in old(prevValues)) && (k in prevValues ==> prevValues[k] == old(prevValues)[k])
    {
      if id in frames {
        ShowParticleEffectGui(id, a[i], frames[id]);
      }
      forall j | 0 <= j < a.Length && a[j] != null && NeverOpened(a[j], shown + [(id, a[i])], frames)
        ensures NeverOpened(a[j], shown, frames) && a[j].payload == old(a[j].payload)
      {
        NeverOpenedExtends(a[j], shown, id, a[i], frames);
      }
    }

    /** The headers of one effect, in the source's order; the record's other fields are left out. */
    method ShowParticleEffectGui(id: int, p: AdvancedParticleProperties, f: EffectFrame)
      modifies this`prevValues, p
      ensures EffectResult(p.payload, prevValues) == EffectStep(old(prevValues), id, old(p.payload), f)
      ensures forall k :: k != id ==> (k in prevValues <==> k in old(prevValues)) && (k in prevValues ==> prevValues[k] == old(prevValues)[k])
    {
      ghost var slots := prevValues;
      ColorEditor(p, f.colour);
      ColorEvolveEditor(id, p, f.colourEvolve);
      SizeEditor(id, p, f.size);
      VelocityEditor(p, f.velocity);
      FlagsEditor(p, f.flags);
      forall k | k != id
        ensures (k in prevValues <==> k in slots) && (k in prevValues ==> prevValues[k] == slots[k])
      {
        EffectStepKeepsOtherSlots(slots, id, old(p.payload), f, k);
      }
    }

    method ColorEditor(p: AdvancedParticleProperties, c: Option<ColourInputs>)
      modifies p
      ensures p.payload == ColourEdit(old(p.payload), c)
    {
      if c.None? {
        return;
      }
      var colorByBlock := p.payload.colorByBlock;
      if c.value.colorByBlockClicked {
        colorByBlock := !colorByBlock;
      }
      var colour := if c.value.colour.Some? then c.value.colour.value else p.payload.hsvaColor;
      var variance := if c.value.variance.Some? then c.value.variance.value else p.payload.hsvaVariance;
      p.payload := p.payload.(hsvaColor := colour, hsvaVariance := variance, colorByBlock := colorByBlock);
    }

    method ColorEvolveEditor(id: int, p: AdvancedParticleProperties, c: Option<ColourEvolveInputs>)
      modifies this`prevValues, p
      ensures EffectResult(p.payload, prevValues) == ColourEvolveEdit(old(prevValues), id, old(p.payload), c)
    {
      if c.None? {
        return;
      }
      var opacity := EvolvingNatFloatEditorNullable(id, "Opacity", p.payload.opacityEvolve, c.value.opacity);
      p.payload := p.payload.(opacityEvolve := opacity);
      var red := EvolvingNatFloatEditorNullable(id, "Red", p.payload.redEvolve, c.value.red);
      p.payload := p.payload.(redEvolve := red);
      var green := EvolvingNatFloatEditorNullable(id, "Green", p.payload.greenEvolve, c.value.green);
      p.payload := p.payload.(greenEvolve := green);
      var blue := EvolvingNatFloatEditorNullable(id, "Blue", p.payload.blueEvolve, c.value.blue);
      p.payload := p.payload.(blueEvolve := blue);
    }

    method SizeEditor(id: int, p: AdvancedParticleProperties, c: Option<NullableInput>)
      modifies this`prevValues, p
      ensures EffectResult(p.payload, prevValues) == SizeEdit(old(prevValues), id, old(p.payload), c)
    {
      if c.None? {
        return;
      }
      var sizeEvolve := EvolvingNatFloatEditorNullable(id, "Size evolve", p.payload.sizeEvolve, c.value);
      p.payload := p.payload.(sizeEvolve := sizeEvolve);
    }

    method VelocityEditor(p: AdvancedParticleProperties, c: Option<VelocityInputs>)
      modifies p
      ensures c.None? ==> p.payload == old(p.payload)
      ensures c.Some? ==> p.payload == old(p.payload).(velocityEvolve := VelocityEdit(old(p.payload.velocityEvolve), c.value))
    {
      if c.None? {
        return;
      }
      if p.payload.velocityEvolve == None && c.value.addPressed {
        p.payload := p.payload.(velocityEvolve := Some(DefaultVelocityEvolve));
      }
      if p.payload.velocityEvolve.Some? {
        var edited := Particles.EditAxes(p.payload.velocityEvolve.value, c.value.edits);
        p.payload := p.payload.(velocityEvolve := Some(edited));
      }
      if p.payload.velocityEvolve.Some? && c.value.removePressed {
        p.payload := p.payload.(velocityEvolve := None);
      }
    }

    method FlagsEditor(p: AdvancedParticleProperties, c: Option<Particles.FlagsFrame>)
      modifies p
      ensures p.payload == FlagsEdit(old(p.payload), c)
    {
      if c.None? {
        return;
      }
      var f := c.value;
      var flags := VertexFlags(ToByte(f.glowLevel), f.reflective, ToByte(f.zOffset), f.lod0, f.windMode,
                               ToByte(f.windData), ClampToShort(f.normal));
      p.payload := p.payload.(vertexFlags := flags);
    }

    /** The nullable evolve editor, with this editor's side table. */
    method EvolvingNatFloatEditorNullable(id: int, fieldName: string, value: Option<EvolvingNatFloat>, input: NullableInput)
      returns (value': Option<EvolvingNatFloat>)
      modifies this`prevValues
      ensures NullableResult(value', prevValues) == NullableStep(old(prevValues), id, value, input)
    {
      var enabled := value.Some?;
      if input.toggled {
        enabled := !enabled;
      }
      if !enabled {
        if value.Some? {
          prevValues := prevValues[id := value.value];
        }
        value' := None;
        return;
      }
      var current: EvolvingNatFloat;
      if value.Some? {
        current := value.value;
      } else if id in prevValues {
        current := prevValues[id];
      } else {
        current := LinearZero;
      }
      value' := Some(ApplyEdit(current, input.edit));
    }
  }
}
