/**
 * The newer particle editor: a list of per-effect editors kept in step with the
 * block's ParticleProperties array, a selected index, and the per-effect editor
 * with its restore, export/import and optional-field toggles.
 */
module Particles {
  import opened Wrappers
  import opened Engine
  import Widgets
  import opened EvolvingEditors

  // ---------------------------------------------------------------------------
  // Velocity-evolve toggle
  // ---------------------------------------------------------------------------

  /** One per-axis edit for each of the three velocity-evolve widgets. */
  datatype VelocityEdits = VelocityEdits(x: EvolveEdit, y: EvolveEdit, z: EvolveEdit)

  const NoVelocityEdits: VelocityEdits := VelocityEdits(NoEdit, NoEdit, NoEdit)

  /** The three axis editors: each axis takes its own widget's edits and no other's. */
  function EditAxes(v: Axes<EvolvingNatFloat>, e: VelocityEdits): (r: Axes<EvolvingNatFloat>)
    ensures e == NoVelocityEdits ==> r == v
    ensures e.x == NoEdit ==> r.x == v.x
    ensures e.y == NoEdit ==> r.y == v.y
    ensures e.z == NoEdit ==> r.z == v.z
  {
    Axes(ApplyEdit(v.x, e.x), ApplyEdit(v.y, e.y), ApplyEdit(v.z, e.z))
  }

  /** The widgets report absolute values: the same edits applied again change nothing. */
  lemma EditAxesIdempotent(v: Axes<EvolvingNatFloat>, e: VelocityEdits)
    ensures EditAxes(EditAxes(v, e), e) == EditAxes(v, e)
  {
  }

  /** The checkbox, the stashed value and the record's VelocityEvolve field. */
  datatype VelocityState = VelocityState(
    checked: bool, stash: Option<Axes<EvolvingNatFloat>>, field: Option<Axes<EvolvingNatFloat>>)

  /**
   * One frame of the velocity-evolve toggle. Unchecked: a non-null field is stashed if
   * the stash is empty, and the field becomes null. Checked with a null field: the
   * stash (or three default entries) goes back into the field and the stash is
   * emptied. A non-null field is then edited per axis.
   */
  function VelocityFrame(s: VelocityState, toggled: bool, e: VelocityEdits): (r: VelocityState)
    ensures r.checked == (s.checked != toggled)
    ensures !r.checked ==> r.field == None
    ensures !r.checked ==> r.stash == (if s.stash == None then s.field else s.stash)
    ensures r.checked ==> r.field.Some?
    ensures r.checked && s.field == None ==> r.stash == None
    ensures r.checked && s.field.Some? ==> r.stash == s.stash && r.field == Some(EditAxes(s.field.value, e))
    ensures r.checked && s.field == None ==>
              r.field == Some(EditAxes(if s.stash.Some? then s.stash.value else DefaultVelocityEvolve, e))
  {
    var checked := s.checked != toggled;
    if !checked then
      VelocityState(false, if s.stash == None && s.field.Some? then s.field else s.stash, None)
    else if s.field == None then
      VelocityState(true, None, Some(EditAxes(if s.stash.Some? then s.stash.value else DefaultVelocityEvolve, e)))
    else
      VelocityState(true, s.stash, Some(EditAxes(s.field.value, e)))
  }

  /** Frames with the box left unticked keep the stash and keep the field null. */
  function IdleUnchecked(s: VelocityState, n: nat): (r: VelocityState)
    decreases n
  {
    if n == 0 then s else IdleUnchecked(VelocityFrame(s, false, NoVelocityEdits), n - 1)
  }

  lemma {:induction false} IdleUncheckedKeepsStash(s: VelocityState, n: nat)
    requires !s.checked && s.field == None
    ensures IdleUnchecked(s, n) == s
    decreases n
  {
    if n > 0 {
      assert VelocityFrame(s, false, NoVelocityEdits) == s;
      IdleUncheckedKeepsStash(s, n - 1);
    }
  }

  /**
   * Unchecking and later re-checking the box, with any number of unticked frames in
   * between, gives the field back exactly the value it had; the stash ends empty.
   */
  lemma VelocityToggleRoundTrip(v: Axes<EvolvingNatFloat>, offEdits: VelocityEdits, n: nat)
    ensures var off := VelocityFrame(VelocityState(true, None, Some(v)), true, offEdits);
            var on := VelocityFrame(IdleUnchecked(off, n), true, NoVelocityEdits);
            off.field == None && on == VelocityState(true, None, Some(v))
  {
    var off := VelocityFrame(VelocityState(true, None, Some(v)), true, offEdits);
    IdleUncheckedKeepsStash(off, n);
  }

  /**
   * The checkbox starts unchecked, so the first frame that shows the velocity tab
   * moves a record's velocity evolve into the stash and leaves the record without it.
   */
  lemma FirstFrameStashes(v: Axes<EvolvingNatFloat>, e: VelocityEdits)
    ensures VelocityFrame(VelocityState(false, None, Some(v)), false, e) == VelocityState(false, Some(v), None)
  {
  }

  // ---------------------------------------------------------------------------
  // The per-effect editor
  // ---------------------------------------------------------------------------

  /** The failure reported when the edited JSON cannot be turned back into a record. */
  datatype ParseError = ParseError(message: string, stackTrace: string)

  /** Inputs of the export popup in one frame. */
  datatype ExportFrame = ExportFrame(
    modalShown: bool,               // BeginPopupModal returned true
    keepOpen: bool,                 // the modal's close control was not used
    radio: Option<int>,             // a radio button picked 0 (JSON) or 1 (C#)
    apply: bool,                    // "Apply" pressed
    parsed: Result<Payload, ParseError>)  // what parsing the edited text produces

  /** The colour tab's inputs. */
  datatype ColoursFrame = ColoursFrame(
    colorByBlockClicked: bool, colour: Option<Hsva>, variance: Option<Hsva>,
    opacity: NullableInput, red: NullableInput, green: NullableInput, blue: NullableInput)

  /** The values the vertex-flag widgets hold after the user's edits. */
  datatype FlagsFrame = FlagsFrame(
    glowLevel: int, reflective: bool, zOffset: int, lod0: bool, windMode: int, windData: int, normal: int)

  datatype Tab = NoTab | ColoursTab | BehaviorTab | FlagsTab

  /** Everything the GUI reports to one ParticlePropertiesEditor.Draw call. */
  datatype PropertiesFrame = PropertiesFrame(
    restore: Widgets.Presses, exportPressed: bool, popup: ExportFrame, tab: Tab,
    colours: ColoursFrame, velocityToggled: bool, velocityEdits: VelocityEdits,
    sizeEvolve: NullableInput, flags: FlagsFrame)

  /** Vertex flags as written back: byte casts for the sliders, the normal clamped to a short. */
  function EditedFlags(f: FlagsFrame): (r: VertexFlags)
    ensures 0 <= r.glowLevel < 256 && 0 <= r.zOffset < 256 && 0 <= r.windData < 256
    ensures ShortMin <= r.normal <= ShortMax
    ensures ShortMin <= f.normal <= ShortMax ==> r.normal == f.normal
    ensures r.reflective == f.reflective && r.lod0 == f.lod0 && r.windMode == f.windMode
  {
    VertexFlags(ToByte(f.glowLevel), f.reflective, ToByte(f.zOffset), f.lod0, f.windMode,
                ToByte(f.windData), ClampToShort(f.normal))
  }

  // ---------------------------------------------------------------------------
  // One frame of a per-effect editor, on values
  // ---------------------------------------------------------------------------

  /** What the export popup keeps between frames: open or not, the chosen format, the last error. */
  datatype ExportState = ExportState(isOpen: bool, option: int, exception: bool, message: string)

  /** The text shown for a failed parse of the edited JSON. */
  function ErrorMessage(e: ParseError): string
  {
    "Error: " + e.message + "\n\nStack trace: " + e.stackTrace
  }

  /** Apply takes effect: the popup is open and shown, the JSON format is chosen, Apply is pressed. */
  predicate ExportApplies(s: ExportState, open: bool, f: ExportFrame)
  {
    && (s.isOpen || open) && f.modalShown
    && (if f.radio.Some? then f.radio.value else s.option) == 0
    && f.apply
  }

  /**
   * One frame of the export popup: opened by the button and kept open until its close
   * control is used; a radio pick counts only while the modal shows; an Apply reports a
   * parse failure, or clears the error flag and keeps the old text.
   */
  function ExportStep(s: ExportState, open: bool, f: ExportFrame): (r: ExportState)
    ensures r.isOpen == ((s.isOpen || open) && f.keepOpen)
    ensures r.option == (if (s.isOpen || open) && f.modalShown && f.radio.Some? then f.radio.value else s.option)
    ensures ExportApplies(s, open, f) && f.parsed.Failure? ==>
              r.exception && r.message == ErrorMessage(f.parsed.error)
    ensures ExportApplies(s, open, f) && f.parsed.Success? ==> !r.exception && r.message == s.message
    ensures !ExportApplies(s, open, f) ==> r.exception == s.exception && r.message == s.message
  {
    if !(s.isOpen || open) then s
    else
      var option := if f.modalShown && f.radio.Some? then f.radio.value else s.option;
      var applies := f.modalShown && option == 0 && f.apply;
      ExportState(
        f.keepOpen, option,
        if applies then f.parsed.Failure? else s.exception,
        if applies && f.parsed.Failure? then ErrorMessage(f.parsed.error) else s.message)
  }

  /**
   * The record after the control row: the backup on a confirmed Restore, then the
   * parsed JSON when Apply takes effect; the export row is hidden while Restore
   * awaits confirmation.
   */
  function ControlledPayload(
    p: Payload, backup: Payload, o: Widgets.Outcome, e: ExportState, open: bool, f: ExportFrame): (r: Payload)
    ensures r != p ==> o.chosen || (!o.confirming && ExportApplies(e, open, f) && f.parsed.Success?)
    ensures !o.confirming && ExportApplies(e, open, f) && f.parsed.Success? ==> r == f.parsed.value
    ensures o.chosen && !(!o.confirming && ExportApplies(e, open, f) && f.parsed.Success?) ==> r == backup
  {
    if !o.confirming && ExportApplies(e, open, f) && f.parsed.Success? then f.parsed.value
    else if o.chosen then backup
    else p
  }

  /**
   * What the tabs read and write: the record, the shared side table of nullable
   * editors, the modified flag, and the velocity checkbox with its stash.
   */
  datatype TabState = TabState(
    payload: Payload, slots: map<int, EvolvingNatFloat>, modified: bool,
    checked: bool, stash: Option<Axes<EvolvingNatFloat>>)

  /** A nullable field's editor holds a value before or after the frame; the reference test then reports a change. */
  predicate EvolveShown(v: Option<EvolvingNatFloat>, input: NullableInput)
  {
    v.Some? || input.toggled
  }

  /** The colour tab reports a modification of this record. */
  predicate ColoursChange(p: Payload, f: ColoursFrame)
  {
    || f.colorByBlockClicked
    || (f.colour.Some? && f.colour.value != p.hsvaColor)
    || (f.variance.Some? && f.variance.value != p.hsvaVariance)
    || EvolveShown(p.opacityEvolve, f.opacity) || EvolveShown(p.redEvolve, f.red)
    || EvolveShown(p.greenEvolve, f.green) || EvolveShown(p.blueEvolve, f.blue)
  }

  /** The side table keeps every other id's slot, and gains no id but this one. */
  predicate SlotsElsewhereKept(before: map<int, EvolvingNatFloat>, after: map<int, EvolvingNatFloat>, id: int)
  {
    && after.Keys <= before.Keys + {id}
    && forall k :: k in before && k != id ==> k in after && after[k] == before[k]
  }

  /** The opacity and red evolves under one id. */
  function OpacityRedStep(s: TabState, id: int, f: ColoursFrame): (r: TabState)
    ensures r.modified == (s.modified || EvolveShown(s.payload.opacityEvolve, f.opacity) || EvolveShown(s.payload.redEvolve, f.red))
    ensures r.payload.opacityEvolve.Some? <==> (s.payload.opacityEvolve.Some? != f.opacity.toggled)
    ensures r.payload.redEvolve.Some? <==> (s.payload.redEvolve.Some? != f.red.toggled)
    ensures r.payload == s.payload.(opacityEvolve := r.payload.opacityEvolve, redEvolve := r.payload.redEvolve)
    ensures r.checked == s.checked && r.stash == s.stash
    ensures SlotsElsewhereKept(s.slots, r.slots, id)
  {
    var p := s.payload;
    var o := NullableStep(s.slots, id, p.opacityEvolve, f.opacity);
    var red := NullableStep(o.slots, id, p.redEvolve, f.red);
    TabState(
      p.(opacityEvolve := o.value, redEvolve := red.value), red.slots,
      s.modified || p.opacityEvolve.Some? || o.value.Some? || p.redEvolve.Some? || red.value.Some?,
      s.checked, s.stash)
  }

  /** The green and blue evolves under one id. */
  function GreenBlueStep(s: TabState, id: int, f: ColoursFrame): (r: TabState)
    ensures r.modified == (s.modified || EvolveShown(s.payload.greenEvolve, f.green) || EvolveShown(s.payload.blueEvolve, f.blue))
    ensures r.payload.greenEvolve.Some? <==> (s.payload.greenEvolve.Some? != f.green.toggled)
    ensures r.payload.blueEvolve.Some? <==> (s.payload.blueEvolve.Some? != f.blue.toggled)
    ensures r.payload == s.payload.(greenEvolve := r.payload.greenEvolve, blueEvolve := r.payload.blueEvolve)
    ensures r.checked == s.checked && r.stash == s.stash
    ensures SlotsElsewhereKept(s.slots, r.slots, id)
  {
    var p := s.payload;
    var g := NullableStep(s.slots, id, p.greenEvolve, f.green);
    var b := NullableStep(g.slots, id, p.blueEvolve, f.blue);
    TabState(
      p.(greenEvolve := g.value, blueEvolve := b.value), b.slots,
      s.modified || p.greenEvolve.Some? || g.value.Some? || p.blueEvolve.Some? || b.value.Some?,
      s.checked, s.stash)
  }

  /** The four optional colour evolves, in order, under one id. */
  function ColourEvolveStep(s: TabState, id: int, f: ColoursFrame): (r: TabState)
    ensures r.modified == (|| s.modified
                           || EvolveShown(s.payload.opacityEvolve, f.opacity) || EvolveShown(s.payload.redEvolve, f.red)
                           || EvolveShown(s.payload.greenEvolve, f.green) || EvolveShown(s.payload.blueEvolve, f.blue))
    ensures r.payload.opacityEvolve.Some? <==> (s.payload.opacityEvolve.Some? != f.opacity.toggled)
    ensures r.payload.redEvolve.Some? <==> (s.payload.redEvolve.Some? != f.red.toggled)
    ensures r.payload.greenEvolve.Some? <==> (s.payload.greenEvolve.Some? != f.green.toggled)
    ensures r.payload.blueEvolve.Some? <==> (s.payload.blueEvolve.Some? != f.blue.toggled)
    ensures r.payload == s.payload.(opacityEvolve := r.payload.opacityEvolve, redEvolve := r.payload.redEvolve,
                                    greenEvolve := r.payload.greenEvolve, blueEvolve := r.payload.blueEvolve)
    ensures r.checked == s.checked && r.stash == s.stash
    ensures SlotsElsewhereKept(s.slots, r.slots, id)
  {
    GreenBlueStep(OpacityRedStep(s, id, f), id, f)
  }

  /** The colour tab: the colour-by-block checkbox, the two pickers, then the colour evolves. */
  function ColoursStep(s: TabState, id: int, f: ColoursFrame): (r: TabState)
    ensures r.modified == (s.modified || ColoursChange(s.payload, f))
    ensures r.payload.colorByBlock == (s.payload.colorByBlock != f.colorByBlockClicked)
    ensures r.payload.hsvaColor == (if f.colour.Some? then f.colour.value else s.payload.hsvaColor)
    ensures r.payload.hsvaVariance == (if f.variance.Some? then f.variance.value else s.payload.hsvaVariance)
    ensures r.payload.velocityEvolve == s.payload.velocityEvolve && r.payload.sizeEvolve == s.payload.sizeEvolve
    ensures r.payload.vertexFlags == s.payload.vertexFlags && r.payload.others == s.payload.others
    ensures r.checked == s.checked && r.stash == s.stash
    ensures SlotsElsewhereKept(s.slots, r.slots, id)
  {
    var p := s.payload;
    var colour := if f.colour.Some? then f.colour.value else p.hsvaColor;
    var variance := if f.variance.Some? then f.variance.value else p.hsvaVariance;
    var q := p.(colorByBlock := p.colorByBlock != f.colorByBlockClicked, hsvaColor := colour, hsvaVariance := variance);
    var changed := f.colorByBlockClicked || colour != p.hsvaColor || variance != p.hsvaVariance;
    ColourEvolveStep(s.(payload := q, modified := s.modified || changed), id, f)
  }

  /** The behaviour tab: the velocity toggle, then the size evolve; neither reports a modification. */
  function BehaviorStep(s: TabState, id: int, toggled: bool, e: VelocityEdits, size: NullableInput): (r: TabState)
    ensures r.modified == s.modified
    ensures r.checked == (s.checked != toggled)
    ensures r.payload.velocityEvolve.Some? <==> r.checked
    ensures r.payload.sizeEvolve.Some? <==> (s.payload.sizeEvolve.Some? != size.toggled)
    ensures r.payload == s.payload.(velocityEvolve := r.payload.velocityEvolve, sizeEvolve := r.payload.sizeEvolve)
    ensures SlotsElsewhereKept(s.slots, r.slots, id)
  {
    var v := VelocityFrame(VelocityState(s.checked, s.stash, s.payload.velocityEvolve), toggled, e);
    var z := NullableStep(s.slots, id, s.payload.sizeEvolve, size);
    TabState(s.payload.(velocityEvolve := v.field, sizeEvolve := z.value), z.slots, s.modified, v.checked, v.stash)
  }

  /** The open tab's widgets; without a tab bar nothing runs. */
  function TabStep(s: TabState, id: int, f: PropertiesFrame): (r: TabState)
    ensures r.modified == (s.modified || (f.tab == ColoursTab && ColoursChange(s.payload, f.colours)))
    ensures f.tab == NoTab ==> r == s
    ensures f.tab != BehaviorTab ==> r.checked == s.checked && r.stash == s.stash
    ensures f.tab != BehaviorTab ==> r.payload.velocityEvolve == s.payload.velocityEvolve
    ensures f.tab != FlagsTab ==> r.payload.vertexFlags == s.payload.vertexFlags
    ensures f.tab == FlagsTab ==> r.payload == s.payload.(vertexFlags := EditedFlags(f.flags)) && r.slots == s.slots
    ensures r.payload.others == s.payload.others
    ensures SlotsElsewhereKept(s.slots, r.slots, id)
  {
    match f.tab
    case NoTab => s
    case ColoursTab => ColoursStep(s, id, f.colours)
    case BehaviorTab => BehaviorStep(s, id, f.velocityToggled, f.velocityEdits, f.sizeEvolve)
    case FlagsTab => s.(payload := s.payload.(vertexFlags := EditedFlags(f.flags)))
  }

  /** A per-effect editor's whole state: its tabs, the Restore confirmation and the export popup. */
  datatype EditorState = EditorState(tab: TabState, confirming: bool, popup: ExportState)

  /** The state of an editor just built over a record holding `p`. */
  function InitialState(p: Payload, slots: map<int, EvolvingNatFloat>): EditorState
  {
    EditorState(TabState(p, slots, false, false, None), false, ExportState(false, 0, false, ""))
  }

  /**
   * One ParticlePropertiesEditor.Draw: the control row, then the open tab; the
   * second component is the value returned, the modified flag before it is cleared.
   */
  function DrawStep(s: EditorState, backup: Payload, id: int, ready: bool, f: PropertiesFrame): (r: (EditorState, bool))
    ensures var o := Widgets.ConfirmFrame(ready, s.confirming, f.restore);
            var p := ControlledPayload(s.tab.payload, backup, o, s.popup, f.exportPressed, f.popup);
            && r.1 == (s.tab.modified || o.chosen || (f.tab == ColoursTab && ColoursChange(p, f.colours)))
            && !r.0.tab.modified
            && r.0.confirming == o.confirming
            && r.0.popup == (if o.confirming then s.popup else ExportStep(s.popup, f.exportPressed, f.popup))
            && (f.tab == NoTab ==> r.0.tab.payload == p && r.0.tab.slots == s.tab.slots)
    ensures f.tab != BehaviorTab ==> r.0.tab.checked == s.tab.checked && r.0.tab.stash == s.tab.stash
    ensures SlotsElsewhereKept(s.tab.slots, r.0.tab.slots, id)
  {
    var o := Widgets.ConfirmFrame(ready, s.confirming, f.restore);
    var p := ControlledPayload(s.tab.payload, backup, o, s.popup, f.exportPressed, f.popup);
    var e := if o.confirming then s.popup else ExportStep(s.popup, f.exportPressed, f.popup);
    var t := TabStep(s.tab.(payload := p, modified := s.tab.modified || o.chosen), id, f);
    (EditorState(t.(modified := false), o.confirming, e), t.modified)
  }

  /** A frame with nothing pressed, no tab open and the popup closed changes nothing and reports nothing. */
  lemma IdleFrameChangesNothing(s: EditorState, backup: Payload, id: int, ready: bool, f: PropertiesFrame)
    requires !s.tab.modified && !s.popup.isOpen
    requires f.restore == Widgets.Presses(false, false, false) && !f.exportPressed && f.tab == NoTab
    ensures DrawStep(s, backup, id, ready, f) == (s, false)
  {
    var o := Widgets.ConfirmFrame(ready, s.confirming, f.restore);
    assert o == Widgets.Outcome(false, s.confirming);
    assert ExportStep(s.popup, false, f.popup) == s.popup;
  }

  /**
   * A confirmed Restore with the popup closed puts the backup back, reports a
   * modification, and clears the confirmation, whatever tab is left closed.
   */
  lemma ConfirmedRestoreRestores(s: EditorState, backup: Payload, id: int, f: PropertiesFrame)
    requires s.confirming && f.restore.confirm && !s.popup.isOpen && !f.exportPressed && f.tab == NoTab
    ensures var r := DrawStep(s, backup, id, true, f);
            r.0.tab.payload == backup && r.1 && !r.0.confirming
  {
    assert Widgets.ConfirmFrame(true, s.confirming, f.restore) == Widgets.Outcome(true, false);
  }

  /** The behaviour and flags tabs never report a modification of their own. */
  lemma OnlyColoursTabReports(s: EditorState, backup: Payload, id: int, ready: bool, f: PropertiesFrame)
    requires f.tab != ColoursTab
    ensures DrawStep(s, backup, id, ready, f).1
            == (s.tab.modified || Widgets.ConfirmFrame(ready, s.confirming, f.restore).chosen)
  {
  }

  class ParticlePropertiesEditor {
    const properties: AdvancedParticleProperties
    /** The serialised backup taken at construction; its bytes decode to this payload. */
    const backup: Payload
    const id: int
    var confirming: bool
    var modified: bool
    var velocityEvolve: bool
    var velocityEvolveValue: Option<Axes<EvolvingNatFloat>>
    var outputOpened: bool
    var exception: bool
    var message: string
    var outputOption: int

    constructor (properties: AdvancedParticleProperties, hash: HashCode)
      ensures this.properties == properties && backup == properties.payload && id == hash(properties)
      ensures Initial()
    {
      this.properties := properties;
      backup := properties.payload;
      id := hash(properties);
      confirming, modified, velocityEvolve, velocityEvolveValue := false, false, false, None;
      outputOpened, exception, message, outputOption := false, false, "", 0;
    }

    /** The state the constructor leaves: nothing pending, and the backup equal to the record. */
    ghost predicate Initial()
      reads this, properties
    {
      && !confirming && !modified && !velocityEvolve && velocityEvolveValue == None
      && !outputOpened && !exception && message == "" && outputOption == 0
      && backup == properties.payload
    }

    function ExportOf(): ExportState
      reads this
    {
      ExportState(outputOpened, outputOption, exception, message)
    }

    function TabOf(prev: PrevValues): TabState
      reads this, properties, prev
    {
      TabState(properties.payload, prev.slots, modified, velocityEvolve, velocityEvolveValue)
    }

    function StateOf(prev: PrevValues): EditorState
      reads this, properties, prev
    {
      EditorState(TabOf(prev), confirming, ExportOf())
    }

    /** An editor in its initial state has the state InitialState describes. */
    lemma InitialStateOf(prev: PrevValues)
      requires Initial()
      ensures StateOf(prev) == InitialState(properties.payload, prev.slots)
    {
    }

    /** Overwrites the record with the payload saved at construction. */
    method Restore()
      modifies properties
      ensures properties.payload == backup
    {
      properties.payload := backup;
    }

    /** A new editor over a clone of this editor's record. */
    method Duplicate(hash: HashCode) returns (d: ParticlePropertiesEditor)
      ensures fresh(d) && fresh(d.properties)
      ensures d.properties.payload == properties.payload && d.id == hash(d.properties) && d.Initial()
    {
      var c := properties.Clone();
      d := new ParticlePropertiesEditor(c, hash);
    }

    /** Draw: one frame of the editor; returns whether it reported a modification, and clears the flag. */
    method Draw(f: PropertiesFrame, styles: Widgets.Styles, prev: PrevValues) returns (wasModified: bool)
      modifies this, properties, prev
      ensures var r := DrawStep(old(StateOf(prev)), backup, id, styles.Ready(), f);
              StateOf(prev) == r.0 && wasModified == r.1
    {
      ControlButtons(f.restore, f.exportPressed, f.popup, styles);
      DrawTab(f, prev);
      wasModified := modified;
      modified := false;
    }

    /** The tab bar: only the selected tab's widgets run. */
    method DrawTab(f: PropertiesFrame, prev: PrevValues)
      modifies this`modified, this`velocityEvolve, this`velocityEvolveValue, properties, prev
      ensures TabOf(prev) == TabStep(old(TabOf(prev)), id, f)
    {
      match f.tab {
        case NoTab =>
        case ColoursTab => Colours(f.colours, prev);
        case BehaviorTab =>
          VelocityEvolve(f.velocityToggled, f.velocityEdits);
          SizeProperties(f.sizeEvolve, prev);
        case FlagsTab => FlagProperties(f.flags);
      }
    }

    /** The restore button (with confirmation) and, while not confirming, the export button. */
    method ControlButtons(restore: Widgets.Presses, exportPressed: bool, popup: ExportFrame, styles: Widgets.Styles)
      modifies this, properties
      ensures var o := Widgets.ConfirmFrame(styles.Ready(), old(confirming), restore);
              && confirming == o.confirming && modified == (old(modified) || o.chosen)
              && properties.payload
                   == ControlledPayload(old(properties.payload), backup, o, old(ExportOf()), exportPressed, popup)
              && ExportOf() == (if o.confirming then old(ExportOf()) else ExportStep(old(ExportOf()), exportPressed, popup))
      ensures velocityEvolve == old(velocityEvolve) && velocityEvolveValue == old(velocityEvolveValue)
    {
      var chosen;
      chosen, confirming := Widgets.ButtonWithConfirmation(styles, confirming, restore);
      if chosen {
        Restore();
        modified := true;
      }
      if !confirming {
        Export(exportPressed, popup);
      }
    }

    /** The export popup: opened by the button, kept open until its close control is used. */
    method Export(open: bool, f: ExportFrame)
      modifies this, properties
      ensures ExportOf() == ExportStep(old(ExportOf()), open, f)
      ensures properties.payload
                == if ExportApplies(old(ExportOf()), open, f) && f.parsed.Success? then f.parsed.value
                   else old(properties.payload)
      ensures confirming == old(confirming) && modified == old(modified)
      ensures velocityEvolve == old(velocityEvolve) && velocityEvolveValue == old(velocityEvolveValue)
    {
      if open {
        outputOpened := true;
      }
      if outputOpened {
        outputOpened := f.keepOpen;
        if f.modalShown {
          if f.radio.Some? {
            outputOption := f.radio.value;
          }
          if outputOption == 0 && f.apply {
            DeserializeFromJson(f.parsed);
          }
        }
      }
    }

    /**
     * Apply of the edited JSON. A parse failure leaves the record untouched and
     * reports the error; a success overwrites the record (through its byte form,
     * which round-trips) and clears the error.
     */
    method DeserializeFromJson(parsed: Result<Payload, ParseError>)
      modifies this`exception, this`message, properties
      ensures parsed.Failure? ==> properties.payload == old(properties.payload)
      ensures parsed.Failure? ==> exception
      ensures parsed.Failure? ==> message == ErrorMessage(parsed.error)
      ensures parsed.Success? ==> properties.payload == parsed.value && !exception && message == old(message)
    {
      exception := false;
      match parsed
      case Success(p) =>
        properties.payload := p;
      case Failure(e) =>
        exception := true;
        message := "Error: " + e.message + "\n\nStack trace: " + e.stackTrace;
    }

    /** The colour tab. */
    method Colours(f: ColoursFrame, prev: PrevValues)
      modifies this`modified, properties, prev
      ensures TabOf(prev) == ColoursStep(old(TabOf(prev)), id, f)
    {
      // ColorByBlock: the checkbox flips the value; a change marks the record modified
      var colorByBlock := properties.payload.colorByBlock;
      if f.colorByBlockClicked {
        colorByBlock := !colorByBlock;
      }
      if properties.payload.colorByBlock != colorByBlock {
        modified := true;
      }
      properties.payload := properties.payload.(colorByBlock := colorByBlock);
      // HsvaColor and HsvaVariance: a changed picker value is written and marks the record modified
      var colour := if f.colour.Some? then f.colour.value else properties.payload.hsvaColor;
      if colour != properties.payload.hsvaColor {
        modified := true;
      }
      properties.payload := properties.payload.(hsvaColor := colour);
      var variance := if f.variance.Some? then f.variance.value else properties.payload.hsvaVariance;
      if variance != properties.payload.hsvaVariance {
        modified := true;
      }
      properties.payload := properties.payload.(hsvaVariance := variance);
      ColorEvolving(f, prev);
    }

    /**
     * ColorEvolving: the four optional colour evolves, all under this editor's id.
     * The source compares the old and new values with `!=` on references; the
     * nullable editor builds a new value whenever the field is on, so the comparison
     * holds exactly when the old or the new value is non-null.
     */
    method ColorEvolving(f: ColoursFrame, prev: PrevValues)
      modifies this`modified, properties, prev
      ensures TabOf(prev) == ColourEvolveStep(old(TabOf(prev)), id, f)
    {
      var opacity := Channel(prev, "Opacity", properties.payload.opacityEvolve, f.opacity);
      properties.payload := properties.payload.(opacityEvolve := opacity);
      var red := Channel(prev, "Red", properties.payload.redEvolve, f.red);
      properties.payload := properties.payload.(redEvolve := red);
      var green := Channel(prev, "Green", properties.payload.greenEvolve, f.green);
      properties.payload := properties.payload.(greenEvolve := green);
      var blue := Channel(prev, "Blue", properties.payload.blueEvolve, f.blue);
      properties.payload := properties.payload.(blueEvolve := blue);
    }

    /** One channel of ColorEvolving: the nullable editor, then the modification test on the old and new value. */
    method Channel(prev: PrevValues, fieldName: string, value: Option<EvolvingNatFloat>, input: NullableInput)
      returns (value': Option<EvolvingNatFloat>)
      modifies this`modified, prev
      ensures NullableResult(value', prev.slots) == NullableStep(old(prev.slots), id, value, input)
      ensures modified == (old(modified) || value.Some? || value'.Some?)
    {
      value' := prev.EvolvingNatFloatEditorNullable(id, fieldName, value, input);
      if value.Some? || value'.Some? {
        modified := true;
      }
    }
    /** The velocity-evolve checkbox with its stash. */
    method VelocityEvolve(toggled: bool, e: VelocityEdits)
      modifies this`velocityEvolve, this`velocityEvolveValue, properties
      ensures var r := VelocityFrame(
                VelocityState(old(velocityEvolve), old(velocityEvolveValue), old(properties.payload.velocityEvolve)),
                toggled, e);
              velocityEvolve == r.checked && velocityEvolveValue == r.stash
              && properties.payload == old(properties.payload).(velocityEvolve := r.field)
    {
      if toggled {
        velocityEvolve := !velocityEvolve;
      }
      if !velocityEvolve {
        if velocityEvolveValue == None && properties.payload.velocityEvolve.Some? {
          velocityEvolveValue := properties.payload.velocityEvolve;
        }
        properties.payload := properties.payload.(velocityEvolve := None);
        return;
      }
      if properties.payload.velocityEvolve == None {
        if velocityEvolveValue.Some? {
          properties.payload := properties.payload.(velocityEvolve := velocityEvolveValue);
        } else {
          properties.payload := properties.payload.(velocityEvolve := Some(DefaultVelocityEvolve));
        }
        velocityEvolveValue := None;
      }
      if properties.payload.velocityEvolve.Some? {
        var v := properties.payload.velocityEvolve.value;
        properties.payload := properties.payload.(velocityEvolve := Some(EditAxes(v, e)));
      }
    }

    /** The size evolve: optional, under the same id, and not reported as a modification. */
    method SizeProperties(input: NullableInput, prev: PrevValues)
      modifies properties, prev
      ensures var s := NullableStep(old(prev.slots), id, old(properties.payload.sizeEvolve), input);
              properties.payload == old(properties.payload).(sizeEvolve := s.value) && prev.slots == s.slots
    {
      var sizeEvolve := prev.EvolvingNatFloatEditorNullable(id, "Size evolve", properties.payload.sizeEvolve, input);
      properties.payload := properties.payload.(sizeEvolve := sizeEvolve);
    }

    /** The vertex-flags tab. */
    method FlagProperties(f: FlagsFrame)
      modifies properties
      ensures properties.payload == old(properties.payload).(vertexFlags := EditedFlags(f))
    {
      var glowLevel := ToByte(f.glowLevel);
      var zOffset := ToByte(f.zOffset);
      var windData := ToByte(f.windData);
      var normal := ClampToShort(f.normal);
      var flags := VertexFlags(glowLevel, f.reflective, zOffset, f.lod0, f.windMode, windData, normal);
      properties.payload := properties.payload.(vertexFlags := flags);
    }
  }

  // ---------------------------------------------------------------------------
  // The list of effects and the selected index
  // ---------------------------------------------------------------------------

  /** ValidateCurrentIndex's clamp: first down to count - 1, then up to 0. */
  function ClampedIndex(c: int, n: nat): (r: int)
    ensures 0 <= r
    ensures n > 0 ==> r < n
    ensures n == 0 ==> r == 0
    ensures 0 <= c < n ==> r == c
    ensures n > 0 && c >= n ==> r == n - 1
    ensures c < 0 ==> r == 0
  {
    var below := if c >= n then n - 1 else c;
    if below < 0 then 0 else below
  }

  /** Clamping twice is clamping once: a second validation changes nothing. */
  lemma ClampedIndexIdempotent(c: int, n: nat)
    ensures ClampedIndex(ClampedIndex(c, n), n) == ClampedIndex(c, n)
  {
  }

  /** Removing entry k of a sequence keeps the others in order. */
  function RemoveAt<T>(s: seq<T>, k: nat): (r: seq<T>)
    requires k < |s|
    ensures |r| == |s| - 1
    ensures forall i :: 0 <= i < k ==> r[i] == s[i]
    ensures forall i :: k <= i < |r| ==> r[i] == s[i + 1]
  {
    s[..k] + s[k + 1..]
  }

  /** The buttons and index widgets of the effect selector in one frame. */
  datatype SelectorFrame = SelectorFrame(
    add: bool, duplicate: bool, remove: Widgets.Presses, restoreAll: Widgets.Presses,
    typed: Option<int>, slid: Option<int>)

  const NoPresses: Widgets.Presses := Widgets.Presses(false, false, false)

  datatype EditorFrame = EditorFrame(selector: SelectorFrame, effect: PropertiesFrame)


  /**
   * One position of the effect list after the selector row, relative to the list before
   * it: the editor and effect that stood at `index`, or a new editor over a new record
   * holding `payload`.
   */
  datatype Entry = Kept(index: nat) | New(payload: Payload)

  /** The selector's state on values: the list entry by entry, the selected index and the two confirmations. */
  datatype Selector = Selector(entries: seq<Entry>, current: int, confirmRemoval: bool, confirmRestore: bool)

  /** The list as it stands before any button: every entry kept in place. */
  function KeptAll(n: nat): (r: seq<Entry>)
    ensures |r| == n && forall k :: 0 <= k < n ==> r[k] == Kept(k)
  {
    seq(n, (k: int) requires 0 <= k < n => Kept(k))
  }

  /** Every kept entry names one of n positions of before. */
  predicate Refers(entries: seq<Entry>, n: nat)
  {
    forall e :: e in entries && e.Kept? ==> e.index < n
  }

  /** The payload an entry's record holds, given the payloads of the records of before. */
  function EntryPayload(e: Entry, payloads: seq<Payload>): Payload
    requires e.Kept? ==> e.index < |payloads|
  {
    match e
    case Kept(i) => payloads[i]
    case New(p) => p
  }

  /** The Add button: appends a new default entry unless a confirmation is pending. */
  function AddPress(s: Selector, f: SelectorFrame): (r: Selector)
  {
    if !(s.confirmRemoval || s.confirmRestore) && f.add then s.(entries := s.entries + [New(DefaultPayload)]) else s
  }

  /**
   * The Duplicate button, shown when the count read at the start of the frame was
   * positive and disabled while a confirmation is pending: validates the index, then
   * appends a copy of the selected entry's payload.
   */
  function DuplicatePress(s: Selector, size: nat, payloads: seq<Payload>, f: SelectorFrame): (r: Selector)
    requires Refers(s.entries, |payloads|)
  {
    if size > 0 && !(s.confirmRemoval || s.confirmRestore) && f.duplicate then
      var c := ClampedIndex(s.current, |s.entries|);
      if s.entries == [] then s.(current := c)
      else (assert s.entries[c] in s.entries; s.(entries := s.entries + [New(EntryPayload(s.entries[c], payloads))], current := c))
    else s
  }

  /** Add, then Duplicate, both against the count read at the start of the frame. */
  function AddStep(s: Selector, size: nat, payloads: seq<Payload>, f: SelectorFrame): (r: Selector)
    requires Refers(s.entries, |payloads|)
    ensures Refers(r.entries, |payloads|)
    ensures r.confirmRemoval == s.confirmRemoval && r.confirmRestore == s.confirmRestore
    ensures s.confirmRemoval || s.confirmRestore ==> r == s
    ensures |s.entries| <= |r.entries| <= |s.entries| + 2 && r.entries[..|s.entries|] == s.entries
    ensures forall k :: |s.entries| <= k < |r.entries| ==> r.entries[k].New?
    ensures !f.add && !f.duplicate ==> r == s
  {
    var a := AddPress(s, f);
    assert Refers(a.entries, |payloads|);
    DuplicatePress(a, size, payloads, f)
  }

  /** RemoveEffect: validate the index, drop that entry, validate again; nothing is dropped from an empty list. */
  function RemoveStep(s: Selector): (r: Selector)
    ensures |r.entries| == if s.entries == [] then 0 else |s.entries| - 1
    ensures forall e :: e in r.entries ==> e in s.entries
    ensures r.confirmRemoval == s.confirmRemoval && r.confirmRestore == s.confirmRestore
    ensures r.current == ClampedIndex(r.current, |r.entries|)
  {
    var c := ClampedIndex(s.current, |s.entries|);
    if s.entries == [] then s.(current := c)
    else
      var rest := RemoveAt(s.entries, c);
      s.(entries := rest, current := ClampedIndex(c, |rest|))
  }

  /** The list RestoreAll builds: one new record per backup entry. */
  function Restored(backup: seq<Payload>): (r: seq<Entry>)
    ensures |r| == |backup| && forall k :: 0 <= k < |backup| ==> r[k] == New(backup[k])
  {
    seq(|backup|, (k: int) requires 0 <= k < |backup| => New(backup[k]))
  }

  /** RestoreAll: the rebuilt list, then the index validated against its length. */
  function RestoreStep(s: Selector, backup: seq<Payload>): (r: Selector)
    ensures r.entries == Restored(backup) && r.current == ClampedIndex(s.current, |backup|)
    ensures r.confirmRemoval == s.confirmRemoval && r.confirmRestore == s.confirmRestore
  {
    s.(entries := Restored(backup), current := ClampedIndex(s.current, |backup|))
  }

  /**
   * The Remove button, shown for a non-empty count and disabled while Restore all
   * awaits confirmation; a confirmed removal refreshes the count.
   */
  function RemoveButtonStep(ready: bool, s: Selector, size: nat, f: SelectorFrame): (r: (Selector, nat))
    ensures forall e :: e in r.0.entries ==> e in s.entries
    ensures r.1 == size || r.1 == |r.0.entries|
    ensures r.0.confirmRestore == s.confirmRestore
    ensures s.confirmRestore && !s.confirmRemoval ==> r == (s, size)
  {
    if size > 0 then
      var o := Widgets.ConfirmFrame(ready, s.confirmRemoval, if s.confirmRestore then NoPresses else f.remove);
      if o.chosen then
        var t := RemoveStep(s).(confirmRemoval := false);
        (t, |t.entries|)
      else (s.(confirmRemoval := o.confirming), size)
    else (s, size)
  }

  /** The Restore all button, hidden while Remove awaits confirmation; a confirmed restore refreshes the count. */
  function RestoreButtonStep(ready: bool, s: Selector, size: nat, backup: seq<Payload>, f: SelectorFrame): (r: (Selector, nat))
    ensures r.0.entries == s.entries || r.0.entries == Restored(backup)
    ensures r.1 == size || r.1 == |r.0.entries|
    ensures r.0.confirmRemoval == s.confirmRemoval
    ensures s.confirmRemoval ==> r == (s, size)
  {
    if !s.confirmRemoval && size > 0 then
      var o := Widgets.ConfirmFrame(ready, s.confirmRestore, f.restoreAll);
      if o.chosen then
        var u := RestoreStep(s, backup).(confirmRestore := false);
        (u, |u.entries|)
      else (s.(confirmRestore := o.confirming), size)
    else (s, size)
  }

  /** Remove, then Restore all, each behind its confirmation. */
  function ConfirmStep(ready: bool, s: Selector, size: nat, backup: seq<Payload>, f: SelectorFrame): (r: (Selector, nat))
    ensures forall e :: e in r.0.entries && e.Kept? ==> e in s.entries
    ensures r.1 == size || r.1 == |r.0.entries|
    ensures !(s.confirmRemoval && s.confirmRestore) ==> !(r.0.confirmRemoval && r.0.confirmRestore)
    ensures s.confirmRestore && !s.confirmRemoval ==> r.0.entries == s.entries || r.0.entries == Restored(backup)
  {
    var t := RemoveButtonStep(ready, s, size, f);
    RestoreButtonStep(ready, t.0, t.1, backup, f)
  }

  /**
   * The index widgets, shown for a non-empty count: the typed index is clamped to the
   * count from above only, and the slider's pick is taken as it is.
   */
  function IndexAfter(current: int, size: nat, f: SelectorFrame): (r: int)
    ensures size == 0 ==> r == current
    ensures size > 0 && f.slid.None? ==> r < size
    ensures size > 0 && f.slid.None? && f.typed.Some? && f.typed.value < size ==> r == f.typed.value
    ensures size > 0 && f.slid.Some? ==> r == f.slid.value
  {
    if size == 0 then current
    else
      var typed := if f.typed.Some? then f.typed.value else current;
      var bounded := if typed >= size then size - 1 else typed;
      if f.slid.Some? then f.slid.value else bounded
  }

  /** The index widgets on the selector's state. */
  function IndexStep(s: Selector, size: nat, f: SelectorFrame): (r: Selector)
  {
    s.(current := IndexAfter(s.current, size, f))
  }

  /** EffectSelector on values: the add row with the count of before, then the confirmations, then the index. */
  function SelectorStep(ready: bool, s: Selector, payloads: seq<Payload>, backup: seq<Payload>, f: SelectorFrame): (r: Selector)
    requires Refers(s.entries, |payloads|)
    ensures Refers(r.entries, |payloads|)
    ensures !(s.confirmRemoval && s.confirmRestore) ==> !(r.confirmRemoval && r.confirmRestore)
  {
    var a := AddStep(s, |s.entries|, payloads, f);
    var c := ConfirmStep(ready, a, |s.entries|, backup, f);
    IndexStep(c.0, c.1, f)
  }

  /** The selector always starts from the list as it stands. */
  lemma KeptAllRefers(n: nat)
    ensures Refers(KeptAll(n), n)
  {
    forall e | e in KeptAll(n) && e.Kept?
      ensures e.index < n
    {
      var k :| 0 <= k < n && KeptAll(n)[k] == e;
    }
  }

  /**
   * While Restore all awaits confirmation, Add, Duplicate and Remove do nothing: the
   * list after the frame is the list before, or the restored one.
   */
  lemma PendingRestoreLocksList(ready: bool, s: Selector, payloads: seq<Payload>, backup: seq<Payload>, f: SelectorFrame)
    requires Refers(s.entries, |payloads|)
    requires s.confirmRestore && !s.confirmRemoval
    ensures var r := SelectorStep(ready, s, payloads, backup, f);
            r.entries == s.entries || r.entries == Restored(backup)
  {
  }

  /**
   * While Remove awaits confirmation, Add and Duplicate do nothing: the list is kept,
   * loses the selected entry, or is rebuilt by a Restore all confirmed in the same frame.
   */
  lemma PendingRemovalLocksList(ready: bool, s: Selector, payloads: seq<Payload>, backup: seq<Payload>, f: SelectorFrame)
    requires Refers(s.entries, |payloads|)
    requires s.confirmRemoval && !s.confirmRestore && s.entries != []
    ensures var r := SelectorStep(ready, s, payloads, backup, f);
            || r.entries == s.entries
            || r.entries == RemoveAt(s.entries, ClampedIndex(s.current, |s.entries|))
            || r.entries == Restored(backup)
  {
  }

  /**
   * The count the index widgets use is read before Add runs: typing the index of the
   * effect just added selects the one before it.
   */
  lemma TypedIndexUsesCountBeforeAdd(ready: bool, s: Selector, payloads: seq<Payload>, backup: seq<Payload>)
    requires Refers(s.entries, |payloads|)
    requires !s.confirmRemoval && !s.confirmRestore && s.entries != []
    ensures var f := SelectorFrame(true, false, NoPresses, NoPresses, Some(|s.entries|), None);
            var r := SelectorStep(ready, s, payloads, backup, f);
            |r.entries| == |s.entries| + 1 && r.current == |s.entries| - 1
  {
    var f := SelectorFrame(true, false, NoPresses, NoPresses, Some(|s.entries|), None);
    var a := AddStep(s, |s.entries|, payloads, f);
    assert a.entries == s.entries + [New(DefaultPayload)];
    var c := ConfirmStep(ready, a, |s.entries|, backup, f);
    assert Widgets.ConfirmFrame(ready, false, NoPresses) == Widgets.Outcome(false, false);
    assert c == (a, |s.entries|);
  }

  /** A confirmed Restore all with nothing else pressed rebuilds the list from the backup. */
  lemma ConfirmedRestoreAllRebuilds(s: Selector, payloads: seq<Payload>, backup: seq<Payload>, f: SelectorFrame)
    requires Refers(s.entries, |payloads|)
    requires s.confirmRestore && !s.confirmRemoval && s.entries != []
    requires !f.add && !f.duplicate && f.restoreAll.confirm && f.typed.None? && f.slid.None?
    ensures var r := SelectorStep(true, s, payloads, backup, f);
            && (forall k :: 0 <= k < |r.entries| ==> r.entries[k].New?)
            && |r.entries| == |backup| && !r.confirmRestore && !r.confirmRemoval
            && r.current == ClampedIndex(s.current, |backup|)
  {
    assert Widgets.ConfirmFrame(true, false, NoPresses) == Widgets.Outcome(false, false);
    assert Widgets.ConfirmFrame(true, true, f.restoreAll) == Widgets.Outcome(true, false);
  }

  /**
   * Where one entry stands beside its editor and effect: a kept entry is the same
   * editor beside the same effect as before; a new one is an editor not seen before,
   * beside its own record.
   */
  ghost predicate Placed(
    x: Entry, e: ParticlePropertiesEditor, p: AdvancedParticleProperties?,
    was: seq<ParticlePropertiesEditor>, wasEffects: seq<AdvancedParticleProperties?>)
  {
    match x
    case Kept(i) => i < |was| && i < |wasEffects| && e == was[i] && p == wasEffects[i]
    case New(_) => e !in was && p == e.properties
  }

  /** The lists realise `entries` over the lists of before, position by position. */
  ghost predicate Shape(
    entries: seq<Entry>, editors: seq<ParticlePropertiesEditor>, effects: seq<AdvancedParticleProperties?>,
    was: seq<ParticlePropertiesEditor>, wasEffects: seq<AdvancedParticleProperties?>)
    decreases |entries|
  {
    && |editors| == |entries| && |effects| == |entries|
    && (entries != [] ==>
          var n := |entries| - 1;
          && Placed(entries[n], editors[n], effects[n], was, wasEffects)
          && Shape(entries[..n], editors[..n], effects[..n], was, wasEffects))
  }

  /** A new entry's editor is in its initial state, over a record holding that entry's payload. */
  ghost predicate Afresh(x: Entry, e: ParticlePropertiesEditor)
    reads e, e.properties
  {
    x.New? ==> e.Initial() && e.properties.payload == x.payload
  }

  /** Every new entry's editor still starts afresh, position by position. */
  ghost predicate StartsAfresh(entries: seq<Entry>, editors: seq<ParticlePropertiesEditor>)
    reads set e | e in editors, set e | e in editors :: e.properties
  {
    |editors| == |entries| && forall k {:trigger Afresh(entries[k], editors[k])} :: 0 <= k < |entries| ==> Afresh(entries[k], editors[k])
  }

  /** Appending an entry beside an editor that starts afresh for it keeps every new editor afresh. */
  lemma StartsAfreshAppend(entries: seq<Entry>, editors: seq<ParticlePropertiesEditor>, x: Entry, e: ParticlePropertiesEditor)
    requires StartsAfresh(entries, editors) && Afresh(x, e)
    ensures StartsAfresh(entries + [x], editors + [e])
  {
    var es, eds := entries + [x], editors + [e];
    forall k | 0 <= k < |es|
      ensures Afresh(es[k], eds[k])
    {
      if k < |entries| {
        assert es[k] == entries[k] && eds[k] == editors[k];
      }
    }
  }

  /** Dropping the same position from both sequences keeps every new editor afresh. */
  lemma StartsAfreshRemoveAt(entries: seq<Entry>, editors: seq<ParticlePropertiesEditor>, k: nat)
    requires StartsAfresh(entries, editors) && k < |entries|
    ensures StartsAfresh(RemoveAt(entries, k), RemoveAt(editors, k))
  {
    var es, eds := RemoveAt(entries, k), RemoveAt(editors, k);
    forall j | 0 <= j < |es|
      ensures Afresh(es[j], eds[j])
    {
      var j0 := if j < k then j else j + 1;
      assert es[j] == entries[j0] && eds[j] == editors[j0];
    }
  }

  /** Shape holds of every position. */
  lemma {:induction false} ShapeAt(
    entries: seq<Entry>, editors: seq<ParticlePropertiesEditor>, effects: seq<AdvancedParticleProperties?>,
    was: seq<ParticlePropertiesEditor>, wasEffects: seq<AdvancedParticleProperties?>, k: nat)
    requires Shape(entries, editors, effects, was, wasEffects) && k < |entries|
    ensures Placed(entries[k], editors[k], effects[k], was, wasEffects)
    decreases |entries|
  {
    var n := |entries| - 1;
    if k < n {
      ShapeAt(entries[..n], editors[..n], effects[..n], was, wasEffects, k);
    }
  }

  /** Shape follows from every position being placed. */
  lemma {:induction false} ShapeOfPlaced(
    entries: seq<Entry>, editors: seq<ParticlePropertiesEditor>, effects: seq<AdvancedParticleProperties?>,
    was: seq<ParticlePropertiesEditor>, wasEffects: seq<AdvancedParticleProperties?>)
    requires |editors| == |entries| && |effects| == |entries|
    requires forall k :: 0 <= k < |entries| ==> Placed(entries[k], editors[k], effects[k], was, wasEffects)
    ensures Shape(entries, editors, effects, was, wasEffects)
    decreases |entries|
  {
    if entries != [] {
      var n := |entries| - 1;
      ShapeOfPlaced(entries[..n], editors[..n], effects[..n], was, wasEffects);
    }
  }

  /** Dropping the same position from the three sequences keeps the shape. */
  lemma ShapeRemoveAt(
    entries: seq<Entry>, editors: seq<ParticlePropertiesEditor>, effects: seq<AdvancedParticleProperties?>,
    was: seq<ParticlePropertiesEditor>, wasEffects: seq<AdvancedParticleProperties?>, k: nat)
    requires Shape(entries, editors, effects, was, wasEffects) && k < |entries|
    ensures Shape(RemoveAt(entries, k), RemoveAt(editors, k), RemoveAt(effects, k), was, wasEffects)
  {
    var e', ed', ef' := RemoveAt(entries, k), RemoveAt(editors, k), RemoveAt(effects, k);
    forall j | 0 <= j < |e'|
      ensures Placed(e'[j], ed'[j], ef'[j], was, wasEffects)
    {
      var j0 := if j < k then j else j + 1;
      assert e'[j] == entries[j0] && ed'[j] == editors[j0] && ef'[j] == effects[j0];
      ShapeAt(entries, editors, effects, was, wasEffects, j0);
    }
    ShapeOfPlaced(e', ed', ef', was, wasEffects);
  }

  /** Appending a new entry beside a new editor and its record keeps the shape. */
  lemma ShapeAppend(
    entries: seq<Entry>, editors: seq<ParticlePropertiesEditor>, effects: seq<AdvancedParticleProperties?>,
    was: seq<ParticlePropertiesEditor>, wasEffects: seq<AdvancedParticleProperties?>,
    x: Entry, e: ParticlePropertiesEditor)
    requires Shape(entries, editors, effects, was, wasEffects)
    requires x.New? && e !in was
    ensures Shape(entries + [x], editors + [e], effects + [e.properties], was, wasEffects)
  {
    assert (entries + [x])[..|entries|] == entries;
    assert (editors + [e])[..|entries|] == editors;
    assert (effects + [e.properties])[..|entries|] == effects;
  }

  /** New editors beside their own records realise the restored list. */
  lemma RestoredShape(
    editors: seq<ParticlePropertiesEditor>, effects: seq<AdvancedParticleProperties?>,
    was: seq<ParticlePropertiesEditor>, wasEffects: seq<AdvancedParticleProperties?>, payloads: seq<Payload>)
    requires |editors| == |effects| == |payloads|
    requires forall k :: 0 <= k < |editors| ==>
               editors[k] !in was && effects[k] == editors[k].properties
               && editors[k].Initial() && editors[k].properties.payload == payloads[k]
    ensures Shape(Restored(payloads), editors, effects, was, wasEffects)
    ensures StartsAfresh(Restored(payloads), editors)
  {
    var r := Restored(payloads);
    assert forall k :: 0 <= k < |r| ==> Placed(r[k], editors[k], effects[k], was, wasEffects) && Afresh(r[k], editors[k]);
    ShapeOfPlaced(r, editors, effects, was, wasEffects);
  }

  /** The lists as they stand realise the list with every entry kept. */
  lemma KeptAllShape(editors: seq<ParticlePropertiesEditor>, effects: seq<AdvancedParticleProperties?>)
    requires |editors| == |effects|
    ensures Shape(KeptAll(|editors|), editors, effects, editors, effects)
  {
    var r := KeptAll(|editors|);
    assert forall k :: 0 <= k < |r| ==> Placed(r[k], editors[k], effects[k], editors, effects);
    ShapeOfPlaced(r, editors, effects, editors, effects);
  }

  /** The records of a list of editors. */
  function Records(es: seq<ParticlePropertiesEditor>): (r: seq<AdvancedParticleProperties>)
    ensures |r| == |es| && forall k :: 0 <= k < |es| ==> r[k] == es[k].properties
  {
    seq(|es|, (k: int) requires 0 <= k < |es| => es[k].properties)
  }

  /** The payloads the records hold. */
  function PayloadsOf(rs: seq<AdvancedParticleProperties>): (r: seq<Payload>)
    reads set x | x in rs
    ensures |r| == |rs| && forall k :: 0 <= k < |rs| ==> r[k] == rs[k].payload
  {
    if rs == [] then [] else PayloadsOf(rs[..|rs| - 1]) + [rs[|rs| - 1].payload]
  }

  class ParticleEditor {
    const selectedBlock: Block?
    const backup: seq<AdvancedParticleProperties>
    const hash: HashCode
    var editors: seq<ParticlePropertiesEditor>
    var current: int
    var confirmRemoval: bool
    var confirmRestore: bool

    /**
     * One editor per effect of the block, and at most one of the two confirmations
     * pending at a time.
     */
    ghost predicate Valid()
      reads this`editors, this`confirmRemoval, this`confirmRestore, selectedBlock
    {
      && (selectedBlock == null ==> editors == [])
      && (selectedBlock != null ==>
            |editors| == (if selectedBlock.particleProperties == null then 0 else selectedBlock.particleProperties.Length))
      && !(confirmRemoval && confirmRestore)
    }

    /** The lists of this frame realise `entries` over the lists `was` and `wasEffects` of before. */
    ghost predicate Realises(entries: seq<Entry>, was: seq<ParticlePropertiesEditor>, wasEffects: seq<AdvancedParticleProperties?>)
      requires selectedBlock != null
      reads this`editors, selectedBlock, selectedBlock.particleProperties
    {
      Shape(entries, editors, Effects(selectedBlock), was, wasEffects)
    }

    /** The selector's state as values, with every entry kept. */
    function Start(): Selector
      reads this
    {
      Selector(KeptAll(|editors|), current, confirmRemoval, confirmRestore)
    }

    /**
     * The backup holds a clone of every effect, and the initial editors wrap those
     * clones, not the block's own records: edits made before a restore change the
     * backup copies.
     */
    constructor (block: Block?, hash: HashCode)
      requires block != null && block.particleProperties != null ==>
                 forall i :: 0 <= i < block.particleProperties.Length ==> block.particleProperties[i] != null
      ensures Valid() && selectedBlock == block && this.hash == hash
      ensures current == 0 && !confirmRemoval && !confirmRestore
      ensures block == null || block.particleProperties == null ==> backup == [] && editors == []
      ensures block != null && block.particleProperties != null ==>
                |backup| == block.particleProperties.Length && |editors| == |backup|
      ensures block != null && block.particleProperties != null ==>
                forall i :: 0 <= i < |backup| ==>
                  fresh(backup[i]) && backup[i].payload == block.particleProperties[i].payload
                  && backup[i] != block.particleProperties[i]
      ensures forall i :: 0 <= i < |editors| ==>
                fresh(editors[i]) && editors[i].properties == backup[i] && editors[i].Initial()
    {
      var clones: seq<AdvancedParticleProperties> := [];
      var wrappers: seq<ParticlePropertiesEditor> := [];
      if block != null && block.particleProperties != null {
        var a := block.particleProperties;
        var i := 0;
        while i < a.Length
          invariant 0 <= i <= a.Length && |clones| == i
          invariant forall j :: 0 <= j < i ==> fresh(clones[j]) && clones[j].payload == a[j].payload
        {
          var c := a[i].Clone();
          clones := clones + [c];
          i := i + 1;
        }
        i := 0;
        while i < |clones|
          invariant 0 <= i <= |clones| && |wrappers| == i
          invariant forall j :: 0 <= j < |clones| ==> clones[j].payload == a[j].payload
          invariant forall j :: 0 <= j < i ==>
                      fresh(wrappers[j]) && wrappers[j].properties == clones[j] && wrappers[j].Initial()
        {
          var e := new ParticlePropertiesEditor(clones[i], hash);
          wrappers := wrappers + [e];
          i := i + 1;
        }
      }
      selectedBlock := block;
      backup := clones;
      this.hash := hash;
      editors := wrappers;
      current := 0;
      confirmRemoval, confirmRestore := false, false;
    }

    /** Clamps the selected index into range; reports whether there is any effect. */
    method ValidateCurrentIndex() returns (nonEmpty: bool)
      modifies this`current
      ensures current == ClampedIndex(old(current), |editors|)
      ensures nonEmpty == (|editors| != 0)
    {
      if current >= |editors| {
        current := |editors| - 1;
      }
      if current < 0 {
        current := 0;
      }
      nonEmpty := |editors| != 0;
    }

    /** Appends one new default effect to both the editors and the block's array. */
    method AddEffect(ghost entries: seq<Entry>, ghost was: seq<ParticlePropertiesEditor>, ghost wasEffects: seq<AdvancedParticleProperties?>)
      requires Valid() && selectedBlock != null && Realises(entries, was, wasEffects)
      modifies this`editors, selectedBlock
      ensures Valid() && Realises(entries + [New(DefaultPayload)], was, wasEffects)
      ensures forall e :: e in editors ==> e in old(editors) || (fresh(e) && fresh(e.properties))
      ensures |editors| == |old(editors)| + 1 && editors[..|old(editors)|] == old(editors)
      ensures var e := editors[|editors| - 1];
              && fresh(e) && fresh(e.properties) && e.properties.payload == DefaultPayload && e.Initial()
              && selectedBlock.particleProperties != null && fresh(selectedBlock.particleProperties)
              && Effects(selectedBlock) == old(Effects(selectedBlock)) + [e.properties]
    {
      ghost var before, beforeEffects := editors, Effects(selectedBlock);
      var effect := new AdvancedParticleProperties();
      var e := new ParticlePropertiesEditor(effect, hash);
      editors := editors + [e];
      var a := NewEffectArray(Effects(selectedBlock) + [effect]);
      selectedBlock.particleProperties := a;
      ShapeAppend(entries, before, beforeEffects, was, wasEffects, New(DefaultPayload), e);
    }

    /** Deletes the selected effect from both sequences; nothing happens on an empty list. */
    method RemoveEffect(ghost entries: seq<Entry>, ghost was: seq<ParticlePropertiesEditor>, ghost wasEffects: seq<AdvancedParticleProperties?>)
      requires Valid() && selectedBlock != null && Realises(entries, was, wasEffects)
      modifies this`editors, this`current, selectedBlock
      ensures Valid()
      ensures forall e :: e in editors ==> e in old(editors)
      ensures old(editors) == [] ==>
                editors == [] && current == 0 && selectedBlock.particleProperties == old(selectedBlock.particleProperties)
                && Realises(entries, was, wasEffects)
      ensures old(editors) != [] ==>
                var k := ClampedIndex(old(current), |old(editors)|);
                && editors == RemoveAt(old(editors), k)
                && selectedBlock.particleProperties != null && fresh(selectedBlock.particleProperties)
                && Effects(selectedBlock) == RemoveAt(old(Effects(selectedBlock)), k)
                && current == ClampedIndex(k, |editors|)
                && Realises(RemoveAt(entries, k), was, wasEffects)
    {
      var nonEmpty := ValidateCurrentIndex();
      if nonEmpty {
        RemoveSelected(entries, was, wasEffects);
      }
    }

    /** RemoveEffect past its first index check: the list is not empty and the index is in range. */
    method RemoveSelected(ghost entries: seq<Entry>, ghost was: seq<ParticlePropertiesEditor>, ghost wasEffects: seq<AdvancedParticleProperties?>)
      requires Valid() && selectedBlock != null && Realises(entries, was, wasEffects)
      requires 0 <= current < |editors|
      modifies this`editors, this`current, selectedBlock
      ensures Valid()
      ensures forall e :: e in editors ==> e in old(editors)
      ensures editors == RemoveAt(old(editors), old(current))
      ensures selectedBlock.particleProperties != null && fresh(selectedBlock.particleProperties)
      ensures Effects(selectedBlock) == RemoveAt(old(Effects(selectedBlock)), old(current))
      ensures current == ClampedIndex(old(current), |editors|)
      ensures Realises(RemoveAt(entries, old(current)), was, wasEffects)
    {
      var effects := Effects(selectedBlock);
      ghost var editors0, k := editors, current;
      editors := RemoveAt(editors, current);
      var a := NewEffectArray(RemoveAt(effects, current));
      selectedBlock.particleProperties := a;
      var nonEmpty := ValidateCurrentIndex();
      ShapeRemoveAt(entries, editors0, effects, was, wasEffects, k);
    }

    /** Appends one clone of the selected effect; the same new record goes into both sequences. */
    method DuplicateEffect(
      ghost entries: seq<Entry>, ghost was: seq<ParticlePropertiesEditor>, ghost wasEffects: seq<AdvancedParticleProperties?>,
      ghost p: Payload)
      requires Valid() && selectedBlock != null && Realises(entries, was, wasEffects)
      requires editors != [] ==> p == editors[ClampedIndex(current, |editors|)].properties.payload
      requires StartsAfresh(entries, editors)
      modifies this`editors, this`current, selectedBlock
      ensures Valid()
      ensures forall e :: e in editors ==> e in old(editors) || (fresh(e) && fresh(e.properties))
      ensures current == ClampedIndex(old(current), |old(editors)|)
      ensures old(editors) == [] ==>
                editors == [] && selectedBlock.particleProperties == old(selectedBlock.particleProperties)
                && Realises(entries, was, wasEffects)
      ensures old(editors) != [] ==> |editors| == |old(editors)| + 1 && editors[..|old(editors)|] == old(editors)
      ensures old(editors) != [] ==>
                var d := editors[|editors| - 1];
                && fresh(d) && fresh(d.properties) && d.Initial()
                && d.properties.payload == editors[current].properties.payload
                && selectedBlock.particleProperties != null && fresh(selectedBlock.particleProperties)
                && Effects(selectedBlock) == old(Effects(selectedBlock)) + [d.properties]
                && Realises(entries + [New(p)], was, wasEffects)
                && StartsAfresh(entries + [New(p)], editors)
      ensures old(editors) == [] ==> StartsAfresh(entries, editors)
    {
      var nonEmpty := ValidateCurrentIndex();
      if !nonEmpty {
        return;
      }
      ghost var before, beforeEffects := editors, Effects(selectedBlock);
      var d := editors[current].Duplicate(hash);
      editors := editors + [d];
      var a := NewEffectArray(Effects(selectedBlock) + [d.properties]);
      selectedBlock.particleProperties := a;
      StartsAfreshAppend(entries, before, New(p), d);
      ShapeAppend(entries, before, beforeEffects, was, wasEffects, New(p), d);
    }

    /**
     * Fresh clones of the backup in a new array, and one new editor per clone,
     * wrapping exactly that clone.
     */
    method Rebuild() returns (a: array<AdvancedParticleProperties?>, wrappers: seq<ParticlePropertiesEditor>)
      ensures fresh(a) && a.Length == |backup| && |wrappers| == |backup|
      ensures forall i :: 0 <= i < |backup| ==>
                && a[i] != null && fresh(a[i]) && a[i].payload == backup[i].payload
                && fresh(wrappers[i]) && wrappers[i].properties == a[i] && wrappers[i].Initial()
    {
      var clones: seq<AdvancedParticleProperties?> := [];
      var i := 0;
      while i < |backup|
        invariant 0 <= i <= |backup| && |clones| == i
        invariant forall j :: 0 <= j < i ==> clones[j] != null && fresh(clones[j]) && clones[j].payload == backup[j].payload
      {
        var c := backup[i].Clone();
        clones := clones + [c];
        i := i + 1;
      }
      a := NewEffectArray(clones);
      wrappers := [];
      i := 0;
      while i < a.Length
        invariant 0 <= i <= a.Length && |wrappers| == i
        invariant forall j :: 0 <= j < |backup| ==> a[j] != null && fresh(a[j]) && a[j].payload == backup[j].payload
        invariant forall j :: 0 <= j < i ==>
                    fresh(wrappers[j]) && wrappers[j].properties == a[j] && wrappers[j].Initial()
      {
        var e := new ParticlePropertiesEditor(a[i], hash);
        wrappers := wrappers + [e];
        i := i + 1;
      }
    }

    /**
     * Replaces the block's effects by fresh clones of the backup and rebuilds the
     * editors, one per new entry and wrapping exactly that entry.
     */
    method RestoreAll(
      ghost was: seq<ParticlePropertiesEditor>, ghost wasEffects: seq<AdvancedParticleProperties?>, ghost bp: seq<Payload>)
      requires Valid() && selectedBlock != null && bp == PayloadsOf(backup)
      modifies this`editors, this`current, selectedBlock
      ensures Valid() && Realises(Restored(bp), was, wasEffects) && StartsAfresh(Restored(bp), editors)
      ensures forall e :: e in editors ==> fresh(e) && fresh(e.properties)
      ensures fresh(selectedBlock.particleProperties)
      ensures current == ClampedIndex(old(current), |backup|)
    {
      var a, wrappers := Rebuild();
      selectedBlock.particleProperties := a;
      editors := wrappers;
      var nonEmpty := ValidateCurrentIndex();
      RestoredShape(editors, Effects(selectedBlock), was, wasEffects, bp);
    }

    /** The index, the confirmations and the lists stand for `s` over the lists `was` and `wasEffects` of before. */
    ghost predicate Tracks(s: Selector, was: seq<ParticlePropertiesEditor>, wasEffects: seq<AdvancedParticleProperties?>)
      requires selectedBlock != null
      reads this`editors, this`current, this`confirmRemoval, this`confirmRestore, selectedBlock, selectedBlock.particleProperties
    {
      && current == s.current && confirmRemoval == s.confirmRemoval && confirmRestore == s.confirmRestore
      && Shape(s.entries, editors, Effects(selectedBlock), was, wasEffects)
    }

    /** Every record holds the payload its entry names. */
    ghost predicate Holds(entries: seq<Entry>, payloads: seq<Payload>)
      requires Refers(entries, |payloads|)
      reads this`editors, set e | e in editors :: e.properties
    {
      |entries| == |editors| &&
      forall k :: 0 <= k < |entries| ==> (assert entries[k] in entries; editors[k].properties.payload == EntryPayload(entries[k], payloads))
    }

    /** If the entry at the clamped index is new, its editor is in the initial state over that entry's payload. */
    ghost predicate NewShown(entries: seq<Entry>, prev: PrevValues)
      reads this`current, this`editors, set e | e in editors, set e | e in editors :: e.properties, prev
    {
      var k := ClampedIndex(current, |editors|);
      k < |editors| && k < |entries| && entries[k].New? ==> editors[k].StateOf(prev) == InitialState(entries[k].payload, prev.slots)
    }

    /** The editor of a new entry is in the initial state over that entry's payload and the shared table. */
    lemma AfreshState(entries: seq<Entry>, k: nat, prev: PrevValues)
      requires StartsAfresh(entries, editors) && k < |entries| && entries[k].New?
      ensures editors[k].StateOf(prev) == InitialState(entries[k].payload, prev.slots)
    {
      assert Afresh(entries[k], editors[k]);
      editors[k].InitialStateOf(prev);
    }

    /** The selector row: Add, Duplicate, Remove and Restore all, then the index widgets. */
    method EffectSelector(f: SelectorFrame, styles: Widgets.Styles, ghost prev: PrevValues) returns (ghost s': Selector)
      requires Valid() && selectedBlock != null
      modifies this, selectedBlock
      ensures Valid()
      ensures forall e :: e in editors ==> e in old(editors) || (fresh(e) && fresh(e.properties))
      ensures s' == SelectorStep(styles.Ready(), old(Start()), old(PayloadsOf(Records(editors))), old(PayloadsOf(backup)), f)
      ensures Tracks(s', old(editors), old(Effects(selectedBlock))) && StartsAfresh(s'.entries, editors)
      ensures prev.slots == old(prev.slots)
      ensures NewShown(s'.entries, prev)
    {
      ghost var s0 := Start();
      ghost var was, wasEffects := editors, Effects(selectedBlock);
      ghost var payloads, bp := PayloadsOf(Records(editors)), PayloadsOf(backup);
      KeptAllRefers(|editors|);
      KeptAllShape(editors, wasEffects);
      s' := SelectorRow(f, styles, s0, was, wasEffects, payloads, bp);
      ghost var k := ClampedIndex(current, |editors|);
      if k < |editors| && s'.entries[k].New? {
        AfreshState(s'.entries, k, prev);
      }
    }

    /** The row on the start state `s`, the payloads `payloads` of the records of before, and those of the backup. */
    method SelectorRow(
      f: SelectorFrame, styles: Widgets.Styles, ghost s: Selector,
      ghost was: seq<ParticlePropertiesEditor>, ghost wasEffects: seq<AdvancedParticleProperties?>,
      ghost payloads: seq<Payload>, ghost bp: seq<Payload>)
      returns (ghost s': Selector)
      requires Valid() && selectedBlock != null && |s.entries| == |editors|
      requires Refers(s.entries, |payloads|) && Tracks(s, was, wasEffects) && Holds(s.entries, payloads)
      requires bp == PayloadsOf(backup) && StartsAfresh(s.entries, editors)
      modifies this`editors, this`current, this`confirmRemoval, this`confirmRestore, selectedBlock
      ensures Valid() && s' == SelectorStep(styles.Ready(), s, payloads, bp, f) && Tracks(s', was, wasEffects)
      ensures StartsAfresh(s'.entries, editors)
      ensures forall e :: e in editors ==> e in old(editors) || (fresh(e) && fresh(e.properties))
    {
      var size := |editors|;
      ghost var s1 := AddButtons(f, size, s, was, wasEffects, payloads);
      ghost var s2;
      size, s2 := ConfirmButtons(f, styles, size, s1, was, wasEffects, bp);
      s' := IndexWidgets(f, size, s2, was, wasEffects);
    }

    /**
     * The index widgets, shown for a non-empty count. The count is not refreshed after
     * Add or Duplicate, so their bound may be stale.
     */
    method IndexWidgets(
      f: SelectorFrame, size: nat, ghost s: Selector,
      ghost was: seq<ParticlePropertiesEditor>, ghost wasEffects: seq<AdvancedParticleProperties?>)
      returns (ghost s': Selector)
      requires selectedBlock != null && Tracks(s, was, wasEffects) && StartsAfresh(s.entries, editors)
      modifies this`current
      ensures s' == IndexStep(s, size, f) && Tracks(s', was, wasEffects) && StartsAfresh(s'.entries, editors)
    {
      s' := IndexStep(s, size, f);
      if size == 0 {
        return;
      }
      if f.typed.Some? {
        current := f.typed.value;
      }
      if current >= size {
        current := size - 1;
      }
      if f.slid.Some? {
        current := f.slid.value;
      }
    }

    /** Add, and Duplicate when the list was not empty; both disabled while a confirmation is pending. */
    method AddButtons(
      f: SelectorFrame, size: nat, ghost s: Selector,
      ghost was: seq<ParticlePropertiesEditor>, ghost wasEffects: seq<AdvancedParticleProperties?>,
      ghost payloads: seq<Payload>)
      returns (ghost s': Selector)
      requires Valid() && selectedBlock != null && size == |s.entries|
      requires Refers(s.entries, |payloads|) && Tracks(s, was, wasEffects) && Holds(s.entries, payloads)
      requires StartsAfresh(s.entries, editors)
      modifies this`editors, this`current, selectedBlock
      ensures Valid() && s' == AddStep(s, size, payloads, f) && Tracks(s', was, wasEffects)
      ensures StartsAfresh(s'.entries, editors)
      ensures forall e :: e in editors ==> e in old(editors) || (fresh(e) && fresh(e.properties))
    {
      ghost var a := AddButton(f, s, was, wasEffects, payloads);
      s' := DuplicateButton(f, size, a, was, wasEffects, payloads);
    }

    /** Add, disabled while a confirmation is pending. */
    method AddButton(
      f: SelectorFrame, ghost s: Selector,
      ghost was: seq<ParticlePropertiesEditor>, ghost wasEffects: seq<AdvancedParticleProperties?>,
      ghost payloads: seq<Payload>)
      returns (ghost s': Selector)
      requires Valid() && selectedBlock != null
      requires Refers(s.entries, |payloads|) && Tracks(s, was, wasEffects) && Holds(s.entries, payloads)
      requires StartsAfresh(s.entries, editors)
      modifies this`editors, selectedBlock
      ensures Valid() && s' == AddPress(s, f) && Tracks(s', was, wasEffects)
      ensures Refers(s'.entries, |payloads|) && Holds(s'.entries, payloads) && StartsAfresh(s'.entries, editors)
      ensures forall e :: e in editors ==> e in old(editors) || (fresh(e) && fresh(e.properties))
    {
      s' := s;
      if !(confirmRemoval || confirmRestore) && f.add {
        ghost var eds := editors;
        AddEffect(s.entries, was, wasEffects);
        s' := s.(entries := s.entries + [New(DefaultPayload)]);
        assert editors == eds + [editors[|eds|]];
        StartsAfreshAppend(s.entries, eds, New(DefaultPayload), editors[|eds|]);
      }
    }

    /** Duplicate, shown for a positive count of before and disabled while a confirmation is pending. */
    method DuplicateButton(
      f: SelectorFrame, size: nat, ghost s: Selector,
      ghost was: seq<ParticlePropertiesEditor>, ghost wasEffects: seq<AdvancedParticleProperties?>,
      ghost payloads: seq<Payload>)
      returns (ghost s': Selector)
      requires Valid() && selectedBlock != null
      requires Refers(s.entries, |payloads|) && Tracks(s, was, wasEffects) && Holds(s.entries, payloads)
      requires StartsAfresh(s.entries, editors)
      modifies this`editors, this`current, selectedBlock
      ensures Valid() && s' == DuplicatePress(s, size, payloads, f) && Tracks(s', was, wasEffects)
      ensures StartsAfresh(s'.entries, editors)
      ensures forall e :: e in editors ==> e in old(editors) || (fresh(e) && fresh(e.properties))
    {
      s' := s;
      if size > 0 && !(confirmRemoval || confirmRestore) && f.duplicate {
        ghost var c := ClampedIndex(current, |editors|);
        ghost var p := DefaultPayload;
        if editors != [] {
          assert s.entries[c] in s.entries;
          p := EntryPayload(s.entries[c], payloads);
          s' := s.(entries := s.entries + [New(p)], current := c);
        } else {
          s' := s.(current := c);
        }
        DuplicateEffect(s.entries, was, wasEffects, p);
      }
    }

    /** The Remove and Restore all buttons; returns the count as refreshed after either action. */
    method ConfirmButtons(
      f: SelectorFrame, styles: Widgets.Styles, size: nat, ghost s: Selector,
      ghost was: seq<ParticlePropertiesEditor>, ghost wasEffects: seq<AdvancedParticleProperties?>,
      ghost bp: seq<Payload>)
      returns (size': nat, ghost s': Selector)
      requires Valid() && selectedBlock != null && Tracks(s, was, wasEffects) && bp == PayloadsOf(backup)
      requires StartsAfresh(s.entries, editors)
      modifies this`editors, this`current, this`confirmRemoval, this`confirmRestore, selectedBlock
      ensures Valid() && (s', size') == ConfirmStep(styles.Ready(), s, size, bp, f) && Tracks(s', was, wasEffects)
      ensures StartsAfresh(s'.entries, editors)
      ensures forall e :: e in editors ==> e in old(editors) || (fresh(e) && fresh(e.properties))
    {
      ghost var t;
      size', t := RemoveButton(f, styles, size, s, was, wasEffects);
      size', s' := RestoreButton(f, styles, size', t, was, wasEffects, bp);
    }

    /**
     * Remove, behind a confirmation: shown for a non-empty count, and its buttons are
     * disabled while Restore all awaits confirmation.
     */
    method RemoveButton(
      f: SelectorFrame, styles: Widgets.Styles, size: nat, ghost s: Selector,
      ghost was: seq<ParticlePropertiesEditor>, ghost wasEffects: seq<AdvancedParticleProperties?>)
      returns (size': nat, ghost s': Selector)
      requires Valid() && selectedBlock != null && Tracks(s, was, wasEffects) && StartsAfresh(s.entries, editors)
      modifies this`editors, this`current, this`confirmRemoval, selectedBlock
      ensures Valid() && (s', size') == RemoveButtonStep(styles.Ready(), s, size, f) && Tracks(s', was, wasEffects)
      ensures StartsAfresh(s'.entries, editors)
      ensures forall e :: e in editors ==> e in old(editors)
    {
      size', s' := size, s;
      if size > 0 {
        var presses := if confirmRestore then NoPresses else f.remove;
        var chosen;
        chosen, confirmRemoval := Widgets.ButtonWithConfirmation(styles, confirmRemoval, presses);
        s' := s.(confirmRemoval := confirmRemoval);
        if chosen {
          s' := RemoveConfirmed(s, was, wasEffects);
          size' := |editors|;
        }
      }
    }

    /** An accepted Remove: the flag is cleared before the removal, which does not read it. */
    method RemoveConfirmed(
      ghost s: Selector, ghost was: seq<ParticlePropertiesEditor>, ghost wasEffects: seq<AdvancedParticleProperties?>)
      returns (ghost s': Selector)
      requires Valid() && selectedBlock != null && Realises(s.entries, was, wasEffects) && StartsAfresh(s.entries, editors)
      requires current == s.current && confirmRestore == s.confirmRestore
      modifies this`editors, this`current, this`confirmRemoval, selectedBlock
      ensures Valid() && s' == RemoveStep(s).(confirmRemoval := false) && Tracks(s', was, wasEffects)
      ensures StartsAfresh(s'.entries, editors)
      ensures forall e :: e in editors ==> e in old(editors)
    {
      confirmRemoval := false;
      ghost var eds := editors;
      RemoveEffect(s.entries, was, wasEffects);
      if eds != [] {
        StartsAfreshRemoveAt(s.entries, eds, ClampedIndex(s.current, |eds|));
      }
      s' := RemoveStep(s).(confirmRemoval := false);
    }

    /** Restore all, behind a confirmation, hidden while Remove awaits confirmation. */
    method RestoreButton(
      f: SelectorFrame, styles: Widgets.Styles, size: nat, ghost s: Selector,
      ghost was: seq<ParticlePropertiesEditor>, ghost wasEffects: seq<AdvancedParticleProperties?>,
      ghost bp: seq<Payload>)
      returns (size': nat, ghost s': Selector)
      requires Valid() && selectedBlock != null && Tracks(s, was, wasEffects) && bp == PayloadsOf(backup)
      requires StartsAfresh(s.entries, editors)
      modifies this`editors, this`current, this`confirmRestore, selectedBlock
      ensures Valid() && (s', size') == RestoreButtonStep(styles.Ready(), s, size, bp, f) && Tracks(s', was, wasEffects)
      ensures StartsAfresh(s'.entries, editors)
      ensures forall e :: e in editors ==> e in old(editors) || (fresh(e) && fresh(e.properties))
    {
      size', s' := size, s;
      if !confirmRemoval && size > 0 {
        var chosen;
        chosen, confirmRestore := Widgets.ButtonWithConfirmation(styles, confirmRestore, f.restoreAll);
        s' := s.(confirmRestore := confirmRestore);
        if chosen {
          s' := RestoreConfirmed(s, was, wasEffects, bp);
          size' := |editors|;
        }
      }
    }

    /** An accepted Restore all: the flag is cleared before the rebuild, which does not read it. */
    method RestoreConfirmed(
      ghost s: Selector, ghost was: seq<ParticlePropertiesEditor>, ghost wasEffects: seq<AdvancedParticleProperties?>,
      ghost bp: seq<Payload>)
      returns (ghost s': Selector)
      requires Valid() && selectedBlock != null && bp == PayloadsOf(backup)
      requires current == s.current && confirmRemoval == s.confirmRemoval
      modifies this`editors, this`current, this`confirmRestore, selectedBlock
      ensures Valid() && s' == RestoreStep(s, bp).(confirmRestore := false) && Tracks(s', was, wasEffects)
      ensures StartsAfresh(s'.entries, editors)
      ensures forall e :: e in editors ==> fresh(e) && fresh(e.properties)
    {
      confirmRestore := false;
      RestoreAll(was, wasEffects, bp);
      s' := RestoreStep(s, bp).(confirmRestore := false);
    }

    /**
     * Draws the selected effect's editor, only after the index has been validated: that
     * editor takes one DrawStep, and no other editor and no other record changes.
     */
    method DrawParticleEditor(
      f: PropertiesFrame, styles: Widgets.Styles, prev: PrevValues, ghost s: Selector,
      ghost was: seq<ParticlePropertiesEditor>, ghost wasEffects: seq<AdvancedParticleProperties?>)
      returns (ghost shown: EditorState)
      requires Valid() && selectedBlock != null && Tracks(s, was, wasEffects)
      requires NewShown(s.entries, prev)
      modifies this`current, set e | e in editors, set e | e in editors :: e.properties, prev
      ensures Valid() && current == ClampedIndex(old(current), |editors|)
      ensures Tracks(s.(current := current), was, wasEffects)
      ensures editors == [] ==> prev.slots == old(prev.slots)
      ensures editors != [] ==>
                var e := editors[current];
                && shown == old(editors[ClampedIndex(current, |editors|)].StateOf(prev))
                && e.StateOf(prev) == DrawStep(shown, e.backup, e.id, styles.Ready(), f).0
                && (s.entries[current].New? ==> shown == InitialState(s.entries[current].payload, old(prev.slots)))
      ensures editors != [] ==>
                forall k :: 0 <= k < |editors| && editors[k] != editors[current] ==> unchanged(editors[k])
      ensures editors != [] ==>
                forall k :: 0 <= k < |editors| && editors[k].properties != editors[current].properties ==>
                  unchanged(editors[k].properties)
    {
      shown := InitialState(DefaultPayload, map[]);
      var nonEmpty := ValidateCurrentIndex();
      if !nonEmpty {
        return;
      }
      shown := editors[current].StateOf(prev);
      var modified := editors[current].Draw(f, styles, prev);
    }

    /**
     * One frame of the editor window; nothing is drawn without a block. With a block,
     * the selector row takes its SelectorStep, the index is validated, and the selected
     * editor takes one DrawStep from `shown`, the state it is in after the selector row:
     * for an editor built this frame, the initial state over its entry's payload.
     */
    method Draw(f: EditorFrame, styles: Widgets.Styles, prev: PrevValues) returns (ghost sel: Selector, ghost shown: EditorState)
      requires Valid()
      modifies this, selectedBlock, set e | e in editors, set e | e in editors :: e.properties, prev
      ensures Valid()
      ensures selectedBlock == null ==>
                current == old(current) && editors == old(editors) && prev.slots == old(prev.slots)
                && confirmRemoval == old(confirmRemoval) && confirmRestore == old(confirmRestore)
      ensures selectedBlock != null ==>
                && sel == SelectorStep(styles.Ready(), old(Start()), old(PayloadsOf(Records(editors))),
                                       old(PayloadsOf(backup)), f.selector)
                && current == ClampedIndex(sel.current, |editors|)
                && Tracks(sel.(current := current), old(editors), old(Effects(selectedBlock)))
      ensures selectedBlock != null && editors != [] ==>
                var e := editors[current];
                && e.StateOf(prev) == DrawStep(shown, e.backup, e.id, styles.Ready(), f.effect).0
                && (sel.entries[current].New? ==> shown == InitialState(sel.entries[current].payload, old(prev.slots)))
    {
      shown := InitialState(DefaultPayload, map[]);
      sel := Start();
      if selectedBlock == null {
        return;
      }
      ghost var was, wasEffects := editors, Effects(selectedBlock);
      sel := EffectSelector(f.selector, styles, prev);
      shown := DrawParticleEditor(f.effect, styles, prev, sel, was, wasEffects);
    }
  }
}
