/** The pin list of `components/annotation-layer.tsx`: clicks add pins while annotation
    mode is on, a pin's label can be edited and saved, and pins can be deleted one id
    at a time or all at once. The click time that `Date.now()` supplies for the new
    id is a parameter. */
module AnnotationLayer {
  import opened Seqs
  import opened Text

  datatype Annotation = Annotation(id: string, x: real, y: real, labelText: string, color: string)

  const NewLabel: string := "New Label"
  const PinColor: string := "#9B59B6"

  /** The pin a click adds, at the click's offset inside the layer. */
  function NewPin(now: nat, x: real, y: real): (a: Annotation)
    ensures a.id == NatToString(now) && a.x == x && a.y == y
    ensures a.labelText == NewLabel && a.color == PinColor
  {
    Annotation(NatToString(now), x, y, NewLabel, PinColor)
  }

  /** `map(ann => ann.id === id ? { ...ann, label } : ann)`. */
  function Relabel(annotations: seq<Annotation>, id: string, newLabel: string): (r: seq<Annotation>)
    ensures |r| == |annotations|
    ensures forall k :: 0 <= k < |r| ==>
      r[k].id == annotations[k].id && r[k].x == annotations[k].x && r[k].y == annotations[k].y && r[k].color == annotations[k].color
    ensures forall k :: 0 <= k < |r| && annotations[k].id == id ==> r[k].labelText == newLabel
    ensures forall k :: 0 <= k < |r| && annotations[k].id != id ==> r[k] == annotations[k]
  {
    seq(|annotations|, (k: int) requires 0 <= k < |annotations| =>
      if annotations[k].id == id then annotations[k].(labelText := newLabel) else annotations[k])
  }

  /** The filter callback of the delete handler. */
  function OtherThan(id: string): Annotation -> bool
  {
    (a: Annotation) => a.id != id
  }

  function Ids(annotations: seq<Annotation>): (ids: set<string>)
    ensures forall k :: 0 <= k < |annotations| ==> annotations[k].id in ids
    ensures forall i :: i in ids ==> exists k :: 0 <= k < |annotations| && annotations[k].id == i
  {
    set k | 0 <= k < |annotations| :: annotations[k].id
  }

  /** Deleting removes every pin with that id and only those, keeping the others' order. */
  lemma DeleteRemovesExactly(annotations: seq<Annotation>, id: string)
    ensures id !in Ids(Filter(annotations, OtherThan(id)))
    ensures forall k :: 0 <= k < |annotations| && annotations[k].id != id ==> annotations[k] in Filter(annotations, OtherThan(id))
    ensures IsSubsequence(Filter(annotations, OtherThan(id)), annotations)
  {
    var r := Filter(annotations, OtherThan(id));
    FilterIsSubsequence(annotations, OtherThan(id));
    forall k | 0 <= k < |r|
      ensures r[k].id != id
    {
      assert OtherThan(id)(r[k]);
    }
    forall k | 0 <= k < |annotations| && annotations[k].id != id
      ensures annotations[k] in r
    {
      assert OtherThan(id)(annotations[k]);
    }
  }

  /** Deleting a pin just added with a fresh id gives back the earlier list. */
  lemma DeleteUndoesAdd(annotations: seq<Annotation>, pin: Annotation)
    requires pin.id !in Ids(annotations)
    ensures Filter(annotations + [pin], OtherThan(pin.id)) == annotations
  {
    var keep := OtherThan(pin.id);
    FilterAppend(annotations, [pin], keep);
    forall j | 0 <= j < |annotations|
      ensures keep(annotations[j])
    {
      assert annotations[j].id in Ids(annotations);
    }
    FilterAll(annotations, keep);
    assert [pin][1..] == [];
  }

  /** Saving the same label twice changes nothing the second time. */
  lemma {:induction false} RelabelIdempotent(annotations: seq<Annotation>, id: string, newLabel: string)
    ensures Relabel(Relabel(annotations, id, newLabel), id, newLabel) == Relabel(annotations, id, newLabel)
  {
    var once := Relabel(annotations, id, newLabel);
    var twice := Relabel(once, id, newLabel);
    forall k | 0 <= k < |annotations|
      ensures twice[k] == once[k]
    {
      if annotations[k].id == id {
        assert once[k].id == id;
        assert twice[k] == once[k].(labelText := newLabel);
      }
    }
  }

  class Layer {
    /** The `isActive` prop, handed down from the page's annotation toggle. */
    var isActive: bool
    var annotations: seq<Annotation>
    var editingId: Option<string>
    var editLabel: string

    constructor (isActive: bool)
      ensures this.isActive == isActive && annotations == [] && editingId == None && editLabel == ""
    {
      this.isActive := isActive;
      annotations := [];
      editingId := None;
      editLabel := "";
    }

    /** The list panel and its heading are shown only for a non-empty list. */
    predicate ShowsList()
      reads this
    {
      |annotations| > 0
    }

    function Heading(): (h: string)
      reads this
      ensures h == "Annotations (" + NatToString(|annotations|) + ")"
      ensures ParseNat(h[|"Annotations ("|..|h| - 1]) == |annotations|
    {
      var count := NatToString(|annotations|);
      var h := "Annotations (" + count + ")";
      assert h[|"Annotations ("|..|h| - 1] == count;
      ParseNatToString(|annotations|);
      h
    }

    /** A new `isActive` prop from the page's annotation switch. The pins and the editor
        are kept; only whether clicks are taken and whether the layer lets pointer
        events through changes. */
    method SetActive(active: bool)
      modifies this
      ensures isActive == active
      ensures annotations == old(annotations) && editingId == old(editingId) && editLabel == old(editLabel)
    {
      isActive := active;
    }

    /** A click that reaches the canvas at client point (clientX, clientY), with the
        layer's box at (left, top), at time `now`: on an empty spot, on a pin or its label,
        or in the label field, none of which stop the click on its way up. */
    method Click(now: nat, clientX: real, clientY: real, left: real, top: real)
      modifies this
      ensures !old(isActive) ==>
        annotations == old(annotations) && editingId == old(editingId) && editLabel == old(editLabel)
      ensures old(isActive) ==>
        annotations == old(annotations) + [NewPin(now, clientX - left, clientY - top)] &&
        editingId == Some(NatToString(now)) && editLabel == NewLabel
      ensures isActive == old(isActive)
    {
      if !isActive {
        return;
      }
      var pin := NewPin(now, clientX - left, clientY - top);
      annotations := annotations + [pin];
      editingId := Some(pin.id);
      editLabel := pin.labelText;
    }

    /** Typing in the label field. */
    method Type(text: string)
      modifies this
      ensures editLabel == text
      ensures isActive == old(isActive) && annotations == old(annotations) && editingId == old(editingId)
    {
      editLabel := text;
    }

    /** Enter in the label field. A Save button that stopped the click from reaching the
        canvas, as the Edit and delete buttons do, would do the same. */
    method SaveLabel(id: string)
      modifies this
      ensures annotations == Relabel(old(annotations), id, old(editLabel))
      ensures editingId == None && editLabel == ""
      ensures isActive == old(isActive)
    {
      annotations := Relabel(annotations, id, editLabel);
      editingId := None;
      editLabel := "";
    }

    /** The Edit button of a shown pin. It sits inside the canvas, which passes pointer
        events only while annotation mode is on, so it can be pressed only then. */
    method Edit(pin: Annotation)
      requires isActive && pin in annotations
      modifies this
      ensures editingId == Some(pin.id) && editLabel == pin.labelText
      ensures isActive == old(isActive) && annotations == old(annotations)
    {
      editingId := Some(pin.id);
      editLabel := pin.labelText;
    }

    /** Escape in the label field: the typed text stays in `editLabel`. */
    method CancelEdit()
      modifies this
      ensures editingId == None
      ensures isActive == old(isActive) && annotations == old(annotations) && editLabel == old(editLabel)
    {
      editingId := None;
    }

    /** The Save button, pressed at client point (clientX, clientY) at time `now`. It does
        not stop the click, so after `handleSaveLabel` the canvas handler runs in the same
        event. Both take the list from the same render and the canvas handler sets it last:
        the relabel is lost, a new pin appears under the button and its editor opens. The
        button can be pressed only while annotation mode is on. */
    method SaveButton(id: string, now: nat, clientX: real, clientY: real, left: real, top: real)
      requires isActive
      modifies this
      ensures annotations == old(annotations) + [NewPin(now, clientX - left, clientY - top)]
      ensures editingId == Some(NatToString(now)) && editLabel == NewLabel
      ensures isActive
    {
      var rendered := annotations;
      annotations := Relabel(rendered, id, editLabel);
      editingId := None;
      editLabel := "";
      var pin := NewPin(now, clientX - left, clientY - top);
      annotations := rendered + [pin];
      editingId := Some(pin.id);
      editLabel := pin.labelText;
    }

    /** The Cancel button: it closes the editor, then the click reaches the canvas, which
        adds a pin under the button and opens that pin's editor. */
    method CancelButton(now: nat, clientX: real, clientY: real, left: real, top: real)
      requires isActive
      modifies this
      ensures annotations == old(annotations) + [NewPin(now, clientX - left, clientY - top)]
      ensures editingId == Some(NatToString(now)) && editLabel == NewLabel
      ensures isActive
    {
      var rendered := annotations;
      editingId := None;
      var pin := NewPin(now, clientX - left, clientY - top);
      annotations := rendered + [pin];
      editingId := Some(pin.id);
      editLabel := pin.labelText;
    }

    /** The delete buttons, on the pin and in the list. */
    method Delete(id: string)
      modifies this
      ensures annotations == Filter(old(annotations), OtherThan(id))
      ensures isActive == old(isActive) && editingId == old(editingId) && editLabel == old(editLabel)
    {
      annotations := Filter(annotations, OtherThan(id));
    }

    method ClearAll()
      modifies this
      ensures annotations == []
      ensures isActive == old(isActive) && editingId == old(editingId) && editLabel == old(editLabel)
    {
      annotations := [];
    }
  }

  /** A pin placed, renamed and saved with Enter: one pin with the typed label at the
      click offset, and the editor closed. */
  method PlaceAndName(now: nat, x: real, y: real, text: string) returns (pins: seq<Annotation>, editing: Option<string>, heading: string)
    ensures pins == [Annotation(NatToString(now), x, y, text, PinColor)]
    ensures editing == None
    ensures heading == "Annotations (1)"
  {
    var layer := new Layer(true);
    layer.Click(now, x + 10.0, y + 20.0, 10.0, 20.0);
    layer.Type(text);
    layer.SaveLabel(NatToString(now));
    pins, editing, heading := layer.annotations, layer.editingId, layer.Heading();
  }

  /** A pin placed at `t1`, renamed and saved with the Save button at `t2`: the typed label
      is lost, a second pin sits under the button, and its editor is open. */
  method PlaceAndSaveWithButton(t1: nat, t2: nat, x: real, y: real, px: real, py: real, text: string)
    returns (pins: seq<Annotation>, editing: Option<string>)
    ensures pins == [NewPin(t1, x, y), NewPin(t2, px, py)]
    ensures forall k :: 0 <= k < |pins| ==> pins[k].labelText == NewLabel
    ensures editing == Some(NatToString(t2))
  {
    var layer := new Layer(true);
    layer.Click(t1, x, y, 0.0, 0.0);
    layer.Type(text);
    layer.SaveButton(NatToString(t1), t2, px, py, 0.0, 0.0);
    pins, editing := layer.annotations, layer.editingId;
  }

  /** A pin placed and its editor closed with Escape: the pin stays, labelled "New Label". */
  method PlaceAndEscape(now: nat, x: real, y: real, text: string) returns (pins: seq<Annotation>, editing: Option<string>)
    ensures pins == [NewPin(now, x, y)] && editing == None
  {
    var layer := new Layer(true);
    layer.Click(now, x, y, 0.0, 0.0);
    layer.Type(text);
    layer.CancelEdit();
    pins, editing := layer.annotations, layer.editingId;
  }

  /** A pin placed at `t1` and its editor closed with the Cancel button at `t2`: a second
      pin sits under the button, and its editor is open. */
  method PlaceAndCancelWithButton(t1: nat, t2: nat, x: real, y: real, px: real, py: real)
    returns (pins: seq<Annotation>, editing: Option<string>)
    ensures pins == [NewPin(t1, x, y), NewPin(t2, px, py)] && editing == Some(NatToString(t2))
  {
    var layer := new Layer(true);
    layer.Click(t1, x, y, 0.0, 0.0);
    layer.CancelButton(t2, px, py, 0.0, 0.0);
    pins, editing := layer.annotations, layer.editingId;
  }

  /** While annotation mode is off a click adds nothing and opens no editor. */
  method InactiveClickIgnored(now: nat, x: real, y: real) returns (pins: seq<Annotation>, editing: Option<string>, shown: bool)
    ensures pins == [] && editing == None && !shown
  {
    var layer := new Layer(false);
    layer.Click(now, x, y, 0.0, 0.0);
    pins, editing, shown := layer.annotations, layer.editingId, layer.ShowsList();
  }

  /** Two pins at different times; deleting the first leaves only the second. */
  method DeleteFirstKeepsSecond(t1: nat, t2: nat) returns (pins: seq<Annotation>)
    requires t1 != t2
    ensures pins == [NewPin(t2, 5.0, 6.0)]
  {
    var layer := new Layer(true);
    layer.Click(t1, 1.0, 2.0, 0.0, 0.0);
    layer.Click(t2, 5.0, 6.0, 0.0, 0.0);
    ParseNatToString(t1);
    ParseNatToString(t2);
    var first := NewPin(t1, 1.0, 2.0);
    var second := NewPin(t2, 5.0, 6.0);
    assert layer.annotations == [first] + [second];
    FilterAppend([first], [second], OtherThan(first.id));
    assert [first][1..] == [] && [second][1..] == [];
    layer.Delete(first.id);
    pins := layer.annotations;
  }
}
