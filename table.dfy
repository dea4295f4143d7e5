/** A table of entries the user can browse and, if allowed, edit, delete or
    extend. The entries are kept like the options of a selection: a growable
    list until `setEntries` replaces it by a fixed-size view of the caller's
    array. `create` builds the middleware repeat, with one ban for each
    permission flag that is off. */
module Tables {
  import opened Common
  import opened Controls
  import opened Selects

  /** The middleware `Repeat` that `create` builds (the group wrapping it is
      not modelled separately): group, label, reference, data (null when
      there are no entries) and the three bans. */
  datatype RepeatModel = RepeatModel(group: Obj, labelText: Option<string>, ref: seq<string>, data: Option<seq<Obj>>,
                                     banDeletion: bool, banEdit: bool, banAddition: bool)

  /** The run-time class of a control handed to `add`. */
  datatype ControlKind = SubmitCmdKind | DataTableKind | OtherControlKind

  /** A repeat lets the user delete, edit or add entries exactly when the
      matching flag was set at `create`. */
  predicate AllowsDeletion(r: RepeatModel) { !r.banDeletion }
  predicate AllowsEdit(r: RepeatModel) { !r.banEdit }
  predicate AllowsAddition(r: RepeatModel) { !r.banAddition }

  class DataTable {
    const ctrl: Control
    var list: seq<Obj>
    /** After `setEntries`, the caller's array behind the fixed-size list. */
    var view: array?<Obj>
    var deletable: bool
    var editable: bool
    var expandable: bool
    var model: Option<RepeatModel>

    /** The entries the table currently has. */
    function Entries(): seq<Obj>
      reads this, view
    {
      if view != null then view[..] else list
    }

    /** `DataTable()`, `DataTable(ref)` and `DataTable(ref, label)`: no
        entries, and nothing is allowed. */
    constructor (reference: Option<string>, withLabel: Option<string>)
      ensures fresh(ctrl)
      ensures ctrl.ref == (if reference.Some? then Some([reference.value]) else None) && ctrl.labelText == withLabel
      ensures Entries() == [] && view == null && model.None?
      ensures !deletable && !editable && !expandable
    {
      ctrl := new Control(reference, withLabel);
      list := [];
      view := null;
      deletable, editable, expandable := false, false, false;
      model := None;
    }

    /** `DataTable(label, initialEntries)` for a non-null array: no reference. */
    constructor WithEntries(withLabel: string, initialEntries: array<Obj>)
      ensures fresh(ctrl)
      ensures ctrl.ref.None? && ctrl.labelText == Some(withLabel)
      ensures view == initialEntries && Entries() == initialEntries[..] && model.None?
      ensures !deletable && !editable && !expandable
    {
      ctrl := new Control(None, Some(withLabel));
      list := [];
      view := initialEntries;
      deletable, editable, expandable := false, false, false;
      model := None;
    }

    method SetDeletable(deletable: bool)
      modifies this
      ensures this.deletable == deletable && editable == old(editable) && expandable == old(expandable)
      ensures list == old(list) && view == old(view) && model == old(model)
    {
      this.deletable := deletable;
    }

    method SetEditable(editable: bool)
      modifies this
      ensures this.editable == editable && deletable == old(deletable) && expandable == old(expandable)
      ensures list == old(list) && view == old(view) && model == old(model)
    {
      this.editable := editable;
    }

    method SetExpandable(expandable: bool)
      modifies this
      ensures this.expandable == expandable && deletable == old(deletable) && editable == old(editable)
      ensures list == old(list) && view == old(view) && model == old(model)
    {
      this.expandable := expandable;
    }

    /** `addEntry`: one more entry at the end. The fixed-size list left by
        `setEntries` refuses with an UnsupportedOperationException. */
    method AddEntry(entry: Obj) returns (r: Result<()>)
      modifies this
      ensures view == old(view) && model == old(model)
      ensures deletable == old(deletable) && editable == old(editable) && expandable == old(expandable)
      ensures r.Ok? <==> view == null
      ensures r.Thrown? ==> r.error == UnsupportedOperation && list == old(list)
      ensures r.Ok? ==> Entries() == old(Entries()) + [entry]
    {
      if view != null {
        return Thrown(UnsupportedOperation);
      }
      list := list + [entry];
      return Ok(());
    }

    /** `setEntries`: the entries become the given array itself; a null
        array throws a NullPointerException. */
    method SetEntries(entries: array?<Obj>) returns (r: Result<()>)
      modifies this
      ensures r.Thrown? <==> entries == null
      ensures r.Thrown? ==> r.error == NullPointer && view == old(view) && list == old(list)
      ensures r.Ok? ==> view == entries && Entries() == entries[..]
      ensures deletable == old(deletable) && editable == old(editable) && expandable == old(expandable)
      ensures model == old(model)
    {
      if entries == null {
        return Thrown(NullPointer);
      }
      view := entries;
      return Ok(());
    }

    /** `getEntries`: a fresh array of the entries in order, or null when
        there are none. */
    method GetEntries() returns (res: array?<Obj>)
      ensures res == null <==> Entries() == []
      ensures res != null ==> fresh(res) && res[..] == Entries()
    {
      var entries := Entries();
      if entries == [] {
        return null;
      }
      res := new Obj[|entries|](_ => Ind(0));
      var i := 0;
      while i < |entries|
        invariant 0 <= i <= |entries|
        invariant res[..i] == entries[..i]
      {
        res[i] := entries[i];
        i := i + 1;
      }
    }

    /** `create`: the reference is generated when none is set, and each ban
        is applied exactly when its permission flag is off. */
    method Create(group: Obj, freshId: string) returns (r: seq<string>)
      modifies this, ctrl
      ensures ctrl.ref == Some(ReferenceOrFresh(old(ctrl.ref), freshId)) && r == ctrl.ref.value
      ensures ctrl.labelText == old(ctrl.labelText) && ctrl.help == old(ctrl.help) && ctrl.hint == old(ctrl.hint)
      ensures list == old(list) && view == old(view)
      ensures deletable == old(deletable) && editable == old(editable) && expandable == old(expandable)
      ensures model.Some? && model.value.ref == r && model.value.group == group
      ensures model.value.labelText == ctrl.labelText
      ensures model.value.data == NullIfEmpty(Entries())
      ensures AllowsDeletion(model.value) <==> deletable
      ensures AllowsEdit(model.value) <==> editable
      ensures AllowsAddition(model.value) <==> expandable
    {
      ctrl.EnsureReference(freshId);
      var entries := Entries();
      var rep := RepeatModel(group, ctrl.labelText, ctrl.ref.value, if entries == [] then None else Some(entries),
                             false, false, false);
      if !deletable {
        rep := rep.(banDeletion := true);
      }
      if !editable {
        rep := rep.(banEdit := true);
      }
      if !expandable {
        rep := rep.(banAddition := true);
      }
      model := Some(rep);
      return ctrl.ref.value;
    }

    /** `add(ctrl)`: a submit command or another table is refused with null;
        any other control is created inside this table's model (null before
        this table's own `create`). That control's `create` is the parameter
        `createIn`. */
    method Add(kind: ControlKind, createIn: Option<RepeatModel> -> seq<string>) returns (r: Option<seq<string>>)
      ensures kind.SubmitCmdKind? || kind.DataTableKind? ==> r.None?
      ensures kind.OtherControlKind? ==> r == Some(createIn(model))
    {
      if kind.SubmitCmdKind? || kind.DataTableKind? {
        return None;
      }
      return Some(createIn(model));
    }
  }
}
