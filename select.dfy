/** Multiple and single selection controls. The options are kept in a growable
    list until `setOptions` replaces that list by a fixed-size view of the
    caller's array (`Arrays.asList`): from then on the options are that
    array's current contents and `addOption` is refused. `create` builds the
    middleware selection with the option at the initial index, if one is set. */
module Selects {
  import opened Common
  import opened Controls

  /** The middleware `Select` (or `Select1` when `single`) that `create`
      builds: its group, label, reference, initial value and choices (null
      when there are no options). */
  datatype SelectModel = SelectModel(single: bool, group: Obj, labelText: Option<string>, ref: seq<string>,
                                     initial: Option<string>, choices: Option<seq<string>>)

  /** `initialValue != null ? getOptions()[initialValue] : null`: with no
      options `getOptions()` is null, so indexing it throws a
      NullPointerException; an index outside the options throws an
      ArrayIndexOutOfBoundsException. */
  function InitialChoice(options: seq<string>, index: Option<int32>): (r: Result<Option<string>>)
    ensures index.None? ==> r == Ok(None)
    ensures index.Some? && options == [] ==> r == Thrown(NullPointer)
    ensures index.Some? && options != [] && !(0 <= index.value as int < |options|) ==> r == Thrown(IndexOutOfBounds)
    ensures r.Ok? && r.value.Some? ==> index.Some? && r.value.value == options[index.value]
  {
    match index
    case None => Ok(None)
    case Some(i) =>
      if options == [] then Thrown(NullPointer)
      else if 0 <= i as int < |options| then Ok(Some(options[i]))
      else Thrown(IndexOutOfBounds)
  }

  /** The three outcomes are exclusive and cover every index: no initial
      value, the option at a valid index, or an exception. */
  lemma InitialChoiceCases(options: seq<string>, index: Option<int32>)
    ensures InitialChoice(options, index) == Ok(None) <==> index.None?
    ensures InitialChoice(options, index).Ok? <==> index.None? || 0 <= index.value as int < |options|
    ensures InitialChoice(options, index).Ok? && index.Some? ==>
              InitialChoice(options, index).value.value in options
  {
  }

  /** `getOptions` and `getEntries`: null for an empty list. */
  function NullIfEmpty<T>(s: seq<T>): (r: Option<seq<T>>)
    ensures r.None? <==> s == []
    ensures r.Some? ==> r.value == s
  {
    if s == [] then None else Some(s)
  }

  class SelectMulti {
    const ctrl: Control
    /** The growable list, used until `setOptions` is called. */
    var list: seq<string>
    /** After `setOptions`, the caller's array behind the fixed-size list. */
    var view: array?<string>
    var initialIndex: Option<int32>
    var model: Option<SelectModel>

    /** The options the control currently has. */
    function Options(): seq<string>
      reads this, view
    {
      if view != null then view[..] else list
    }

    /** `SelectMulti()`, `SelectMulti(ref)` and `SelectMulti(ref, label)`. */
    constructor (reference: Option<string>, withLabel: Option<string>)
      ensures fresh(ctrl)
      ensures ctrl.ref == (if reference.Some? then Some([reference.value]) else None) && ctrl.labelText == withLabel
      ensures Options() == [] && view == null && initialIndex.None? && model.None?
    {
      ctrl := new Control(reference, withLabel);
      list := [];
      view := null;
      initialIndex := None;
      model := None;
    }

    /** `SelectMulti(ref, label, initialOptions)` for a non-null array. */
    constructor WithOptions(reference: Option<string>, withLabel: string, initialOptions: array<string>)
      ensures fresh(ctrl)
      ensures ctrl.ref == (if reference.Some? then Some([reference.value]) else None)
      ensures ctrl.labelText == Some(withLabel)
      ensures view == initialOptions && Options() == initialOptions[..]
      ensures initialIndex.None? && model.None?
    {
      ctrl := new Control(reference, Some(withLabel));
      list := [];
      view := initialOptions;
      initialIndex := None;
      model := None;
    }

    function GetInitialIndex(): Option<int32>
      reads this
    {
      initialIndex
    }

    method SetInitialIndex(initialIndex: Option<int32>)
      modifies this
      ensures GetInitialIndex() == initialIndex
      ensures list == old(list) && view == old(view) && model == old(model)
    {
      this.initialIndex := initialIndex;
    }

    /** `addOption`: appends to the growable list; the fixed-size list left by
        `setOptions` refuses with an UnsupportedOperationException. */
    method AddOption(option: string) returns (r: Result<()>)
      modifies this
      ensures view == old(view) && initialIndex == old(initialIndex) && model == old(model)
      ensures r.Ok? <==> view == null
      ensures r.Thrown? ==> r.error == UnsupportedOperation && list == old(list)
      ensures r.Ok? ==> Options() == old(Options()) + [option]
    {
      if view != null {
        return Thrown(UnsupportedOperation);
      }
      list := list + [option];
      return Ok(());
    }

    /** `setOptions`: every earlier option is dropped; the options become the
        given array itself. A null array throws a NullPointerException. */
    method SetOptions(options: array?<string>) returns (r: Result<()>)
      modifies this
      ensures r.Thrown? <==> options == null
      ensures r.Thrown? ==> r.error == NullPointer && view == old(view) && list == old(list)
      ensures r.Ok? ==> view == options && Options() == options[..]
      ensures initialIndex == old(initialIndex) && model == old(model)
    {
      if options == null {
        return Thrown(NullPointer);
      }
      view := options;
      return Ok(());
    }

    /** `getOptions`: a fresh array holding the options in order, or null
        when there are none. */
    method GetOptions() returns (res: array?<string>)
      ensures res == null <==> Options() == []
      ensures res != null ==> fresh(res) && res[..] == Options()
    {
      var opts := Options();
      if opts == [] {
        return null;
      }
      res := new string[|opts|];
      var i := 0;
      while i < |opts|
        invariant 0 <= i <= |opts|
        invariant res[..i] == opts[..i]
      {
        res[i] := opts[i];
        i := i + 1;
      }
    }

    /** The body shared by `SelectMulti.create` and `SelectOne.create`, which
        differ only in the middleware class they build (`single`). The
        reference is generated before the initial value is looked up, so it
        stays set when that lookup throws. */
    method CreateAs(single: bool, group: Obj, freshId: string) returns (r: Result<seq<string>>)
      modifies this, ctrl
      ensures ctrl.ref == Some(ReferenceOrFresh(old(ctrl.ref), freshId))
      ensures ctrl.labelText == old(ctrl.labelText) && ctrl.help == old(ctrl.help) && ctrl.hint == old(ctrl.hint)
      ensures list == old(list) && view == old(view) && initialIndex == old(initialIndex)
      ensures InitialChoice(Options(), initialIndex).Thrown? ==> r == Thrown(InitialChoice(Options(), initialIndex).error) && model == old(model)
      ensures InitialChoice(Options(), initialIndex).Ok? ==> r == Ok(ctrl.ref.value)
      ensures InitialChoice(Options(), initialIndex).Ok? ==>
                model == Some(SelectModel(single, group, ctrl.labelText, ctrl.ref.value, InitialChoice(Options(), initialIndex).value, NullIfEmpty(Options())))
    {
      ctrl.EnsureReference(freshId);
      var initial: Option<string> := None;
      if initialIndex.Some? {
        var opts := GetOptions();
        if opts == null {
          return Thrown(NullPointer);
        }
        var i := initialIndex.value;
        if !(0 <= i as int < opts.Length) {
          return Thrown(IndexOutOfBounds);
        }
        initial := Some(opts[i]);
      }
      var choices := GetOptions();
      var path := ctrl.ref.value;
      model := Some(SelectModel(single, group, ctrl.labelText, path, initial,
                                if choices == null then None else Some(choices[..])));
      return Ok(path);
    }

    /** `create` for a multiple selection. */
    method Create(group: Obj, freshId: string) returns (r: Result<seq<string>>)
      modifies this, ctrl
      ensures ctrl.ref == Some(ReferenceOrFresh(old(ctrl.ref), freshId))
      ensures ctrl.labelText == old(ctrl.labelText) && ctrl.help == old(ctrl.help) && ctrl.hint == old(ctrl.hint)
      ensures list == old(list) && view == old(view) && initialIndex == old(initialIndex)
      ensures InitialChoice(Options(), initialIndex).Thrown? ==> r == Thrown(InitialChoice(Options(), initialIndex).error) && model == old(model)
      ensures InitialChoice(Options(), initialIndex).Ok? ==> r == Ok(ctrl.ref.value)
      ensures InitialChoice(Options(), initialIndex).Ok? ==>
                model == Some(SelectModel(false, group, ctrl.labelText, ctrl.ref.value, InitialChoice(Options(), initialIndex).value, NullIfEmpty(Options())))
    {
      r := CreateAs(false, group, freshId);
    }
  }

  /** A single selection: a `SelectMulti` whose `create` builds a `Select1`. */
  class SelectOne {
    const select: SelectMulti

    constructor (reference: Option<string>, withLabel: Option<string>)
      ensures fresh(select) && fresh(select.ctrl)
      ensures select.ctrl.ref == (if reference.Some? then Some([reference.value]) else None)
      ensures select.ctrl.labelText == withLabel
      ensures select.Options() == [] && select.view == null && select.initialIndex.None? && select.model.None?
    {
      select := new SelectMulti(reference, withLabel);
    }

    /** `SelectOne(ref, label, initialOptions)`: the options are passed on to
        the `SelectMulti` constructor unchanged. */
    constructor WithOptions(reference: Option<string>, withLabel: string, initialOptions: array<string>)
      ensures fresh(select) && fresh(select.ctrl)
      ensures select.ctrl.ref == (if reference.Some? then Some([reference.value]) else None)
      ensures select.ctrl.labelText == Some(withLabel)
      ensures select.view == initialOptions && select.Options() == initialOptions[..]
      ensures select.initialIndex.None? && select.model.None?
    {
      select := new SelectMulti.WithOptions(reference, withLabel, initialOptions);
    }

    method Create(group: Obj, freshId: string) returns (r: Result<seq<string>>)
      modifies select, select.ctrl
      ensures select.ctrl.ref == Some(ReferenceOrFresh(old(select.ctrl.ref), freshId))
      ensures select.ctrl.labelText == old(select.ctrl.labelText) && select.ctrl.help == old(select.ctrl.help) && select.ctrl.hint == old(select.ctrl.hint)
      ensures select.list == old(select.list) && select.view == old(select.view)
      ensures select.initialIndex == old(select.initialIndex)
      ensures InitialChoice(select.Options(), select.initialIndex).Thrown? ==> r == Thrown(InitialChoice(select.Options(), select.initialIndex).error) && select.model == old(select.model)
      ensures InitialChoice(select.Options(), select.initialIndex).Ok? ==> r == Ok(select.ctrl.ref.value)
      ensures InitialChoice(select.Options(), select.initialIndex).Ok? ==>
                select.model == Some(SelectModel(true, group, select.ctrl.labelText, select.ctrl.ref.value, InitialChoice(select.Options(), select.initialIndex).value, NullIfEmpty(select.Options())))
    {
      r := select.CreateAs(true, group, freshId);
    }
  }
}
