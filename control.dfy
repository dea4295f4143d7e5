/** The base of the simplified UI controls: a reference path (where the
    user's input is stored in the form data), a label, a help text and a
    hint. Every control's `create` falls back to a generated reference when
    none is set; that rule is stated once here as `ReferenceOrFresh`. */
module Controls {
  import opened Common

  const MY_NAMESPACE := "http://org.universAAL.ontology/SimpleUtils.owl#"

  /** The reference a `create` uses: the one set, or `[MY_NAMESPACE + id]`
      for a freshly generated unique `id` (the ID generator is a parameter). */
  function ReferenceOrFresh(ref: Option<seq<string>>, freshId: string): (r: seq<string>)
    ensures ref.Some? ==> r == ref.value
    ensures ref.None? ==> r == [MY_NAMESPACE + freshId] && StartsWith(r[0], MY_NAMESPACE)
  {
    if ref.Some? then ref.value else [MY_NAMESPACE + freshId]
  }

  /** `PropertyPath.getLastPathElement`, taken to be null on the empty path. */
  function LastElement(path: seq<string>): (r: Option<string>)
    ensures r.Some? <==> |path| > 0
    ensures r.Some? ==> r.value == path[|path| - 1]
  {
    if |path| > 0 then Some(path[|path| - 1]) else None
  }

  /** A generated reference is a one-element path in this namespace, so its
      last element is that element. */
  lemma GeneratedReferenceLast(freshId: string)
    ensures LastElement(ReferenceOrFresh(None, freshId)) == Some(MY_NAMESPACE + freshId)
  {
  }

  class Control {
    var ref: Option<seq<string>>
    /** The label's text; `None` while no label was set. */
    var labelText: Option<string>
    var help: Option<string>
    var hint: Option<string>

    /** What every subclass constructor does on `Control`: `setReference` on
        its reference argument (nothing when it has none) and a new label when
        it takes one. */
    constructor (reference: Option<string>, withLabel: Option<string>)
      ensures ref == (if reference.Some? then Some([reference.value]) else None)
      ensures labelText == withLabel && help.None? && hint.None?
    {
      ref := if reference.Some? then Some([reference.value]) else None;
      labelText := withLabel;
      help, hint := None, None;
    }

    function GetHelp(): (r: Option<string>)
      reads this
      ensures r == help
    {
      help
    }

    method SetHelp(help: Option<string>)
      modifies this
      ensures GetHelp() == help
      ensures ref == old(ref) && labelText == old(labelText) && hint == old(hint)
    {
      this.help := help;
    }

    function GetHint(): (r: Option<string>)
      reads this
      ensures r == hint
    {
      hint
    }

    method SetHint(hint: Option<string>)
      modifies this
      ensures GetHint() == hint
      ensures ref == old(ref) && labelText == old(labelText) && help == old(help)
    {
      this.hint := hint;
    }

    /** `getReference`: the path, or a NullPointerException while none is set. */
    function GetReference(): (r: Result<seq<string>>)
      reads this
      ensures r.Thrown? <==> ref.None?
      ensures r.Thrown? ==> r.error == NullPointer
      ensures r.Ok? ==> r.value == ref.value
    {
      if ref.Some? then Ok(ref.value) else Thrown(NullPointer)
    }

    /** `setReference(String)`: null clears it, anything else is the
        one-element path. */
    method SetReference(reference: Option<string>)
      modifies this
      ensures reference.None? ==> GetReference() == Thrown(NullPointer)
      ensures reference.Some? ==> GetReference() == Ok([reference.value])
      ensures labelText == old(labelText) && help == old(help) && hint == old(hint)
    {
      if reference.Some? {
        ref := Some([reference.value]);
      } else {
        ref := None;
      }
    }

    /** `setReference(String[])`: null clears it, anything else is the path
        given. */
    method SetReferencePath(reference: Option<seq<string>>)
      modifies this
      ensures ref == reference
      ensures labelText == old(labelText) && help == old(help) && hint == old(hint)
    {
      ref := reference;
    }

    /** `getLabel`: the label's text, or a NullPointerException while no
        label was set. */
    function GetLabel(): (r: Result<string>)
      reads this
      ensures r.Thrown? <==> labelText.None?
      ensures r.Ok? ==> r.value == labelText.value
    {
      if labelText.Some? then Ok(labelText.value) else Thrown(NullPointer)
    }

    method SetLabel(txt: string)
      modifies this
      ensures GetLabel() == Ok(txt)
      ensures ref == old(ref) && help == old(help) && hint == old(hint)
    {
      labelText := Some(txt);
    }

    /** The first step of every `create`: a reference is generated only
        when none is set. */
    method EnsureReference(freshId: string)
      modifies this
      ensures ref == Some(ReferenceOrFresh(old(ref), freshId))
      ensures labelText == old(labelText) && help == old(help) && hint == old(hint)
    {
      if ref.None? {
        SetReference(Some(MY_NAMESPACE + freshId));
      }
    }
  }
}
