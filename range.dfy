/** A control for picking an integer in a range. Minimum, maximum, initial
    value and step are plain fields with no validity check among them;
    `create` builds a middleware range restricted to the closed interval
    [minimum, maximum], with the step only when one was set. */
module Ranges {
  import opened Common
  import opened Controls

  /** `new IntRestriction(min, minIncluded, max, maxIncluded)`. */
  datatype IntRestriction = IntRestriction(min: int32, minIncluded: bool, max: int32, maxIncluded: bool)

  /** The values an integer restriction lets through. */
  predicate Admits(r: IntRestriction, v: int)
  {
    (if r.minIncluded then r.min as int <= v else r.min as int < v) &&
    (if r.maxIncluded then v <= r.max as int else v < r.max as int)
  }

  /** The middleware `Range` that `create` builds: group, label, reference,
      the property the restriction is on (the reference's last element), the
      restriction, the initial value and the step, if any. */
  datatype RangeModel = RangeModel(group: Obj, labelText: Option<string>, ref: seq<string>, property: Option<string>,
                                   restriction: IntRestriction, initial: int32, step: Option<int32>)

  /** The restriction `create` uses admits exactly the closed interval from
      minimum to maximum; when the minimum exceeds the maximum it admits
      nothing, and an initial value outside it is not corrected. */
  lemma ClosedInterval(min: int32, max: int32, v: int)
    ensures Admits(IntRestriction(min, true, max, true), v) <==> min as int <= v <= max as int
    ensures max < min ==> !Admits(IntRestriction(min, true, max, true), v)
  {
  }

  class SelectRange {
    const ctrl: Control
    var min: int32
    var initialValue: int32
    var max: int32
    var step: Option<int32>
    var model: Option<RangeModel>

    /** `SelectRange()`, `SelectRange(ref)` and `SelectRange(ref, label)`:
        minimum 0, initial value 0, maximum 1 and no step. */
    constructor (reference: Option<string>, withLabel: Option<string>)
      ensures fresh(ctrl)
      ensures ctrl.ref == (if reference.Some? then Some([reference.value]) else None) && ctrl.labelText == withLabel
      ensures min == 0 && initialValue == 0 && max == 1 && step.None? && model.None?
    {
      ctrl := new Control(reference, withLabel);
      min, initialValue, max, step := 0, 0, 1, None;
      model := None;
    }

    /** `SelectRange(ref, label, min, max, initialValue)`. */
    constructor WithRange(reference: Option<string>, withLabel: string, min: int32, max: int32, initialValue: int32)
      ensures fresh(ctrl)
      ensures ctrl.ref == (if reference.Some? then Some([reference.value]) else None)
      ensures ctrl.labelText == Some(withLabel)
      ensures this.min == min && this.max == max && this.initialValue == initialValue && step.None? && model.None?
    {
      ctrl := new Control(reference, Some(withLabel));
      this.min, this.initialValue, this.max, step := 0, 0, 1, None;
      model := None;
      new;
      SetMinMaxInitial(min, max, initialValue);
    }

    method SetMin(min: int32)
      modifies this
      ensures this.min == min && max == old(max) && initialValue == old(initialValue) && step == old(step)
      ensures model == old(model)
    {
      this.min := min;
    }

    method SetMax(max: int32)
      modifies this
      ensures this.max == max && min == old(min) && initialValue == old(initialValue) && step == old(step)
      ensures model == old(model)
    {
      this.max := max;
    }

    method SetInitialValue(initialValue: int32)
      modifies this
      ensures this.initialValue == initialValue && min == old(min) && max == old(max) && step == old(step)
      ensures model == old(model)
    {
      this.initialValue := initialValue;
    }

    method SetStep(step: int32)
      modifies this
      ensures this.step == Some(step) && min == old(min) && max == old(max) && initialValue == old(initialValue)
      ensures model == old(model)
    {
      this.step := Some(step);
    }

    /** All three are stored as given, even when they are inconsistent. */
    method SetMinMaxInitial(min: int32, max: int32, initialValue: int32)
      modifies this
      ensures this.min == min && this.max == max && this.initialValue == initialValue
      ensures step == old(step) && model == old(model)
    {
      this.min := min;
      this.max := max;
      this.initialValue := initialValue;
    }

    /** `create`: the reference is generated when none is set; the value is
        restricted to [min, max] on the reference's last element; the step
        is applied only when set. */
    method Create(group: Obj, freshId: string) returns (r: seq<string>)
      modifies this, ctrl
      ensures ctrl.ref == Some(ReferenceOrFresh(old(ctrl.ref), freshId)) && r == ctrl.ref.value
      ensures ctrl.labelText == old(ctrl.labelText) && ctrl.help == old(ctrl.help) && ctrl.hint == old(ctrl.hint)
      ensures min == old(min) && max == old(max) && initialValue == old(initialValue) && step == old(step)
      ensures model.Some? && model.value.group == group && model.value.ref == r
      ensures model.value.labelText == ctrl.labelText
      ensures model.value.property == LastElement(r)
      ensures forall v :: Admits(model.value.restriction, v) <==> min as int <= v <= max as int
      ensures model.value.initial == initialValue
      ensures model.value.step == step
    {
      ctrl.EnsureReference(freshId);
      var path := ctrl.ref.value;
      var range := RangeModel(group, ctrl.labelText, path, LastElement(path), IntRestriction(min, true, max, true),
                              initialValue, None);
      if step.Some? {
        range := range.(step := step);
      }
      model := Some(range);
      return path;
    }
  }
}
