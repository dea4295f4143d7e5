/** Submit buttons and subdialog triggers. Both carry an optional confirmation
    (a message and its type) and a list of mandatory inputs. `create` builds
    the middleware command named after the reference's last element. A submit
    may also carry a hidden object, stored at the reference extended by
    `HIDDENREF`. A trigger never stores one, but it makes its ID a repeatable
    prefix when the middleware says it needs a selection. */
module Commands {
  import opened Common
  import opened Controls
  import opened Selects
  import opened Ranges
  import opened PropertyPaths

  const HIDDENREF := MY_NAMESPACE + "hiddenRef"

  /** `Submit.CONFIRMATION_TYPE_OK_CANCEL` and `Submit.CONFIRMATION_TYPE_YES_NO`,
      middleware constants; only their being different matters here. */
  const OK_CANCEL: int32 := 0
  const YES_NO: int32 := 1

  /** The confirmation the built command asks for. */
  datatype Confirmation = NoConfirmation | ConfirmOkCancel(message: string) | ConfirmYesNo(message: string)

  /** The `switch` on the confirmation type, applied only with a message:
      yes/no for YES_NO, ok/cancel for OK_CANCEL and for any other value. */
  function ConfirmationOf(message: Option<string>, confirmType: int32): (c: Confirmation)
    ensures c.NoConfirmation? <==> message.None?
    ensures c.ConfirmYesNo? <==> message.Some? && confirmType == YES_NO
    ensures c.ConfirmOkCancel? <==> message.Some? && confirmType != YES_NO
    ensures !c.NoConfirmation? ==> c.message == message.value
  {
    if message.None? then NoConfirmation
    else if confirmType == OK_CANCEL then ConfirmOkCancel(message.value)
    else if confirmType == YES_NO then ConfirmYesNo(message.value)
    else ConfirmOkCancel(message.value)
  }

  /** The form control an input control has built (its `getModel()`). */
  datatype Input = SelectInput(select: SelectModel) | RangeInput(range: RangeModel) | OtherInput(obj: Obj)

  /** A value stored in the form data at a property path. */
  datatype Hidden = Hidden(path: seq<string>, value: Obj)

  /** The middleware `Submit` that `create` builds: group, label, submit ID,
      confirmation, the mandatory inputs in registration order (an input
      control not yet created contributes null), and the hidden entry. */
  datatype SubmitModel = SubmitModel(group: Obj, labelText: Option<string>, submitID: Option<string>,
                                     confirmation: Confirmation, mandatory: seq<Option<Input>>, hidden: Option<Hidden>)

  /** The middleware `SubdialogTrigger` that a trigger's `create` builds. */
  datatype TriggerModel = TriggerModel(group: Obj, labelText: Option<string>, submitID: Option<string>,
                                       confirmation: Confirmation, mandatory: seq<Option<Input>>,
                                       repeatablePrefix: Option<string>)

  class SubmitCmd {
    const ctrl: Control
    var confirmMessage: Option<string>
    var confirmType: int32
    /** The models of the mandatory inputs, in the order they were added. */
    var mandatory: seq<Option<Input>>
    var hidden: Option<Obj>

    /** `SubmitCmd()`, `SubmitCmd(ref)` and `SubmitCmd(ref, label)`: no
        confirmation, type OK_CANCEL, no mandatory input, no hidden object. */
    constructor (reference: Option<string>, withLabel: Option<string>)
      ensures fresh(ctrl)
      ensures ctrl.ref == (if reference.Some? then Some([reference.value]) else None) && ctrl.labelText == withLabel
      ensures confirmMessage.None? && confirmType == OK_CANCEL && mandatory == [] && hidden.None?
    {
      ctrl := new Control(reference, withLabel);
      confirmMessage, confirmType, mandatory, hidden := None, OK_CANCEL, [], None;
    }

    /** `addMandatoryInput(input)`, given that control's current model. */
    method AddMandatoryInput(inputModel: Option<Input>)
      modifies this
      ensures mandatory == old(mandatory) + [inputModel]
      ensures confirmMessage == old(confirmMessage) && confirmType == old(confirmType) && hidden == old(hidden)
    {
      mandatory := mandatory + [inputModel];
    }

    method SetHiddenObject(hidden: Option<Obj>)
      modifies this
      ensures this.hidden == hidden
      ensures confirmMessage == old(confirmMessage) && confirmType == old(confirmType) && mandatory == old(mandatory)
    {
      this.hidden := hidden;
    }

    method SetConfirmMessage(confirmMessage: Option<string>)
      modifies this
      ensures this.confirmMessage == confirmMessage
      ensures confirmType == old(confirmType) && mandatory == old(mandatory) && hidden == old(hidden)
    {
      this.confirmMessage := confirmMessage;
    }

    /** `setConfirmMessage(message, type)` sets both. */
    method SetConfirmMessageAndType(confirmMessage: Option<string>, confirmType: int32)
      modifies this
      ensures this.confirmMessage == confirmMessage && this.confirmType == confirmType
      ensures mandatory == old(mandatory) && hidden == old(hidden)
    {
      this.confirmMessage := confirmMessage;
      this.confirmType := confirmType;
    }

    method SetConfirmType(confirmType: int32)
      modifies this
      ensures this.confirmType == confirmType
      ensures confirmMessage == old(confirmMessage) && mandatory == old(mandatory) && hidden == old(hidden)
    {
      this.confirmType := confirmType;
    }

    /** The mandatory inputs registered one by one, in list order. */
    method RegisterMandatory() returns (inputs: seq<Option<Input>>)
      ensures inputs == mandatory
    {
      inputs := [];
      var i := 0;
      while i < |mandatory|
        invariant 0 <= i <= |mandatory|
        invariant inputs == mandatory[..i]
      {
        inputs := inputs + [mandatory[i]];
        i := i + 1;
      }
    }

    /** `create`: the reference is generated when none is set, the submit
        ID is its last element, the confirmation follows the message and type,
        the mandatory inputs are registered in order, and a hidden object (if
        any) is stored at the reference followed by `HIDDENREF`. The reference
        itself is left as it was. */
    method Create(group: Obj, freshId: string) returns (r: seq<string>, sub: SubmitModel)
      modifies ctrl
      ensures ctrl.ref == Some(ReferenceOrFresh(old(ctrl.ref), freshId)) && r == ctrl.ref.value
      ensures ctrl.labelText == old(ctrl.labelText) && ctrl.help == old(ctrl.help) && ctrl.hint == old(ctrl.hint)
      ensures sub.group == group && sub.labelText == ctrl.labelText
      ensures sub.submitID == LastElement(r)
      ensures sub.confirmation == ConfirmationOf(confirmMessage, confirmType)
      ensures sub.mandatory == mandatory
      ensures hidden.None? ==> sub.hidden.None?
      ensures hidden.Some? ==> sub.hidden == Some(Hidden(r + [HIDDENREF], hidden.value))
    {
      ctrl.EnsureReference(freshId);
      var path := ctrl.ref.value;
      var confirmation := NoConfirmation;
      if confirmMessage.Some? {
        if confirmType == OK_CANCEL {
          confirmation := ConfirmOkCancel(confirmMessage.value);
        } else if confirmType == YES_NO {
          confirmation := ConfirmYesNo(confirmMessage.value);
        } else {
          confirmation := ConfirmOkCancel(confirmMessage.value);
        }
      }
      var inputs := RegisterMandatory();
      var stored: Option<Hidden> := None;
      if hidden.Some? {
        var steps := new string[|path|](i requires 0 <= i < |path| => path[i]);
        assert steps[..] == path;
        var hiddenPath := Path.Parse(steps);
        hiddenPath := hiddenPath.To(HIDDENREF);
        stored := Some(Hidden(hiddenPath.path[..], hidden.value));
      }
      sub := SubmitModel(group, ctrl.labelText, LastElement(path), confirmation, inputs, stored);
      return path, sub;
    }
  }

  /** A trigger: a `SubmitCmd` whose `create` builds a subdialog trigger. */
  class TriggerCmd {
    const submit: SubmitCmd

    /** `TriggerCmd()`, `TriggerCmd(ref)` and `TriggerCmd(ref, label)`. */
    constructor (reference: Option<string>, withLabel: Option<string>)
      ensures fresh(submit) && fresh(submit.ctrl)
      ensures submit.ctrl.ref == (if reference.Some? then Some([reference.value]) else None)
      ensures submit.ctrl.labelText == withLabel
      ensures submit.confirmMessage.None? && submit.confirmType == OK_CANCEL
      ensures submit.mandatory == [] && submit.hidden.None?
    {
      submit := new SubmitCmd(reference, withLabel);
    }

    /** `create`: as a submit's, except that no hidden object is written and
        the ID becomes the repeatable prefix exactly when the built trigger
        needs a selection (the middleware's `needsSelection`, a parameter). */
    method Create(group: Obj, freshId: string, needsSelection: TriggerModel -> bool)
      returns (r: seq<string>, sub: TriggerModel)
      modifies submit.ctrl
      ensures submit.ctrl.ref == Some(ReferenceOrFresh(old(submit.ctrl.ref), freshId)) && r == submit.ctrl.ref.value
      ensures submit.ctrl.labelText == old(submit.ctrl.labelText) && submit.ctrl.help == old(submit.ctrl.help) && submit.ctrl.hint == old(submit.ctrl.hint)
      ensures sub.group == group && sub.labelText == submit.ctrl.labelText
      ensures sub.submitID == LastElement(r)
      ensures sub.confirmation == ConfirmationOf(submit.confirmMessage, submit.confirmType)
      ensures sub.mandatory == submit.mandatory
      ensures needsSelection(sub.(repeatablePrefix := None)) ==> sub.repeatablePrefix == LastElement(r)
      ensures !needsSelection(sub.(repeatablePrefix := None)) ==> sub.repeatablePrefix.None?
    {
      submit.ctrl.EnsureReference(freshId);
      var path := submit.ctrl.ref.value;
      var confirmation := NoConfirmation;
      if submit.confirmMessage.Some? {
        if submit.confirmType == OK_CANCEL {
          confirmation := ConfirmOkCancel(submit.confirmMessage.value);
        } else if submit.confirmType == YES_NO {
          confirmation := ConfirmYesNo(submit.confirmMessage.value);
        } else {
          confirmation := ConfirmOkCancel(submit.confirmMessage.value);
        }
      }
      var inputs := submit.RegisterMandatory();
      sub := TriggerModel(group, submit.ctrl.labelText, LastElement(path), confirmation, inputs, None);
      if needsSelection(sub) {
        sub := sub.(repeatablePrefix := LastElement(path));
      }
      return path, sub;
    }
  }
}
