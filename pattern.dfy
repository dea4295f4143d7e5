/** Context event patterns over the subject, predicate and object of an
    event. Each constructor argument may be null; a non-null argument adds one
    restriction on its slot when it is valid, and nothing (only a printed tip)
    when it is not. The four Java constructors differ only in whether the
    subject and the object are given as a type URI or as an instance; `Term`
    covers both, so one constructor models all four. */
module ContextPatterns {
  import opened Common

  datatype Slot = Subject | Predicate | Object

  /** A subject or object argument: a type URI (a String argument) or an
      instance (a ManagedIndividual or any other Object argument). */
  datatype Term = TypeURI(uri: string) | Instance(obj: Obj)

  /** The value a fixed-value restriction pins a slot to. */
  datatype Fixed = FixedURI(uri: string) | FixedObj(obj: Obj)

  /** `MergedRestriction.getAllValuesRestriction(slot, typeURI)` and
      `MergedRestriction.getFixedValueRestriction(slot, value)`. */
  datatype Restriction = AllValues(slot: Slot, typeURI: string) | FixedValue(slot: Slot, value: Fixed)

  function Rank(s: Slot): nat
  {
    match s
    case Subject => 0
    case Predicate => 1
    case Object => 2
  }

  /** An instance is accepted when its type URI is non-null and qualified. */
  predicate ValidInstance(ont: Ontology, o: Obj)
  {
    var u := ont.typeURIOf(Some(o));
    u.Some? && ont.isQualifiedName(u.value)
  }

  predicate ValidTerm(ont: Ontology, t: Term)
  {
    match t
    case TypeURI(u) => ont.isQualifiedName(u)
    case Instance(o) => ValidInstance(ont, o)
  }

  /** The restriction one subject or object argument adds, if any. */
  function TermRestriction(ont: Ontology, slot: Slot, t: Option<Term>): (r: Option<Restriction>)
    ensures r.Some? <==> t.Some? && ValidTerm(ont, t.value)
    ensures r.Some? ==> r.value.slot == slot
    ensures r.Some? && t.value.TypeURI? ==> r.value == AllValues(slot, t.value.uri)
    ensures r.Some? && t.value.Instance? ==> r.value == FixedValue(slot, FixedObj(t.value.obj))
  {
    match t
    case None => None
    case Some(TypeURI(u)) => if ont.isQualifiedName(u) then Some(AllValues(slot, u)) else None
    case Some(Instance(o)) => if ValidInstance(ont, o) then Some(FixedValue(slot, FixedObj(o))) else None
  }

  /** The restriction the predicate argument adds, if any. */
  function PredicateRestriction(ont: Ontology, p: Option<string>): (r: Option<Restriction>)
    ensures r.Some? <==> p.Some? && ont.isQualifiedName(p.value)
    ensures r.Some? ==> r.value == FixedValue(Predicate, FixedURI(p.value))
  {
    if p.Some? && ont.isQualifiedName(p.value) then Some(FixedValue(Predicate, FixedURI(p.value))) else None
  }

  function AsSeq(r: Option<Restriction>): seq<Restriction>
  {
    if r.Some? then [r.value] else []
  }

  /** All the restrictions a pattern gets, in the order they are added. */
  function PatternRestrictions(ont: Ontology, s: Option<Term>, p: Option<string>, o: Option<Term>): seq<Restriction>
  {
    AsSeq(TermRestriction(ont, Subject, s)) + AsSeq(PredicateRestriction(ont, p)) + AsSeq(TermRestriction(ont, Object, o))
  }

  /** At most three restrictions, in slot order subject, predicate, object,
      never two on the same slot. */
  lemma AtMostThreeInSlotOrder(ont: Ontology, s: Option<Term>, p: Option<string>, o: Option<Term>)
    ensures var rs := PatternRestrictions(ont, s, p, o);
            |rs| <= 3 &&
            forall i, j :: 0 <= i < j < |rs| ==> Rank(rs[i].slot) < Rank(rs[j].slot)
  {
    var a, b, c := TermRestriction(ont, Subject, s), PredicateRestriction(ont, p), TermRestriction(ont, Object, o);
    var rs := PatternRestrictions(ont, s, p, o);
    assert rs == AsSeq(a) + AsSeq(b) + AsSeq(c);
    forall i, j | 0 <= i < j < |rs| ensures Rank(rs[i].slot) < Rank(rs[j].slot) {
      assert forall k :: 0 <= k < |AsSeq(a)| ==> rs[k] == a.value && rs[k].slot == Subject;
      assert forall k :: |AsSeq(a)| <= k < |AsSeq(a)| + |AsSeq(b)| ==> rs[k] == b.value && rs[k].slot == Predicate;
      assert forall k :: |AsSeq(a)| + |AsSeq(b)| <= k < |rs| ==> rs[k] == c.value && rs[k].slot == Object;
    }
  }

  /** A slot is restricted exactly when its argument is non-null and valid;
      with every argument null the pattern is unrestricted. */
  lemma SlotRestrictedIffValid(ont: Ontology, s: Option<Term>, p: Option<string>, o: Option<Term>)
    ensures var rs := PatternRestrictions(ont, s, p, o);
            && ((exists r :: r in rs && r.slot == Subject) <==> s.Some? && ValidTerm(ont, s.value))
            && ((exists r :: r in rs && r.slot == Predicate) <==> p.Some? && ont.isQualifiedName(p.value))
            && ((exists r :: r in rs && r.slot == Object) <==> o.Some? && ValidTerm(ont, o.value))
    ensures s.None? && p.None? && o.None? ==> PatternRestrictions(ont, s, p, o) == []
  {
    var a, b, c := TermRestriction(ont, Subject, s), PredicateRestriction(ont, p), TermRestriction(ont, Object, o);
    var rs := PatternRestrictions(ont, s, p, o);
    assert forall r :: r in rs <==> r in AsSeq(a) || r in AsSeq(b) || r in AsSeq(c);
    if a.Some? { assert a.value in rs; }
    if b.Some? { assert b.value in rs; }
    if c.Some? { assert c.value in rs; }
  }

  class Pattern {
    /** The restrictions added to the middleware pattern, in order. */
    var restrictions: seq<Restriction>

    /** The three guarded steps of every Java constructor: subject, then
        predicate, then object. */
    constructor (ont: Ontology, subj: Option<Term>, pred: Option<string>, obj: Option<Term>)
      ensures restrictions == PatternRestrictions(ont, subj, pred, obj)
    {
      restrictions := [];
      new;
      if subj.Some? {
        if ValidTerm(ont, subj.value) {
          AddRestriction(TermRestriction(ont, Subject, subj).value);
        }
      }
      if pred.Some? {
        if ont.isQualifiedName(pred.value) {
          AddRestriction(FixedValue(Predicate, FixedURI(pred.value)));
        }
      }
      if obj.Some? {
        if ValidTerm(ont, obj.value) {
          AddRestriction(TermRestriction(ont, Object, obj).value);
        }
      }
    }

    /** `ContextEventPattern.addRestriction`, as far as this model sees it. */
    method AddRestriction(r: Restriction)
      modifies this
      ensures restrictions == old(restrictions) + [r]
    {
      restrictions := restrictions + [r];
    }
  }
}
