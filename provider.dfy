/** Context provider descriptions. Every constructor gives the provider a type
    (gauge unless another non-null type is given) and a list of provided event
    patterns. */
module Providers {
  import opened Common
  import opened ContextPatterns

  datatype ProviderType = Gauge | Controller | Reasoner

  /** A provided event pattern, seen through its restrictions; the
      middleware's `new ContextEventPattern()` is the one with none. */
  datatype EventPattern = EventPattern(restrictions: seq<Restriction>)

  const UNRESTRICTED := EventPattern([])

  /** What a `Provider` holds after construction. */
  datatype Provider = Provider(uri: string, providerType: ProviderType, events: Option<seq<EventPattern>>)

  /** `type != null ? type : gauge`. */
  function TypeOrGauge(t: Option<ProviderType>): (r: ProviderType)
    ensures t.None? ==> r == Gauge
    ensures t.Some? ==> r == t.value
  {
    if t.Some? then t.value else Gauge
  }

  /** `Provider(uri)`. */
  function NewProvider(uri: string): (p: Provider)
    ensures p.uri == uri && p.providerType == Gauge && p.events == Some([UNRESTRICTED])
  {
    Provider(uri, Gauge, Some([UNRESTRICTED]))
  }

  /** `Provider(uri, type)`. */
  function ProviderOfType(uri: string, t: Option<ProviderType>): (p: Provider)
    ensures p.uri == uri && p.providerType == TypeOrGauge(t) && p.events == Some([UNRESTRICTED])
  {
    Provider(uri, TypeOrGauge(t), Some([UNRESTRICTED]))
  }

  /** `Provider(uri, type, events)`: the events array is kept as given, null included. */
  function ProviderWithEvents(uri: string, t: Option<ProviderType>, events: Option<seq<EventPattern>>): (p: Provider)
    ensures p.uri == uri && p.providerType == TypeOrGauge(t) && p.events == events
  {
    Provider(uri, TypeOrGauge(t), events)
  }

  /** `Provider(uri, type, subject, predicate, object)`, both triple overloads:
      exactly one pattern, built by the pattern rules from the three arguments. */
  function ProviderWithPattern(ont: Ontology, uri: string, t: Option<ProviderType>,
                               s: Option<Term>, p: Option<string>, o: Option<Term>): (r: Provider)
    ensures r.uri == uri && r.providerType == TypeOrGauge(t)
    ensures r.events == Some([EventPattern(PatternRestrictions(ont, s, p, o))])
  {
    Provider(uri, TypeOrGauge(t), Some([EventPattern(PatternRestrictions(ont, s, p, o))]))
  }

  /** The constructors agree where their arguments overlap: a null type is the
      one-argument gauge provider, and a pattern of three nulls is the
      unrestricted pattern the two-argument constructor provides. */
  lemma ConstructorsAgree(ont: Ontology, uri: string, t: Option<ProviderType>)
    ensures ProviderOfType(uri, None) == NewProvider(uri)
    ensures ProviderWithPattern(ont, uri, t, None, None, None) == ProviderOfType(uri, t)
    ensures ProviderWithEvents(uri, t, Some([UNRESTRICTED])) == ProviderOfType(uri, t)
  {
    SlotRestrictedIffValid(ont, None, None, None);
  }

  /** No constructor ever leaves the type null, and only an explicit type can
      make a provider anything but a gauge. */
  lemma TypeDefaultsToGauge(ont: Ontology, uri: string, t: Option<ProviderType>,
                            events: Option<seq<EventPattern>>, s: Option<Term>, p: Option<string>, o: Option<Term>)
    ensures NewProvider(uri).providerType == Gauge
    ensures ProviderOfType(uri, t).providerType != Gauge ==> t == Some(ProviderOfType(uri, t).providerType)
    ensures ProviderWithEvents(uri, t, events).providerType != Gauge ==> t.Some?
    ensures ProviderWithPattern(ont, uri, t, s, p, o).providerType != Gauge ==> t.Some?
  {
  }
}
