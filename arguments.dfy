/** Leaf arguments of service requests and profiles: `Variable`, `Remove` and
    `Change`. Each is built either from a value or from a string that is sorted
    three ways: a resolvable class URI, a registered datatype URI, or a plain
    string that falls back to a by-value String argument. The three classes
    share that rule, which is stated once as `FromTypeURI`. */
module Arguments {
  import opened Common

  /** The three fields every argument holds: how it was built, its type URI
      and its value (both possibly null). */
  datatype Fields = Fields(byURI: bool, uri: Option<string>, value: Option<Obj>)

  /** Which of the three cases of the string constructor applies. */
  datatype StringCase = ResolvedType | RegisteredDatatype | PlainString

  function CaseOf(ont: Ontology, s: string): (c: StringCase)
    ensures c == ResolvedType <==> ont.getResource(s).Some?
    ensures c == RegisteredDatatype <==> ont.getResource(s).None? && ont.isRegisteredDatatype(s)
    ensures c == PlainString <==> ont.getResource(s).None? && !ont.isRegisteredDatatype(s)
  {
    if ont.getResource(s).Some? then ResolvedType
    else if ont.isRegisteredDatatype(s) then RegisteredDatatype
    else PlainString
  }

  /** What the by-value constructor stores. */
  function FromValue(ont: Ontology, v: Option<Obj>): (f: Fields)
    ensures !f.byURI && f.value == v && f.uri == ont.typeURIOf(v)
  {
    Fields(false, ont.typeURIOf(v), v)
  }

  /** What the string constructor stores, case by case. */
  function FromTypeURI(ont: Ontology, s: string): (f: Fields)
    ensures CaseOf(ont, s) == ResolvedType ==>
              f.byURI && f.uri == Some(s) && f.value == ont.getResource(s) && f.value.Some?
    ensures CaseOf(ont, s) == RegisteredDatatype ==>
              f.byURI && f.uri == Some(s) && f.value == ont.emptyInstance(s)
    ensures CaseOf(ont, s) == PlainString ==>
              !f.byURI && f.uri == Some(ont.stringDatatypeURI) && f.value == Some(Str(s))
    ensures f.byURI <==> CaseOf(ont, s) != PlainString
  {
    match ont.getResource(s)
    case Some(r) => Fields(true, Some(s), Some(r))
    case None =>
      if ont.isRegisteredDatatype(s) then Fields(true, Some(s), ont.emptyInstance(s))
      else Fields(false, Some(ont.stringDatatypeURI), Some(Str(s)))
  }

  /** A plain string is treated exactly as if the by-value constructor had
      been given that String, provided the ontology types a String with the
      String datatype URI. */
  lemma PlainStringIsByValue(ont: Ontology, s: string)
    requires CaseOf(ont, s) == PlainString
    requires ont.typeURIOf(Some(Str(s))) == Some(ont.stringDatatypeURI)
    ensures FromTypeURI(ont, s) == FromValue(ont, Some(Str(s)))
  {
  }

  /** A string argument is by URI exactly when it names something the
      ontology knows, and then its URI is the string itself. */
  lemma ByURIMeansKnown(ont: Ontology, s: string)
    ensures FromTypeURI(ont, s).byURI <==>
              ont.getResource(s).Some? || ont.isRegisteredDatatype(s)
    ensures FromTypeURI(ont, s).byURI ==> FromTypeURI(ont, s).uri == Some(s)
  {
  }

  /** Variable input of a service request or profile. */
  class Variable {
    var isByURI: bool
    var uri: Option<string>
    var value: Option<Obj>

    constructor ByValue(ont: Ontology, byValue: Option<Obj>)
      ensures Fields(isByURI, uri, value) == FromValue(ont, byValue)
    {
      isByURI := false;
      value := byValue;
      uri := ont.typeURIOf(byValue);
    }

    /** The fields are set for the by-URI reading first and overwritten in
        the fallback branch, in the order the original assigns them. */
    constructor (ont: Ontology, byTypeURI: string)
      ensures Fields(isByURI, uri, value) == FromTypeURI(ont, byTypeURI)
    {
      isByURI := true;
      uri := Some(byTypeURI);
      value := ont.getResource(byTypeURI);
      new;
      if value.None? {
        if ont.isRegisteredDatatype(byTypeURI) {
          value := ont.emptyInstance(byTypeURI);
        } else {
          isByURI := false;
          uri := Some(ont.stringDatatypeURI);
          value := Some(Str(byTypeURI));
        }
      }
    }

    function GetObject(): Option<Obj>
      reads this
    {
      value
    }

    function GetURI(): Option<string>
      reads this
    {
      uri
    }

    function ByURI(): bool
      reads this
    {
      isByURI
    }
  }

  /** Value to remove, as an argument of a request or profile. */
  class Remove {
    var isByURI: bool
    var uri: Option<string>
    var value: Option<Obj>

    constructor ByValue(ont: Ontology, byValue: Option<Obj>)
      ensures Fields(isByURI, uri, value) == FromValue(ont, byValue)
    {
      isByURI := false;
      value := byValue;
      uri := ont.typeURIOf(byValue);
    }

    constructor (ont: Ontology, byTypeURI: string)
      ensures Fields(isByURI, uri, value) == FromTypeURI(ont, byTypeURI)
    {
      isByURI := true;
      uri := Some(byTypeURI);
      value := ont.getResource(byTypeURI);
      new;
      if value.None? {
        if ont.isRegisteredDatatype(byTypeURI) {
          value := ont.emptyInstance(byTypeURI);
        } else {
          isByURI := false;
          uri := Some(ont.stringDatatypeURI);
          value := Some(Str(byTypeURI));
        }
      }
    }

    function GetObject(): Option<Obj>
      reads this
    {
      value
    }

    function GetURI(): Option<string>
      reads this
    {
      uri
    }

    function ByURI(): bool
      reads this
    {
      isByURI
    }
  }

  /** New value to set, as an argument of a request or profile. */
  class Change {
    var isByURI: bool
    var uri: Option<string>
    var value: Option<Obj>

    constructor ByValue(ont: Ontology, byValue: Option<Obj>)
      ensures Fields(isByURI, uri, value) == FromValue(ont, byValue)
    {
      isByURI := false;
      value := byValue;
      uri := ont.typeURIOf(byValue);
    }

    constructor (ont: Ontology, byTypeURI: string)
      ensures Fields(isByURI, uri, value) == FromTypeURI(ont, byTypeURI)
    {
      isByURI := true;
      uri := Some(byTypeURI);
      value := ont.getResource(byTypeURI);
      new;
      if value.None? {
        if ont.isRegisteredDatatype(byTypeURI) {
          value := ont.emptyInstance(byTypeURI);
        } else {
          isByURI := false;
          uri := Some(ont.stringDatatypeURI);
          value := Some(Str(byTypeURI));
        }
      }
    }

    function GetObject(): Option<Obj>
      reads this
    {
      value
    }

    function GetURI(): Option<string>
      reads this
    {
      uri
    }

    function ByURI(): bool
      reads this
    {
      isByURI
    }
  }
}
