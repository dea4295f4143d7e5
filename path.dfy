/** The fluent property-path builder of the service API. A path is an array of
    property URIs; `To` replaces the array by a copy one element longer and
    hands back the same builder, so chained calls accumulate. */
module PropertyPaths {

  class Path {
    var path: array<string>

    /** `new Path(first)`: the one-element path. */
    constructor (first: string)
      ensures fresh(path) && path[..] == [first]
    {
      path := new string[1] [first];
    }

    /** `new Path(String[])`: the caller's array itself is kept, not a copy. */
    constructor FromArray(steps: array<string>)
      ensures path == steps
    {
      path := steps;
    }

    static method At(first: string) returns (p: Path)
      ensures fresh(p) && fresh(p.path) && p.path[..] == [first]
    {
      p := new Path(first);
    }

    /** The deprecated spelling of `At`. */
    static method Start(first: string) returns (p: Path)
      ensures fresh(p) && fresh(p.path) && p.path[..] == [first]
    {
      p := new Path(first);
    }

    static method Parse(steps: array<string>) returns (p: Path)
      ensures fresh(p) && p.path == steps
    {
      p := new Path.FromArray(steps);
    }

    static method ParseOne(first: string) returns (p: Path)
      ensures fresh(p) && fresh(p.path) && p.path[..] == [first]
    {
      p := new Path(first);
    }

    /** Appends one step. The previous array is copied, never written, so an
        alias of it (a caller's array given to `FromArray`) keeps its contents. */
    method To(step: string) returns (self: Path)
      modifies this
      ensures self == this
      ensures fresh(path)
      ensures path[..] == old(path[..]) + [step]
    {
      var previous := path;
      var grown := new string[previous.Length + 1];
      for i := 0 to previous.Length
        invariant grown[..i] == previous[..i]
      {
        grown[i] := previous[i];
      }
      grown[grown.Length - 1] := step;
      path := grown;
      return this;
    }
  }

  /** Two chained steps on a path built from a caller's array: the builder
      grows by both, in call order, and the caller's array is left as it was. */
  method ChainTwo(steps: array<string>, a: string, b: string) returns (p: Path)
    ensures p.path[..] == steps[..] + [a, b]
    ensures p.path != steps
  {
    p := Path.Parse(steps);
    var q := p.To(a);
    q := q.To(b);
    assert q == p;
  }
}
