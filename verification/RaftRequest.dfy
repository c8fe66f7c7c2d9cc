/** The common part of a protocol request: a mutable `uri`, a hash that
    depends on the uri alone, a fixed textual form, and a builder that
    fills in one request object and checks it before handing it out. */
module RaftRequest {
  import opened Async

  const TWO_32: int := 0x1_0000_0000
  const TWO_31: int := 0x8000_0000

  predicate IsInt32(x: int)
  {
    -TWO_31 <= x < TWO_31
  }

  /** Java `int` arithmetic: the value congruent to `x` modulo 2^32 in the
      signed 32-bit range. */
  function ToInt32(x: int): (r: int)
    ensures IsInt32(r)
    ensures (x - r) % TWO_32 == 0
    ensures IsInt32(x) ==> r == x
  {
    var m := x % TWO_32;
    if m >= TWO_31 then m - TWO_32 else m
  }

  /** `String.hashCode`: h = 31 * h + c over the characters, in `int`
      arithmetic. */
  function StringHash(s: string): (h: int)
    ensures IsInt32(h)
  {
    if s == [] then 0 else ToInt32(31 * StringHash(s[..|s| - 1]) + s[|s| - 1] as int)
  }

  /** Two known values of `String.hashCode`: "a" hashes to 97 and "ab" to
      31 * 97 + 98. */
  lemma StringHashSamples()
    ensures StringHash("a") == 97
    ensures StringHash("ab") == 3105
  {
  }

  /** `Objects.hash` of one argument: 31 * 1 plus the argument's hash, with
      null hashing to 0. */
  function ObjectsHash(uri: Option<string>): (h: int)
    ensures IsInt32(h)
  {
    ToInt32(31 + (match uri case None => 0 case Some(u) => StringHash(u)))
  }

  /** How `String.format("%s")` prints a possibly-null string. */
  function Text(uri: Option<string>): string
  {
    match uri
    case None => "null"
    case Some(u) => u
  }

  /** `"<class name>[uri=<uri>]"`. */
  function Describe(className: string, uri: Option<string>): string
  {
    className + "[uri=" + Text(uri) + "]"
  }

  /** The printed form can be taken apart again: the class name, then
      "[uri=", then the uri's text, then a closing bracket. */
  lemma DescribeParts(className: string, uri: Option<string>)
    ensures |Describe(className, uri)| == |className| + |Text(uri)| + 6
    ensures Describe(className, uri)[..|className|] == className
    ensures Describe(className, uri)[|className|..|className| + 5] == "[uri="
    ensures Describe(className, uri)[|className| + 5..|className| + 5 + |Text(uri)|] == Text(uri)
    ensures Describe(className, uri)[|className| + 5 + |Text(uri)|] == ']'
  {
  }

  /** Two requests of one class print the same exactly when their uris
      print the same. */
  lemma DescribeInjective(className: string, u1: Option<string>, u2: Option<string>)
    ensures Describe(className, u1) == Describe(className, u2) <==> Text(u1) == Text(u2)
  {
    if Describe(className, u1) == Describe(className, u2) {
      DescribeParts(className, u1);
      DescribeParts(className, u2);
    }
  }

  /** A null uri and the string "null" are indistinguishable in the printed
      form; a null uri and "" share a hash. */
  lemma NullUriLookalikes(className: string)
    ensures Describe(className, None) == Describe(className, Some("null"))
    ensures ObjectsHash(None) == ObjectsHash(Some("")) == 31
  {
  }

  class Request {
    const className: string
    var uri: Option<string>

    constructor (className: string)
      ensures this.className == className && uri == None
    {
      this.className := className;
      uri := None;
    }

    /** `uri()`: the field `withUri` writes. */
    function Uri(): (u: Option<string>)
      reads this
      ensures u == uri
    {
      uri
    }

    function HashCode(): (h: int)
      reads this
      ensures IsInt32(h)
    {
      ObjectsHash(uri)
    }

    /** `toString()`: the class name, "[uri=", the uri's text, "]". */
    function ToString(): (s: string)
      reads this
      ensures |s| == |className| + |Text(uri)| + 6
      ensures s[..|className|] == className
      ensures s[|className|..|className| + 5] == "[uri="
      ensures s[|className| + 5..|s| - 1] == Text(uri)
      ensures s[|s| - 1] == ']'
    {
      Describe(className, uri)
    }
  }

  /** Requests with equal uris hash alike, whatever else differs. */
  lemma HashDependsOnlyOnUri(a: Request, b: Request)
    requires a.uri == b.uri
    ensures a.HashCode() == b.HashCode()
  {
  }

  class Builder {
    const request: Request

    constructor (request: Request)
      ensures this.request == request
    {
      this.request := request;
    }

    /** Sets the request's uri and returns this builder; a null uri is
        refused and changes nothing. */
    method WithUri(uri: Option<string>) returns (r: Result<Builder>)
      modifies request`uri
      ensures uri.None? ==> r == Err(NullArgument("uri")) && request.uri == old(request.uri)
      ensures uri.Some? ==> r == Ok(this) && request.uri == uri
    {
      if uri.None? {
        return Err(NullArgument("uri"));
      }
      request.uri := uri;
      r := Ok(this);
    }

    /** Hands out the very request object being built, provided its uri
        was set. */
    method Build() returns (r: Result<Request>)
      ensures r.Ok? <==> request.uri.Some?
      ensures r.Ok? ==> r.value == request
      ensures r.Err? ==> r.failure == NullArgument("uri")
    {
      if request.uri.None? {
        return Err(NullArgument("uri"));
      }
      r := Ok(request);
    }
  }

  /** Building after `withUri(u)` yields the request, whose `uri()` is `u`. */
  method BuildAfterWithUri(b: Builder, u: string) returns (req: Result<Request>)
    modifies b.request`uri
    ensures req == Ok(b.request) && b.request.Uri() == Some(u)
  {
    var same := b.WithUri(Some(u));
    req := b.Build();
  }
}
