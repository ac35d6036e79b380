/**
 * The header object of an HTTP response, as the retry helper reads it: a plain
 * object whose own properties are header names with their values. A property
 * read with `headers[name]` is an exact, case-sensitive match on the name and
 * yields `undefined` when no property has that name.
 */
module Headers {
  import opened Wrappers

  /** The two kinds of header value the helper meets: numbers and strings. */
  datatype HeaderValue = Num(n: int) | Str(s: string)

  /** One own property of the header object. */
  datatype Header = Header(name: string, value: HeaderValue)

  /** An object never has two own properties with the same name. */
  predicate NamesDistinct(hs: seq<Header>)
  {
    forall i, j :: 0 <= i < j < |hs| ==> hs[i].name != hs[j].name
  }

  /** A header object: its properties in insertion order, names distinct. */
  type HeaderObject = hs: seq<Header> | NamesDistinct(hs)

  /**
   * JavaScript truthiness of a header value: 0 and "" are falsy, every other
   * number and string (including the string "0") is truthy.
   */
  predicate Truthy(v: HeaderValue)
  {
    match v
    case Num(n) => n != 0
    case Str(s) => s != ""
  }

  /** Truthiness of a property read; `undefined` (None) is falsy. */
  predicate TruthyRead(o: Option<HeaderValue>)
  {
    o.Some? && Truthy(o.value)
  }

  /**
   * The property read `headers[name]`: the value of the property named
   * exactly `name`, or None (undefined) when there is none.
   */
  function Get(hs: seq<Header>, name: string): (r: Option<HeaderValue>)
    ensures r.Some? ==> Header(name, r.value) in hs
    ensures r.None? <==> forall i :: 0 <= i < |hs| ==> hs[i].name != name
  {
    if hs == [] then None
    else if hs[0].name == name then Some(hs[0].value)
    else Get(hs[1..], name)
  }

  /** The header object viewed as a dictionary from names to values. */
  function HeaderMap(hs: HeaderObject): (m: map<string, HeaderValue>)
    ensures forall i :: 0 <= i < |hs| ==> hs[i].name in m && m[hs[i].name] == hs[i].value
  {
    map i | 0 <= i < |hs| :: hs[i].name := hs[i].value
  }

  /** In an object, the property read agrees with the dictionary view. */
  lemma GetAgreesWithHeaderMap(hs: HeaderObject, name: string)
    ensures Get(hs, name) == if name in HeaderMap(hs) then Some(HeaderMap(hs)[name]) else None
  {
  }
}
