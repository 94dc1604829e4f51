/** NIO's `HTTPHeaders` as the server uses it: an ordered list of name/value
    pairs whose names are compared without regard to ASCII case. */
module Headers {
  import opened Strings

  type Header = (string, string)
  type HeaderList = seq<Header>

  predicate Named(h: Header, name: string)
  {
    EqualsIgnoreCase(h.0, name)
  }

  /** `headers[name]`: the values of every header with that name, in order. */
  function Values(hs: HeaderList, name: string): seq<string>
  {
    if hs == [] then []
    else Values(hs[..|hs| - 1], name) + (if Named(hs[|hs| - 1], name) then [hs[|hs| - 1].1] else [])
  }

  /** `headers.first(name:)`. */
  function First(hs: HeaderList, name: string): Option<string>
  {
    var vs := Values(hs, name);
    if vs == [] then None else Some(vs[0])
  }

  /** The values listed under a name are exactly the values of the entries
      with that name, and the first of them is the earliest such entry. */
  lemma {:induction false} ValuesAt(hs: HeaderList, name: string)
    ensures |Values(hs, name)| <= |hs|
    ensures forall v :: v in Values(hs, name) <==> exists i :: 0 <= i < |hs| && Named(hs[i], name) && hs[i].1 == v
    ensures First(hs, name).Some? ==>
              exists i :: 0 <= i < |hs| && Named(hs[i], name) && hs[i].1 == First(hs, name).value
                       && forall j :: 0 <= j < i ==> !Named(hs[j], name)
    ensures First(hs, name).None? ==> forall i :: 0 <= i < |hs| ==> !Named(hs[i], name)
  {
    if hs != [] {
      var init := hs[..|hs| - 1];
      ValuesAt(init, name);
      assert forall i :: 0 <= i < |init| ==> init[i] == hs[i];
      if First(init, name).Some? {
        var i :| 0 <= i < |init| && Named(init[i], name) && init[i].1 == First(init, name).value
                 && forall j :: 0 <= j < i ==> !Named(init[j], name);
        assert Named(hs[i], name) && hs[i].1 == First(hs, name).value;
      } else if Named(hs[|hs| - 1], name) {
        assert Named(hs[|hs| - 1], name) && hs[|hs| - 1].1 == First(hs, name).value;
      }
    }
  }

  /** `headers.remove(name:)`: every header with that name goes, the rest stay. */
  function Remove(hs: HeaderList, name: string): (r: HeaderList)
    ensures Values(r, name) == []
    ensures forall n :: !EqualsIgnoreCase(n, name) ==> Values(r, n) == Values(hs, n)
    ensures forall i :: 0 <= i < |r| ==> !Named(r[i], name)
  {
    if hs == [] then []
    else
      var init, last := hs[..|hs| - 1], hs[|hs| - 1];
      var kept := Remove(init, name);
      if Named(last, name) then kept
      else
        var r := kept + [last];
        assert r[..|kept|] == kept && r[|kept|] == last;
        assert forall n :: Values(r, n) == Values(kept, n) + (if Named(last, n) then [last.1] else []);
        r
  }

  /** `headers.add(name:value:)`: appended after every existing header. */
  function Add(hs: HeaderList, name: string, value: string): (r: HeaderList)
    ensures forall n :: Values(r, n) == Values(hs, n) + (if EqualsIgnoreCase(n, name) then [value] else [])
    ensures |r| == |hs| + 1 && r[..|hs|] == hs
  {
    var r := hs + [(name, value)];
    assert r[..|hs|] == hs;
    r
  }

  // ---------------------------------------------------------------------
  // `headers[canonicalForm: name]`: every value split at commas (empty
  // pieces dropped), each piece trimmed of surrounding whitespace
  // ---------------------------------------------------------------------

  predicate IsWhitespace(c: char)
  {
    c == ' ' || c == '\t' || c == '\r' || c == '\n'
  }

  function TrimLeft(s: string): (r: string)
    ensures |r| <= |s| && r == s[|s| - |r|..]
    ensures r == [] || !IsWhitespace(r[0])
  {
    if s != [] && IsWhitespace(s[0]) then TrimLeft(s[1..]) else s
  }

  function TrimRight(s: string): (r: string)
    ensures r <= s
    ensures r == [] || !IsWhitespace(r[|r| - 1])
  {
    if s != [] && IsWhitespace(s[|s| - 1]) then TrimRight(s[..|s| - 1]) else s
  }

  function Trim(s: string): string
  {
    TrimRight(TrimLeft(s))
  }

  /** Splits `s` at commas, `piece` being the part of the current piece
      already read; empty pieces are dropped, as `split(separator:)` does. */
  function SplitCommas(s: string, piece: string := []): (r: seq<string>)
    requires ',' !in piece
    ensures forall i :: 0 <= i < |r| ==> r[i] != [] && ',' !in r[i]
  {
    if s == [] then (if piece == [] then [] else [piece])
    else if s[0] == ',' then (if piece == [] then [] else [piece]) + SplitCommas(s[1..])
    else SplitCommas(s[1..], piece + [s[0]])
  }

  function Tokens(values: seq<string>): seq<string>
  {
    if values == [] then []
    else
      var pieces := SplitCommas(values[0]);
      seq(|pieces|, i requires 0 <= i < |pieces| => Trim(pieces[i])) + Tokens(values[1..])
  }

  function CanonicalForm(hs: HeaderList, name: string): seq<string>
  {
    Tokens(Values(hs, name))
  }

  /** The `connection` options of a header list, lower-cased. */
  function ConnectionOptions(hs: HeaderList): seq<string>
  {
    var ts := CanonicalForm(hs, "connection");
    seq(|ts|, i requires 0 <= i < |ts| => Lower(ts[i]))
  }
}
