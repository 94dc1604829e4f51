/** The server's start-up choices and its two string helpers: where to
    listen, chosen from the `FN_LISTENER` environment variable, and the
    `chopPrefix` / `containsDotDot` extensions of `String`. */
module Handle {
  import opened Strings

  /** `String.chopPrefix(_:)`: the rest of `s` after `prefix`, if `s` starts with it. */
  function ChopPrefix(s: string, prefix: string): (r: Option<string>)
    ensures r.Some? <==> prefix <= s
    ensures r.Some? ==> prefix + r.value == s
  {
    if prefix <= s then Some(s[|prefix|..]) else None
  }

  /** Chopping nothing leaves the string as it is. */
  lemma ChopEmptyPrefix(s: string)
    ensures ChopPrefix(s, "") == Some(s)
  {
  }

  /** Chopping a prefix off a string built from it gives back the rest. */
  lemma ChopPrefixOfConcat(prefix: string, rest: string)
    ensures ChopPrefix(prefix + rest, prefix) == Some(rest)
  {
    assert (prefix + rest)[|prefix|..] == rest;
  }

  /** `String.containsDotDot()`: scans the indices for a '.' followed by another '.'. */
  method ContainsDotDot(s: string) returns (found: bool)
    ensures found <==> exists i :: 0 <= i < |s| - 1 && s[i] == '.' && s[i + 1] == '.'
    ensures |s| < 2 ==> !found
  {
    var idx := 0;
    while idx < |s|
      invariant 0 <= idx <= |s|
      invariant forall j :: 0 <= j < idx && j < |s| - 1 ==> !(s[j] == '.' && s[j + 1] == '.')
    {
      if s[idx] == '.' && idx < |s| - 1 && s[idx + 1] == '.' {
        return true;
      }
      idx := idx + 1;
    }
    return false;
  }

  /** `Handle.BindTo`. */
  datatype BindTo = Ip(host: string, port: nat) | UnixDomainSocket(path: string)

  /** The outcome of start-up: a bind target, or a trap because `FN_LISTENER`
      lacks the "unix:" prefix and the force-unwrap of `chopPrefix` fails. */
  datatype Startup = Bind(target: BindTo) | Trap

  const DefaultHost: string := "127.0.0.1"
  const DefaultPort: nat := 8888
  const UnixScheme: string := "unix:"

  /** The bind-target choice of `Handle.init`, given the value of `FN_LISTENER`. */
  function SelectBindTarget(listener: Option<string>): (r: Startup)
    ensures listener.None? ==> r == Bind(Ip("127.0.0.1", 8888))
    ensures listener.Some? && UnixScheme <= listener.value ==>
              r.Bind? && r.target.UnixDomainSocket? && UnixScheme + r.target.path == listener.value
    ensures listener.Some? && !(UnixScheme <= listener.value) ==> r == Trap
  {
    match listener
    case None => Bind(Ip(DefaultHost, DefaultPort))
    case Some(value) =>
      match ChopPrefix(value, UnixScheme)
      case None => Trap
      case Some(path) => Bind(UnixDomainSocket(path))
  }
}
