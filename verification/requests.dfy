/**
 What the client sends over the transport: a verb and a path. The endpoint
 registry's path constants are opaque strings carried in an `Endpoints`
 value; the client only concatenates them with ids and literal separators.
 */
module Requests {
  import opened Json

  datatype Verb = Get | Post | Put | Delete

  datatype Request = Request(verb: Verb, path: string)

  /** The registry's `USERS`, `PLAYLISTS` and `TRACKS` constants. */
  datatype Endpoints = Endpoints(users: string, playlists: string, tracks: string)

  /** The part of `path` strictly between `prefix` and `suffix`, if `path`
      has that shape. */
  function Between(path: string, prefix: string, suffix: string): Option<string>
  {
    if |prefix| + |suffix| <= |path|
       && path[..|prefix|] == prefix
       && path[|path| - |suffix|..] == suffix
    then Some(path[|prefix|..|path| - |suffix|])
    else None
  }

  /** `prefix + id + suffix`; the id can always be read back out of the path. */
  function Join(prefix: string, id: string, suffix: string): (path: string)
    ensures Between(path, prefix, suffix) == Some(id)
  {
    var path := prefix + id + suffix;
    assert path[..|prefix|] == prefix;
    assert path[|path| - |suffix|..] == suffix;
    assert path[|prefix|..|path| - |suffix|] == id;
    path
  }

  /** A path with `id` between `prefix` and `suffix` is exactly their
      concatenation, so `Between` pins the path down completely. */
  lemma BetweenIsJoin(path: string, prefix: string, suffix: string, id: string)
    requires Between(path, prefix, suffix) == Some(id)
    ensures path == prefix + id + suffix
  {
    assert path == path[..|prefix|] + path[|prefix|..|path| - |suffix|] + path[|path| - |suffix|..];
  }
}
