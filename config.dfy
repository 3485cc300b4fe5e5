/**
 * The relay's parameters after option parsing, and the defaults filled in before any
 * socket is opened.
 */
module Config {

  import opened Wrappers

  /** The parameter hash, one entry per key option parsing can set; `None` is a key that
      is absent. Ports and intervals are integers (`to_i`), addresses strings, and
      `reestablish` the flag recorded when `--reestablish` is given. */
  datatype Params = Params(
    tunPort: Option<int>,
    tunAddr: Option<string>,
    appPort: Option<int>,
    appAddr: Option<string>,
    tunInterval: Option<int>,
    appInterval: Option<int>,
    reestablish: Option<bool>)

  /** The address both connections default to. */
  const Localhost: string := "127.0.0.1"

  /** Reestablishing is on: the key is present with a truthy value. */
  predicate Reestablishes(p: Params)
  {
    p.reestablish == Some(true)
  }

  /** The value stored under a key, or `d` when the key is absent. */
  function OrElse<T>(o: Option<T>, d: T): T
  {
    if o.Some? then o.value else d
  }

  /** The parameters after the defaults block: missing addresses become the loopback
      address, missing intervals become 0, and when reestablishing is on a tunnel interval
      below 1 is raised to 1. Every other entry stays as given. */
  function Normalized(p: Params): (r: Params)
    ensures r.appAddr == Some(OrElse(p.appAddr, Localhost))
    ensures r.tunAddr == Some(OrElse(p.tunAddr, Localhost))
    ensures r.appInterval == Some(OrElse(p.appInterval, 0))
    ensures r.tunInterval.Some?
    ensures !Reestablishes(p) ==> r.tunInterval == Some(OrElse(p.tunInterval, 0))
    ensures Reestablishes(p) ==> r.tunInterval.value >= 1
    ensures Reestablishes(p) && OrElse(p.tunInterval, 0) < 1 ==> r.tunInterval == Some(1)
    ensures Reestablishes(p) && OrElse(p.tunInterval, 0) >= 1 ==> r.tunInterval == p.tunInterval
    ensures r.tunPort == p.tunPort && r.appPort == p.appPort && r.reestablish == p.reestablish
  {
    var withApp := if p.appAddr.Some? then p else p.(appAddr := Some(Localhost));
    var withTun := if withApp.tunAddr.Some? then withApp else withApp.(tunAddr := Some(Localhost));
    var withInterval := if withTun.tunInterval.Some? then withTun else withTun.(tunInterval := Some(0));
    var clamped := if Reestablishes(withInterval) && withInterval.tunInterval.value < 1
      then withInterval.(tunInterval := Some(1)) else withInterval;
    if clamped.appInterval.Some? then clamped else clamped.(appInterval := Some(0))
  }

  /** Filling in the defaults a second time changes nothing. */
  lemma NormalizedIsIdempotent(p: Params)
    ensures Normalized(Normalized(p)) == Normalized(p)
  {
  }

  /** `$parameters`, the hash option parsing fills in. */
  class Parameters {
    var entries: Params

    constructor (parsed: Params)
      ensures entries == parsed
    {
      entries := parsed;
    }

    /** The defaults block: its guarded assignments to the hash, one after another. */
    method ApplyDefaults()
      modifies this
      ensures entries == Normalized(old(entries))
    {
      if entries.appAddr.None? {
        entries := entries.(appAddr := Some(Localhost));
      }
      if entries.tunAddr.None? {
        entries := entries.(tunAddr := Some(Localhost));
      }
      if entries.tunInterval.None? {
        entries := entries.(tunInterval := Some(0));
      }
      if Reestablishes(entries) && entries.tunInterval.value < 1 {
        entries := entries.(tunInterval := Some(1));
      }
      if entries.appInterval.None? {
        entries := entries.(appInterval := Some(0));
      }
    }
  }
}
