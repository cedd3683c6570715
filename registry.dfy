/**
 The peer registry (package `manager`): a map from a server's id to the
 server. The reader/writer lock around every access is left out; each
 operation is one step on the map.
 */
module Registry {
  import opened Protocol
  import Game

  /** What a delegated `Connect` on a server answers with. */
  type Negotiator = (Game.Server, SessionDescription) -> Result<SessionDescription, CodecError>

  class Manager {
    var servers: map<string, Game.Server>

    /** Every server is stored under its own id. */
    ghost predicate Valid()
      reads this
    {
      forall k :: k in servers ==> servers[k].id == k
    }

    /** `New`: an empty registry. */
    constructor ()
      ensures Valid() && servers == map[]
    {
      servers := map[];
    }

    /** Last writer wins: `s` replaces whatever was stored under its id. */
    method Register(s: Game.Server)
      requires Valid()
      modifies this
      ensures Valid()
      ensures servers == old(servers)[s.id := s]
    {
      servers := servers[s.id := s];
    }

    /** Removes the entry under `s`'s id, whichever server is stored there. */
    method Unregister(s: Game.Server)
      requires Valid()
      modifies this
      ensures Valid()
      ensures servers == old(servers) - {s.id}
    {
      servers := servers - {s.id};
    }

    /** A snapshot: one slot per entry, holding every stored server exactly once. */
    method List() returns (r: array<Game.Server?>)
      requires Valid()
      ensures fresh(r)
      ensures r.Length == |servers|
      ensures forall j :: 0 <= j < r.Length ==> r[j] != null && r[j] in servers.Values
      ensures forall s :: s in servers.Values ==> s in r[..]
      ensures forall i, j :: 0 <= i < j < r.Length ==> r[i] != r[j]
    {
      r := new Game.Server?[|servers|];
      var left := servers.Keys;
      var i := 0;
      while left != {}
        invariant left <= servers.Keys
        invariant i + |left| == |servers|
        invariant forall j :: 0 <= j < i ==> r[j] != null && r[j].id in servers && r[j].id !in left && servers[r[j].id] == r[j]
        invariant forall k :: k in servers && k !in left ==> servers[k] in r[..i]
        invariant forall j, l :: 0 <= j < l < i ==> r[j] != r[l]
        decreases |left|
      {
        var k :| k in left;
        ghost var done := r[..i];
        r[i] := servers[k];
        assert r[..i + 1] == done + [servers[k]];
        left := left - {k};
        i := i + 1;
      }
      forall s | s in servers.Values ensures s in r[..] {
        var k :| k in servers && servers[k] == s;
        assert r[..i] == r[..];
      }
    }

    /** A miss is `ErrInvalidServer`, whatever the servers would answer; a hit is
        the stored server's own answer, passed on unchanged. */
    method Connect(id: string, sd: SessionDescription, negotiate: Negotiator) returns (r: Result<SessionDescription, Error>)
      ensures id !in servers ==> r == Err(InvalidServer)
      ensures id in servers ==> r == negotiate(servers[id], sd)
      ensures r == Err(InvalidServer) <==> id !in servers
    {
      if id !in servers {
        return Err(InvalidServer);
      }
      var s := servers[id];
      r := negotiate(s, sd);
    }
  }
}
