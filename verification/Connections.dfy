/** How the connections of the running program stand for the client ids of the
    transition system: `id` gives each connection its id. */
module Connections {
  import opened HubModel
  import C = Client

  type Connection = C.Client<Out>

  ghost predicate Distinct(id: Connection -> Cid, cs: set<Connection>) {
    forall c, d :: c in cs && d in cs && id(c) == id(d) ==> c == d
  }

  ghost function Ids(id: Connection -> Cid, cs: set<Connection>): set<Cid> { set c | c in cs :: id(c) }

  /** The connection's queue is the one the state has for its id. */
  ghost predicate Queued(w: Hub, st: State, id: Connection -> Cid, c: Connection)
    reads c
  {
    c.Valid() && c.buffer == w.cfg.Buffer() && id(c) in st.queues && st.queues[id(c)] == c.Value()
  }

  lemma IdsWithout(id: Connection -> Cid, cs: set<Connection>, c: Connection)
    requires Distinct(id, cs + {c})
    ensures Ids(id, cs - {c}) == Ids(id, cs) - {id(c)}
  {
  }
}
