/** Runs of a session against a server scripted by the caller. */
module Scenarios {
  import opened Elements
  import opened UnitOfWork
  import opened Sessions

  /** A new vertex queued and flushed on a fresh session: one create is
      issued, the queue ends empty, and the merged vertex is cached under
      the id the server assigned. */
  method FlushNewVertex(v: Element, row: Row)
    requires v.Vertex? && v.id.None?
  {
    var engine := new Engine([Data([row])]);
    var session := new Session(engine);
    session.Add([v]);
    FlushOfNewVertices([v], session.State());
    FlushOfNewVerticesCaches([v], session.State());
    SaveNewVertex(session.State(), v);
    var out := session.Flush();
    assert out.Ok? && session.pending == [];
    assert engine.trace == [Create(OnVertex, v)];
    assert row.id in session.current;
    assert session.current == map[row.id := MapToOgm(row, v, v.mapping)];
  }

  /** Fetching an edge whose id the server does not know gives no element,
      raises nothing and leaves the cache alone. */
  method GetUnknownEdge(e: Element)
    requires e.Edge? && e.id.Some?
  {
    var engine := new Engine([Data([])]);
    var session := new Session(engine);
    var out := session.GetEdge(e);
    assert out == Ok(None);
    assert engine.trace == [GetById(OnEdge, e)];
    assert session.current == map[];
  }

  /** Saving an edge without a source fails before any traversal. */
  method SaveEdgeWithoutSource(e: Element)
    requires e.Edge? && e.source.None?
  {
    var engine := new Engine([]);
    var session := new Session(engine);
    var out := session.Save(e);
    assert out == Err(MissingEndpoints);
    assert engine.trace == [];
  }
}
