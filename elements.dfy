/** Values the session works with: OGM elements, result rows, the traversals
    the session issues, what one round trip to the server yields, and the
    errors the session raises. */
module Elements {

  datatype Option<+T> = None | Some(value: T)

  /** A server-assigned identity. */
  type Id = string

  /** Property name to property value. */
  type Props = map<string, string>

  /** One row of a fetched result: the entity's id and its properties. */
  datatype Row = Row(id: Id, props: Props)

  /** An OGM element. The constructor plays the part of `__type__`:
      `Vertex` is 'vertex', `Edge` is 'edge', `Other` is any other value.
      `id` is absent until the element has been persisted; `mapping` is the
      set of property names the element's `__mapping__` declares; an edge's
      `source` and `target` are absent when the attribute is not set. */
  datatype Element =
    | Vertex(id: Option<Id>, props: Props, mapping: set<string>)
    | Edge(id: Option<Id>, source: Option<Element>, target: Option<Element>,
           props: Props, mapping: set<string>)
    | Other(id: Option<Id>, props: Props, mapping: set<string>)

  /** True when `e` is an edge that carries both endpoints. */
  predicate HasEndpoints(e: Element)
  {
    e.Edge? && e.source.Some? && e.target.Some?
  }

  /** Which family of query builders a traversal comes from
      (`get_vertex_by_id` vs `get_edge_by_id`, and so on). */
  datatype Target = OnVertex | OnEdge

  /** The traversals the session asks the query builder for. */
  datatype Traversal =
    | GetById(target: Target, elem: Element)
    | Create(target: Target, elem: Element)
    | Update(target: Target, elem: Element)
    | Remove(target: Target, elem: Element)

  /** What one `execute_traversal` followed by `fetch_data` yields: the rows
      of the result, or a failure raised by the engine or the transport. */
  datatype Reply = Data(rows: seq<Row>) | Fault

  datatype Error =
    | UnknownElementKind   // `save` on an element that is neither vertex nor edge
    | MissingEndpoints     // `save_edge` on an element without source or target
    | EmptyResult          // `result.data[0]` on a result without rows
    | NoId                 // `element.id` on an element that has none
    | KeyNotCached(id: Id) // `del current[id]` for an id that is not cached
    | Transport            // a failure propagated unchanged from the engine

  datatype Result<+T> = Ok(value: T) | Err(error: Error)

  /** Stand-in for `map_vertex_to_ogm` / `map_edge_to_ogm`: merges `row` onto
      `e` under `mapping`. The element takes the row's id and the row's
      values of the mapped properties; its kind, endpoints and mapping stay. */
  function MapToOgm(row: Row, e: Element, mapping: set<string>): (r: Element)
    ensures r.id == Some(row.id)
    ensures r.props.Keys == row.props.Keys * mapping
    ensures forall k :: k in r.props ==> r.props[k] == row.props[k]
    ensures r.Vertex? == e.Vertex? && r.Edge? == e.Edge? && r.Other? == e.Other?
    ensures r.mapping == e.mapping
    ensures e.Edge? ==> r.source == e.source && r.target == e.target
  {
    e.(id := Some(row.id),
       props := map k | k in row.props && k in mapping :: row.props[k])
  }
}
