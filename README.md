# goblin `Session`: the unit of work, in Dafny

This project models the unit-of-work core of goblin, an object-graph mapper
for a remote graph database reached through Gremlin traversals. A `Session`
keeps a FIFO queue of elements waiting to be persisted (`_pending`) and an
identity cache from server-assigned id to the last persisted element
(`_current`). On top of these two it decides, for each element, which
traversals to send: fetch-by-id, then create or update. It merges the
returned row back onto the element and keeps the cache in step.

Layout:

- `elements.dfy` (module `Elements`): the values involved. Elements are
  `Vertex | Edge | Other`, with an optional id and, for edges, optional
  `source`/`target`. Also result rows, traversals (`GetById`, `Create`,
  `Update`, `Remove`, each tagged with the vertex or edge query family),
  replies, errors, and a stand-in for the mapper.
- `unit_of_work.dfy` (module `UnitOfWork`): every session operation as a
  function from the state before the call to the state after it and the
  call's outcome. It also holds the lemmas that relate operations:
  - `flush` against saving left to right;
  - adding to the queue against flushing;
  - save against remove;
  - flushing new vertices.
- `session.dfy` (module `Sessions`): the `Session` class, whose `pending`
  (a `seq`) and `current` (a `map`) its methods change in place, and the
  `Engine` class it submits traversals through. Every method that saves,
  removes, fetches or flushes is proved to produce exactly the state and
  outcome of the matching `UnitOfWork` function; `Add` and the constructors
  have no such counterpart, and their contracts give the new state
  directly.
- `scenarios.dfy` (module `Scenarios`): three client runs against a
  scripted server:
  - a new vertex flushed into the cache under the id the server assigned;
  - a fetch that finds nothing;
  - an edge without a source that is refused before any traversal.

The remote side is an oracle. The engine holds the replies the server will
give, one per traversal, in order: either rows or a failure. It records the
traversals issued so far in a ghost trace. Any server that answers one
traversal at a time, including one whose entities are deleted behind the
session's back, is such a sequence of replies. So the properties below hold
for every server behaviour. When the script runs out, the server answers
with a failure.

Three details of `goblin/session.py` that the model keeps as written:

- `get_vertex`/`get_edge` merge row 0 onto the element passed in
  (line 116), not onto a new element.
- `_remove_element` raises when the element's id is not cached (the `del`
  at line 108). It does so after the remove traversal has been issued and
  its result fetched.
- `save_edge` only tests that the `source` and `target` attributes are
  present (line 65). Calling it on a non-edge therefore fails the same
  way.

## Model

| member | source | states |
|---|---|---|
| Elements.MapToOgm | goblin/session.py:93 | the merged element carries the row's id and the row's values of the mapped properties, and keeps its kind, endpoints and mapping |
| UnitOfWork.Execute | goblin/session.py:129-136 | a round trip appends exactly the given traversal to the trace and consumes exactly one reply, which it returns |
| UnitOfWork.Merged | goblin/session.py:91-93 | merging succeeds exactly when the final result has a row, and then gives row 0 merged onto the element with the row's id; a result without rows is `EmptyResult` (the `IndexError` on `data[0]`) and a failed round trip propagates |
| UnitOfWork.SaveElement | goblin/session.py:75-93 | no id: exactly one traversal, a Create. With an id: GetById, then exactly one of Create (no rows) or Update (rows), never both, and nothing after a failed fetch. The result is the last reply merged onto the element. Every traversal uses the given query family, one reply per traversal, and the cache is untouched |
| UnitOfWork.Cache | goblin/session.py:61 | after a successful save the cache maps the result's id to the result and every other entry is unchanged; after a failure the cache is unchanged |
| UnitOfWork.SaveVertex | goblin/session.py:55-62 | issues what `_save_element` with the vertex queries issues, returns its result, and on success sets `current[result.id] = result` and changes no other entry |
| UnitOfWork.SaveEdge | goblin/session.py:64-73 | fails with `MissingEndpoints` exactly when source or target is absent, and then nothing is issued and the cache is unchanged; otherwise behaves as `_save_element` with the edge queries and caches the result |
| UnitOfWork.Save | goblin/session.py:46-53 | fails with `UnknownElementKind` exactly for elements that are neither vertex nor edge, then with no traversal and no cache change; a vertex gets the outcome and traversals of `_save_element` with the vertex queries; an edge fails with `MissingEndpoints` exactly when an endpoint is absent, then with no traversal and no cache change, and otherwise gets those of `_save_element` with the edge queries; success caches the result under its id |
| UnitOfWork.Flush | goblin/session.py:41-44 | a normal return leaves the queue empty; a failure leaves a strict suffix of the queue (the failing element already popped); one reply per traversal issued |
| UnitOfWork.SaveInOrder | goblin/session.py:41-44 | reference order: save is called on the elements left to right and stops right after the first failure; every element is attempted on success |
| UnitOfWork.FlushSavesInFifoOrder | goblin/session.py:41-44 | `flush` ends exactly as saving the queued elements in FIFO order does, and the elements whose save was never called are exactly the ones left queued |
| UnitOfWork.SaveInOrderAppend | goblin/session.py:37-44 | elements appended by `add` are saved only after every element queued before them was saved successfully |
| UnitOfWork.SaveNewVertex | goblin/session.py:75-90 | saving a vertex without an id against a server that answers the create issues exactly one Create and caches the merged vertex under the server-assigned id |
| UnitOfWork.FlushOfNewVertices | goblin/session.py:41-62 | flushing vertices without ids that are distinct objects (the same object queued twice is created once and then updated in the source; see Left out), each create answered with a row: the flush succeeds, the queue ends empty, exactly one Create per vertex is issued in queue order with no GetById, and no cached id is lost |
| UnitOfWork.SaveReturnedVertexAgain | goblin/session.py:75-93 | saving again the vertex a save returned, which carries the server's id: the second save issues GetById and then Update, never a second Create, and returns the update's row merged onto it |
| UnitOfWork.FlushOfNewVerticesCaches | goblin/session.py:41-61 | in that flush, every id the server assigned is a key of the cache afterwards |
| UnitOfWork.FlushStopsAtFailure | goblin/session.py:41-53 | flushing [a, b, c] where b has an unknown kind: a is created, the flush fails with `UnknownElementKind`, c stays queued and no traversal is issued for b or c |
| UnitOfWork.RemoveElement | goblin/session.py:105-109 | the remove traversal is always issued first. The call succeeds exactly when the round trip succeeds and the element's id is cached; it then deletes only that key and returns the fetched rows. A missing id or an uncached id fails after the traversal and leaves the cache unchanged |
| UnitOfWork.RemoveVertex | goblin/session.py:95-98 | issues one vertex Remove and consumes one reply; succeeds exactly when it is answered and the id is cached, and then returns the fetched rows and the cache is the old one without that id and nothing else changed; a failed round trip is `Transport`, a missing id `NoId` and an uncached id the `KeyError` of line 108 (`KeyNotCached`); on failure the cache is unchanged |
| UnitOfWork.RemoveEdge | goblin/session.py:100-103 | issues one edge Remove and consumes one reply; succeeds exactly when it is answered and the id is cached, and then returns the fetched rows and the cache is the old one without that id and nothing else changed; a failed round trip is `Transport`, a missing id `NoId` and an uncached id the `KeyError` of line 108 (`KeyNotCached`); on failure the cache is unchanged |
| UnitOfWork.SaveThenRemove | goblin/session.py:105-109 | removing the element a successful save just cached succeeds once its traversal is answered, and leaves the cache as before the save minus that id |
| UnitOfWork.GetElement | goblin/session.py:111-127 | issues one GetById; no rows gives no element and no error; rows give exactly row 0 merged onto the element, and a returned element always comes from row 0; only a failed round trip raises; the cache is never modified |
| UnitOfWork.GetVertex | goblin/session.py:111-118 | one vertex GetById, cache unchanged; no rows gives no element, rows give row 0 merged onto the element; only a failed round trip raises, as `Transport` |
| UnitOfWork.GetEdge | goblin/session.py:120-127 | one edge GetById, cache unchanged; no rows gives no element, rows give row 0 merged onto the element; only a failed round trip raises, as `Transport` |
| Sessions.Engine.Submit | goblin/session.py:134-135 | submitting appends the traversal to the trace and consumes and returns the next reply |
| Sessions.Session.constructor | goblin/session.py:16-23 | a new session has an empty queue and an empty cache |
| Sessions.Session.Add | goblin/session.py:37-39 | appends the elements to the end of the queue in argument order; the cache and the engine are unchanged |
| Sessions.Session.Flush | goblin/session.py:41-44 | the `while` loop that pops and saves leaves the queue, cache, trace and outcome given by `UnitOfWork.Flush` |
| Sessions.Session.Save | goblin/session.py:46-53 | new cache, trace and outcome are those of `UnitOfWork.Save`; the queue is not touched |
| Sessions.Session.SaveVertex | goblin/session.py:55-62 | new cache, trace and outcome are those of `UnitOfWork.SaveVertex` |
| Sessions.Session.SaveEdge | goblin/session.py:64-73 | new cache, trace and outcome are those of `UnitOfWork.SaveEdge` |
| Sessions.Session.SaveElement | goblin/session.py:75-93 | trace and outcome are those of `UnitOfWork.SaveElement`; the cache is not touched |
| Sessions.Session.ExecuteTraversal | goblin/session.py:129-136 | the single path to the engine: one traversal issued, one reply consumed |
| Sessions.Session.RemoveVertex | goblin/session.py:95-98 | new cache, trace and outcome are those of `UnitOfWork.RemoveVertex` |
| Sessions.Session.RemoveEdge | goblin/session.py:100-103 | new cache, trace and outcome are those of `UnitOfWork.RemoveEdge` |
| Sessions.Session.RemoveElement | goblin/session.py:105-109 | execute, fetch, then `del current[id]`: the state and outcome of `UnitOfWork.RemoveElement` |
| Sessions.Session.GetVertex | goblin/session.py:111-118 | trace and outcome of `UnitOfWork.GetVertex`; the cache is not modified |
| Sessions.Session.GetEdge | goblin/session.py:120-127 | trace and outcome of `UnitOfWork.GetEdge`; the cache is not modified |
| Sessions.Session.GetElement | goblin/session.py:111-127 | the body shared by both getters: trace and outcome of `UnitOfWork.GetElement` |

## Left out

- `goblin/driver/graph.py`, all of it. `AsyncRemoteStrategy.apply` and
  `AsyncGraphTraversal.next` only forward to the remote connection and the
  translator. `toList`/`toSet` only raise. `close` and `__aexit__` are
  connection teardown.
- async/await scheduling. Each call is a sequential method; an `await` adds
  only ordering.
- The internals of `execute_traversal`: `query.parse_traversal`,
  `engine.submit` and `fetch_data`. They are one engine round trip that
  records the traversal and returns the next scripted reply. Scripts and
  bindings are not modelled. A traversal is its kind, its query family and
  its element.
- The query builders (`get_*_by_id`, `add_*`, `update_*`, `remove_*`) are
  assumed never to raise. So a remove or get of an element without an id
  still issues its traversal. The remove then fails at the `del`.
- The transaction branch of `execute_traversal` (lines 132-133) is treated
  as switched off. As written it calls the boolean `_use_session` and passes
  a script to `_wrap_in_tx`, which takes none and raises anyway. `tx`
  and `rollback` (lines 141-142, 150-151) raise `NotImplementedError`.
  `commit` (lines 144-148) first flushes, so a failing flush raises its own
  error; otherwise it raises, either `NotImplementedError` or, when the
  backend reports transactions, a `TypeError` from calling the boolean
  `_use_session` at line 146. None of the three is modelled.
- The `use_session` constructor argument (ignored by the source), `_loop`,
  `_session`, the `engine`/`query`/`current` property accessors, and logging.
- Exception messages and classes. Each raise is one constructor of `Error`.
  A failure of the engine or the transport is `Transport`. A server whose
  script has run out answers with such a failure.
- Elements.MapToOgm: a stand-in for `map_vertex_to_ogm`/`map_edge_to_ogm`,
  whose field-mapping rules are not part of this model. It assigns the
  row's id and keeps the row's mapped properties.
  - The real mapper mutates the element it is given and returns that same
    object. The model returns a new value instead.
  - So aliasing is not captured: the caller's object, the object in the
    cache, and an edge whose `source`/`target` is that object all see the
    new id in the source, not in the model.
  - So saving or adding the same object again goes through GetById and then
    Update in the source (the `hasattr(element, 'id')` test at line 81 sees
    the id the mapper set), and through a second Create in the model: e.g.
    `add(v); flush(); add(v); flush()`, or `add(v, v)` in one flush. Only
    saving the value a save returned reaches the update branch here
    (`UnitOfWork.SaveReturnedVertexAgain`).
- UnitOfWork.GetElement: "the mapper is not invoked when there are no rows"
  is stated only as "the result is no element". The mapper is a pure
  function here, so how often it is called is not observable.
