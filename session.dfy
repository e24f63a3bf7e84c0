/** The `Session` object: a pending queue and an identity cache that its
    methods change in place, over an engine that executes traversals. */
module Sessions {
  import opened Elements
  import opened UnitOfWork

  /** The engine: submits a traversal and fetches its result. The server it
      talks to is represented by the replies it will give, in order; the
      traversals issued so far are recorded for the proofs. */
  class Engine {
    var replies: seq<Reply>
    ghost var trace: seq<Traversal>

    ghost function Model(): Remote
      reads this
    {
      Remote(trace, replies)
    }

    constructor (replies: seq<Reply>)
      ensures Model() == Remote([], replies)
    {
      this.replies := replies;
      trace := [];
    }

    /** `engine.submit` of the traversal's script, then `fetch_data` on the
        stream it returns. */
    method Submit(t: Traversal) returns (reply: Reply)
      modifies this
      ensures (Model(), reply) == Execute(old(Model()), t)
    {
      reply := NextReply(replies);
      replies := Drop(replies, 1);
      trace := trace + [t];
    }
  }

  class Session {
    var pending: seq<Element>
    var current: map<Id, Element>
    const engine: Engine

    /** The cache and the engine as one value. */
    ghost function State(): Store
      reads this, engine
    {
      Store(current, engine.Model())
    }

    constructor (engine: Engine)
      ensures this.engine == engine
      ensures pending == [] && current == map[]
    {
      this.engine := engine;
      pending := [];
      current := map[];
    }

    /** `add`: append the elements to the queue in argument order. */
    method Add(elements: seq<Element>)
      modifies this
      ensures pending == old(pending) + elements
      ensures current == old(current)
    {
      for i := 0 to |elements|
        invariant pending == old(pending) + elements[..i]
        invariant current == old(current)
      {
        pending := pending + [elements[i]];
      }
    }

    /** `flush`: save the queued elements in FIFO order, stopping at the
        first failure. */
    method Flush() returns (out: Result<()>)
      modifies this, engine
      ensures var r := UnitOfWork.Flush(old(pending), old(State()));
              pending == r.pending && State() == r.st && out == r.out
    {
      while pending != []
        invariant UnitOfWork.Flush(pending, State()) == UnitOfWork.Flush(old(pending), old(State()))
        decreases |pending|
      {
        var elem := pending[0];
        pending := pending[1..];
        var saved := Save(elem);
        if saved.Err? {
          return Err(saved.error);
        }
      }
      return Ok(());
    }

    /** `save`: dispatch on the element's kind. */
    method Save(element: Element) returns (out: Result<Element>)
      modifies this`current, engine
      ensures var r := UnitOfWork.Save(old(State()), element);
              State() == r.st && out == r.out
    {
      match element
      case Vertex(_, _, _) =>
        out := SaveVertex(element);
      case Edge(_, _, _, _, _) =>
        out := SaveEdge(element);
      case Other(_, _, _) =>
        out := Err(UnknownElementKind);
    }

    /** `save_vertex`. */
    method SaveVertex(element: Element) returns (out: Result<Element>)
      modifies this`current, engine
      ensures var r := UnitOfWork.SaveVertex(old(State()), element);
              State() == r.st && out == r.out
    {
      out := SaveElement(element, OnVertex);
      if out.Ok? {
        current := current[out.value.id.value := out.value];
      }
    }

    /** `save_edge`. */
    method SaveEdge(element: Element) returns (out: Result<Element>)
      modifies this`current, engine
      ensures var r := UnitOfWork.SaveEdge(old(State()), element);
              State() == r.st && out == r.out
    {
      if !HasEndpoints(element) {
        return Err(MissingEndpoints);
      }
      out := SaveElement(element, OnEdge);
      if out.Ok? {
        current := current[out.value.id.value := out.value];
      }
    }

    /** `_save_element`: fetch by id when there is an id, then create or
        update, then merge row 0 of the last result onto the element. */
    method SaveElement(element: Element, target: Target) returns (out: Result<Element>)
      modifies engine
      ensures var r := UnitOfWork.SaveElement(old(State()), target, element);
              State() == r.st && out == r.out
    {
      var write: Traversal;
      if element.id.Some? {
        var fetched := ExecuteTraversal(GetById(target, element));
        if fetched.Fault? {
          return Err(Transport);
        }
        if fetched.rows == [] {
          write := Create(target, element);
        } else {
          write := Update(target, element);
        }
      } else {
        write := Create(target, element);
      }
      var result := ExecuteTraversal(write);
      if result.Fault? {
        return Err(Transport);
      }
      if result.rows == [] {
        return Err(EmptyResult);
      }
      out := Ok(MapToOgm(result.rows[0], element, element.mapping));
    }

    /** `execute_traversal` followed by `fetch_data` on its stream: the one
        path through which every traversal reaches the engine. */
    method ExecuteTraversal(traversal: Traversal) returns (reply: Reply)
      modifies engine
      ensures (engine.Model(), reply) == Execute(old(engine.Model()), traversal)
    {
      reply := engine.Submit(traversal);
    }

    /** `remove_vertex`. */
    method RemoveVertex(element: Element) returns (out: Result<seq<Row>>)
      modifies this`current, engine
      ensures var r := UnitOfWork.RemoveVertex(old(State()), element);
              State() == r.st && out == r.out
    {
      out := RemoveElement(element, Remove(OnVertex, element));
    }

    /** `remove_edge`. */
    method RemoveEdge(element: Element) returns (out: Result<seq<Row>>)
      modifies this`current, engine
      ensures var r := UnitOfWork.RemoveEdge(old(State()), element);
              State() == r.st && out == r.out
    {
      out := RemoveElement(element, Remove(OnEdge, element));
    }

    /** `_remove_element`: execute, fetch, then delete the cache entry. */
    method RemoveElement(element: Element, traversal: Traversal) returns (out: Result<seq<Row>>)
      modifies this`current, engine
      ensures var r := UnitOfWork.RemoveElement(old(State()), traversal, element);
              State() == r.st && out == r.out
    {
      var result := ExecuteTraversal(traversal);
      if result.Fault? {
        return Err(Transport);
      }
      if element.id.None? {
        return Err(NoId);
      }
      if element.id.value !in current {
        return Err(KeyNotCached(element.id.value));
      }
      current := current - {element.id.value};
      out := Ok(result.rows);
    }

    /** `get_vertex`. */
    method GetVertex(element: Element) returns (out: Result<Option<Element>>)
      modifies engine
      ensures var r := UnitOfWork.GetVertex(old(State()), element);
              State() == r.st && out == r.out
    {
      out := GetElement(element, OnVertex);
    }

    /** `get_edge`. */
    method GetEdge(element: Element) returns (out: Result<Option<Element>>)
      modifies engine
      ensures var r := UnitOfWork.GetEdge(old(State()), element);
              State() == r.st && out == r.out
    {
      out := GetElement(element, OnEdge);
    }

    /** Shared body of `get_vertex` and `get_edge`. */
    method GetElement(element: Element, target: Target) returns (out: Result<Option<Element>>)
      modifies engine
      ensures var r := UnitOfWork.GetElement(old(State()), target, element);
              State() == r.st && out == r.out
    {
      var result := ExecuteTraversal(GetById(target, element));
      if result.Fault? {
        return Err(Transport);
      }
      if result.rows == [] {
        return Ok(None);
      }
      out := Ok(Some(MapToOgm(result.rows[0], element, element.mapping)));
    }
  }
}
