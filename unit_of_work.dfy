/** The session's unit-of-work bookkeeping as functions on values. Each
    operation takes the state before the call and gives the state after it
    together with the call's outcome; the `Session` class's methods are
    proved to do exactly this. */
module UnitOfWork {
  import opened Elements

  /** The engine as the session sees it: the traversals issued so far and
      the replies the server will give, one per traversal, in order. Any
      behaviour of a server that answers one traversal at a time is such a
      sequence of replies. */
  datatype Remote = Remote(trace: seq<Traversal>, replies: seq<Reply>)

  /** The identity cache and the engine. The pending queue is kept apart:
      only `add` and `flush` touch it. */
  datatype Store = Store(current: map<Id, Element>, remote: Remote)

  /** The state after a call and what the call returned or raised. */
  datatype Step<T> = Step(st: Store, out: Result<T>)

  /** The reply to the next traversal; a server that has nothing more to say
      fails. */
  function NextReply(replies: seq<Reply>): Reply
  {
    if replies == [] then Fault else replies[0]
  }

  /** The replies left after `n` traversals. */
  function Drop(replies: seq<Reply>, n: nat): seq<Reply>
  {
    if n <= |replies| then replies[n..] else []
  }

  lemma DropDrop(replies: seq<Reply>, m: nat, n: nat)
    ensures Drop(Drop(replies, m), n) == Drop(replies, m + n)
  {
  }

  /** The reply the `n`-th traversal from now receives. */
  function NthReply(replies: seq<Reply>, n: nat): Reply
  {
    NextReply(Drop(replies, n))
  }

  /** Every traversal issued between `rm` and `rm'` consumed exactly one
      reply, and nothing issued earlier was forgotten. */
  predicate OneReplyPerTraversal(rm: Remote, rm': Remote)
  {
    rm.trace <= rm'.trace && rm'.replies == Drop(rm.replies, |rm'.trace| - |rm.trace|)
  }

  lemma OneReplyTransitive(a: Remote, b: Remote, c: Remote)
    requires OneReplyPerTraversal(a, b) && OneReplyPerTraversal(b, c)
    ensures OneReplyPerTraversal(a, c)
  {
  }

  /** Every traversal issued between `rm` and `rm'` was built by the query
      builders for `target`. */
  predicate IssuedOn(rm: Remote, rm': Remote, target: Target)
  {
    forall i :: |rm.trace| <= i < |rm'.trace| ==> rm'.trace[i].target == target
  }

  /** `execute_traversal` followed by `fetch_data`: `t` is issued and the
      next reply is consumed. */
  function Execute(rm: Remote, t: Traversal): (r: (Remote, Reply))
    ensures r.0.trace == rm.trace + [t]
    ensures OneReplyPerTraversal(rm, r.0)
    ensures r.1 == NthReply(rm.replies, 0)
  {
    (Remote(rm.trace + [t], Drop(rm.replies, 1)), NextReply(rm.replies))
  }

  /** Issues `t` without touching the cache. */
  function Issue(st: Store, t: Traversal): (Store, Reply)
  {
    var (rm, reply) := Execute(st.remote, t);
    (st.(remote := rm), reply)
  }

  /** `mapper_func(result.data[0], element, element.__mapping__)` on a
      reply: row 0 merged onto `e`; indexing a result without rows fails,
      and so does a failed round trip. */
  function Merged(reply: Reply, e: Element): (r: Result<Element>)
    ensures r.Ok? <==> reply.Data? && reply.rows != []
    ensures r.Ok? ==> r.value == MapToOgm(reply.rows[0], e, e.mapping) &&
                      r.value.id == Some(reply.rows[0].id)
    ensures reply == Data([]) ==> r == Err(EmptyResult)
    ensures reply.Fault? ==> r == Err(Transport)
  {
    match reply
    case Fault => Err(Transport)
    case Data(rows) =>
      if rows == [] then Err(EmptyResult) else Ok(MapToOgm(rows[0], e, e.mapping))
  }

  /** `_save_element`: an element without an id is created; one with an id
      is fetched by id first, then created when the fetch has no rows and
      updated when it has some. Row 0 of the last result is merged onto the
      element; the cache is not touched. */
  function SaveElement(st: Store, target: Target, e: Element): (r: Step<Element>)
    ensures r.st.current == st.current
    ensures OneReplyPerTraversal(st.remote, r.st.remote)
    ensures IssuedOn(st.remote, r.st.remote, target)
    ensures e.id.None? ==>
              r.st.remote.trace == st.remote.trace + [Create(target, e)] &&
              r.out == Merged(NthReply(st.remote.replies, 0), e)
    ensures var fetched := NthReply(st.remote.replies, 0);
            e.id.Some? ==>
              (fetched.Fault? ==>
                 r.st.remote.trace == st.remote.trace + [GetById(target, e)] &&
                 r.out == Err(Transport)) &&
              (fetched == Data([]) ==>
                 r.st.remote.trace == st.remote.trace + [GetById(target, e), Create(target, e)] &&
                 r.out == Merged(NthReply(st.remote.replies, 1), e)) &&
              (fetched.Data? && fetched.rows != [] ==>
                 r.st.remote.trace == st.remote.trace + [GetById(target, e), Update(target, e)] &&
                 r.out == Merged(NthReply(st.remote.replies, 1), e))
    ensures r.out.Err? ==> r.out.error == Transport || r.out.error == EmptyResult
  {
    if e.id.Some? then
      var (st1, fetched) := Issue(st, GetById(target, e));
      match fetched
      case Fault => Step(st1, Err(Transport))
      case Data(rows) =>
        var write := if rows == [] then Create(target, e) else Update(target, e);
        var (st2, reply) := Issue(st1, write);
        DropDrop(st.remote.replies, 1, 1);
        Step(st2, Merged(reply, e))
    else
      var (st1, reply) := Issue(st, Create(target, e));
      Step(st1, Merged(reply, e))
  }

  /** Stores a successful save's result in the identity cache under its id. */
  function Cache(s: Step<Element>): (r: Step<Element>)
    requires s.out.Ok? ==> s.out.value.id.Some?
    ensures r.out == s.out && r.st.remote == s.st.remote
    ensures s.out.Ok? ==> r.st.current.Keys == s.st.current.Keys + {s.out.value.id.value}
    ensures s.out.Ok? ==> r.st.current[s.out.value.id.value] == s.out.value
    ensures s.out.Ok? ==> forall k :: k in s.st.current && k != s.out.value.id.value ==>
                            r.st.current[k] == s.st.current[k]
    ensures s.out.Err? ==> r.st.current == s.st.current
  {
    if s.out.Ok? then
      Step(s.st.(current := s.st.current[s.out.value.id.value := s.out.value]), s.out)
    else s
  }

  /** `save_vertex`: persist with the vertex queries, then cache the result. */
  function SaveVertex(st: Store, e: Element): (r: Step<Element>)
    ensures r.out == SaveElement(st, OnVertex, e).out
    ensures r.st.remote == SaveElement(st, OnVertex, e).st.remote
    ensures r.out.Ok? ==> r.out.value.id.Some? &&
                          r.st.current == st.current[r.out.value.id.value := r.out.value]
    ensures r.out.Err? ==> r.st.current == st.current
  {
    Cache(SaveElement(st, OnVertex, e))
  }

  /** `save_edge`: an edge without both endpoints is refused before any
      traversal; otherwise persist with the edge queries and cache. */
  function SaveEdge(st: Store, e: Element): (r: Step<Element>)
    ensures r.out == Err(MissingEndpoints) <==> !HasEndpoints(e)
    ensures !HasEndpoints(e) ==> r.st == st
    ensures HasEndpoints(e) ==> r.out == SaveElement(st, OnEdge, e).out &&
                                r.st.remote == SaveElement(st, OnEdge, e).st.remote
    ensures r.out.Ok? ==> r.out.value.id.Some? &&
                          r.st.current == st.current[r.out.value.id.value := r.out.value]
    ensures r.out.Err? ==> r.st.current == st.current
  {
    if !HasEndpoints(e) then Step(st, Err(MissingEndpoints))
    else Cache(SaveElement(st, OnEdge, e))
  }

  /** `save`: dispatch on the element's kind. */
  function Save(st: Store, e: Element): (r: Step<Element>)
    ensures r.out == Err(UnknownElementKind) <==> e.Other?
    ensures e.Other? ==> r.st == st
    ensures e.Vertex? ==> IssuedOn(st.remote, r.st.remote, OnVertex)
    ensures e.Edge? ==> IssuedOn(st.remote, r.st.remote, OnEdge)
    ensures OneReplyPerTraversal(st.remote, r.st.remote)
    ensures e.Vertex? ==> var saved := SaveElement(st, OnVertex, e);
                          r.out == saved.out && r.st.remote == saved.st.remote
    ensures e.Edge? ==> (r.out == Err(MissingEndpoints) <==> !HasEndpoints(e))
    ensures e.Edge? && !HasEndpoints(e) ==> r.st == st
    ensures e.Edge? && HasEndpoints(e) ==> var saved := SaveElement(st, OnEdge, e);
                                          r.out == saved.out && r.st.remote == saved.st.remote
    ensures r.out.Ok? ==> r.out.value.id.Some? &&
                          r.st.current == st.current[r.out.value.id.value := r.out.value]
    ensures r.out.Err? ==> r.st.current == st.current
  {
    match e
    case Vertex(_, _, _) => SaveVertex(st, e)
    case Edge(_, _, _, _, _) => SaveEdge(st, e)
    case Other(_, _, _) => Step(st, Err(UnknownElementKind))
  }

  /** The queue and the store after a `flush`, and how it ended. */
  datatype Flushed = Flushed(pending: seq<Element>, st: Store, out: Result<()>)

  /** `flush`: pop the head of the queue and save it, until the queue is
      empty or a save fails. A failed element stays popped and the elements
      behind it stay queued. */
  function Flush(pending: seq<Element>, st: Store): (r: Flushed)
    decreases |pending|
    ensures r.out.Ok? ==> r.pending == []
    ensures r.out.Err? ==> |r.pending| < |pending| && r.pending == pending[|pending| - |r.pending|..]
    ensures OneReplyPerTraversal(st.remote, r.st.remote)
  {
    if pending == [] then Flushed([], st, Ok(()))
    else
      var s := Save(st, pending[0]);
      if s.out.Err? then Flushed(pending[1..], s.st, Err(s.out.error))
      else
        var r := Flush(pending[1..], s.st);
        OneReplyTransitive(st.remote, s.st.remote, r.st.remote);
        assert r.out.Err? ==> pending[1..][|pending| - 1 - |r.pending|..] == pending[|pending| - |r.pending|..];
        r
  }

  /** The store after saving a list of elements one after another, how many
      `save` calls were made, and how the last one ended. */
  datatype Drain = Drain(st: Store, attempted: nat, out: Result<()>)

  /** Reference order for `flush`: `save` is called on `es[0]`, `es[1]`, ...
      in turn, stopping right after the first failure. No queue is involved. */
  function SaveInOrder(st: Store, es: seq<Element>): (d: Drain)
    decreases |es|
    ensures d.attempted <= |es|
    ensures d.out.Ok? ==> d.attempted == |es|
    ensures d.out.Err? ==> 1 <= d.attempted
  {
    if es == [] then Drain(st, 0, Ok(()))
    else
      var s := Save(st, es[0]);
      if s.out.Err? then Drain(s.st, 1, Err(s.out.error))
      else
        var d := SaveInOrder(s.st, es[1..]);
        Drain(d.st, d.attempted + 1, d.out)
  }

  /** `flush` calls `save` on the queued elements in FIFO order and stops at
      the first failure: it ends as `SaveInOrder` on the queue does, and
      exactly the elements whose `save` was not called remain queued. */
  lemma {:induction false} FlushSavesInFifoOrder(pending: seq<Element>, st: Store)
    ensures var f := Flush(pending, st);
            var d := SaveInOrder(st, pending);
            f.st == d.st && f.out == d.out && f.pending == pending[d.attempted..]
    decreases |pending|
  {
    if pending != [] {
      var s := Save(st, pending[0]);
      if s.out.Ok? {
        FlushSavesInFifoOrder(pending[1..], s.st);
        var d := SaveInOrder(s.st, pending[1..]);
        assert pending[1..][d.attempted..] == pending[d.attempted + 1..];
      }
    }
  }

  /** Elements queued later are saved after all the earlier ones, and only
      when every earlier save succeeded. */
  lemma {:induction false} SaveInOrderAppend(st: Store, a: seq<Element>, b: seq<Element>)
    ensures var da := SaveInOrder(st, a);
            var db := SaveInOrder(da.st, b);
            SaveInOrder(st, a + b) ==
              if da.out.Err? then da else Drain(db.st, |a| + db.attempted, db.out)
    decreases |a|
  {
    if a != [] {
      assert (a + b)[0] == a[0] && (a + b)[1..] == a[1..] + b;
      var s := Save(st, a[0]);
      if s.out.Ok? {
        SaveInOrderAppend(s.st, a[1..], b);
      }
    } else {
      assert a + b == b;
    }
  }

  /** The create traversals for new vertices `es`, in order. */
  function CreatesOf(es: seq<Element>): (ts: seq<Traversal>)
    ensures |ts| == |es|
    ensures forall i :: 0 <= i < |es| ==> ts[i] == Create(OnVertex, es[i])
  {
    if es == [] then [] else [Create(OnVertex, es[0])] + CreatesOf(es[1..])
  }

  /** Sequence concatenation regrouped, stated once for traces so the
      induction below can use it as a single step. */
  lemma AppendAssoc(a: seq<Traversal>, b: seq<Traversal>, c: seq<Traversal>)
    ensures (a + b) + c == a + (b + c)
  {
  }

  /** Saving a vertex without an id, when the server answers the create
      with a row: one create, and the merged vertex is cached under the
      row's id. */
  lemma SaveNewVertex(st: Store, v: Element)
    requires v.Vertex? && v.id.None?
    requires NthReply(st.remote.replies, 0).Data? && NthReply(st.remote.replies, 0).rows != []
    ensures var s := Save(st, v);
            var row := NthReply(st.remote.replies, 0).rows[0];
            s.out == Ok(MapToOgm(row, v, v.mapping)) &&
            s.st.remote == Remote(st.remote.trace + [Create(OnVertex, v)], Drop(st.remote.replies, 1)) &&
            s.st.current == st.current[row.id := MapToOgm(row, v, v.mapping)]
  {
  }

  /** Saving again the vertex a first save returned: it now carries the
      server's id, so the second save fetches it by id and, when the fetch
      finds it, updates it instead of creating it a second time. */
  lemma SaveReturnedVertexAgain(st: Store, v: Element)
    requires v.Vertex? && v.id.None?
    requires NthReply(st.remote.replies, 0).Data? && NthReply(st.remote.replies, 0).rows != []
    requires NthReply(st.remote.replies, 1).Data? && NthReply(st.remote.replies, 1).rows != []
    requires NthReply(st.remote.replies, 2).Data? && NthReply(st.remote.replies, 2).rows != []
    ensures var first := Save(st, v);
            var x := first.out.value;
            var second := Save(first.st, x);
            first.out.Ok? &&
            second.st.remote.trace ==
              st.remote.trace + [Create(OnVertex, v), GetById(OnVertex, x), Update(OnVertex, x)] &&
            second.out == Ok(MapToOgm(NthReply(st.remote.replies, 2).rows[0], x, x.mapping))
  {
  }

  /** The replies a save of a new vertex leaves behind are the ones after
      the first. */
  lemma RepliesAfterFirst(replies: seq<Reply>, n: nat)
    ensures forall i :: 0 <= i < n ==> NthReply(Drop(replies, 1), i) == NthReply(replies, i + 1)
  {
  }

  /** The queue holds only vertices without an id, and the server answers
      each of their creates with a row. */
  predicate NewVerticesAnswered(pending: seq<Element>, replies: seq<Reply>)
  {
    forall i :: 0 <= i < |pending| ==>
      pending[i].Vertex? && pending[i].id.None? &&
      NthReply(replies, i).Data? && NthReply(replies, i).rows != []
  }

  /** One step of such a flush: the head is saved with a single create and
      the rest of the queue is again of the same shape. */
  lemma FlushNewVertexStep(pending: seq<Element>, st: Store)
    requires pending != [] && NewVerticesAnswered(pending, st.remote.replies)
    ensures var s := Save(st, pending[0]);
            var row := NthReply(st.remote.replies, 0).rows[0];
            Flush(pending, st) == Flush(pending[1..], s.st) &&
            s.st.remote.trace == st.remote.trace + [Create(OnVertex, pending[0])] &&
            s.st.current.Keys == st.current.Keys + {row.id} &&
            s.st.remote.replies == Drop(st.remote.replies, 1) &&
            NewVerticesAnswered(pending[1..], s.st.remote.replies)
  {
    // Both facts follow without these calls, but only at close to the
    // solver's resource limit; naming them keeps the proof cheap.
    SaveNewVertex(st, pending[0]);
    RepliesAfterFirst(st.remote.replies, |pending| - 1);
  }

  /** Flushing vertices that have no id yet, against a server that answers
      each create with a row: every `save` succeeds with exactly one create
      and no fetch, the creates are issued in queue order, the queue ends
      empty and no cached id is lost. Elements are values here; in goblin
      this describes a queue of distinct objects, since an object queued a
      second time already carries the id the first save gave it. */
  lemma {:induction false} FlushOfNewVertices(pending: seq<Element>, st: Store)
    requires NewVerticesAnswered(pending, st.remote.replies)
    ensures var f := Flush(pending, st);
            f.out.Ok? && f.pending == [] &&
            f.st.remote.trace == st.remote.trace + CreatesOf(pending) &&
            st.current.Keys <= f.st.current.Keys
    decreases |pending|
  {
    if pending != [] {
      var v, rest := pending[0], pending[1..];
      var s := Save(st, v);
      var f := Flush(rest, s.st);
      assert Flush(pending, st) == f && s.st.remote.trace == st.remote.trace + [Create(OnVertex, v)] &&
             st.current.Keys <= s.st.current.Keys && NewVerticesAnswered(rest, s.st.remote.replies) by {
        FlushNewVertexStep(pending, st);
      }
      FlushOfNewVertices(rest, s.st);
      AppendAssoc(st.remote.trace, [Create(OnVertex, v)], CreatesOf(rest));
    }
  }

  /** In the same flush, every id the server assigned ends up cached. */
  lemma {:induction false} FlushOfNewVerticesCaches(pending: seq<Element>, st: Store)
    requires NewVerticesAnswered(pending, st.remote.replies)
    ensures forall i :: 0 <= i < |pending| ==>
              NthReply(st.remote.replies, i).rows[0].id in Flush(pending, st).st.current
    decreases |pending|
  {
    if pending != [] {
      var rest := pending[1..];
      var row := NthReply(st.remote.replies, 0).rows[0];
      var s := Save(st, pending[0]);
      FlushNewVertexStep(pending, st);
      var f := Flush(rest, s.st);
      FlushOfNewVertices(rest, s.st);
      FlushOfNewVerticesCaches(rest, s.st);
      forall i | 0 <= i < |pending|
        ensures NthReply(st.remote.replies, i).rows[0].id in f.st.current
      {
        if i == 0 {
          assert row.id in s.st.current;
        } else {
          DropDrop(st.remote.replies, 1, i - 1);
          assert NthReply(s.st.remote.replies, i - 1) == NthReply(st.remote.replies, i);
        }
      }
    }
  }

  /** A failure in the middle of a flush of `[a, b, c]`: `a` is saved,
      `b` of an unknown kind is popped and fails, and `c` stays queued and
      is never saved. */
  lemma FlushStopsAtFailure(a: Element, b: Element, c: Element, st: Store)
    requires a.Vertex? && a.id.None? && b.Other?
    requires NthReply(st.remote.replies, 0).Data? && NthReply(st.remote.replies, 0).rows != []
    ensures var f := Flush([a, b, c], st);
            f.out == Err(UnknownElementKind) && f.pending == [c] &&
            f.st.remote.trace == st.remote.trace + [Create(OnVertex, a)]
  {
  }

  /** `remove_*` / `_remove_element`: the remove traversal is issued and its
      result fetched; only then is the element's id deleted from the cache,
      which fails when the element has no id or the id is not cached. */
  function RemoveElement(st: Store, t: Traversal, e: Element): (r: Step<seq<Row>>)
    ensures r.st.remote == Execute(st.remote, t).0
    ensures var reply := NthReply(st.remote.replies, 0);
            (r.out.Ok? <==> reply.Data? && e.id.Some? && e.id.value in st.current) &&
            (r.out.Ok? ==> r.out.value == reply.rows) &&
            (reply.Fault? ==> r.out == Err(Transport)) &&
            (reply.Data? && e.id.None? ==> r.out == Err(NoId)) &&
            (reply.Data? && e.id.Some? && e.id.value !in st.current ==>
               r.out == Err(KeyNotCached(e.id.value)))
    ensures r.out.Ok? ==> r.st.current.Keys == st.current.Keys - {e.id.value}
    ensures r.out.Ok? ==> forall k :: k in r.st.current ==> r.st.current[k] == st.current[k]
    ensures r.out.Err? ==> r.st.current == st.current
  {
    var (st1, reply) := Issue(st, t);
    match reply
    case Fault => Step(st1, Err(Transport))
    case Data(rows) =>
      if e.id.None? then Step(st1, Err(NoId))
      else if e.id.value !in st1.current then Step(st1, Err(KeyNotCached(e.id.value)))
      else Step(st1.(current := st1.current - {e.id.value}), Ok(rows))
  }

  /** `remove_vertex`. */
  function RemoveVertex(st: Store, e: Element): (r: Step<seq<Row>>)
    ensures r.st.remote.trace == st.remote.trace + [Remove(OnVertex, e)]
    ensures OneReplyPerTraversal(st.remote, r.st.remote)
    ensures var reply := NthReply(st.remote.replies, 0);
            (r.out.Ok? <==> reply.Data? && e.id.Some? && e.id.value in st.current) &&
            (r.out.Ok? ==> r.out.value == reply.rows) &&
            (reply.Fault? ==> r.out == Err(Transport)) &&
            (reply.Data? && e.id.None? ==> r.out == Err(NoId)) &&
            (reply.Data? && e.id.Some? && e.id.value !in st.current ==>
               r.out == Err(KeyNotCached(e.id.value)))
    ensures r.out.Ok? ==> e.id.Some? && e.id.value in st.current && e.id.value !in r.st.current
    ensures r.out.Ok? ==> r.st.current == st.current - {e.id.value}
    ensures r.out.Err? ==> r.st.current == st.current
  {
    RemoveElement(st, Remove(OnVertex, e), e)
  }

  /** `remove_edge`. */
  function RemoveEdge(st: Store, e: Element): (r: Step<seq<Row>>)
    ensures r.st.remote.trace == st.remote.trace + [Remove(OnEdge, e)]
    ensures OneReplyPerTraversal(st.remote, r.st.remote)
    ensures var reply := NthReply(st.remote.replies, 0);
            (r.out.Ok? <==> reply.Data? && e.id.Some? && e.id.value in st.current) &&
            (r.out.Ok? ==> r.out.value == reply.rows) &&
            (reply.Fault? ==> r.out == Err(Transport)) &&
            (reply.Data? && e.id.None? ==> r.out == Err(NoId)) &&
            (reply.Data? && e.id.Some? && e.id.value !in st.current ==>
               r.out == Err(KeyNotCached(e.id.value)))
    ensures r.out.Ok? ==> e.id.Some? && e.id.value in st.current && e.id.value !in r.st.current
    ensures r.out.Ok? ==> r.st.current == st.current - {e.id.value}
    ensures r.out.Err? ==> r.st.current == st.current
  {
    RemoveElement(st, Remove(OnEdge, e), e)
  }

  /** Removing what was just saved: once `save` has cached an element, a
      remove of that element whose traversal gets an answer succeeds and
      leaves the cache as it was before the save, without that id. */
  lemma SaveThenRemove(st: Store, e: Element)
    requires Save(st, e).out.Ok?
    requires NthReply(Save(st, e).st.remote.replies, 0).Data?
    ensures var saved := Save(st, e);
            var x := saved.out.value;
            var removed := RemoveElement(saved.st, Remove(if e.Vertex? then OnVertex else OnEdge, x), x);
            removed.out.Ok? && removed.st.current == st.current - {x.id.value}
  {
  }

  /** `get_vertex` / `get_edge`: fetch by id; no rows is a normal outcome
      and gives no element, otherwise row 0 is merged onto the element.
      The cache is never touched. */
  function GetElement(st: Store, target: Target, e: Element): (r: Step<Option<Element>>)
    ensures r.st.current == st.current
    ensures r.st.remote == Execute(st.remote, GetById(target, e)).0
    ensures var reply := NthReply(st.remote.replies, 0);
            (r.out.Ok? <==> reply.Data?) &&
            (reply == Data([]) ==> r.out == Ok(None)) &&
            (r.out.Ok? && r.out.value.Some? ==>
               reply.rows != [] && r.out.value.value == MapToOgm(reply.rows[0], e, e.mapping))
    ensures var reply := NthReply(st.remote.replies, 0);
            reply.Data? && reply.rows != [] ==> r.out == Ok(Some(MapToOgm(reply.rows[0], e, e.mapping)))
    ensures r.out.Err? ==> r.out.error == Transport
  {
    var (st1, reply) := Issue(st, GetById(target, e));
    match reply
    case Fault => Step(st1, Err(Transport))
    case Data(rows) =>
      if rows == [] then Step(st1, Ok(None))
      else Step(st1, Ok(Some(MapToOgm(rows[0], e, e.mapping))))
  }

  /** `get_vertex`. */
  function GetVertex(st: Store, e: Element): (r: Step<Option<Element>>)
    ensures r.st.current == st.current
    ensures r.st.remote.trace == st.remote.trace + [GetById(OnVertex, e)]
    ensures NthReply(st.remote.replies, 0) == Data([]) ==> r.out == Ok(None)
    ensures var reply := NthReply(st.remote.replies, 0);
            reply.Data? && reply.rows != [] ==> r.out == Ok(Some(MapToOgm(reply.rows[0], e, e.mapping)))
    ensures r.out.Ok? <==> NthReply(st.remote.replies, 0).Data?
    ensures r.out.Err? ==> r.out.error == Transport
  {
    GetElement(st, OnVertex, e)
  }

  /** `get_edge`. */
  function GetEdge(st: Store, e: Element): (r: Step<Option<Element>>)
    ensures r.st.current == st.current
    ensures r.st.remote.trace == st.remote.trace + [GetById(OnEdge, e)]
    ensures NthReply(st.remote.replies, 0) == Data([]) ==> r.out == Ok(None)
    ensures var reply := NthReply(st.remote.replies, 0);
            reply.Data? && reply.rows != [] ==> r.out == Ok(Some(MapToOgm(reply.rows[0], e, e.mapping)))
    ensures r.out.Ok? <==> NthReply(st.remote.replies, 0).Data?
    ensures r.out.Err? ==> r.out.error == Transport
  {
    GetElement(st, OnEdge, e)
  }
}
