/**
  Delivering an event twice through the queue, resolve passes included: a fresh node is
  resolved after the first commit, and a reused virtual node is resolved again after each.
 */
module QueueRedelivery {
  import opened Wrappers
  import opened Reachability
  import opened Store
  import opened Engine
  import opened AgentEvents
  import opened AgentRules
  import opened AgentRedelivery
  import opened EventQueue

  /** The tables an engine pass leaves: edges and statuses may differ, nothing else. */
  ghost predicate PassOf(t: Tables, t': Tables) {
    && t' == t.(nodes := t'.nodes, edges := t'.edges) && t'.nodes.Keys == t.nodes.Keys
    && forall n :: n in t.nodes ==> t'.nodes[n] == t.nodes[n].(status := t'.nodes[n].status)
  }

  lemma EnginePassIsPass(t: Tables, cs: seq<Candidate>)
    requires EnginePass(t, cs).Ok?
    ensures PassOf(t, EnginePass(t, cs).value.tables)
  {
    hide StatusOf, Merge;
    EmptyPassKept(t);
    CommitAllKeeps(t, Pass(t, [], 0), Merge(cs));
  }

  /** Everything a first delivery leaves behind. */
  function Delivered(env: Env, tick: nat, a: Applied): Tables {
    AfterCommit(env, tick, a)
  }

  lemma DeliveredIsPass(env: Env, tick: nat, a: Applied)
    ensures PassOf(a.tables, Delivered(env, tick, a))
  {
    hide EnginePass;
    if a.resolve.Some? && EnginePass(a.tables, env.candidates(tick)).Ok? {
      EnginePassIsPass(a.tables, env.candidates(tick));
    }
  }

  lemma PassKeepsCollisions(t: Tables, t': Tables, n: NodeId, row: Node)
    requires PassOf(t, t')
    ensures Collides(t'.nodes, n, row) <==> Collides(t.nodes, n, row)
  {
    if Collides(t.nodes, n, row) {
      var j :| j in t.nodes && j != n && Clash(row, t.nodes[j]);
      assert Clash(row, t'.nodes[j]);
    }
    if Collides(t'.nodes, n, row) {
      var j :| j in t'.nodes && j != n && Clash(row, t'.nodes[j]);
      assert Clash(row, t.nodes[j]);
    }
  }

  /** A reused virtual node: the second pass proposes what the first one settled. */
  lemma PassAgain(env: Env, tick: nat, tick': nat, a: Applied, a': Applied)
    requires StatusDerived(a.tables) && a.resolve.Some? && env.candidates(tick') == env.candidates(tick)
    requires a'.tables == Delivered(env, tick, a)
    ensures AfterCommit(env, tick', a') == Delivered(env, tick, a)
  {
    hide EnginePass, StatusesMatch;
    if EnginePass(a.tables, env.candidates(tick)).Ok? {
      RerunIsIdle(a.tables, env.candidates(tick));
    }
  }

  lemma VirtualSecond(env: Env, tick: nat, tick': nat, t: Tables, w: World, w': World, agent: string, p: Payload)
    requires Sound(t) && p.VirtualNodeCreated? && ApplyVirtualNodeCreated(t, w, agent, p).Ok?
    requires env.candidates(tick') == env.candidates(tick) && w'.baseName == w.baseName
    requires var t1 := Delivered(env, tick, ApplyVirtualNodeCreated(t, w, agent, p).value);
             Sound(t1) && ApplyVirtualNodeCreated(t1, w', agent, p).Ok?
    ensures var t1 := Delivered(env, tick, ApplyVirtualNodeCreated(t, w, agent, p).value);
            AfterCommit(env, tick', ApplyVirtualNodeCreated(t1, w', agent, p).value) == t1
  {
    hide NoClashes, StatusesMatch, EndpointsKnown, Collides, AfterCommit, ExtractPathAgentSegment, ValidNodeUUID;
    var a := ApplyVirtualNodeCreated(t, w, agent, p).value;
    var t1 := Delivered(env, tick, a);
    DeliveredIsPass(env, tick, a);
    var a' := ApplyVirtualNodeCreated(t1, w', agent, p).value;
    if a'.resolve.Some? {
      assert p.uuid !in t.nodes && a.tables == t;
      PassKeepsCollisions(t, t1, p.uuid,
                          Node(p.path, OrElse(p.displayName, w.baseName(p.path)), 0, None, false, Unlinked, Active));
      assert a'.tables == t1;
      PassAgain(env, tick, tick', a, a');
    } else {
      NoPass(env, tick', a');
    }
  }

  lemma NoPass(env: Env, tick: nat, a: Applied)
    requires a.resolve.None?
    ensures AfterCommit(env, tick, a) == a.tables
  {
  }

  /** What a rebase that created its node left: the row, wherever the pass has taken its status. */
  ghost predicate FreshlyRebased(t: Tables, p: Payload, fileName: string, mtime: int) {
    p.PathRebased? && p.uuid in t.nodes
    && t.nodes[p.uuid] == Node(p.path, fileName, mtime, NonEmpty(p.fullHash), NonEmpty(p.fullHash).Some?,
                               t.nodes[p.uuid].status, Active)
  }

  lemma ResolvedMeansFresh(t: Tables, w: World, agent: string, p: Payload)
    requires Sound(t) && p.PathRebased? && ApplyPathRebased(t, w, agent, p).Ok?
    requires ApplyPathRebased(t, w, agent, p).value.resolve.Some?
    ensures FreshlyRebased(ApplyPathRebased(t, w, agent, p).value.tables, p, OrElse(p.fileName, w.baseName(p.path)),
                           if p.mtime == 0 then w.now else p.mtime)
  {
    hide NoClashes, StatusesMatch, EndpointsKnown, RebaseKnown, ValidNodeUUID, Collides, RecordFullHashSource;
    if p.uuid in t.nodes {
      RebaseKnownResolves(t, agent, p.uuid, p, OrElse(p.fileName, w.baseName(p.path)),
                          if p.mtime == 0 then w.now else p.mtime);
    }
  }

  /** A node the first delivery created is known to the second, which moves it onto itself. */
  lemma FreshSecond(t1: Tables, w: World, w': World, agent: string, p: Payload)
    requires Sound(t1) && p.PathRebased? && ApplyPathRebased(t1, w', agent, p).Ok? && w'.baseName == w.baseName
    requires FreshlyRebased(t1, p, OrElse(p.fileName, w.baseName(p.path)), if p.mtime == 0 then w.now else p.mtime)
    ensures var a' := ApplyPathRebased(t1, w', agent, p).value;
            a'.resolve.None? && SameButMtime(t1, a'.tables, p, w'.now)
  {
    hide NoClashes, StatusesMatch, EndpointsKnown, RebaseKnown, ValidNodeUUID, Collides, RecordFullHashSource;
    var fileName, mtime' := OrElse(p.fileName, w.baseName(p.path)), if p.mtime == 0 then w'.now else p.mtime;
    RebaseKnownResolves(t1, agent, p.uuid, p, fileName, mtime');
    RebaseKnownShape(t1, agent, p.uuid, p, fileName, mtime');
    assert RebasedRow(t1.nodes[p.uuid], p, fileName, mtime') == t1.nodes[p.uuid].(mtime := mtime');
    assert t1.nodes[p.uuid := t1.nodes[p.uuid]] == t1.nodes;
  }

  /** The second time nothing is created, so nothing is resolved. */
  lemma RebasedAgainResolves(t: Tables, w: World, w': World, agent: string, p: Payload)
    requires Sound(t) && p.PathRebased? && ApplyPathRebased(t, w, agent, p).Ok?
    requires ApplyPathRebased(t, w, agent, p).value.resolve.None?
    requires var t' := ApplyPathRebased(t, w, agent, p).value.tables;
             Sound(t') && ApplyPathRebased(t', w', agent, p).Ok?
    ensures ApplyPathRebased(ApplyPathRebased(t, w, agent, p).value.tables, w', agent, p).value.resolve.None?
  {
    hide NoClashes, StatusesMatch, EndpointsKnown, RebaseKnown, InsertDeviceNode, ValidNodeUUID;
    var t' := ApplyPathRebased(t, w, agent, p).value.tables;
    if p.uuid in t.nodes {
      RebaseKnownShape(t, agent, p.uuid, p, OrElse(p.fileName, w.baseName(p.path)),
                       if p.mtime == 0 then w.now else p.mtime);
    }
    if p.uuid in t'.nodes {
      RebaseKnownResolves(t', agent, p.uuid, p, OrElse(p.fileName, w'.baseName(p.path)),
                          if p.mtime == 0 then w'.now else p.mtime);
    }
  }

  lemma RebasedSecond(env: Env, tick: nat, t: Tables, w: World, w': World, agent: string, p: Payload)
    requires Sound(t) && p.PathRebased? && ApplyPathRebased(t, w, agent, p).Ok? && w'.baseName == w.baseName
    requires var t1 := Delivered(env, tick, ApplyPathRebased(t, w, agent, p).value);
             Sound(t1) && ApplyPathRebased(t1, w', agent, p).Ok?
    ensures var t1 := Delivered(env, tick, ApplyPathRebased(t, w, agent, p).value);
            var a' := ApplyPathRebased(t1, w', agent, p).value;
            a'.resolve.None? && SameButMtime(t1, a'.tables, p, w'.now)
  {
    hide NoClashes, StatusesMatch, EndpointsKnown, ApplyPathRebased, Delivered, SameButMtime;
    var a := ApplyPathRebased(t, w, agent, p).value;
    DeliveredIsPass(env, tick, a);
    DeliveredIsAfterCommit(env, tick, a);
    if a.resolve.Some? {
      ResolvedMeansFresh(t, w, agent, p);
      FreshSecond(Delivered(env, tick, a), w, w', agent, p);
    } else {
      NoPass(env, tick, a);
      RebasedAgain(t, w, w', agent, p);
      RebasedAgainResolves(t, w, w', agent, p);
    }
  }

  lemma DeliveredIsAfterCommit(env: Env, tick: nat, a: Applied)
    ensures Delivered(env, tick, a) == AfterCommit(env, tick, a)
  {
  }

  lemma RebaseKnownResolves(t: Tables, agent: string, n: NodeId, p: Payload, fileName: string, mtime: int)
    requires p.PathRebased? && n in t.nodes && RebaseKnown(t, agent, n, p, fileName, mtime).Ok?
    ensures RebaseKnown(t, agent, n, p, fileName, mtime).value.resolve.None?
  {
    hide Collides, ValidFullHash;
  }

  lemma ResolvedMeansCreated(t: Tables, w: World, agent: string, p: Payload)
    requires Sound(t) && p.NodeCreated? && ApplyNodeCreated(t, w, agent, p).Ok?
    requires ApplyNodeCreated(t, w, agent, p).value.resolve.Some?
    ensures p.uuid in ApplyNodeCreated(t, w, agent, p).value.tables.nodes
    ensures forall t1, w' :: Indexed(t1) && p.uuid in t1.nodes ==>
      ApplyNodeCreated(t1, w', agent, p) == Ok(Applied(t1, None))
  {
    hide NoClashes, StatusesMatch, EndpointsKnown, ValidNodeUUID, ValidFullHash, Collides, RecordFullHashSource;
  }

  lemma CreatedSecond(env: Env, tick: nat, t: Tables, w: World, w': World, agent: string, p: Payload)
    requires Sound(t) && p.NodeCreated? && ApplyNodeCreated(t, w, agent, p).Ok?
    requires Sound(Delivered(env, tick, ApplyNodeCreated(t, w, agent, p).value))
    ensures var t1 := Delivered(env, tick, ApplyNodeCreated(t, w, agent, p).value);
            ApplyNodeCreated(t1, w', agent, p) == Ok(Applied(t1, None))
  {
    hide NoClashes, StatusesMatch, EndpointsKnown, Delivered, ApplyNodeCreated;
    var a := ApplyNodeCreated(t, w, agent, p).value;
    DeliveredIsPass(env, tick, a);
    DeliveredIsAfterCommit(env, tick, a);
    if a.resolve.None? {
      NoPass(env, tick, a);
      CreatedAgain(t, w, w', agent, p);
    } else {
      ResolvedMeansCreated(t, w, agent, p);
    }
  }

  /** Everything but created, rebased and virtual events is over with its commit. */
  lemma NothingToResolve(t: Tables, w: World, ev: Event)
    requires Indexed(t) && ApplyEvent(t, w, ev).Ok?
    ensures ev.payload.EdgeAttached? || ev.payload.NodeMoved? || ev.payload.NodeDeleted? ==>
      ApplyEvent(t, w, ev).value.resolve.None?
  {
    hide NoClashes, Collides, WouldCreateCycle, StatusOf, TrashAsset, ValidNodeUUID;
  }

  lemma OtherSecond(env: Env, tick: nat, t: Tables, w: World, w': World, ev: Event)
    requires Sound(t) && ApplyEvent(t, w, ev).Ok? && w'.baseName == w.baseName
    requires ev.payload.EdgeAttached? || ev.payload.NodeMoved? || ev.payload.NodeDeleted?
    requires Sound(Delivered(env, tick, ApplyEvent(t, w, ev).value))
    requires ApplyEvent(Delivered(env, tick, ApplyEvent(t, w, ev).value), w', ev).Ok?
    ensures var t1 := Delivered(env, tick, ApplyEvent(t, w, ev).value);
            ApplyEvent(t1, w', ev).value == Applied(t1, None)
  {
    hide NoClashes, StatusesMatch, EndpointsKnown, ApplyEdgeAttached, ApplyNodeMoved, ApplyNodeDeleted, Delivered;
    var a := ApplyEvent(t, w, ev).value;
    NothingToResolve(t, w, ev);
    NoPass(env, tick, a);
    DeliveredIsAfterCommit(env, tick, a);
    NothingToResolve(a.tables, w', ev);
    match ev.payload {
      case EdgeAttached(_, _, _, _, _, _, _, _, _, _) => AttachedAgain(t, ev.agent, ev.payload);
      case NodeMoved(_, _, _, _) => MovedAgain(t, w, w', ev.agent, ev.payload);
      case NodeDeleted(_) => DeletedAgain(t, w, w', ev.agent, ev.payload);
    }
  }

  /** An event the queue has processed, resolve pass and all, comes round again -- as another
      row, at another time, with the files and the guard in whatever state they are by then.
      Processed or failed, it leaves the tables as the first time left them, up to the one
      mtime, as long as the resolvers propose what they proposed before. */
  lemma RedeliveredAttemptIsIdle(env: Env, maxRetries: nat, s: State, id: nat, s2: State, id2: nat)
    requires id in s.queue && Sound(s.tables) && Applying(env, s, s.queue[id].event).Ok?
    requires id2 in s2.queue && s2.tables == Attempt(env, maxRetries, s, id).tables
    requires s2.queue[id2].event == s.queue[id].event
    requires env.candidates(s2.tick) == env.candidates(s.tick)
    requires env.world(s2.tick).baseName == env.world(s.tick).baseName
    ensures Sound(s2.tables)
    ensures SameButMtime(s2.tables, Attempt(env, maxRetries, s2, id2).tables, s.queue[id].event.payload,
                         env.world(s2.tick).now)
  {
    hide NoClashes, StatusesMatch, EndpointsKnown, ApplyEvent, AfterCommit, Delivered, AcyclicEdges, KeepsDecisions,
         SameButMtime;
    var ev, w, w' := s.queue[id].event, env.world(s.tick), env.world(s2.tick);
    AttemptSafe(env, maxRetries, s, id);
    var a := Applying(env, s, ev).value;
    DeliveredIsAfterCommit(env, s.tick, a);
    if Applying(env, s2, ev).Ok? {
      SecondApply(env, s.tick, s2.tick, s.tables, w, w', ev);
    } else {
      Unchanged(s2.tables, ev.payload, w'.now);
    }
  }

  lemma Unchanged(t: Tables, p: Payload, now: int)
    ensures SameButMtime(t, t, p, now)
  {
  }

  lemma SecondApply(env: Env, tick: nat, tick': nat, t: Tables, w: World, w': World, ev: Event)
    requires Sound(t) && ApplyEvent(t, w, ev).Ok? && w'.baseName == w.baseName
    requires env.candidates(tick') == env.candidates(tick)
    requires Sound(Delivered(env, tick, ApplyEvent(t, w, ev).value))
    requires ApplyEvent(Delivered(env, tick, ApplyEvent(t, w, ev).value), w', ev).Ok?
    ensures var t1 := Delivered(env, tick, ApplyEvent(t, w, ev).value);
            SameButMtime(t1, AfterCommit(env, tick', ApplyEvent(t1, w', ev).value), ev.payload, w'.now)
  {
    hide NoClashes, StatusesMatch, EndpointsKnown, ApplyNodeCreated, ApplyEdgeAttached, ApplyNodeMoved,
         ApplyNodeDeleted,
         ApplyPathRebased, ApplyVirtualNodeCreated, Delivered, AfterCommit;
    var t1 := Delivered(env, tick, ApplyEvent(t, w, ev).value);
    var a' := ApplyEvent(t1, w', ev).value;
    match ev.payload {
      case NodeCreated(_, _, _, _, _) => CreatedSecond(env, tick, t, w, w', ev.agent, ev.payload);
      case PathRebased(_, _, _, _, _) => RebasedSecond(env, tick, t, w, w', ev.agent, ev.payload);
      case VirtualNodeCreated(_, _, _) => VirtualSecond(env, tick, tick', t, w, w', ev.agent, ev.payload);
      case _ => OtherSecond(env, tick, t, w, w', ev);
    }
    if a'.resolve.None? {
      NoPass(env, tick', a');
    }
  }
}
