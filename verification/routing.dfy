/** Routing tables: which backends serve a session, and which sessions a backend has loaded. */
module Routing {
  import opened DutyCycles

  type NodeId = nat

  /** A session's backends with their weights, and the rate nobody serves yet. */
  datatype SessionInfo = SessionInfo(weights: map<NodeId, real>, unassigned: real)

  type Table = map<Session, SessionInfo>
  type Hosts = map<NodeId, set<Session>>

  /** The two views agree: a backend is on a session's route exactly if it has the session loaded. */
  ghost predicate Routed(table: Table, hosts: Hosts) {
    && (forall s, b {:trigger b in table[s].weights} | s in table ::
      b in table[s].weights <==> b in hosts && s in hosts[b])
    && (forall b, s {:trigger s in hosts[b]} | b in hosts && s in hosts[b] :: s in table && b in table[s].weights)
  }

  function SetWeight(table: Table, s: Session, b: NodeId, w: real): Table
    requires s in table
  {
    table[s := table[s].(weights := table[s].weights[b := w])]
  }

  function DropWeight(table: Table, s: Session, b: NodeId): Table
    requires s in table
  {
    table[s := table[s].(weights := table[s].weights - {b})]
  }

  function SetUnassigned(table: Table, s: Session, rate: real): Table
    requires s in table
  {
    table[s := table[s].(unassigned := rate)]
  }

  lemma RoutedLoad(table: Table, hosts: Hosts, s: Session, b: NodeId, w: real)
    requires Routed(table, hosts) && s in table && b in hosts
    ensures Routed(SetWeight(table, s, b, w), hosts[b := hosts[b] + {s}])
  {
  }

  lemma RoutedUnload(table: Table, hosts: Hosts, s: Session, b: NodeId)
    requires Routed(table, hosts) && s in table && b in hosts
    ensures Routed(DropWeight(table, s, b), hosts[b := hosts[b] - {s}])
  {
  }

  // A new weight for a backend already on the route changes no route.
  lemma RoutedWeight(table: Table, hosts: Hosts, s: Session, b: NodeId, w: real)
    requires Routed(table, hosts) && s in table && b in table[s].weights
    ensures Routed(SetWeight(table, s, b, w), hosts)
  {
  }

  lemma RoutedRate(table: Table, hosts: Hosts, s: Session, rate: real)
    requires Routed(table, hosts) && s in table
    ensures Routed(SetUnassigned(table, s, rate), hosts)
  {
  }

  lemma RoutedNewSession(table: Table, hosts: Hosts, s: Session)
    requires Routed(table, hosts) && s !in table
    ensures Routed(table[s := SessionInfo(map[], 0.0)], hosts)
  {
  }

  lemma RoutedNewBackend(table: Table, hosts: Hosts, b: NodeId)
    requires Routed(table, hosts) && b !in hosts
    ensures Routed(table, hosts[b := {}])
  {
  }
}
