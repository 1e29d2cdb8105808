/** The operations on the routing database are the routing steps of the network of forwards. */
module Rerouting {
  import opened Base
  import opened PeeringModel
  import opened RouteDatabase
  import Network = ForwardNetwork

  /** One relay's operations as steps of the network, each from the state the one before it left. */
  function Reroutes(r: Name, f: Fed, verify: Verifier, ops: seq<Op>): seq<Network.Label>
    decreases |ops|
  {
    if ops == [] then []
    else
      var g := Apply(f, verify, ops[0]);
      [Network.Reroute(r, g)] + Reroutes(r, g, verify, ops[1..])
  }

  /** An operation at any relay is a step the network may take, whatever is in flight. */
  lemma OpsAreEnabled(t: Network.Topology, n: Network.Net, r: Name, verify: Verifier, op: Op)
    requires Network.RelaysOk(t, n) && r in n.relays
    ensures Network.Enabled(t, n, Network.Reroute(r, Apply(n.relays[r], verify, op)))
  {
    OpsOnlyReroute(n.relays[r], verify, op);
  }

  lemma LastUpdateWins<K, V>(m: map<K, V>, k: K, v: V, w: V)
    ensures m[k := v][k := w] == m[k := w]
  {
  }

  /**
   Any operations at any relay, in any state of a network, are a legal run of it: they change that relay's
   database as they would alone, and nothing else.
   */
  lemma {:induction false} OpsAreALegalRun(t: Network.Topology, n: Network.Net, r: Name, verify: Verifier, ops: seq<Op>)
    requires Network.RelaysOk(t, n) && r in n.relays
    ensures var run := Reroutes(r, n.relays[r], verify, ops);
            && Network.Legal(t, n, run)
            && Network.After(t, n, run) == n.(relays := n.relays[r := Replay(n.relays[r], verify, ops)])
    decreases |ops|
  {
    if ops == [] {
      assert n.relays == n.relays[r := n.relays[r]];
    } else {
      var f := n.relays[r];
      var g := Apply(f, verify, ops[0]);
      OpsAreEnabled(t, n, r, verify, ops[0]);
      var m := Network.Next(t, n, Network.Reroute(r, g));
      OpsAreALegalRun(t, m, r, verify, ops[1..]);
      assert ([Network.Reroute(r, g)] + Reroutes(r, g, verify, ops[1..]))[1..] == Reroutes(r, g, verify, ops[1..]);
      LastUpdateWins(n.relays, r, g, Replay(g, verify, ops[1..]));
    }
  }

  /** Registering a channel is such a step too if and only if the channel is an end of a connection of the relay. */
  lemma RegisteringIsEnabledIff(t: Network.Topology, n: Network.Net, r: Name, link: Name, conn: Conn)
    requires Network.RelaysOk(t, n) && r in n.relays
    ensures Network.Enabled(t, n, Network.Reroute(r, RegisterSender(n.relays[r], link, conn)))
       <==> Network.IsEnd(t, conn, r)
  {
    var f := RegisterSender(n.relays[r], link, conn);
    assert conn in f.senders[link];
  }

  lemma UnregisteringIsEnabled(t: Network.Topology, n: Network.Net, r: Name, link: Name, closed: set<Conn>)
    requires Network.RelaysOk(t, n) && r in n.relays
    ensures Network.Enabled(t, n, Network.Reroute(r, UnregisterSender(n.relays[r], link, closed)))
  {
    assert Network.OwnSenders(t, r, n.relays[r]);
  }
}
