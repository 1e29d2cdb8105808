/** Which route a relay takes for a forward, and exactly when it has none. */
module RouteChoice {
  import opened Base
  import opened PeeringModel

  /** `conn` is an open channel of `link`, which leads to `name`: itself, or a link its data came by. */
  ghost predicate Leads(f: Fed, name: Name, link: Name, exclude: Option<Name>, closed: set<Conn>, conn: Conn) {
    && (link == name || link in ListAt(f.via, name))
    && exclude != Some(link) && conn in ListAt(f.senders, link) && conn !in closed
  }

  ghost predicate Reachable(f: Fed, name: Name, exclude: Option<Name>, closed: set<Conn>) {
    exists link, conn :: Leads(f, name, link, exclude, closed, conn)
  }

  ghost predicate HasRoute(f: Fed, candidates: seq<Name>, skip: set<Name>, exclude: Option<Name>, closed: set<Conn>) {
    exists name :: name in candidates && name !in skip && Reachable(f, name, exclude, closed)
  }

  /** `conn` is the oldest open one of the channels. */
  ghost predicate OldestOpen(conns: seq<Conn>, closed: set<Conn>, conn: Conn) {
    conn !in closed && exists k :: 0 <= k < |conns| && conns[k] == conn && forall j :: 0 <= j < k ==> conns[j] in closed
  }

  lemma {:induction false} FirstOpenIff(conns: seq<Conn>, closed: set<Conn>)
    ensures FirstOpen(conns, closed).Some? <==> exists c :: c in conns && c !in closed
    ensures var first := FirstOpen(conns, closed);
            first.Some? ==> first.value in conns && OldestOpen(conns, closed, first.value)
  {
    if conns != [] {
      FirstOpenIff(conns[1..], closed);
      assert forall c :: c in conns <==> c == conns[0] || c in conns[1..];
      var first := FirstOpen(conns, closed);
      if conns[0] in closed && first.Some? {
        var k :| 0 <= k < |conns[1..]| && conns[1..][k] == first.value
                 && forall j :: 0 <= j < k ==> conns[1..][j] in closed;
        assert conns[k + 1] == first.value;
        forall j | 0 <= j < k + 1 ensures conns[j] in closed {
          assert j > 0 ==> conns[j] == conns[1..][j - 1];
        }
      }
    }
  }

  ghost predicate OpenLink(f: Fed, link: Name, exclude: Option<Name>, closed: set<Conn>) {
    exclude != Some(link) && exists c :: c in ListAt(f.senders, link) && c !in closed
  }

  /** `conn` is the oldest open channel of the first of the links that has one. */
  ghost predicate FirstOfLinks(f: Fed, links: seq<Name>, exclude: Option<Name>, closed: set<Conn>, conn: Conn) {
    exists i :: 0 <= i < |links| && IsFirstLink(f, links, exclude, closed, conn, i)
  }

  ghost predicate IsFirstLink(f: Fed, links: seq<Name>, exclude: Option<Name>, closed: set<Conn>, conn: Conn, i: nat)
    requires i < |links|
  {
    && exclude != Some(links[i]) && OldestOpen(ListAt(f.senders, links[i]), closed, conn)
    && forall j :: 0 <= j < i ==> !OpenLink(f, links[j], exclude, closed)
  }

  lemma {:induction false} FirstSenderIff(f: Fed, links: seq<Name>, exclude: Option<Name>, closed: set<Conn>)
    ensures var first := FirstSender(f.senders, links, exclude, closed);
            && (first.Some? <==> exists l :: l in links && OpenLink(f, l, exclude, closed))
            && (first.Some? ==> FirstOfLinks(f, links, exclude, closed, first.value))
  {
    if links != [] {
      FirstOpenIff(ListAt(f.senders, links[0]), closed);
      FirstSenderIff(f, links[1..], exclude, closed);
      assert forall l :: l in links <==> l == links[0] || l in links[1..];
      var first := FirstSender(f.senders, links, exclude, closed);
      if OpenLink(f, links[0], exclude, closed) {
        assert IsFirstLink(f, links, exclude, closed, first.value, 0);
      } else if first.Some? {
        var i :| 0 <= i < |links[1..]| && IsFirstLink(f, links[1..], exclude, closed, first.value, i);
        assert links[i + 1] == links[1..][i];
        forall j | 0 <= j < i + 1 ensures !OpenLink(f, links[j], exclude, closed) {
          assert j > 0 ==> links[j] == links[1..][j - 1];
        }
        assert IsFirstLink(f, links, exclude, closed, first.value, i + 1);
      }
    }
  }

  /**
   A candidate resolves exactly when it can be reached: by the oldest open channel of its own link, else
   of the first link its data came by that has one.
   */
  lemma SenderForIff(f: Fed, name: Name, exclude: Option<Name>, closed: set<Conn>)
    ensures var conn := SenderFor(f, name, exclude, closed);
            && (conn.Some? <==> Reachable(f, name, exclude, closed))
            && (conn.Some? ==> FirstOfLinks(f, [name] + ListAt(f.via, name), exclude, closed, conn.value))
            && (conn.Some? ==> exists link :: Leads(f, name, link, exclude, closed, conn.value)
                                 && (OpenLink(f, name, exclude, closed) ==> link == name))
  {
    var links := [name] + ListAt(f.via, name);
    FirstSenderIff(f, links, exclude, closed);
    var conn := SenderFor(f, name, exclude, closed);
    if conn.Some? {
      var i :| 0 <= i < |links| && IsFirstLink(f, links, exclude, closed, conn.value, i);
      assert links[0] == name && (i > 0 ==> links[i] in ListAt(f.via, name));
      assert Leads(f, name, links[i], exclude, closed, conn.value);
    }
    if Reachable(f, name, exclude, closed) {
      var link, c :| Leads(f, name, link, exclude, closed, c);
      assert link in links && OpenLink(f, link, exclude, closed);
    }
  }

  /** A route is found exactly when there is one, and it is the first candidate that has one. */
  lemma {:induction false} PickRouteIff(f: Fed, candidates: seq<Name>, skip: set<Name>, exclude: Option<Name>,
                                        closed: set<Conn>)
    ensures var route := PickRoute(f, candidates, skip, exclude, closed);
            && (route.Some? <==> HasRoute(f, candidates, skip, exclude, closed))
            && (route.Some? ==>
                  && route.value.0 in candidates && route.value.0 !in skip
                  && SenderFor(f, route.value.0, exclude, closed) == Some(route.value.1)
                  && exists i :: 0 <= i < |candidates| && candidates[i] == route.value.0
                       && forall j :: 0 <= j < i ==>
                            candidates[j] in skip || !Reachable(f, candidates[j], exclude, closed))
  {
    if candidates != [] {
      var rest := candidates[1..];
      SenderForIff(f, candidates[0], exclude, closed);
      PickRouteIff(f, rest, skip, exclude, closed);
      assert forall n :: n in candidates <==> n == candidates[0] || n in rest;
      var route := PickRoute(f, candidates, skip, exclude, closed);
      if (candidates[0] in skip || !Reachable(f, candidates[0], exclude, closed)) && route.Some? {
        var i :| 0 <= i < |rest| && rest[i] == route.value.0
                 && forall j :: 0 <= j < i ==> rest[j] in skip || !Reachable(f, rest[j], exclude, closed);
        assert candidates[i + 1] == rest[i];
        forall j | 0 <= j < i + 1 ensures candidates[j] in skip || !Reachable(f, candidates[j], exclude, closed) {
          assert j > 0 ==> candidates[j] == rest[j - 1];
        }
      }
    }
  }

  /**
   A forward that is new here, signed, and not for a local machine is refused exactly when no route
   to its target is open that avoids the arrival link and every relay it has visited; and one that
   is sent on leaves by a link other than the arrival link, towards a name it has not visited.
   */
  lemma RefusedIffNoRoute(f: Fed, keys: Keys, link: Name, conn: Conn, fwd: Forward, closed: set<Conn>, now: int)
    requires f.own !in fwd.visited && SigValid(keys, fwd)
    ensures var g := LearnRoute(f, fwd.from, link);
            var skip := {link} + (set n | n in fwd.visited);
            var (h, (c, out)) := HandleForward(f, keys, link, conn, fwd, Elsewhere, closed, now);
            && (out == AckFrame(fwd.id, UnknownPeer)
                <==> !HasRoute(g, ListAt(g.routes, fwd.target), skip, Some(link), closed))
            && (out.AckFrame? ==> c == conn && out == AckFrame(fwd.id, UnknownPeer))
            && (out.ForwardFrame? ==> exists name, onward ::
                  name in ListAt(g.routes, fwd.target) && name !in fwd.visited && name != link && onward != link
                  && Leads(g, name, onward, Some(link), closed, c))
  {
    var g := LearnRoute(f, fwd.from, link);
    var skip := {link} + (set n | n in fwd.visited);
    PickRouteIff(g, ListAt(g.routes, fwd.target), skip, Some(link), closed);
    var route := PickRoute(g, ListAt(g.routes, fwd.target), skip, Some(link), closed);
    if route.Some? {
      SenderForIff(g, route.value.0, Some(link), closed);
      var onward :| Leads(g, route.value.0, onward, Some(link), closed, route.value.1);
      assert onward != link;
    }
  }

  /** A new forward is issued exactly when some route to its target is open. */
  lemma IssuedIffRoute(f: Fed, keys: Keys, id: ReqId, from: Epk, target: Epk, payload: string, closed: set<Conn>)
    ensures var (g, out) := Originate(f, keys, id, from, target, payload, closed);
            && (out.Some? <==> HasRoute(f, ListAt(f.routes, target), {}, None, closed))
            && (out.Some? ==> id in g.pending) && (out.None? ==> g == f)
  {
    PickRouteIff(f, ListAt(f.routes, target), {}, None, closed);
  }

  // ── Channels coming and going ─────────────────────────────────────────────

  lemma {:induction false} DroppingClosedChannels(conns: seq<Conn>, closed: set<Conn>)
    ensures FirstOpen(Without(conns, closed), closed) == FirstOpen(conns, closed)
  {
    if conns != [] {
      DroppingClosedChannels(conns[1..], closed);
      if conns[0] in closed {
        assert Without(conns, closed) == Without(conns[1..], closed);
      } else {
        assert Without(conns, closed)[0] == conns[0];
      }
    }
  }

  lemma {:induction false} SameLinksSameSender(f: Fed, g: Fed, links: seq<Name>, exclude: Option<Name>,
                                               closed: set<Conn>)
    requires forall l :: FirstOpen(ListAt(f.senders, l), closed) == FirstOpen(ListAt(g.senders, l), closed)
    ensures FirstSender(f.senders, links, exclude, closed) == FirstSender(g.senders, links, exclude, closed)
  {
    if links != [] {
      SameLinksSameSender(f, g, links[1..], exclude, closed);
    }
  }

  lemma {:induction false} SameSendersSameRoute(f: Fed, g: Fed, candidates: seq<Name>, skip: set<Name>,
                                                exclude: Option<Name>, closed: set<Conn>)
    requires g.via == f.via
    requires forall l :: FirstOpen(ListAt(f.senders, l), closed) == FirstOpen(ListAt(g.senders, l), closed)
    ensures PickRoute(f, candidates, skip, exclude, closed) == PickRoute(g, candidates, skip, exclude, closed)
  {
    if candidates != [] {
      SameLinksSameSender(f, g, [candidates[0]] + ListAt(f.via, candidates[0]), exclude, closed);
      SameSendersSameRoute(f, g, candidates[1..], skip, exclude, closed);
    }
  }

  /** Dropping a link's closed channels leaves none of them, and changes no route. */
  lemma UnregisteringKeepsRoutes(f: Fed, link: Name, closed: set<Conn>, candidates: seq<Name>, skip: set<Name>,
                                 exclude: Option<Name>)
    ensures var g := UnregisterSender(f, link, closed);
            && (forall c :: c in ListAt(g.senders, link) <==> c in ListAt(f.senders, link) && c !in closed)
            && PickRoute(g, candidates, skip, exclude, closed) == PickRoute(f, candidates, skip, exclude, closed)
  {
    var g := UnregisterSender(f, link, closed);
    DroppingClosedChannels(ListAt(f.senders, link), closed);
    SameSendersSameRoute(f, g, candidates, skip, exclude, closed);
  }

  lemma {:induction false} NewestChannel(conns: seq<Conn>, conn: Conn, closed: set<Conn>)
    ensures FirstOpen(conns + [conn], closed)
         == if FirstOpen(conns, closed).Some? then FirstOpen(conns, closed)
            else if conn in closed then None else Some(conn)
  {
    if conns == [] {
      assert conns + [conn] == [conn] && [conn][1..] == [];
    } else {
      assert (conns + [conn])[1..] == conns[1..] + [conn];
      NewestChannel(conns[1..], conn, closed);
    }
  }

  /** A new channel takes over from none that is open, and opens its link if none was; no other link changes. */
  lemma RegisteringOpensTheLink(f: Fed, link: Name, conn: Conn, closed: set<Conn>, other: Name)
    requires conn !in closed
    ensures var g := RegisterSender(f, link, conn);
            var was := FirstOpen(ListAt(f.senders, other), closed);
            && OpenLink(g, link, None, closed)
            && FirstOpen(ListAt(g.senders, other), closed) == if other == link && was.None? then Some(conn) else was
  {
    NewestChannel(ListAt(f.senders, link), conn, closed);
    assert conn in ListAt(RegisterSender(f, link, conn).senders, link);
  }
}
