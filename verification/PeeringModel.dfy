/**
 The routing database of one federated relay, as a value, and every operation on it as a
 function. `PeeringRelay.FederatedSessions` is the in-place object proved against these
 functions; the network modules reason about runs of them.
 */
module PeeringModel {
  import opened Base

  type Name = string
  type Epk = string
  type Conn = nat
  type ReqId = nat

  const HOP_BACKLINK_TTL := 30_000
  const HOP_BACKLINK_MAX := 1024

  /** `meta` stands for every room field the relay passes through without reading. */
  datatype Room = Room(roomId: string, isDaemon: bool, meta: string)

  /** A machine-signed owner set on the wire: the exact bytes and their signature. */
  datatype Envelope = Envelope(blob: string, sig: string)
  datatype PairingDoc = PairingDoc(machine: Epk, version: nat, owners: set<Epk>)
  datatype Claim = Claim(machine: Epk, version: nat, envelope: Envelope)
  datatype Pairing = Pairing(version: nat, owners: set<Epk>, envelope: Envelope, origin: Name, source: Name)

  /** Checks an envelope and decodes it; nothing else is known about it. */
  type Verifier = Envelope -> Option<PairingDoc>

  datatype Backlink = Backlink(id: ReqId, at: int, conn: Conn)

  datatype Fed = Fed(
    own: Name,
    sessions: map<(Name, Epk), seq<Room>>,
    routes: map<Epk, seq<Name>>,
    senders: map<Name, seq<Conn>>,
    pending: set<ReqId>,
    pairings: map<Epk, Pairing>,
    via: map<Name, seq<Name>>,
    backlinks: seq<Backlink>)

  function Empty(own: Name): Fed {
    Fed(own, map[], map[], map[], {}, map[], map[], [])
  }

  // ── Routes, via links and rooms ───────────────────────────────────────────

  function LearnRoute(f: Fed, epk: Epk, relay: Name): Fed {
    f.(routes := f.routes[epk := PushNew(ListAt(f.routes, epk), relay)])
  }

  function LearnVia(f: Fed, origin: Name, link: Name): Fed {
    if origin == "" || link == "" then f
    else f.(via := f.via[origin := PushNew(ListAt(f.via, origin), link)])
  }

  /** Drops the names in `gone` from every list, and the lists left empty. */
  function DropNames<K(==)>(m: map<K, seq<Name>>, gone: set<Name>): map<K, seq<Name>> {
    map k | k in m && Without(m[k], gone) != [] :: Without(m[k], gone)
  }

  function SessionsWithout(sessions: map<(Name, Epk), seq<Room>>, gone: set<Name>): map<(Name, Epk), seq<Room>> {
    map k | k in sessions && k.0 !in gone :: sessions[k]
  }

  function SetPeerRooms(f: Fed, peer: Name, rooms: map<Epk, seq<Room>>): Fed {
    f.(sessions := SessionsWithout(f.sessions, {peer}) + Hosted(peer, rooms, rooms.Keys),
       routes := RoutesWith(DropNames(f.routes, {peer}), peer, rooms.Keys))
  }

  /** The session entries of `peer` for the machines in `epks`. */
  function Hosted(peer: Name, rooms: map<Epk, seq<Room>>, epks: set<Epk>): map<(Name, Epk), seq<Room>>
    requires epks <= rooms.Keys
  {
    map k | k in (set e | e in epks :: (peer, e)) :: rooms[k.1]
  }

  function RoutesWith(routes: map<Epk, seq<Name>>, peer: Name, epks: set<Epk>): map<Epk, seq<Name>> {
    map e | e in routes.Keys + epks :: ListAt(routes, e) + (if e in epks then [peer] else [])
  }

  /** Replaces the first room with the same id, or appends. */
  function Upsert(rooms: seq<Room>, room: Room): seq<Room> {
    if rooms == [] then [room]
    else if rooms[0].roomId == room.roomId then [room] + rooms[1..]
    else [rooms[0]] + Upsert(rooms[1..], room)
  }

  function AddRoom(f: Fed, peer: Name, epk: Epk, room: Room): Fed {
    f.(sessions := f.sessions[(peer, epk) := Upsert(ListAt(f.sessions, (peer, epk)), room)],
       routes := f.routes[epk := PushNew(ListAt(f.routes, epk), peer)])
  }

  function DropRoom(rooms: seq<Room>, roomId: string): seq<Room> {
    if rooms == [] then []
    else (if rooms[0].roomId == roomId then [] else [rooms[0]]) + DropRoom(rooms[1..], roomId)
  }

  /** Drops `peer` from one list, and the list itself when that empties it. */
  function DropRoute(routes: map<Epk, seq<Name>>, epk: Epk, peer: Name): map<Epk, seq<Name>> {
    if epk !in routes then routes
    else if Without(routes[epk], {peer}) == [] then routes - {epk}
    else routes[epk := Without(routes[epk], {peer})]
  }

  function RemoveRoom(f: Fed, peer: Name, epk: Epk, roomId: string): Fed {
    var key := (peer, epk);
    if key !in f.sessions then f
    else
      var left := DropRoom(f.sessions[key], roomId);
      if left != [] then f.(sessions := f.sessions[key := left])
      else f.(sessions := f.sessions - {key}, routes := DropRoute(f.routes, epk, peer))
  }

  // ── Machine-signed owner sets ─────────────────────────────────────────────

  /** What a claim is worth: its decoded document, when the machine it names signed it. */
  function Accepted(verify: Verifier, c: Claim): Option<PairingDoc> {
    match verify(c.envelope)
    case None => None
    case Some(doc) => if doc.machine == c.machine then Some(doc) else None
  }

  function LearnPairing(pairings: map<Epk, Pairing>, verify: Verifier, link: Name, origin: Name, c: Claim)
    : map<Epk, Pairing>
  {
    match Accepted(verify, c)
    case None => pairings
    case Some(doc) =>
      if c.machine in pairings && pairings[c.machine].version >= doc.version then pairings
      else pairings[c.machine := Pairing(doc.version, doc.owners, c.envelope, origin, link)]
  }

  function LearnPairings(pairings: map<Epk, Pairing>, verify: Verifier, link: Name, origin: Name, cs: seq<Claim>)
    : map<Epk, Pairing>
    decreases |cs|
  {
    if cs == [] then pairings
    else LearnPairings(LearnPairing(pairings, verify, link, origin, cs[0]), verify, link, origin, cs[1..])
  }

  // ── Link death ────────────────────────────────────────────────────────────

  /** The origins whose every via link is `link`. */
  function PurgedOrigins(via: map<Name, seq<Name>>, link: Name): set<Name> {
    set o | o in via && Without(via[o], {link}) == []
  }

  function PairingsWithout(pairings: map<Epk, Pairing>, link: Name, purged: set<Name>): map<Epk, Pairing> {
    map m | m in pairings && pairings[m].source != link && pairings[m].origin !in purged :: pairings[m]
  }

  function ClearPeer(f: Fed, link: Name): Fed {
    var purged := PurgedOrigins(f.via, link);
    f.(via := DropNames(f.via, {link}),
       sessions := SessionsWithout(f.sessions, {link} + purged),
       routes := DropNames(f.routes, {link} + purged),
       pairings := PairingsWithout(f.pairings, link, purged))
  }

  // ── Senders and route resolution ──────────────────────────────────────────

  function RegisterSender(f: Fed, link: Name, conn: Conn): Fed {
    f.(senders := f.senders[link := ListAt(f.senders, link) + [conn]])
  }

  function UnregisterSender(f: Fed, link: Name, closed: set<Conn>): Fed {
    if link in f.senders then f.(senders := f.senders[link := Without(f.senders[link], closed)]) else f
  }

  function FirstOpen(conns: seq<Conn>, closed: set<Conn>): Option<Conn> {
    if conns == [] then None
    else if conns[0] !in closed then Some(conns[0])
    else FirstOpen(conns[1..], closed)
  }

  function FirstSender(senders: map<Name, seq<Conn>>, links: seq<Name>, exclude: Option<Name>, closed: set<Conn>)
    : Option<Conn>
  {
    if links == [] then None
    else if exclude != Some(links[0]) && FirstOpen(ListAt(senders, links[0]), closed).Some? then
      FirstOpen(ListAt(senders, links[0]), closed)
    else FirstSender(senders, links[1..], exclude, closed)
  }

  /** Direct link first, then the links the origin's advertisement arrived on. */
  function SenderFor(f: Fed, candidate: Name, exclude: Option<Name>, closed: set<Conn>): Option<Conn> {
    FirstSender(f.senders, [candidate] + ListAt(f.via, candidate), exclude, closed)
  }

  /** The first candidate outside `skip` that resolves to an open channel. */
  function PickRoute(f: Fed, candidates: seq<Name>, skip: set<Name>, exclude: Option<Name>, closed: set<Conn>)
    : Option<(Name, Conn)>
  {
    if candidates == [] then None
    else
      var first := SenderFor(f, candidates[0], exclude, closed);
      if candidates[0] !in skip && first.Some? then Some((candidates[0], first.value))
      else PickRoute(f, candidates[1..], skip, exclude, closed)
  }

  // ── Forwards, backlinks and acks ──────────────────────────────────────────

  datatype Status = Forwarded | UnknownPeer

  /** What a relay signs over a forward. */
  datatype SigMsg = SigMsg(id: ReqId, from: Epk, target: Epk, visited: seq<Name>)

  datatype Forward = Forward(
    id: ReqId, from: Epk, target: Epk, payload: string, visited: seq<Name>,
    relayKey: Option<string>, relaySig: Option<string>)
  {
    function Msg(): SigMsg { SigMsg(id, from, target, visited) }
  }

  /** A relay's signing key, and the check every relay applies; both uninterpreted. */
  datatype Keys = Keys(pubkey: string, sign: SigMsg -> string, check: (string, SigMsg, string) -> bool)

  predicate SigValid(keys: Keys, fwd: Forward) {
    fwd.relayKey.Some? && fwd.relaySig.Some? && keys.check(fwd.relayKey.value, fwd.Msg(), fwd.relaySig.value)
  }

  /** The forward a relay sends on: same id and payload, `visited` grown by its name, re-signed. */
  function Stamp(own: Name, keys: Keys, fwd: Forward): Forward {
    var visited := fwd.visited + [own];
    fwd.(visited := visited, relayKey := Some(keys.pubkey),
         relaySig := Some(keys.sign(SigMsg(fwd.id, fwd.from, fwd.target, visited))))
  }

  datatype Frame = ForwardFrame(fwd: Forward) | AckFrame(id: ReqId, status: Status)

  function Unexpired(q: seq<Backlink>, now: int): seq<Backlink> {
    if q == [] then []
    else (if now - q[0].at < HOP_BACKLINK_TTL then [q[0]] else []) + Unexpired(q[1..], now)
  }

  /** The newest `HOP_BACKLINK_MAX - 1` entries, leaving room for one more. */
  function Evicted(q: seq<Backlink>): seq<Backlink> {
    if |q| >= HOP_BACKLINK_MAX then q[|q| - HOP_BACKLINK_MAX + 1..] else q
  }

  function RecordBacklink(q: seq<Backlink>, id: ReqId, now: int, conn: Conn): seq<Backlink> {
    Evicted(Unexpired(q, now)) + [Backlink(id, now, conn)]
  }

  /** Index of the first entry for `id`, or the length when there is none. */
  function Position(q: seq<Backlink>, id: ReqId): (k: nat)
    ensures k <= |q|
    ensures forall j :: 0 <= j < k ==> q[j].id != id
    ensures k < |q| ==> q[k].id == id
  {
    if q == [] || q[0].id == id then 0 else 1 + Position(q[1..], id)
  }

  function TakeBacklink(q: seq<Backlink>, id: ReqId, now: int): (Option<Conn>, seq<Backlink>) {
    var live := Unexpired(q, now);
    var k := Position(live, id);
    if k == |live| then (None, live) else (Some(live[k].conn), live[..k] + live[k + 1..])
  }

  /** The source side: sends a new forward, when some route to the target is open. */
  function Originate(f: Fed, keys: Keys, id: ReqId, from: Epk, target: Epk, payload: string, closed: set<Conn>)
    : (Fed, Option<(Conn, Frame)>)
  {
    match PickRoute(f, ListAt(f.routes, target), {}, None, closed)
    case None => (f, None)
    case Some((_, conn)) =>
      var fwd := Stamp(f.own, keys, Forward(id, from, target, payload, [], None, None));
      (f.(pending := f.pending + {id}), Some((conn, ForwardFrame(fwd))))
  }

  function HopForward(f: Fed, keys: Keys, link: Name, conn: Conn, fwd: Forward, closed: set<Conn>, now: int)
    : (Fed, Option<(Conn, Frame)>)
  {
    match PickRoute(f, ListAt(f.routes, fwd.target), {link} + (set n | n in fwd.visited), Some(link), closed)
    case None => (f, None)
    case Some((_, onward)) =>
      (f.(backlinks := RecordBacklink(f.backlinks, fwd.id, now, conn)),
       Some((onward, ForwardFrame(Stamp(f.own, keys, fwd)))))
  }

  /** What the local registry says about a forward's target. */
  datatype Local = Elsewhere | Here(delivered: bool)

  function HandleForward(f: Fed, keys: Keys, link: Name, conn: Conn, fwd: Forward, local: Local,
                         closed: set<Conn>, now: int): (Fed, (Conn, Frame))
  {
    var refusal := (conn, AckFrame(fwd.id, UnknownPeer));
    if f.own in fwd.visited || !SigValid(keys, fwd) then (f, refusal)
    else
      var g := LearnRoute(f, fwd.from, link);
      match local
      case Here(delivered) => (g, (conn, AckFrame(fwd.id, if delivered then Forwarded else UnknownPeer)))
      case Elsewhere =>
        var (h, out) := HopForward(g, keys, link, conn, fwd, closed, now);
        if out.Some? then (h, out.value) else (h, refusal)
  }

  /** An ack goes back along its backlink, or resolves this relay's own pending forward. */
  function HandleAck(f: Fed, id: ReqId, status: Status, now: int): (Fed, Option<(Conn, Frame)>, bool)
  {
    var (back, rest) := TakeBacklink(f.backlinks, id, now);
    if back.Some? then (f.(backlinks := rest), Some((back.value, AckFrame(id, status))), false)
    else (f.(backlinks := rest, pending := f.pending - {id}), None, id in f.pending)
  }
}
