/** Moving a Meshtastic node's history to its new node number (`meshtasticNodeRenumber.ts`). */
module NodeRenumber {
  import opened Wrappers
  import opened HexKeys

  const BROADCAST := 4294967295
  const KEY_LENGTH: nat := 64

  datatype Message = Message(
    sender: Option<int>, packetId: Option<int>, emoji: Option<int>, replyId: Option<int>,
    toNode: Option<int>, radio: Option<int>, rest: string)

  datatype Node = Node(publicKey: Option<string>, favorited: Option<int>, rest: string)

  datatype Position = Position(node: int, rest: string)

  datatype Telemetry = Telemetry(protocol: string, node: int, rest: string)

  type Messages = map<int, Message>

  datatype Db = Db(
    messages: Messages, nodes: map<int, Node>, notes: map<int, string>, positions: map<int, Position>,
    telemetry: map<int, Telemetry>, meshcoreContacts: set<int>)

  // The two validators

  /** A public key that identifies a node: 64 hex digits, not all zero. */
  function PublicKeyHex(raw: Option<string>): Option<string> {
    if raw.None? then None
    else
      var hex := Lower(Trim(raw.value));
      if IsHex(hex, KEY_LENGTH) && hex != seq(KEY_LENGTH, _ => '0') then Some(hex) else None
  }

  /** Any value that is no integer is `None`. */
  function ValidNodeNum(raw: Option<int>): Option<int> {
    if raw.Some? && 0 < raw.value < BROADCAST then raw else None
  }

  // The unique indexes

  predicate SamePacket(a: Message, b: Message) { a.packetId.Some? && a.packetId == b.packetId }

  predicate SameReaction(a: Message, b: Message) {
    a.emoji.Some? && a.replyId.Some? && a.emoji == b.emoji && a.replyId == b.replyId
  }

  /** `idx_msg_packet_dedup`. */
  ghost predicate PacketDedup(t: Messages) {
    forall a, b | a in t && b in t && a != b && t[a].sender.Some? && t[a].sender == t[b].sender :: !SamePacket(t[a], t[b])
  }

  /** `idx_reaction_dedup`. */
  ghost predicate ReactionDedup(t: Messages) {
    forall a, b | a in t && b in t && a != b && t[a].sender.Some? && t[a].sender == t[b].sender :: !SameReaction(t[a], t[b])
  }

  ghost predicate Indexed(t: Messages) { PacketDedup(t) && ReactionDedup(t) }

  // What the migration does to each table

  /** A row of `num` already holds the packet or the reaction. */
  predicate Collides(t: Messages, r: Message, num: int) {
    exists b :: b in t && t[b].sender == Some(num) && (SamePacket(r, t[b]) || SameReaction(r, t[b]))
  }

  function Rename(column: Option<int>, from: int, to: int): Option<int> { if column == Some(from) then Some(to) else column }

  /** `UPDATE OR IGNORE messages SET sender_id`. */
  function MovedSenders(t: Messages, from: int, to: int): Messages {
    map id | id in t ::
      if t[id].sender == Some(from) && !Collides(t, t[id], to) then t[id].(sender := Some(to)) else t[id]
  }

  function WithoutSender(t: Messages, num: int): Messages { map id | id in t && t[id].sender != Some(num) :: t[id] }

  function RenamedTo(t: Messages, from: int, to: int): Messages {
    map id | id in t :: t[id].(toNode := Rename(t[id].toNode, from, to))
  }

  function RenamedRadio(t: Messages, from: int, to: int): Messages {
    map id | id in t :: t[id].(radio := Rename(t[id].radio, from, to))
  }

  function RenamedMessages(t: Messages, from: int, to: int): Messages {
    RenamedRadio(RenamedTo(WithoutSender(MovedSenders(t, from, to), from), from, to), from, to)
  }

  function Max(a: int, b: int): int { if a < b then b else a }

  function MergedNode(target: Node, source: Node, key: string): Node {
    target.(favorited := Some(Max(if target.favorited.Some? then target.favorited.value else 0,
                                  if source.favorited.Some? then source.favorited.value else 0)),
            publicKey := Coalesce(target.publicKey, Some(key)))
  }

  function RenamedNodes(nodes: map<int, Node>, from: int, to: int, key: string): map<int, Node>
    requires from in nodes
  {
    (nodes - {from})[to := if to in nodes then MergedNode(nodes[to], nodes[from], key) else nodes[from]]
  }

  function RenamedNotes(notes: map<int, string>, from: int, to: int): map<int, string> {
    if from !in notes then notes else if to in notes then notes - {from} else (notes - {from})[to := notes[from]]
  }

  function RenamedPositions(positions: map<int, Position>, from: int, to: int): map<int, Position> {
    map id | id in positions :: if positions[id].node == from then positions[id].(node := to) else positions[id]
  }

  function RenamedTelemetry(rows: map<int, Telemetry>, from: int, to: int): map<int, Telemetry> {
    map id | id in rows ::
      if rows[id].node == from && rows[id].protocol == "meshtastic" then rows[id].(node := to) else rows[id]
  }

  /** The numbers and the key are valid, differ, and the stored rows agree with the key. */
  predicate Accepts(numberOf: string -> Option<int>, db: Db, from: Option<int>, to: Option<int>, key: Option<string>) {
    && ValidNodeNum(from).Some? && ValidNodeNum(to).Some? && PublicKeyHex(key).Some? && from != to
    && numberOf(PublicKeyHex(key).value) == to
    && from.value in db.nodes && db.nodes[from.value].publicKey.Some?
    && Lower(db.nodes[from.value].publicKey.value) == PublicKeyHex(key).value
    && (to.value in db.nodes ==>
          PublicKeyHex(db.nodes[to.value].publicKey) == None || PublicKeyHex(db.nodes[to.value].publicKey) == PublicKeyHex(key))
  }

  function Migrated(db: Db, from: int, to: int, key: string): Db
    requires from in db.nodes
  {
    var owned := from in db.meshcoreContacts || to in db.meshcoreContacts;
    db.(messages := RenamedMessages(db.messages, from, to),
        nodes := RenamedNodes(db.nodes, from, to, key),
        notes := if owned then db.notes else RenamedNotes(db.notes, from, to),
        positions := if owned then db.positions else RenamedPositions(db.positions, from, to),
        telemetry := RenamedTelemetry(db.telemetry, from, to))
  }

  // When it accepts

  const ZERO_KEY := seq(KEY_LENGTH, _ => '0')

  /** A node that stores the key `k` moves to the number derived from `k` and to no other, for any spelling of `k`, unless
      its own copy is padded or another key is stored under the new number. */
  lemma AcceptedExactly(numberOf: string -> Option<int>, db: Db, from: int, to: int, stored: string, raw: string)
    requires from in db.nodes && db.nodes[from].publicKey == Some(stored)
    requires IsHex(Lower(Trim(stored)), KEY_LENGTH) && Lower(Trim(stored)) != ZERO_KEY
    ensures var k := Lower(Trim(stored));
            Accepts(numberOf, db, Some(from), Some(to), Some(raw)) <==>
              && 0 < from < 4294967295 && 0 < to < 4294967295 && from != to
              && numberOf(k) == Some(to) && Lower(Trim(raw)) == k && Trim(stored) == stored
              && (to in db.nodes && db.nodes[to].publicKey.Some? ==>
                    var other := Lower(Trim(db.nodes[to].publicKey.value));
                    other == k || other == ZERO_KEY || !IsHex(other, KEY_LENGTH))
  {
    if IsHex(Lower(stored), KEY_LENGTH) { LowersToHex(stored, KEY_LENGTH); }
  }

  /** Without a well-formed key in the old row nothing moves. */
  lemma NeedsStoredKey(numberOf: string -> Option<int>, db: Db, from: int, to: Option<int>, key: Option<string>)
    requires Accepts(numberOf, db, Some(from), to, key)
    ensures from in db.nodes && PublicKeyHex(db.nodes[from].publicKey) == PublicKeyHex(key) != None
  {
    LowersToHex(db.nodes[from].publicKey.value, KEY_LENGTH);
  }

  /** So a node has at most one number to move to, whatever key and numbers a caller presents. */
  lemma OneTarget(numberOf: string -> Option<int>, db: Db, from: Option<int>, a: Option<int>, b: Option<int>,
                  keyA: Option<string>, keyB: Option<string>)
    requires Accepts(numberOf, db, from, a, keyA) && Accepts(numberOf, db, from, b, keyB)
    ensures a == b && PublicKeyHex(keyA) == PublicKeyHex(keyB)
  {
  }

  // What it promises

  /** No message names the old number any more. */
  lemma NoRowNamesOld(t: Messages, from: int, to: int, id: int)
    requires from != to && id in RenamedMessages(t, from, to)
    ensures var r := RenamedMessages(t, from, to)[id];
            r.sender != Some(from) && r.toNode != Some(from) && r.radio != Some(from)
  {
  }

  /** A kept row is its old row with the number replaced, and every row of another sender is kept. */
  lemma OnlyRenamed(t: Messages, from: int, to: int, id: int)
    requires from != to
    ensures id in t && t[id].sender != Some(from) ==> id in RenamedMessages(t, from, to)
    ensures id in RenamedMessages(t, from, to) ==>
              id in t && RenamedMessages(t, from, to)[id] ==
                         t[id].(sender := Rename(t[id].sender, from, to), toNode := Rename(t[id].toNode, from, to),
                                radio := Rename(t[id].radio, from, to))
  {
  }

  /** A row is dropped exactly when a kept row of the new number has its packet or its reaction. */
  lemma DroppedHasTwin(t: Messages, from: int, to: int, id: int)
    requires from != to && id in t && t[id].sender == Some(from)
    ensures var after := RenamedMessages(t, from, to);
            id !in after <==> exists b :: b in after && t[b].sender == Some(to) && (SamePacket(t[id], t[b]) || SameReaction(t[id], t[b]))
  {
  }

  /** Both unique indexes survive the renaming. */
  lemma IndexesKept(t: Messages, from: int, to: int)
    requires from != to && Indexed(t)
    ensures Indexed(RenamedMessages(t, from, to))
  {
  }

  /** The node itself: one row left, under the new number, favourite if either row was, other nodes as they were. */
  lemma NodeMoves(numberOf: string -> Option<int>, db: Db, from: int, to: int, key: Option<string>)
    requires Accepts(numberOf, db, Some(from), Some(to), key)
    ensures var after := Migrated(db, from, to, PublicKeyHex(key).value).nodes;
            && after.Keys == db.nodes.Keys - {from} + {to}
            && (forall n | n in after && n != to :: after[n] == db.nodes[n])
            && (Favourite(after[to]) <==> Favourite(db.nodes[from]) || (to in db.nodes && Favourite(db.nodes[to])))
            && after[to].rest == db.nodes[if to in db.nodes then to else from].rest
  {
  }

  predicate Favourite(n: Node) { n.favorited.Some? && n.favorited.value > 0 }

  /** The new row carries the key exactly when it held no malformed one before. */
  lemma KeyArrives(numberOf: string -> Option<int>, db: Db, from: int, to: int, key: Option<string>)
    requires Accepts(numberOf, db, Some(from), Some(to), key)
    ensures PublicKeyHex(Migrated(db, from, to, PublicKeyHex(key).value).nodes[to].publicKey) == PublicKeyHex(key) <==>
            !(to in db.nodes && db.nodes[to].publicKey.Some? && PublicKeyHex(db.nodes[to].publicKey).None?)
  {
    var hex := PublicKeyHex(key).value;
    HexIsNormal(hex, KEY_LENGTH);
    if to !in db.nodes { LowersToHex(db.nodes[from].publicKey.value, KEY_LENGTH); }
  }

  /** It happens: a malformed key under the new number is neither a reason to refuse nor replaced. */
  lemma MalformedKeyStays(numberOf: string -> Option<int>, key: string, malformed: string, from: int, to: int)
    requires PublicKeyHex(Some(key)) == Some(key) && PublicKeyHex(Some(malformed)).None?
    requires ValidNodeNum(Some(from)).Some? && ValidNodeNum(Some(to)).Some? && from != to && numberOf(key) == Some(to)
    ensures var db := Db(map[], map[from := Node(Some(key), None, ""), to := Node(Some(malformed), None, "")], map[], map[], map[], {});
            Accepts(numberOf, db, Some(from), Some(to), Some(key))
            && Migrated(db, from, to, key).nodes[to].publicKey == Some(malformed)
  {
    HexIsNormal(key, KEY_LENGTH);
  }

  /** Such keys exist: any 64 hex digits but zeros, and the empty text. */
  lemma MalformedKeyExists() returns (key: string, malformed: string)
    ensures PublicKeyHex(Some(key)) == Some(key) && PublicKeyHex(Some(malformed)).None?
  {
    key, malformed := seq(KEY_LENGTH, _ => '1'), "";
    HexIsNormal(key, KEY_LENGTH);
    assert key[0] == '1' && (seq(KEY_LENGTH, _ => '0'))[0] == '0';
  }

  /** Notes, positions and telemetry follow whole, unless MeshCore owns one of the ids; all other rows stay. */
  lemma HistoryFollows(db: Db, from: int, to: int, key: string)
    requires from in db.nodes && from != to
    ensures var after := Migrated(db, from, to, key);
            var owned := from in db.meshcoreContacts || to in db.meshcoreContacts;
            && (owned ==> after.notes == db.notes && after.positions == db.positions)
            && (!owned ==> from !in after.notes && (to in after.notes <==> from in db.notes || to in db.notes)
                           && (to in db.notes ==> after.notes[to] == db.notes[to])
                           && (to !in db.notes && from in db.notes ==> after.notes[to] == db.notes[from])
                           && forall n | n != from && n != to :: n in after.notes <==> n in db.notes)
            && (forall n | n in after.notes && n != to :: n in db.notes && after.notes[n] == db.notes[n])
            && after.positions.Keys == db.positions.Keys && after.telemetry.Keys == db.telemetry.Keys
            && (forall id | id in db.positions ::
                  var moves := !owned && db.positions[id].node == from;
                  after.positions[id].rest == db.positions[id].rest
                  && after.positions[id].node == if moves then to else db.positions[id].node)
            && (forall id | id in db.telemetry ::
                  var was, now := db.telemetry[id], after.telemetry[id];
                  && now.rest == was.rest && now.protocol == was.protocol
                  && now.node == if was.node == from && was.protocol == "meshtastic" then to else was.node)
  {
  }

  /** A second migration of the same numbers finds no old row and is refused. */
  lemma OnlyOnce(numberOf: string -> Option<int>, db: Db, from: int, to: int, key: Option<string>)
    requires Accepts(numberOf, db, Some(from), Some(to), key)
    ensures !Accepts(numberOf, Migrated(db, from, to, PublicKeyHex(key).value), Some(from), Some(to), key)
  {
  }

  /** The old number's messages that are kept under the new one. */
  function Kept(t: Messages, from: int, to: int): set<int> {
    set id | id in t && t[id].sender == Some(from) && id in RenamedMessages(t, from, to)
  }

  /** The kept messages that were addressed to the old number. */
  function Addressed(t: Messages, from: int, to: int): set<int> {
    set id | id in t && t[id].toNode == Some(from) && id in RenamedMessages(t, from, to)
  }

  // The transaction

  /** Any order in which a scan can visit the rows. */
  ghost predicate Visits(scan: seq<int>, t: Messages) {
    && (forall i | 0 <= i < |scan| :: scan[i] in t)
    && (forall i, j | 0 <= i < j < |scan| :: scan[i] != scan[j])
    && (forall id | id in t :: id in scan)
  }

  predicate Moves(t: Messages, from: int, to: int, id: int)
    requires id in t
  {
    t[id].sender == Some(from) && !Collides(t, t[id], to)
  }

  /** Moving this row now would break an index. */
  predicate Blocked(t: Messages, id: int, to: int)
    requires id in t
  {
    exists b :: b in t && b != id && t[b].sender == Some(to) && (SamePacket(t[id], t[b]) || SameReaction(t[id], t[b]))
  }

  /** The table after the rows in `done` were visited. */
  function Partly(t: Messages, from: int, to: int, done: set<int>): Messages {
    map id | id in t :: if id in done && Moves(t, from, to, id) then t[id].(sender := Some(to)) else t[id]
  }

  function MovedIn(t: Messages, from: int, to: int, done: set<int>): set<int> {
    set id | id in t && id in done && Moves(t, from, to, id)
  }

  lemma Unvisited(t: Messages, from: int, to: int)
    ensures Partly(t, from, to, {}) == t && MovedIn(t, from, to, {}) == {}
  {
  }

  lemma VisitOne(t: Messages, from: int, to: int, done: set<int>, id: int)
    requires id in t && id !in done
    ensures var now := Partly(t, from, to, done);
            && now.Keys == t.Keys && now[id] == t[id]
            && Partly(t, from, to, done + {id}) == (if Moves(t, from, to, id) then now[id := t[id].(sender := Some(to))] else now)
            && |MovedIn(t, from, to, done + {id})| == |MovedIn(t, from, to, done)| + (if Moves(t, from, to, id) then 1 else 0)
  {
    hide Moves;
    if Moves(t, from, to, id) {
      assert MovedIn(t, from, to, done + {id}) == MovedIn(t, from, to, done) + {id};
    } else {
      assert MovedIn(t, from, to, done + {id}) == MovedIn(t, from, to, done);
    }
  }

  lemma AllVisited(t: Messages, from: int, to: int)
    requires from != to
    ensures Partly(t, from, to, t.Keys) == MovedSenders(t, from, to)
    ensures MovedIn(t, from, to, t.Keys) == Kept(t, from, to)
  {
  }

  /** Rows moved so far are in nobody's way: only rows of the target number collide. */
  lemma MovedDoNotCollide(t: Messages, from: int, to: int, done: set<int>, id: int)
    requires Indexed(t) && from != to && id in t && id !in done && t[id].sender == Some(from)
    ensures Blocked(Partly(t, from, to, done), id, to) <==> Collides(t, t[id], to)
  {
    var now := Partly(t, from, to, done);
    if Collides(t, t[id], to) {
      var b :| b in t && t[b].sender == Some(to) && (SamePacket(t[id], t[b]) || SameReaction(t[id], t[b]));
      assert now[b] == t[b];
    }
  }

  class NodeDb {
    var messages: Messages
    var nodes: map<int, Node>
    var notes: map<int, string>
    var positions: map<int, Position>
    var telemetry: map<int, Telemetry>
    const meshcoreContacts: set<int>

    ghost function View(): Db reads this { Db(messages, nodes, notes, positions, telemetry, meshcoreContacts) }

    constructor (contacts: set<int>)
      ensures View() == Db(map[], map[], map[], map[], map[], contacts)
    {
      messages, nodes, notes, positions, telemetry, meshcoreContacts := map[], map[], map[], map[], map[], contacts;
    }

    /** One row after the other; a row that would break an index keeps its sender. */
    method MoveSenders(from: int, to: int, scan: seq<int>) returns (changes: nat)
      requires Indexed(messages) && Visits(scan, messages) && from != to
      modifies this`messages
      ensures messages == MovedSenders(old(messages), from, to)
      ensures changes == |Kept(old(messages), from, to)|
    {
      hide Indexed, Collides, MovedIn, Partly, MovedSenders, Blocked, Kept;
      ghost var before, done := messages, {};
      changes := 0;
      Unvisited(before, from, to);
      for i := 0 to |scan|
        invariant done == set j | 0 <= j < i :: scan[j]
        invariant messages == Partly(before, from, to, done) && changes == |MovedIn(before, from, to, done)|
      {
        var id := scan[i];
        VisitOne(before, from, to, done, id);
        if messages[id].sender == Some(from) {
          MovedDoNotCollide(before, from, to, done, id);
          if !Blocked(messages, id, to) {
            messages := messages[id := messages[id].(sender := Some(to))];
            changes := changes + 1;
          }
        }
        done := done + {id};
      }
      forall id | id in before ensures id in done { assert id in scan; }
      assert done == before.Keys;
      AllVisited(before, from, to);
    }

    /** The whole transaction; the result does not depend on the scan order. */
    method Migrate(numberOf: string -> Option<int>, fromRaw: Option<int>, toRaw: Option<int>, keyRaw: Option<string>, scan: seq<int>)
      returns (migrated: bool, messagesUpdated: nat)
      requires Indexed(messages) && Visits(scan, messages)
      modifies this
      ensures Indexed(messages)
      ensures migrated <==> Accepts(numberOf, old(View()), fromRaw, toRaw, keyRaw)
      ensures migrated ==> View() == Migrated(old(View()), fromRaw.value, toRaw.value, PublicKeyHex(keyRaw).value)
      ensures !migrated ==> View() == old(View()) && messagesUpdated == 0
      ensures migrated ==>
                messagesUpdated == |Kept(old(messages), fromRaw.value, toRaw.value)|
                                   + |Addressed(old(messages), fromRaw.value, toRaw.value)|
    {
      hide RenamedMessages, RenamedNodes, RenamedNotes, RenamedPositions, RenamedTelemetry, Kept, Addressed, Indexed, IsHex;
      migrated, messagesUpdated := false, 0;
      var from, to, key := ValidNodeNum(fromRaw), ValidNodeNum(toRaw), PublicKeyHex(keyRaw);
      if from.None? || to.None? || key.None? || from == to { return; }
      if numberOf(key.value) != to { return; }
      if from.value !in nodes || nodes[from.value].publicKey.None? || Lower(nodes[from.value].publicKey.value) != key.value { return; }
      if to.value in nodes {
        var stored := PublicKeyHex(nodes[to.value].publicKey);
        if stored.Some? && stored != key { return; }
      }
      messagesUpdated := MoveMessages(from.value, to.value, scan);
      MoveNode(from.value, to.value, key.value);
      MoveHistory(from.value, to.value);
      migrated := true;
    }

    method MoveMessages(from: int, to: int, scan: seq<int>) returns (updated: nat)
      requires Indexed(messages) && Visits(scan, messages) && from != to
      modifies this`messages
      ensures messages == RenamedMessages(old(messages), from, to) && Indexed(messages)
      ensures updated == |Kept(old(messages), from, to)| + |Addressed(old(messages), from, to)|
    {
      hide Indexed, Collides;
      ghost var before := messages;
      IndexesKept(messages, from, to);
      var moved := MoveSenders(from, to, scan);
      messages := WithoutSender(messages, from);
      var renamed := set id | id in messages && messages[id].toNode == Some(from);
      messages := RenamedTo(messages, from, to);
      messages := RenamedRadio(messages, from, to);
      assert renamed == Addressed(before, from, to);
      updated := moved + |renamed|;
    }

    method MoveNode(from: int, to: int, key: string)
      requires from in nodes && from != to
      modifies this`nodes
      ensures nodes == RenamedNodes(old(nodes), from, to, key)
    {
      var source := nodes[from];
      if to in nodes {
        nodes := nodes[to := MergedNode(nodes[to], source, key)];
        nodes := nodes - {from};
      } else {
        nodes := (nodes - {from})[to := source];
      }
    }

    method MoveHistory(from: int, to: int)
      requires from != to
      modifies this`notes, this`positions, this`telemetry
      ensures var owned := from in meshcoreContacts || to in meshcoreContacts;
              && notes == (if owned then old(notes) else RenamedNotes(old(notes), from, to))
              && positions == (if owned then old(positions) else RenamedPositions(old(positions), from, to))
      ensures telemetry == RenamedTelemetry(old(telemetry), from, to)
    {
      if from !in meshcoreContacts && to !in meshcoreContacts {
        if from in notes && to !in notes { notes := (notes - {from})[to := notes[from]]; }
        notes := notes - {from};
        positions := RenamedPositions(positions, from, to);
      }
      telemetry := RenamedTelemetry(telemetry, from, to);
    }
  }
}
