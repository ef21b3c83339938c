/**
 MeshCore message table (`meshcoreMessageChannel.ts`): the update-by-natural-key-then-insert statement
 pair on a table with two partial unique indexes. A row is keyed by its `id`.
 */
module MessageStore {
  import opened Wrappers

  const ROOM_CHANNEL := -2
  const DM_CHANNEL := -1
  const BROADCAST := 4294967295

  /** Columns that an update fills in but never clears. */
  datatype Details = Details(
    senderName: Option<string>, packetId: Option<int>, emoji: Option<int>, replyId: Option<int>, receivedVia: Option<string>,
    fingerprint: Option<string>, previewText: Option<string>, previewSender: Option<string>, hops: Option<int>)

  datatype Row = Row(
    sender: Option<int>, payload: string, channel: int, timestamp: int, localOrder: Option<int>, status: string,
    toNode: Option<int>, room: Option<int>, radio: Option<int>, channelKey: Option<string>, details: Details)

  type Table = map<int, Row>

  /** What the two partial unique indexes compare: the null senders are an index of their own. */
  datatype Key = Key(sender: Option<int>, timestamp: int, channel: int, payload: string, to: int)

  predicate IsPeer(to: Option<int>) { to.Some? && to.value > 0 && to.value != BROADCAST }

  /** The SQL classifier. */
  function Classify(channel: int, to: Option<int>, room: Option<int>): int {
    if room.Some? || channel == ROOM_CHANNEL then ROOM_CHANNEL else if IsPeer(to) then DM_CHANNEL else channel
  }

  function Class(r: Row): int { Classify(r.channel, r.toNode, r.room) }

  /** The save handler stores the class as the channel. */
  function Normalized(r: Row): Row { r.(channel := Class(r)) }

  function KeyOf(r: Row): Key {
    Key(r.sender, r.timestamp, r.channel, r.payload, if r.toNode.Some? then r.toNode.value else -1)
  }

  predicate SameObservation(p: Row, id: int, r: Row) {
    p.localOrder.Some? && (r.localOrder == p.localOrder || (r.localOrder.None? && id == p.localOrder.value))
  }

  /** A recipient that was missing on this very DM observation. */
  predicate Repairs(p: Row, id: int, r: Row) {
    p.channel == DM_CHANNEL && (r.toNode.None? || r.toNode == Some(0)) && IsPeer(p.toNode) && SameObservation(p, id, r)
  }

  /** The WHERE clause. */
  predicate Matches(p: Row, id: int, r: Row) {
    && ((p.sender.Some? && r.sender == p.sender) || (p.sender.None? && r.sender.None? && SameObservation(p, id, r)))
    && (r.toNode == p.toNode || Repairs(p, id, r))
    && r.timestamp == p.timestamp && Class(r) == p.channel && r.payload == p.payload
  }

  function Merged(p: Details, r: Details): Details {
    Details(Coalesce(p.senderName, r.senderName), Coalesce(p.packetId, r.packetId), Coalesce(p.emoji, r.emoji),
            Coalesce(p.replyId, r.replyId), Coalesce(p.receivedVia, r.receivedVia), Coalesce(p.fingerprint, r.fingerprint),
            Coalesce(p.previewText, r.previewText), Coalesce(p.previewSender, r.previewSender), Coalesce(p.hops, r.hops))
  }

  function NextStatus(wanted: string, current: string): string {
    if wanted == "acked" || wanted == "failed" then wanted else if current == "acked" then current else wanted
  }

  /** The SET clause. */
  function Updated(p: Row, r: Row): Row {
    r.(localOrder := Coalesce(r.localOrder, p.localOrder), status := NextStatus(p.status, r.status),
       toNode := Coalesce(p.toNode, r.toNode), room := Coalesce(p.room, r.room),
       channelKey := Coalesce(r.channelKey, p.channelKey), details := Merged(p.details, r.details))
  }

  /** The update is tried only for a usable sender or a known local order. */
  predicate TriesUpdate(p: Row) { (p.sender.Some? && p.sender.value >= 0) || p.localOrder.Some? }

  function Inserted(p: Row): Row {
    p.(radio := if p.radio.Some? && p.radio.value > 0 then p.radio else None)
  }

  // What each statement does to the whole table

  predicate Holds(t: Table, k: Key) { exists id :: id in t && KeyOf(t[id]) == k }

  /** Two rows would carry the message's key: the update aborts. */
  predicate Clashes(p: Row, t: Table) {
    exists a, b :: a in t && b in t && a != b && Matches(p, a, t[a]) && (Matches(p, b, t[b]) || KeyOf(t[b]) == KeyOf(p))
  }

  predicate Hits(p: Row, t: Table) { exists a :: a in t && Matches(p, a, t[a]) }

  function AfterUpdate(p: Row, t: Table): Table {
    map id | id in t :: if Matches(p, id, t[id]) then Updated(p, t[id]) else t[id]
  }

  datatype Outcome = Failed | Done(table: Table, nextId: int)

  /** The statement pair, read as one transformer of the table. */
  function Persisted(p: Row, t: Table, nextId: int): Outcome {
    if TriesUpdate(p) && Hits(p, t) then
      if Clashes(p, t) then Failed else Done(AfterUpdate(p, t), nextId)
    else if Holds(t, KeyOf(p)) then Done(t, nextId)
    else Done(t[nextId := Inserted(p)], nextId + 1)
  }

  // The invariant of the table

  /** `idx_mc_msg_dedup`. */
  ghost predicate SentDedup(t: Table) {
    forall a, b | a in t && b in t && a != b && t[a].sender.Some? && t[b].sender.Some? :: KeyOf(t[a]) != KeyOf(t[b])
  }

  /** `idx_mc_msg_dedup_null_sender`. */
  ghost predicate AnonymousDedup(t: Table) {
    forall a, b | a in t && b in t && a != b && t[a].sender.None? && t[b].sender.None? :: KeyOf(t[a]) != KeyOf(t[b])
  }

  /** The stored channel is the class. */
  ghost predicate Classified(t: Table) { forall id | id in t :: t[id].channel == Class(t[id]) }

  ghost predicate Consistent(t: Table, nextId: int) {
    SentDedup(t) && AnonymousDedup(t) && Classified(t) && forall id | id in t :: id < nextId
  }

  /** Classifying is idempotent, so what the handler stores is classified. */
  lemma NormalizedIsClassified(r: Row)
    ensures Normalized(r).channel == Class(Normalized(r)) == Class(r)
    ensures Normalized(r).channel == -2 <==> r.room.Some? || r.channel == -2
    ensures !(r.room.Some? || r.channel == -2) ==>
              Normalized(r).channel == if r.toNode.Some? && 0 < r.toNode.value && r.toNode.value != 4294967295 then -1 else r.channel
  {
  }

  lemma UniqueKeys(t: Table, nextId: int, a: int, b: int)
    requires Consistent(t, nextId) && a in t && b in t && KeyOf(t[a]) == KeyOf(t[b])
    ensures a == b
  {
  }

  /** Every row the update touches ends up under the message's own key, classified as before. */
  lemma MatchedTakesKey(p: Row, id: int, r: Row)
    requires Matches(p, id, r) && r.channel == Class(r) && p.channel == Class(p)
    ensures KeyOf(Updated(p, r)) == KeyOf(p) && Class(Updated(p, r)) == Updated(p, r).channel
  {
  }

  /** A row touched twice by the same message changes once. */
  lemma UpdatedTwice(p: Row, id: int, r: Row)
    requires Matches(p, id, r) && r.channel == Class(r) && p.channel == Class(p)
    ensures Matches(p, id, Updated(p, r)) && Updated(p, Updated(p, r)) == Updated(p, r)
  {
  }

  /** Without a clash the update touches exactly one row. */
  lemma OneHit(p: Row, t: Table, a: int)
    requires a in t && Matches(p, a, t[a]) && !Clashes(p, t)
    ensures AfterUpdate(p, t) == t[a := Updated(p, t[a])]
    ensures forall b | b in t && b != a :: !Matches(p, b, t[b]) && KeyOf(t[b]) != KeyOf(p)
  {
  }

  /** The save fails with the table unchanged or keeps both indexes and the classes and stores the message's key. */
  lemma PersistKeeps(p: Row, t: Table, nextId: int)
    requires Consistent(t, nextId) && p.channel == Class(p)
    ensures var o := Persisted(p, t, nextId);
            o.Failed? || (Consistent(o.table, o.nextId) && Holds(o.table, KeyOf(p)))
  {
    var o := Persisted(p, t, nextId);
    if TriesUpdate(p) && Hits(p, t) {
      if !Clashes(p, t) {
        var a :| a in t && Matches(p, a, t[a]);
        OneHit(p, t, a);
        MatchedTakesKey(p, a, t[a]);
        assert KeyOf(o.table[a]) == KeyOf(p);
      }
    } else if !Holds(t, KeyOf(p)) {
      assert KeyOf(o.table[nextId]) == KeyOf(p);
    }
  }

  /** It fails exactly when a repaired recipient runs into another row; never for a message already stored as it is. */
  lemma FailsOnlyOnRepair(p: Row, t: Table, nextId: int)
    requires Consistent(t, nextId) && p.channel == Class(p)
    ensures Persisted(p, t, nextId).Failed? <==>
            TriesUpdate(p) && exists a, b :: a in t && b in t && a != b && Matches(p, a, t[a]) && Repairs(p, a, t[a])
                                             && (Matches(p, b, t[b]) || KeyOf(t[b]) == KeyOf(p))
  {
    if TriesUpdate(p) && Clashes(p, t) {
      var a, b :| a in t && b in t && a != b && Matches(p, a, t[a]) && (Matches(p, b, t[b]) || KeyOf(t[b]) == KeyOf(p));
      if !Repairs(p, a, t[a]) {
        assert KeyOf(t[a]) == KeyOf(p);
        assert Matches(p, b, t[b]) && Repairs(p, b, t[b]) by {
          if KeyOf(t[b]) == KeyOf(p) { UniqueKeys(t, nextId, a, b); }
        }
      }
    }
  }

  const NO_DETAILS := Details(None, None, None, None, None, None, None, None, None)

  function DirectMessage(localOrder: Option<int>, to: Option<int>): Row {
    Row(Some(1), "hi", DM_CHANNEL, 1000, localOrder, "sending", to, None, None, None, NO_DETAILS)
  }

  /** It happens: the observation without a recipient and the row that already has it are two rows. */
  lemma RepairCollides()
    ensures var t: Table := map[1 := DirectMessage(Some(9), None), 2 := DirectMessage(None, Some(7))];
            var p := DirectMessage(Some(9), Some(7));
            Consistent(t, 3) && p.channel == Class(p) && Persisted(p, t, 3).Failed?
  {
    var t: Table := map[1 := DirectMessage(Some(9), None), 2 := DirectMessage(None, Some(7))];
    var p := DirectMessage(Some(9), Some(7));
    assert 1 in t && 2 in t && Matches(p, 1, t[1]) && KeyOf(t[2]) == KeyOf(p);
  }

  /** Saving the same message again changes nothing. */
  lemma PersistIsIdempotent(p: Row, t: Table, nextId: int)
    requires Consistent(t, nextId) && p.channel == Class(p)
    ensures var o := Persisted(p, t, nextId);
            o.Done? ==> Persisted(p, o.table, o.nextId) == o
  {
    var o := Persisted(p, t, nextId);
    if TriesUpdate(p) && Hits(p, t) {
      if !Clashes(p, t) {
        var a :| a in t && Matches(p, a, t[a]);
        OneHit(p, t, a);
        UpdatedTwice(p, a, t[a]);
        assert o.table == t[a := Updated(p, t[a])];
        assert Matches(p, a, o.table[a]);
        assert !Clashes(p, o.table);
        assert AfterUpdate(p, o.table) == o.table;
      }
    } else if !Holds(t, KeyOf(p)) {
      InsertedTwice(p, t, nextId);
    }
  }

  lemma InsertedTwice(p: Row, t: Table, nextId: int)
    requires Consistent(t, nextId) && p.channel == Class(p) && !(TriesUpdate(p) && Hits(p, t)) && !Holds(t, KeyOf(p))
    ensures var after := t[nextId := Inserted(p)]; Persisted(p, after, nextId + 1) == Done(after, nextId + 1)
  {
    var after := t[nextId := Inserted(p)];
    assert KeyOf(after[nextId]) == KeyOf(p);
    assert Holds(after, KeyOf(p));
    if TriesUpdate(p) && Hits(p, after) {
      assert !Clashes(p, after);
      assert Updated(p, after[nextId]) == after[nextId];
      assert AfterUpdate(p, after) == after;
    }
  }

  /** No row is lost, at most one old row changes, and an acknowledged one only to acked or failed. */
  lemma PersistConserves(p: Row, t: Table, nextId: int)
    requires Consistent(t, nextId) && p.channel == Class(p) && Persisted(p, t, nextId).Done?
    ensures var after := Persisted(p, t, nextId).table;
            && t.Keys <= after.Keys <= t.Keys + {nextId}
            && (forall id | id in t && t[id].status == "acked" :: after[id].status == "acked" || after[id].status == "failed" == p.status)
            && (forall a, b | a in t && b in t && after[a] != t[a] && after[b] != t[b] :: a == b)
            && (forall id | id in t && after[id] != t[id] :: Matches(p, id, t[id]) && after.Keys == t.Keys)
  {
    if TriesUpdate(p) && Hits(p, t) {
      var a :| a in t && Matches(p, a, t[a]);
      OneHit(p, t, a);
    }
  }

  // What a save brings

  /** A column takes what the message knows and keeps what it does not. */
  predicate Takes<T(==)>(news: Option<T>, was: Option<T>, now: Option<T>) {
    (news.Some? ==> now == news) && (news.None? ==> now == was)
  }

  predicate TakesDetails(news: Details, was: Details, now: Details) {
    && Takes(news.senderName, was.senderName, now.senderName) && Takes(news.packetId, was.packetId, now.packetId)
    && Takes(news.emoji, was.emoji, now.emoji) && Takes(news.replyId, was.replyId, now.replyId)
    && Takes(news.receivedVia, was.receivedVia, now.receivedVia) && Takes(news.fingerprint, was.fingerprint, now.fingerprint)
    && Takes(news.previewText, was.previewText, now.previewText) && Takes(news.previewSender, was.previewSender, now.previewSender)
    && Takes(news.hops, was.hops, now.hops)
  }

  /** A saved status is the stored one afterwards, unless it is neither acked nor failed and the row was acked already;
      details, recipient and room take what the message knows, local order and channel key keep what the row knew. */
  lemma SaveReachesRow(p: Row, t: Table, nextId: int, id: int)
    requires Consistent(t, nextId) && p.channel == Class(p) && Persisted(p, t, nextId).Done?
    requires TriesUpdate(p) && id in t && Matches(p, id, t[id])
    ensures var after := Persisted(p, t, nextId).table;
            && id in after
            && (p.status == "acked" || p.status == "failed" || t[id].status != "acked" ==> after[id].status == p.status)
            && (p.status != "acked" && p.status != "failed" && t[id].status == "acked" ==> after[id].status == "acked")
            && TakesDetails(p.details, t[id].details, after[id].details)
            && Takes(p.toNode, t[id].toNode, after[id].toNode) && Takes(p.room, t[id].room, after[id].room)
            && Takes(t[id].localOrder, p.localOrder, after[id].localOrder)
            && Takes(t[id].channelKey, p.channelKey, after[id].channelKey)
            && after[id].sender == t[id].sender && after[id].radio == t[id].radio && after[id].channel == t[id].channel
            && after[id].payload == t[id].payload && after[id].timestamp == t[id].timestamp
  {
    OneHit(p, t, id);
  }

  /** A message heard again reaches its row: a sender, or the local order of an anonymous one, identifies it. */
  lemma RepeatIsHit(p: Row, id: int, r: Row)
    requires r.sender == p.sender && r.payload == p.payload && r.timestamp == p.timestamp && r.toNode == p.toNode
    requires r.channel == Class(r) == p.channel
    ensures TriesUpdate(p) && Matches(p, id, r) <==>
            if p.sender.Some? then p.sender.value >= 0 || p.localOrder.Some?
            else p.localOrder.Some? && (r.localOrder == p.localOrder || (r.localOrder.None? && id == p.localOrder.value))
  {
  }

  /** A recipient reaches a row of the same text without one exactly as a direct message of the same observation. */
  lemma RecipientIsRepaired(p: Row, id: int, r: Row)
    requires r.sender == p.sender && r.payload == p.payload && r.timestamp == p.timestamp
    requires r.channel == Class(r) && p.channel == Class(p)
    requires (r.toNode.None? || r.toNode == Some(0)) && p.toNode.Some? && p.toNode != r.toNode
    ensures TriesUpdate(p) && Matches(p, id, r) <==>
            && p.channel == r.channel == -1 && 0 < p.toNode.value && p.toNode.value != 4294967295 && p.localOrder.Some?
            && (r.localOrder == p.localOrder || (r.localOrder.None? && id == p.localOrder.value))
  {
  }

  /** A message whose key nobody holds and that reaches no row is stored whole, but for a radio number below one. */
  lemma SaveInserts(p: Row, t: Table, nextId: int)
    requires Consistent(t, nextId) && p.channel == Class(p)
    requires forall id | id in t :: KeyOf(t[id]) != KeyOf(p) && !(TriesUpdate(p) && Matches(p, id, t[id]))
    ensures var o := Persisted(p, t, nextId);
            && o.Done? && o.table.Keys == t.Keys + {nextId} && (forall id | id in t :: o.table[id] == t[id])
            && o.table[nextId].(radio := p.radio) == p
            && (p.radio.Some? && p.radio.value > 0 ==> o.table[nextId] == p)
            && (p.radio.Some? && p.radio.value <= 0 ==> o.table[nextId].radio.None?)
  {
    assert !Holds(t, KeyOf(p));
    assert TriesUpdate(p) ==> !Hits(p, t);
  }

  // Whole histories of saves

  /** The table after saving one message after the other; a failed save changes nothing. */
  function SaveAll(saves: seq<Row>, t: Table, nextId: int): (Table, int)
    decreases |saves|
  {
    if saves == [] then (t, nextId)
    else
      var o := Persisted(saves[0], t, nextId);
      if o.Failed? then SaveAll(saves[1..], t, nextId) else SaveAll(saves[1..], o.table, o.nextId)
  }

  /** `now` is the same stored message as `was`: what identified it stands, what was known is still known. */
  predicate SameMessage(was: Row, now: Row) {
    && now.sender == was.sender && now.payload == was.payload && now.timestamp == was.timestamp
    && now.channel == was.channel && now.radio == was.radio
    && (was.localOrder.Some? ==> now.localOrder == was.localOrder)
    && (was.channelKey.Some? ==> now.channelKey == was.channelKey)
    && (IsPeer(was.toNode) ==> now.toNode == was.toNode)
    && (was.room.Some? ==> now.room.Some?)
    && KeepsDetails(was.details, now.details)
  }

  predicate KeepsDetails(was: Details, now: Details) {
    && (was.senderName.Some? ==> now.senderName.Some?) && (was.packetId.Some? ==> now.packetId.Some?)
    && (was.emoji.Some? ==> now.emoji.Some?) && (was.replyId.Some? ==> now.replyId.Some?)
    && (was.receivedVia.Some? ==> now.receivedVia.Some?) && (was.fingerprint.Some? ==> now.fingerprint.Some?)
    && (was.previewText.Some? ==> now.previewText.Some?) && (was.previewSender.Some? ==> now.previewSender.Some?)
    && (was.hops.Some? ==> now.hops.Some?)
  }

  lemma UpdateIsSameMessage(p: Row, id: int, r: Row)
    requires Matches(p, id, r)
    ensures SameMessage(r, Updated(p, r))
  {
  }

  lemma OneSaveIsStable(p: Row, t: Table, nextId: int, id: int)
    requires Consistent(t, nextId) && id in t
    ensures var o := Persisted(p, t, nextId); o.Done? ==> id in o.table && SameMessage(t[id], o.table[id])
  {
    if Matches(p, id, t[id]) { UpdateIsSameMessage(p, id, t[id]); }
  }

  /** Over any history of saves the indexes hold, and every stored message stays itself: it is never lost, its sender,
      text, time, channel, radio and recipient never change, and nothing known about it is forgotten. */
  lemma {:induction false} MessagesAreStable(saves: seq<Row>, t: Table, nextId: int, id: int)
    requires Consistent(t, nextId) && id in t && forall i | 0 <= i < |saves| :: saves[i].channel == Class(saves[i])
    ensures var (after, next) := SaveAll(saves, t, nextId);
            Consistent(after, next) && id in after && SameMessage(t[id], after[id])
    decreases |saves|
  {
    if saves != [] {
      hide Consistent, SameMessage, Persisted;
      var o := Persisted(saves[0], t, nextId);
      PersistKeeps(saves[0], t, nextId);
      OneSaveIsStable(saves[0], t, nextId, id);
      if o.Failed? {
        MessagesAreStable(saves[1..], t, nextId, id);
      } else {
        MessagesAreStable(saves[1..], o.table, o.nextId, id);
        SameThrough(t[id], o.table[id], SaveAll(saves[1..], o.table, o.nextId).0[id]);
      }
    } else {
      assert SameMessage(t[id], t[id]);
    }
  }

  lemma SameThrough(a: Row, b: Row, c: Row)
    requires SameMessage(a, b) && SameMessage(b, c)
    ensures SameMessage(a, c)
  {
  }

  /** Any order in which a scan can visit the rows. */
  ghost predicate Visits(scan: seq<int>, t: Table) {
    && (forall i | 0 <= i < |scan| :: scan[i] in t)
    && (forall i, j | 0 <= i < j < |scan| :: scan[i] != scan[j])
    && (forall id | id in t :: id in scan)
  }

  predicate OtherHolds(t: Table, id: int, k: Key) { exists b :: b in t && b != id && KeyOf(t[b]) == k }

  /** A violation met by a scan is a clash of the untouched table. */
  lemma ViolationClashes(p: Row, t: Table, now: Table, scan: seq<int>, i: int)
    requires Visits(scan, t) && now.Keys == t.Keys && 0 <= i < |scan| && Matches(p, scan[i], t[scan[i]])
    requires forall j | 0 <= j < |scan| :: now[scan[j]] == t[scan[j]] || Matches(p, scan[j], t[scan[j]])
    requires OtherHolds(now, scan[i], KeyOf(p))
    ensures Clashes(p, t)
  {
  }

  /** A scan that met no violation has done the whole update. */
  lemma AllVisited(p: Row, t: Table, after: Table, scan: seq<int>)
    requires Visits(scan, t) && after.Keys == t.Keys
    requires forall j | 0 <= j < |scan| ::
               after[scan[j]] == if Matches(p, scan[j], t[scan[j]]) then Updated(p, t[scan[j]]) else t[scan[j]]
    requires forall j | 0 <= j < |scan| && Matches(p, scan[j], t[scan[j]]) :: KeyOf(after[scan[j]]) == KeyOf(p)
    requires forall j, b | 0 <= j < |scan| && Matches(p, scan[j], t[scan[j]]) && b in after && b != scan[j] ::
               KeyOf(after[b]) != KeyOf(p)
    ensures after == AfterUpdate(p, t) && !Clashes(p, t)
  {
  }

  class MessageTable {
    var rows: Table
    var nextId: int

    ghost predicate Valid() reads this { Consistent(rows, nextId) }

    constructor ()
      ensures Valid() && rows == map[]
    {
      rows, nextId := map[], 1;
    }

    /** Row by row, each checked against the unique indexes; a violation undoes the whole statement. */
    method UpdateMatching(p: Row, scan: seq<int>) returns (ok: bool, changes: nat)
      requires Valid() && Visits(scan, rows) && p.channel == Class(p)
      modifies this`rows
      ensures ok <==> !Clashes(p, old(rows))
      ensures rows == if ok then AfterUpdate(p, old(rows)) else old(rows)
      ensures ok ==> (changes > 0 <==> Hits(p, old(rows)))
    {
      hide Matches, Updated, KeyOf, Class;
      var before := rows;
      changes := 0;
      for i := 0 to |scan|
        invariant rows.Keys == before.Keys
        invariant forall j | 0 <= j < i ::
                    rows[scan[j]] == if Matches(p, scan[j], before[scan[j]]) then Updated(p, before[scan[j]]) else before[scan[j]]
        invariant forall j | i <= j < |scan| :: rows[scan[j]] == before[scan[j]]
        invariant changes > 0 <==> exists j :: 0 <= j < i && Matches(p, scan[j], before[scan[j]])
        invariant forall j | 0 <= j < i && Matches(p, scan[j], before[scan[j]]) :: KeyOf(rows[scan[j]]) == KeyOf(p)
        invariant forall j, b | 0 <= j < i && Matches(p, scan[j], before[scan[j]]) && b in rows && b != scan[j] ::
                    KeyOf(rows[b]) != KeyOf(p)
      {
        var id := scan[i];
        if Matches(p, id, rows[id]) {
          var updated := Updated(p, rows[id]);
          MatchedTakesKey(p, id, rows[id]);
          if OtherHolds(rows, id, KeyOf(updated)) {
            ViolationClashes(p, before, rows, scan, i);
            rows := before;
            return false, 0;
          }
          rows := rows[id := updated];
          changes := changes + 1;
        }
      }
      AllVisited(p, before, rows, scan);
      ok := true;
    }

    method InsertOrIgnore(p: Row)
      modifies this
      ensures rows == if Holds(old(rows), KeyOf(p)) then old(rows) else old(rows)[old(nextId) := p]
      ensures nextId == if Holds(old(rows), KeyOf(p)) then old(nextId) else old(nextId) + 1
    {
      if exists id :: id in rows && KeyOf(rows[id]) == KeyOf(p) { return; }
      rows := rows[nextId := p];
      nextId := nextId + 1;
    }

    /** The same table for every scan order. */
    method Persist(p: Row, scan: seq<int>) returns (ok: bool)
      requires Valid() && Visits(scan, rows) && p.channel == Class(p)
      modifies this
      ensures Valid()
      ensures ok <==> Persisted(p, old(rows), old(nextId)).Done?
      ensures ok ==> Persisted(p, old(rows), old(nextId)) == Done(rows, nextId)
      ensures !ok ==> rows == old(rows) && nextId == old(nextId)
    {
      PersistKeeps(p, rows, nextId);
      if TriesUpdate(p) {
        var updated, changes := UpdateMatching(p, scan);
        if !updated {
          assert Hits(p, rows);
          return false;
        }
        if changes > 0 { return true; }
        assert AfterUpdate(p, old(rows)) == old(rows);
      }
      InsertOrIgnore(Inserted(p));
      ok := true;
    }
  }
}
