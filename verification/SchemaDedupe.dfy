/** Startup deduplication before the unique indexes are created, and the RF sweep (`db-schema-sync.ts`). */
module SchemaDedupe {
  import opened Wrappers
  import opened MessageStore
  import NodeRenumber

  const RF_WINDOW_MS := 120_000

  type Messages = NodeRenumber.Messages

  /** Any order in which a scan can visit the rows. */
  ghost predicate Covers<R>(scan: seq<int>, t: map<int, R>) {
    (forall i | 0 <= i < |scan| :: scan[i] in t) && forall id | id in t :: id in scan
  }

  // Keeping the oldest row of every group

  predicate Older<R, K(==)>(t: map<int, R>, key: R -> Option<K>, id: int, b: int)
    requires id in t && b in t
  {
    b < id && key(t[b]) == key(t[id])
  }

  /** Rows without a key stay; of the others, the one with the least id of its group. */
  predicate Survives<R, K(==)>(t: map<int, R>, key: R -> Option<K>, id: int)
    requires id in t
  {
    key(t[id]).None? || forall b | b in t :: !Older(t, key, id, b)
  }

  function Deduped<R, K(==)>(t: map<int, R>, key: R -> Option<K>): map<int, R> {
    map id | id in t && Survives(t, key, id) :: t[id]
  }

  /** No two rows share a key. */
  ghost predicate OnePerKey<R, K>(t: map<int, R>, key: R -> Option<K>) {
    forall a, b | a in t && b in t && key(t[a]).Some? && key(t[a]) == key(t[b]) :: a == b
  }

  lemma DedupedOnce<R, K>(t: map<int, R>, key: R -> Option<K>)
    ensures OnePerKey(Deduped(t, key), key)
  {
  }

  /** Exactly the tables without duplicates are left as they are; so a second run changes nothing. */
  lemma UnchangedWhenUnique<R, K>(t: map<int, R>, key: R -> Option<K>)
    ensures Deduped(t, key) == t <==> OnePerKey(t, key)
  {
  }

  function Below(ids: set<int>, id: int): set<int> { set b | b in ids && b < id }

  lemma BelowShrinks(ids: set<int>, id: int, b: int)
    requires b in ids && b < id
    ensures Below(ids, b) < Below(ids, id)
  {
    assert b in Below(ids, id) && b !in Below(ids, b);
  }

  /** A deleted row has an older kept row of its group. */
  lemma {:induction false} GroupKeepsOne<R, K>(t: map<int, R>, key: R -> Option<K>, id: int) returns (kept: int)
    requires id in t && key(t[id]).Some?
    ensures kept in Deduped(t, key) && key(t[kept]) == key(t[id]) && kept <= id
    decreases Below(t.Keys, id)
  {
    if Survives(t, key, id) {
      kept := id;
    } else {
      var b :| b in t && Older(t, key, id, b);
      BelowShrinks(t.Keys, id, b);
      kept := GroupKeepsOne(t, key, b);
    }
  }

  /** DELETE ... WHERE id NOT IN (SELECT MIN(id) ... GROUP BY key), the groups read in any order. */
  method DeleteDuplicates<R, K(==)>(t: map<int, R>, key: R -> Option<K>, scan: seq<int>) returns (kept: map<int, R>)
    requires Covers(scan, t)
    ensures kept == Deduped(t, key)
  {
    var minima: map<K, int> := map[];
    for i := 0 to |scan|
      invariant forall k | k in minima :: minima[k] in t && key(t[minima[k]]) == Some(k)
      invariant forall j | 0 <= j < i && key(t[scan[j]]).Some? ::
                  key(t[scan[j]]).value in minima && minima[key(t[scan[j]]).value] <= scan[j]
    {
      var k := key(t[scan[i]]);
      if k.Some? && (k.value !in minima || scan[i] < minima[k.value]) { minima := minima[k.value := scan[i]]; }
    }
    forall id | id in t && key(t[id]).Some?
      ensures key(t[id]).value in minima && (minima[key(t[id]).value] == id <==> Survives(t, key, id))
    {
      assert id in scan;
      var least := minima[key(t[id]).value];
      if least != id { assert Older(t, key, id, least); }
      forall b | b in t && Older(t, key, id, b) ensures least < id { assert b in scan; }
    }
    kept := map id | id in t && (key(t[id]).None? || (key(t[id]).value in minima && minima[key(t[id]).value] == id)) :: t[id];
  }

  // The four keys: GROUP BY treats NULL senders as equal

  function PacketKey(r: NodeRenumber.Message): Option<(Option<int>, int)> {
    if r.packetId.Some? then Some((r.sender, r.packetId.value)) else None
  }

  function ReactionKey(r: NodeRenumber.Message): Option<(Option<int>, int, int)> {
    if r.emoji.Some? && r.replyId.Some? then Some((r.sender, r.replyId.value, r.emoji.value)) else None
  }

  function SentKey(r: Row): Option<Key> { if r.sender.Some? then Some(KeyOf(r)) else None }

  function AnonymousKey(r: Row): Option<Key> { if r.sender.None? then Some(KeyOf(r)) else None }

  /** Distinct keys are what the unique indexes ask for. */
  lemma KeysMeetIndexes(messages: Messages, meshcore: Table)
    ensures OnePerKey(messages, PacketKey) ==> NodeRenumber.PacketDedup(messages)
    ensures OnePerKey(messages, ReactionKey) ==> NodeRenumber.ReactionDedup(messages)
    ensures OnePerKey(meshcore, SentKey) <==> SentDedup(meshcore)
    ensures OnePerKey(meshcore, AnonymousKey) <==> AnonymousDedup(meshcore)
  {
  }

  // Which rows go, in plain columns; null senders count as one sender

  lemma PacketDuplicatesGo(t: Messages, id: int)
    requires id in t
    ensures id !in Deduped(t, PacketKey) <==>
            exists b :: b in t && b < id && t[b].sender == t[id].sender && NodeRenumber.SamePacket(t[b], t[id])
    ensures id in Deduped(t, PacketKey) ==> Deduped(t, PacketKey)[id] == t[id]
  {
  }

  /** Another emoji, another message or another sender keeps a reaction. */
  lemma ReactionDuplicatesGo(t: Messages, id: int)
    requires id in t
    ensures id !in Deduped(t, ReactionKey) <==>
            exists b :: b in t && b < id && t[b].sender == t[id].sender && NodeRenumber.SameReaction(t[b], t[id])
    ensures id in Deduped(t, ReactionKey) ==> Deduped(t, ReactionKey)[id] == t[id]
  {
  }

  /** No recipient is stored, or the number that stands for none. */
  predicate ToNobody(r: Row) { r.toNode.None? || r.toNode == Some(-1) }

  predicate SameColumns(a: Row, b: Row) {
    && a.sender == b.sender && a.timestamp == b.timestamp && a.channel == b.channel && a.payload == b.payload
    && (a.toNode == b.toNode || (ToNobody(a) && ToNobody(b)))
  }

  /** Each of the two MeshCore deletes keeps to its own side: rows with a sender, rows without one. */
  lemma MeshcoreDuplicatesGo(t: Table, id: int)
    requires id in t
    ensures id !in Deduped(t, SentKey) <==> t[id].sender.Some? && exists b :: b in t && b < id && SameColumns(t[b], t[id])
    ensures id !in Deduped(t, AnonymousKey) <==> t[id].sender.None? && exists b :: b in t && b < id && SameColumns(t[b], t[id])
    ensures id !in DedupedMeshcore(t) <==> exists b :: b in t && b < id && SameColumns(t[b], t[id])
    ensures id in DedupedMeshcore(t) ==> DedupedMeshcore(t)[id] == t[id]
  {
    forall b | b in t && b < id ensures KeyOf(t[b]) == KeyOf(t[id]) <==> SameColumns(t[b], t[id]) { }
    if b :| b in t && b < id && SameColumns(t[b], t[id]) {
      assert t[id].sender.Some? ==> Older(t, SentKey, id, b);
      assert t[id].sender.None? ==> Older(t, AnonymousKey, id, b);
      assert t[id].sender.None? ==> Older(Deduped(t, SentKey), AnonymousKey, id, b);
    }
  }

  function DedupedMessages(t: Messages): Messages { Deduped(Deduped(t, PacketKey), ReactionKey) }

  function DedupedMeshcore(t: Table): Table { Deduped(Deduped(t, SentKey), AnonymousKey) }

  /** The startup steps leave all four unique indexes satisfiable together, and running them again changes nothing. */
  lemma AllIndexesTogether(messages: Messages, meshcore: Table)
    ensures NodeRenumber.Indexed(DedupedMessages(messages))
    ensures SentDedup(DedupedMeshcore(meshcore)) && AnonymousDedup(DedupedMeshcore(meshcore))
    ensures DedupedMessages(DedupedMessages(messages)) == DedupedMessages(messages)
    ensures DedupedMeshcore(DedupedMeshcore(meshcore)) == DedupedMeshcore(meshcore)
  {
    DedupedTwice(messages, PacketKey, ReactionKey);
    DedupedTwice(meshcore, SentKey, AnonymousKey);
    KeysMeetIndexes(DedupedMessages(messages), DedupedMeshcore(meshcore));
  }

  lemma DedupedTwice<R, K, S>(t: map<int, R>, first: R -> Option<K>, second: R -> Option<S>)
    ensures var after := Deduped(Deduped(t, first), second);
            OnePerKey(after, first) && OnePerKey(after, second) && Deduped(Deduped(after, first), second) == after
  {
  }

  // The sweep of repeated RF direct messages

  predicate RfDirect(r: Row) { r.channel == DM_CHANNEL && r.details.receivedVia == Some("rf") && r.sender.Some? }

  function Gap(a: int, b: int): int { if a < b then b - a else a - b }

  predicate SameTalk(a: Row, b: Row) {
    RfDirect(a) && RfDirect(b) && a.sender == b.sender && a.payload == b.payload && KeyOf(a).to == KeyOf(b).to
  }

  /** The same direct message heard again within the window. */
  predicate Twins(a: Row, b: Row) { SameTalk(a, b) && Gap(a.timestamp, b.timestamp) <= RF_WINDOW_MS }

  predicate HasOlderTwin(t: Table, id: int)
    requires id in t
  {
    exists b :: b in t && b < id && Twins(t[b], t[id])
  }

  function Swept(t: Table): Table { map id | id in t && !HasOlderTwin(t, id) :: t[id] }

  /** Each step of the chain goes to an older row at most the window away. */
  ghost predicate Chain(t: Table, path: seq<int>) {
    && |path| > 0 && (forall i | 0 <= i < |path| :: path[i] in t)
    && forall i | 0 <= i < |path| - 1 :: path[i + 1] < path[i] && Twins(t[path[i + 1]], t[path[i]])
  }

  /** Every row is linked by such a chain to a kept row of the same talk. */
  lemma {:induction false} ChainToKept(t: Table, id: int) returns (path: seq<int>)
    requires id in t
    ensures Chain(t, path) && path[0] == id && path[|path| - 1] in Swept(t)
    ensures id in Swept(t) ==> path == [id]
    ensures id !in Swept(t) ==> SameTalk(t[id], t[path[|path| - 1]])
    decreases Below(t.Keys, id)
  {
    if !HasOlderTwin(t, id) {
      path := [id];
    } else {
      var b :| b in t && b < id && Twins(t[b], t[id]);
      BelowShrinks(t.Keys, id, b);
      var rest := ChainToKept(t, b);
      path := [id] + rest;
      assert forall i | 0 < i < |path| :: path[i] == rest[i - 1];
    }
  }

  /** No two kept rows are twins, and a second sweep deletes nothing. */
  lemma SweepSettles(t: Table)
    ensures forall a, b | a in Swept(t) && b in Swept(t) && a != b :: !Twins(t[a], t[b])
    ensures Swept(Swept(t)) == Swept(t)
  {
  }

  /** A row goes exactly when an older RF direct message said the same to the same at most two minutes apart. */
  lemma RepeatedDirectGoes(t: Table, id: int)
    requires id in t
    ensures id !in Swept(t) <==>
            exists b :: b in t && b < id && t[b].sender == t[id].sender && t[id].sender.Some? && t[b].payload == t[id].payload
                        && t[b].channel == t[id].channel == -1 && (t[b].toNode == t[id].toNode || (ToNobody(t[b]) && ToNobody(t[id])))
                        && t[b].details.receivedVia == t[id].details.receivedVia == Some("rf")
                        && -120_000 <= t[b].timestamp - t[id].timestamp <= 120_000
    ensures id in Swept(t) ==> Swept(t)[id] == t[id]
  {
  }

  /** The join condition. */
  predicate Dooms(t: Table, m1: int, m2: int) { m1 in t && m2 in t && m1 < m2 && Twins(t[m1], t[m2]) }

  // The startup object

  class SchemaSync {
    var messages: Messages
    var meshcore: Table
    // Which unique indexes exist, the MeshCore pair in its recipient-scoped form.
    var packetIndex: bool
    var reactionIndex: bool
    var scopedIndexes: bool

    /** An index that exists is satisfied. */
    ghost predicate Valid()
      reads this
    {
      && (packetIndex ==> NodeRenumber.PacketDedup(messages))
      && (reactionIndex ==> NodeRenumber.ReactionDedup(messages))
      && (scopedIndexes ==> SentDedup(meshcore) && AnonymousDedup(meshcore))
    }

    method EnsureMessagesPacketDedup(scan: seq<int>)
      requires Valid() && Covers(scan, messages)
      modifies this`messages, this`packetIndex
      ensures Valid() && packetIndex
      ensures messages == if old(packetIndex) then old(messages) else Deduped(old(messages), PacketKey)
    {
      if packetIndex { return; }
      DedupedOnce(messages, PacketKey);
      messages := DeleteDuplicates(messages, PacketKey, scan);
      KeysMeetIndexes(messages, meshcore);
      packetIndex := true;
    }

    method EnsureMessagesReactionDedup(scan: seq<int>)
      requires Valid() && Covers(scan, messages)
      modifies this`messages, this`reactionIndex
      ensures Valid() && reactionIndex
      ensures messages == if old(reactionIndex) then old(messages) else Deduped(old(messages), ReactionKey)
    {
      if reactionIndex { return; }
      DedupedOnce(messages, ReactionKey);
      messages := DeleteDuplicates(messages, ReactionKey, scan);
      KeysMeetIndexes(messages, meshcore);
      reactionIndex := true;
    }

    method EnsureMeshcoreMessagesDedupIndex(scan: seq<int>, scanAgain: seq<int>)
      requires Valid() && Covers(scan, meshcore) && Covers(scanAgain, Deduped(meshcore, SentKey))
      modifies this`meshcore, this`scopedIndexes
      ensures Valid() && scopedIndexes
      ensures meshcore == if old(scopedIndexes) then old(meshcore) else DedupedMeshcore(old(meshcore))
    {
      if scopedIndexes { return; }
      AllIndexesTogether(messages, meshcore);
      meshcore := DeleteDuplicates(meshcore, SentKey, scan);
      meshcore := DeleteDuplicates(meshcore, AnonymousKey, scanAgain);
      scopedIndexes := true;
    }

    /** The join visits every pair of rows. */
    method DedupeMeshcoreRfDirectMessagesOnce(scan: seq<int>)
      requires Valid() && Covers(scan, meshcore)
      modifies this`meshcore
      ensures Valid() && meshcore == Swept(old(meshcore))
    {
      hide Twins;
      var doomed: set<int> := {};
      for i := 0 to |scan|
        invariant forall id | id in doomed :: id in meshcore && HasOlderTwin(meshcore, id)
        invariant forall j, id | 0 <= j < i && Dooms(meshcore, scan[j], id) :: id in doomed
      {
        var m1 := scan[i];
        doomed := doomed + set m2 | m2 in meshcore && Dooms(meshcore, m1, m2);
      }
      forall id | id in meshcore ensures id in doomed <==> HasOlderTwin(meshcore, id) {
        if HasOlderTwin(meshcore, id) {
          var b :| b in meshcore && b < id && Twins(meshcore[b], meshcore[id]);
          assert b in scan && Dooms(meshcore, b, id);
        }
      }
      meshcore := meshcore - doomed;
    }
  }

}
