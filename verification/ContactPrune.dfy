/** The automatic MeshCore contact prunes with their room-post cascade and orphan sweep (`database.ts`). */
module ContactPrune {
  import opened Wrappers
  import opened MessageStore

  const ROOM_TYPE := 3
  const MIN_PLAUSIBLE_ADVERT := 1_000_000_000

  datatype Contact = Contact(contactType: Option<int>, lastAdvert: Option<int>, favorited: Option<int>, rest: string)

  type Contacts = map<int, Contact>

  predicate IsRoom(contacts: Contacts, id: int) { id in contacts && contacts[id].contactType == Some(ROOM_TYPE) }

  predicate Favourite(c: Contact) { c.favorited.Some? && c.favorited.value != 0 }

  predicate HoldsPosts(messages: Table, id: int) { exists m :: m in messages && messages[m].room == Some(id) }

  /** Room traffic that older builds stored as direct messages. */
  predicate HoldsMisfiled(messages: Table, id: int) {
    exists m :: m in messages && messages[m].room.None? && (messages[m].sender == Some(id) || messages[m].toNode == Some(id))
  }

  predicate Deletable(contacts: Contacts, messages: Table, id: int) {
    && id in contacts && !Favourite(contacts[id]) && !HoldsPosts(messages, id)
    && (!IsRoom(contacts, id) || !HoldsMisfiled(messages, id))
  }

  function AllDeletable(contacts: Contacts, messages: Table): set<int> {
    set id | id in contacts && Deletable(contacts, messages, id)
  }

  /** A room post whose room is no Room contact. */
  predicate Orphan(contacts: Contacts, r: Row) { r.room.Some? && !IsRoom(contacts, r.room.value) }

  function WithoutOrphans(contacts: Contacts, messages: Table): Table {
    map m | m in messages && !Orphan(contacts, messages[m]) :: messages[m]
  }

  predicate NeverAdvertised(c: Contact) { c.lastAdvert.None? }

  predicate AdvertisedBefore(c: Contact, cutoff: int) {
    c.lastAdvert.Some? && MIN_PLAUSIBLE_ADVERT <= c.lastAdvert.value < cutoff
  }

  /** What the never-advertised prune removes. */
  function Stale(contacts: Contacts, messages: Table): set<int> {
    set id | id in AllDeletable(contacts, messages) && NeverAdvertised(contacts[id])
  }

  /** What the age prune removes. */
  function Aged(contacts: Contacts, messages: Table, cutoff: int): set<int> {
    set id | id in AllDeletable(contacts, messages) && AdvertisedBefore(contacts[id], cutoff)
  }

  // Order of the count prune: plausible clocks first, oldest advert first

  predicate Implausible(c: Contact) { c.lastAdvert.None? || c.lastAdvert.value < MIN_PLAUSIBLE_ADVERT }

  function Advert(c: Contact): int { if c.lastAdvert.Some? then c.lastAdvert.value else 0 }

  predicate GoesBefore(a: Contact, b: Contact) {
    if Implausible(a) != Implausible(b) then Implausible(b) else Advert(a) < Advert(b)
  }

  /** Every deletable contact once, ordered; ties in any order. */
  ghost predicate Ranking(ranked: seq<int>, contacts: Contacts, messages: Table) {
    && (forall i | 0 <= i < |ranked| :: ranked[i] in contacts && Deletable(contacts, messages, ranked[i]))
    && (forall id | id in contacts && Deletable(contacts, messages, id) :: id in ranked)
    && (forall i, j | 0 <= i < j < |ranked| :: ranked[i] != ranked[j] && !GoesBefore(contacts[ranked[j]], contacts[ranked[i]]))
  }

  function Quota(total: int, maxCount: int, deletable: int): int {
    if total <= maxCount then 0 else if total - maxCount < deletable then total - maxCount else deletable
  }

  // Who goes, in plain columns

  /** No favourite, no post of its own and, for a Room contact, no room traffic stored as a direct message. */
  ghost predicate Unprotected(c: Contact, messages: Table, id: int) {
    && (c.favorited.None? || c.favorited == Some(0))
    && (forall m | m in messages :: messages[m].room != Some(id))
    && (c.contactType == Some(3) ==>
          forall m | m in messages && messages[m].room.None? :: messages[m].sender != Some(id) && messages[m].toNode != Some(id))
  }

  /** An unprotected contact does go: without an advert in the one prune, with an old plausible one in the other. */
  lemma UnprotectedGo(contacts: Contacts, messages: Table, id: int, cutoff: int)
    requires id in contacts
    ensures var c := contacts[id];
            && (Deletable(contacts, messages, id) <==> Unprotected(c, messages, id))
            && (id in Stale(contacts, messages) <==> Unprotected(c, messages, id) && c.lastAdvert == None)
            && (id in Aged(contacts, messages, cutoff) <==>
                  Unprotected(c, messages, id) && c.lastAdvert.Some? && 1_000_000_000 <= c.lastAdvert.value < cutoff)
  {
  }

  /** A post stays exactly when its room is stored as a Room contact; other messages stay. */
  lemma RoomlessGo(contacts: Contacts, messages: Table, m: int)
    requires m in messages
    ensures m in WithoutOrphans(contacts, messages) <==>
            messages[m].room.None? ||
            (messages[m].room.value in contacts && contacts[messages[m].room.value].contactType == Some(3))
    ensures m in WithoutOrphans(contacts, messages) ==> WithoutOrphans(contacts, messages)[m] == messages[m]
  {
  }

  // Safety of a prune

  /** Removing deletable contacts orphans no post that was not an orphan before. */
  lemma PruneOrphansNothing(contacts: Contacts, messages: Table, doomed: set<int>)
    requires forall id | id in doomed :: Deletable(contacts, messages, id)
    ensures WithoutOrphans(contacts - doomed, messages) == WithoutOrphans(contacts, messages)
  {
    forall m | m in messages ensures Orphan(contacts - doomed, messages[m]) <==> Orphan(contacts, messages[m]) {
      if messages[m].room.Some? && messages[m].room.value in doomed {
        assert HoldsPosts(messages, messages[m].room.value);
      }
    }
  }

  /** Favourites, rooms with posts and rooms with misfiled posts stay, with every message of theirs. */
  lemma PruneSpares(contacts: Contacts, messages: Table, doomed: set<int>, id: int)
    requires forall d | d in doomed :: Deletable(contacts, messages, d)
    requires id in contacts
    requires Favourite(contacts[id]) || HoldsPosts(messages, id) || (IsRoom(contacts, id) && HoldsMisfiled(messages, id))
    ensures id in contacts - doomed
    ensures forall m | m in messages && IsRoom(contacts, id) && messages[m].room == Some(id) :: m in WithoutOrphans(contacts, messages)
    ensures forall m | m in messages && messages[m].room.None? :: m in WithoutOrphans(contacts, messages)
  {
  }

  /** The first `n` contacts of an ordered answer. */
  function First(ranked: seq<int>, n: int): set<int>
    requires 0 <= n <= |ranked|
  {
    set i | 0 <= i < n :: ranked[i]
  }

  lemma {:induction false} FirstCounts(ranked: seq<int>, n: int)
    requires 0 <= n <= |ranked| && forall i, j | 0 <= i < j < |ranked| :: ranked[i] != ranked[j]
    ensures |First(ranked, n)| == n
    decreases n
  {
    if n > 0 {
      FirstCounts(ranked, n - 1);
      assert First(ranked, n) == First(ranked, n - 1) + {ranked[n - 1]};
    }
  }

  lemma RemovedCount(contacts: Contacts, doomed: set<int>)
    requires doomed <= contacts.Keys
    ensures |contacts - doomed| == |contacts| - |doomed|
  {
  }

  lemma RankedAreDeletable(ranked: seq<int>, contacts: Contacts, messages: Table)
    requires Ranking(ranked, contacts, messages)
    ensures |AllDeletable(contacts, messages)| == |ranked|
  {
    FirstCounts(ranked, |ranked|);
    assert AllDeletable(contacts, messages) == First(ranked, |ranked|);
  }

  /** The count prune takes exactly its quota of deletable contacts. */
  lemma CountPruneIsExact(ranked: seq<int>, contacts: Contacts, messages: Table, maxCount: int)
    requires Ranking(ranked, contacts, messages)
    ensures var n := Quota(|contacts|, maxCount, |AllDeletable(contacts, messages)|);
            && 0 <= n <= |ranked|
            && (forall id | id in First(ranked, n) :: Deletable(contacts, messages, id))
            && |contacts - First(ranked, n)| == |contacts| - n
  {
    hide Deletable;
    RankedAreDeletable(ranked, contacts, messages);
    var n := Quota(|contacts|, maxCount, |AllDeletable(contacts, messages)|);
    FirstCounts(ranked, n);
    RemovedCount(contacts, First(ranked, n));
  }

  /** What stays had no turn before what goes: plausible clocks go first, and of either kind the oldest advert. */
  lemma CountPruneTakesOldest(ranked: seq<int>, contacts: Contacts, messages: Table, n: int, gone: int, kept: int)
    requires Ranking(ranked, contacts, messages) && 0 <= n <= |ranked|
    requires gone in First(ranked, n) && kept in AllDeletable(contacts, messages) && kept !in First(ranked, n)
    ensures var g, k := contacts[gone].lastAdvert, contacts[kept].lastAdvert;
            && (k.Some? && k.value >= 1_000_000_000 ==> g.Some? && 1_000_000_000 <= g.value <= k.value)
            && (g.Some? && g.value < 1_000_000_000 ==>
                  if k.Some? then k.value >= g.value && k.value < 1_000_000_000 else 0 >= g.value)
            && (g.None? ==> if k.Some? then 0 <= k.value < 1_000_000_000 else true)
  {
  }

  /** The orphans among the rows of `done`. */
  function Orphans(contacts: Contacts, messages: Table, done: set<int>): set<int> {
    set m | m in done && m in messages && Orphan(contacts, messages[m])
  }

  lemma OrphansIn(contacts: Contacts, messages: Table, done: set<int>)
    ensures done == {} ==> messages - Orphans(contacts, messages, done) == messages
    ensures messages.Keys <= done ==> messages - Orphans(contacts, messages, done) == WithoutOrphans(contacts, messages)
  {
  }

  class ContactStore {
    var contacts: Contacts
    var messages: Table

    /** Posts of the given rooms; with nothing stored for them this is a no-op. */
    method DeleteMessagesForRoomServerIds(roomIds: seq<int>) returns (deleted: nat)
      modifies this`messages
      ensures messages == map m | m in old(messages) && !(old(messages)[m].room.Some? && old(messages)[m].room.value in roomIds) ::
                            old(messages)[m]
      ensures deleted == |old(messages)| - |messages|
    {
      deleted := 0;
      ghost var before := messages;
      for i := 0 to |roomIds|
        invariant messages == map m | m in before && !(before[m].room.Some? && before[m].room.value in roomIds[..i]) :: before[m]
        invariant deleted == |before| - |messages|
      {
        var gone := set m | m in messages && messages[m].room == Some(roomIds[i]);
        RemovedRows(messages, gone);
        messages := messages - gone;
        deleted := deleted + |gone|;
        assert roomIds[..i + 1] == roomIds[..i] + [roomIds[i]];
      }
      assert roomIds[..|roomIds|] == roomIds;
    }

    /** Row by row, in any scan order. */
    method DeleteOrphanRoomMessages(scan: seq<int>)
      requires forall m | m in messages :: m in scan
      modifies this`messages
      ensures messages == WithoutOrphans(contacts, old(messages))
    {
      ghost var before, done := messages, {};
      OrphansIn(contacts, messages, {});
      for i := 0 to |scan|
        invariant done == set j | 0 <= j < i :: scan[j]
        invariant messages == before - Orphans(contacts, before, done)
      {
        OrphansIn(contacts, before, done + {scan[i]});
        if scan[i] in messages && Orphan(contacts, messages[scan[i]]) { messages := messages - {scan[i]}; }
        done := done + {scan[i]};
      }
      forall m | m in before ensures m in done { assert m in scan; }
      OrphansIn(contacts, before, done);
    }

    /** The transaction around every automatic delete; each doomed contact is deletable. */
    method DeleteWithCascade(doomed: set<int>, roomIds: seq<int>, scan: seq<int>)
      requires forall m | m in messages :: m in scan
      requires forall id | id in doomed :: Deletable(contacts, messages, id)
      requires forall id | id in roomIds :: id in doomed
      modifies this
      ensures contacts == old(contacts) - doomed
      ensures messages == WithoutOrphans(old(contacts), old(messages))
      ensures forall m | m in messages :: !Orphan(contacts, messages[m])
    {
      ghost var before := messages;
      var none := DeleteMessagesForRoomServerIds(roomIds);
      NoPostsDeleted(contacts, before, doomed, roomIds);
      assert messages == before;
      PruneOrphansNothing(contacts, messages, doomed);
      contacts := contacts - doomed;
      DeleteOrphanRoomMessages(scan);
    }

    method DeleteNeverAdvertised(order: seq<int>, scan: seq<int>) returns (deleted: nat)
      requires (forall id | id in contacts :: id in order) && forall m | m in messages :: m in scan
      modifies this
      ensures contacts == old(contacts) - Stale(old(contacts), old(messages)) && deleted == |Stale(old(contacts), old(messages))|
      ensures messages == WithoutOrphans(old(contacts), old(messages))
    {
      var doomed := Stale(contacts, messages);
      var roomIds := SelectRooms(doomed, order);
      DeleteWithCascade(doomed, roomIds, scan);
      deleted := |doomed|;
    }

    method DeleteByAge(cutoff: Option<int>, order: seq<int>, scan: seq<int>) returns (deleted: nat)
      requires (forall id | id in contacts :: id in order) && forall m | m in messages :: m in scan
      modifies this
      ensures cutoff.None? ==> contacts == old(contacts) && messages == old(messages) && deleted == 0
      ensures cutoff.Some? ==>
                var doomed := Aged(old(contacts), old(messages), cutoff.value);
                contacts == old(contacts) - doomed && deleted == |doomed| && messages == WithoutOrphans(old(contacts), old(messages))
    {
      deleted := 0;
      if cutoff.Some? {
        var doomed := Aged(contacts, messages, cutoff.value);
        var roomIds := SelectRooms(doomed, order);
        DeleteWithCascade(doomed, roomIds, scan);
        deleted := |doomed|;
      }
    }

    method SelectRooms(doomed: set<int>, order: seq<int>) returns (roomIds: seq<int>)
      ensures forall id :: id in roomIds <==> id in order && id in doomed && IsRoom(contacts, id)
    {
      roomIds := [];
      for i := 0 to |order|
        invariant forall id :: id in roomIds <==> id in order[..i] && id in doomed && IsRoom(contacts, id)
      {
        assert order[..i + 1] == order[..i] + [order[i]];
        if order[i] in doomed && IsRoom(contacts, order[i]) { roomIds := roomIds + [order[i]]; }
      }
      assert order[..|order|] == order;
    }

    /** `ranked` is the answer to the ordered query. */
    method PruneByCount(maxCount: int, ranked: seq<int>, scan: seq<int>) returns (deleted: nat)
      requires Ranking(ranked, contacts, messages) && forall m | m in messages :: m in scan
      modifies this
      ensures deleted == Quota(|old(contacts)|, maxCount, |AllDeletable(old(contacts), old(messages))|) <= |ranked|
      ensures contacts == old(contacts) - First(ranked, deleted) && |contacts| == |old(contacts)| - deleted
      ensures messages == if deleted == 0 then old(messages) else WithoutOrphans(old(contacts), old(messages))
    {
      CountPruneIsExact(ranked, contacts, messages, maxCount);
      deleted := 0;
      if |contacts| <= maxCount { return; }
      var deletable := |AllDeletable(contacts, messages)|;
      var toDelete := if |contacts| - maxCount < deletable then |contacts| - maxCount else deletable;
      if toDelete <= 0 { return; }
      var doomed := First(ranked, toDelete);
      var roomIds := SelectRooms(doomed, ranked[..toDelete]);
      DeleteWithCascade(doomed, roomIds, scan);
      deleted := toDelete;
    }
  }

  lemma RemovedRows(messages: Table, gone: set<int>)
    requires gone <= messages.Keys
    ensures |messages - gone| == |messages| - |gone|
  {
  }

  /** Deletable rooms hold no posts, so the cascade deletes none. */
  lemma NoPostsDeleted(contacts: Contacts, messages: Table, doomed: set<int>, roomIds: seq<int>)
    requires forall id | id in doomed :: Deletable(contacts, messages, id)
    requires forall id | id in roomIds :: id in doomed
    ensures messages == map m | m in messages && !(messages[m].room.Some? && messages[m].room.value in roomIds) :: messages[m]
  {
    forall m | m in messages && messages[m].room.Some? ensures messages[m].room.value !in roomIds {
      if messages[m].room.value in roomIds { assert HoldsPosts(messages, messages[m].room.value); }
    }
  }
}
