/** Collapsing case variants of Reticulum destination hashes onto one lowercase key (`db-schema-sync.ts`). */
module HashCasing {
  import opened Wrappers
  import opened HexKeys

  const HASH_LENGTH: nat := 32

  datatype Destination = Destination(
    displayName: Option<string>, lastHeard: Option<int>, favorited: Option<int>, isContact: Option<int>,
    iconName: Option<string>, iconColor: Option<string>, rest: string)

  /** `destination_hash` is the primary key. */
  type Table = map<string, Destination>

  /** The lowercase key of a well-formed hash. */
  function Canonical(hash: string): Option<string> {
    var key := Lower(Trim(hash));
    if IsHex(key, HASH_LENGTH) then Some(key) else None
  }

  lemma CanonicalIsFixed(hash: string)
    requires Canonical(hash).Some?
    ensures Canonical(Canonical(hash).value) == Canonical(hash) && Lower(Canonical(hash).value) == Canonical(hash).value
  {
    HexIsNormal(Canonical(hash).value, HASH_LENGTH);
  }

  function Keys(t: Table): set<string> { set h | h in t && Canonical(h).Some? :: Canonical(h).value }

  predicate InGroup(t: Table, key: string, h: string) { h in t && Canonical(h) == Some(key) }

  predicate AnyUpper(t: Table) { exists h :: h in t && h != Lower(h) }

  // What the repaired row of a group must be, whatever the order of its members

  ghost predicate LatestHeard(t: Table, key: string, heard: Option<int>) {
    && (heard.Some? ==> exists h :: InGroup(t, key, h) && t[h].lastHeard == heard)
    && forall h | InGroup(t, key, h) && t[h].lastHeard.Some? :: heard.Some? && t[h].lastHeard.value <= heard.value
  }

  ghost predicate AnyFavourite(t: Table, key: string) { exists h :: InGroup(t, key, h) && t[h].favorited == Some(1) }

  ghost predicate AnyContact(t: Table, key: string) { exists h :: InGroup(t, key, h) && t[h].isContact == Some(1) }

  /** `name?.trim()` is truthy. */
  predicate Named(name: Option<string>) { name.Some? && Trim(name.value) != "" }

  lemma NamedMeans(name: Option<string>)
    ensures Named(name) <==> name.Some? && exists i :: 0 <= i < |name.value| && !IsSpace(name.value[i])
  {
    if name.Some? { TrimOfSpace(name.value); }
  }

  /** A display name and icons are taken from members whenever some member has them. */
  ghost predicate Picks(t: Table, key: string, row: Destination) {
    && (Named(row.displayName) <==> exists h :: InGroup(t, key, h) && Named(t[h].displayName))
    && (Named(row.displayName) ==> exists h :: InGroup(t, key, h) && t[h].displayName == row.displayName)
    && (row.iconName.Some? <==> exists h :: InGroup(t, key, h) && t[h].iconName.Some?)
    && (row.iconName.Some? ==> exists h :: InGroup(t, key, h) && t[h].iconName == row.iconName)
    && (row.iconColor.Some? <==> exists h :: InGroup(t, key, h) && t[h].iconColor.Some?)
    && (row.iconColor.Some? ==> exists h :: InGroup(t, key, h) && t[h].iconColor == row.iconColor)
  }

  /** A group that is already one canonical row. */
  ghost predicate Tidy(t: Table, key: string) { InGroup(t, key, key) && forall h | InGroup(t, key, h) :: h == key }

  ghost predicate Merged(t: Table, key: string, row: Destination) {
    && LatestHeard(t, key, row.lastHeard)
    && (row.favorited == Some(1) <==> AnyFavourite(t, key))
    && (row.isContact == Some(1) <==> AnyContact(t, key))
    && Picks(t, key, row) && (key in t ==> row.rest == t[key].rest)
    && (Tidy(t, key) ==> row == t[key])
  }

  /** The groups of `done` are collapsed, all other rows stand. */
  ghost predicate Partly(t: Table, now: Table, done: set<string>) {
    && done <= Keys(t)
    && (forall h :: h in now <==> h in done || (h in t && (Canonical(h).None? || Canonical(h).value !in done)))
    && (forall h | h in t && (Canonical(h).None? || Canonical(h).value !in done) :: now[h] == t[h])
    && forall k | k in done :: Merged(t, k, now[k])
  }

  ghost predicate Repaired(t: Table, now: Table) { Partly(t, now, Keys(t)) }

  // What a repaired table is

  /** One row per valid hash, under its lowercase key; malformed rows as they were. */
  lemma RepairedIsCanonical(t: Table, now: Table)
    requires Repaired(t, now)
    ensures forall h | h in now && Canonical(h).Some? :: Canonical(h) == Some(h)
    ensures forall h | h in t && Canonical(h).Some? :: Canonical(h).value in now
    ensures forall h | Canonical(h).None? :: (h in now <==> h in t) && (h in t ==> now[h] == t[h])
  {
    forall h | h in now && Canonical(h).Some? ensures Canonical(h) == Some(h) {
      assert h in t ==> Canonical(h).value in Keys(t);
      var g :| g in t && Canonical(g) == Some(h);
      CanonicalIsFixed(g);
    }
    forall h | h in Keys(t) ensures Canonical(h).Some? {
      var g :| g in t && Canonical(g) == Some(h);
      CanonicalIsFixed(g);
    }
  }

  lemma MergedAgree(t: Table, key: string, a: Destination, b: Destination)
    requires Merged(t, key, a) && Merged(t, key, b)
    ensures a.lastHeard == b.lastHeard
    ensures (a.favorited == Some(1) <==> b.favorited == Some(1)) && (a.isContact == Some(1) <==> b.isContact == Some(1))
  {
    hide Canonical;
  }

  /** Keys, latest contact and flags do not depend on the order in which rows were read. */
  lemma OrderDoesNotMatter(t: Table, a: Table, b: Table, h: string)
    requires Repaired(t, a) && Repaired(t, b)
    ensures h in a <==> h in b
    ensures h in a ==> a[h].lastHeard == b[h].lastHeard
                       && (a[h].favorited == Some(1) <==> b[h].favorited == Some(1))
                       && (a[h].isContact == Some(1) <==> b[h].isContact == Some(1))
  {
    hide Merged, Canonical;
    if h in a && h in Keys(t) { MergedAgree(t, h, a[h], b[h]); }
  }

  /** A second run changes nothing. */
  lemma RepairIsIdempotent(t: Table, now: Table, again: Table)
    requires Repaired(t, now) && Repaired(now, again)
    ensures again == now
  {
    RepairedIsCanonical(t, now);
    forall k | k in Keys(now) ensures k in now && Tidy(now, k) { }
    TidyIsUnchanged(now, again);
  }

  lemma TidyIsUnchanged(t: Table, now: Table)
    requires Repaired(t, now) && forall k | k in Keys(t) :: k in t && Tidy(t, k)
    requires forall h | h in t && Canonical(h).Some? :: h in Keys(t)
    ensures now == t
  {
    forall h | h in t ensures h in now && now[h] == t[h] {
      if h in Keys(t) { assert Merged(t, h, now[h]); }
    }
  }

  /** The table the startup repair leaves, fast path included. */
  ghost predicate AfterStartup(t: Table, now: Table) {
    if AnyUpper(t) then Repaired(t, now) else now == t
  }

  /** The fast path looks at case only: every valid row ends canonical exactly when some hash has an upper-case
      letter or no valid hash is padded with white space. */
  lemma FastPathIsExact(t: Table, now: Table)
    requires AfterStartup(t, now)
    ensures (forall h | h in now && Canonical(h).Some? :: Canonical(h) == Some(h)) <==>
            AnyUpper(t) || forall h | h in t && Canonical(h).Some? :: Trim(h) == h
  {
    if AnyUpper(t) {
      RepairedIsCanonical(t, now);
    } else {
      forall h | h in t && Canonical(h).Some? ensures Canonical(h) == Some(h) <==> Trim(h) == h {
        if Canonical(h) == Some(h) { HexIsNormal(h, HASH_LENGTH); }
      }
    }
  }

  /** A lone padded hash: the repair leaves it under its padded key. */
  lemma PaddedHashStays(key: string, row: Destination, now: Table)
    requires IsHex(key, HASH_LENGTH) && AfterStartup(map[" " + key := row], now)
    ensures " " + key in now && Canonical(" " + key) == Some(key)
  {
    var hash := " " + key;
    HexIsNormal(key, HASH_LENGTH);
    assert hash[1..] == key && IsHexLower(key[0]) && IsHexLower(key[HASH_LENGTH - 1]);
    assert TrimStart(hash) == TrimStart(key);
    assert forall i | 0 < i < |hash| :: LowerChar(hash[i]) == LowerChar(key[i - 1]) == Lower(key)[i - 1];
    assert Lower(hash) == hash;
  }

  // Folding one group

  function Latest(a: Option<int>, b: Option<int>): Option<int> {
    if b.Some? && (a.None? || b.value > a.value) then b else a
  }

  function Absorb(sum: Destination, row: Destination): Destination {
    sum.(displayName := if sum.displayName.None? && Named(row.displayName) then row.displayName else sum.displayName,
         lastHeard := Latest(sum.lastHeard, row.lastHeard),
         favorited := if row.favorited == Some(1) then Some(1) else sum.favorited,
         isContact := if row.isContact == Some(1) then Some(1) else sum.isContact,
         iconName := Coalesce(sum.iconName, row.iconName),
         iconColor := Coalesce(sum.iconColor, row.iconColor))
  }

  const Nothing := Destination(None, None, Some(0), Some(0), None, None, "")

  function Flag(set_: bool): Option<int> { Some(if set_ then 1 else 0) }

  /** ON CONFLICT DO UPDATE. */
  function Upserted(excluded: Destination, row: Destination): Destination {
    row.(displayName := Coalesce(excluded.displayName, row.displayName),
         lastHeard := Latest(row.lastHeard, excluded.lastHeard),
         favorited := Flag(excluded.favorited == Some(1) || row.favorited == Some(1)),
         isContact := Flag(excluded.isContact == Some(1) || row.isContact == Some(1)),
         iconName := Coalesce(excluded.iconName, row.iconName),
         iconColor := Coalesce(excluded.iconColor, row.iconColor))
  }

  /** The same choice, over the members seen so far. */
  ghost predicate PicksSeen(t: Table, seen: seq<string>, sum: Destination) {
    && (sum.displayName.Some? <==> exists h :: h in seen && h in t && Named(t[h].displayName))
    && (sum.displayName.Some? ==> Named(sum.displayName) && exists h :: h in seen && h in t && t[h].displayName == sum.displayName)
    && (sum.iconName.Some? <==> exists h :: h in seen && h in t && t[h].iconName.Some?)
    && (sum.iconName.Some? ==> exists h :: h in seen && h in t && t[h].iconName == sum.iconName)
    && (sum.iconColor.Some? <==> exists h :: h in seen && h in t && t[h].iconColor.Some?)
    && (sum.iconColor.Some? ==> exists h :: h in seen && h in t && t[h].iconColor == sum.iconColor)
  }

  /** The latest contact and the flags of the members seen so far. */
  ghost predicate TotalsSeen(t: Table, seen: seq<string>, sum: Destination) {
    && (sum.lastHeard.Some? ==> exists h :: h in seen && h in t && t[h].lastHeard == sum.lastHeard)
    && (forall h | h in seen && h in t && t[h].lastHeard.Some? ::
          sum.lastHeard.Some? && t[h].lastHeard.value <= sum.lastHeard.value)
    && sum.favorited == Flag(exists h :: h in seen && h in t && t[h].favorited == Some(1))
    && sum.isContact == Flag(exists h :: h in seen && h in t && t[h].isContact == Some(1))
  }

  lemma NothingSeen(t: Table)
    ensures PicksSeen(t, [], Nothing) && TotalsSeen(t, [], Nothing)
  {
  }

  lemma PicksGrow(t: Table, seen: seq<string>, sum: Destination, h: string)
    requires h in t && PicksSeen(t, seen, sum)
    ensures PicksSeen(t, seen + [h], Absorb(sum, t[h]))
  {
    hide Trim;
    assert forall g :: g in seen + [h] <==> g in seen || g == h;
  }

  lemma TotalsGrow(t: Table, seen: seq<string>, sum: Destination, h: string)
    requires h in t && TotalsSeen(t, seen, sum)
    ensures TotalsSeen(t, seen + [h], Absorb(sum, t[h]))
  {
    hide Trim;
    assert forall g :: g in seen + [h] <==> g in seen || g == h;
  }

  lemma TotalsAll(t: Table, key: string, group: seq<string>, sum: Destination)
    requires Lists(t, key, group) && TotalsSeen(t, group, sum)
    ensures LatestHeard(t, key, sum.lastHeard)
    ensures sum.favorited == Flag(AnyFavourite(t, key)) && sum.isContact == Flag(AnyContact(t, key))
  {
    hide Canonical;
    assert forall h :: h in group && h in t <==> InGroup(t, key, h);
  }

  lemma PicksAll(t: Table, key: string, group: seq<string>, sum: Destination)
    requires Lists(t, key, group) && PicksSeen(t, group, sum)
    ensures Picks(t, key, sum) && (sum.displayName.Some? ==> Named(sum.displayName))
  {
    hide Canonical, Trim;
    assert forall h :: h in group <==> InGroup(t, key, h);
    assert forall h :: h in group && h in t <==> InGroup(t, key, h);
  }

  /** The members of a group, each once. */
  ghost predicate Lists(t: Table, key: string, group: seq<string>) {
    && (forall h :: h in group <==> InGroup(t, key, h))
    && forall i, j | 0 <= i < j < |group| :: group[i] != group[j]
  }

  lemma AllGrouped(t: Table, order: seq<string>, groups: map<string, seq<string>>)
    requires forall h :: h in order <==> h in t
    requires forall k | k in groups :: groups[k] != []
    requires forall k, h | k in groups :: h in groups[k] <==> h in order && Canonical(h) == Some(k)
    requires forall h | h in order && Canonical(h).Some? :: Canonical(h).value in groups
    ensures groups.Keys == Keys(t)
  {
    forall k | k in Keys(t) ensures k in groups {
      var h :| h in t && Canonical(h) == Some(k);
      assert h in order;
    }
    hide Canonical;
    forall k | k in groups ensures k in Keys(t) {
      var h := groups[k][0];
      assert h in groups[k];
      assert h in t && Canonical(h) == Some(k);
    }
  }

  lemma GroupListed(t: Table, order: seq<string>, key: string, group: seq<string>)
    requires forall h :: h in order <==> h in t
    requires forall h :: h in group <==> h in order && Canonical(h) == Some(key)
    requires forall j, l | 0 <= j < l < |group| :: group[j] != group[l]
    ensures Lists(t, key, group)
  {
  }

  lemma NotTidy(t: Table, key: string, group: seq<string>)
    requires Lists(t, key, group) && group != [] && !(|group| == 1 && group[0] == key)
    ensures !Tidy(t, key)
  {
    assert group[0] in group;
    if |group| > 1 { assert group[1] in group; }
  }

  lemma TidyStands(t: Table, key: string, group: seq<string>)
    requires Lists(t, key, group) && group == [key]
    ensures key in t && Merged(t, key, t[key])
    ensures forall h | h in t && Canonical(h) == Some(key) :: h == key
  {
    hide Canonical;
    assert key in group && InGroup(t, key, key);
    forall h | h in t && Canonical(h) == Some(key) ensures h == key { assert InGroup(t, key, h) && h in group; }
  }

  /** The sum is the new row, or is merged into the canonical row, which is one of the group. */
  lemma SumMerges(t: Table, key: string, sum: Destination)
    requires LatestHeard(t, key, sum.lastHeard) && !Tidy(t, key) && Canonical(key) == Some(key)
    requires sum.favorited == Flag(AnyFavourite(t, key)) && sum.isContact == Flag(AnyContact(t, key))
    requires Picks(t, key, sum) && (sum.displayName.Some? ==> Named(sum.displayName))
    ensures (key !in t ==> Merged(t, key, sum)) && (key in t ==> Merged(t, key, Upserted(sum, t[key])))
  {
  }

  class DestinationTable {
    var rows: Table

    constructor ()
      ensures rows == map[]
    {
      rows := map[];
    }

    method GroupRows(order: seq<string>) returns (groups: map<string, seq<string>>, keys: seq<string>)
      requires (forall h :: h in order <==> h in rows) && forall i, j | 0 <= i < j < |order| :: order[i] != order[j]
      ensures forall k :: k in keys <==> k in Keys(rows)
      ensures forall i, j | 0 <= i < j < |keys| :: keys[i] != keys[j]
      ensures forall k | k in keys :: k in groups && Lists(rows, k, groups[k])
    {
      hide Canonical;
      groups, keys := map[], [];
      for i := 0 to |order|
        invariant forall k :: k in keys <==> k in groups
        invariant forall j, l | 0 <= j < l < |keys| :: keys[j] != keys[l]
        invariant forall k | k in groups :: groups[k] != []
        invariant forall k, h | k in groups :: h in groups[k] <==> h in order[..i] && Canonical(h) == Some(k)
        invariant forall j | 0 <= j < i && Canonical(order[j]).Some? :: Canonical(order[j]).value in groups
        invariant forall k, j, l | k in groups && 0 <= j < l < |groups[k]| :: groups[k][j] != groups[k][l]
      {
        var h := order[i];
        assert order[..i + 1] == order[..i] + [h];
        var key := Canonical(h);
        if key.Some? {
          if key.value in groups {
            groups := groups[key.value := groups[key.value] + [h]];
          } else {
            groups := groups[key.value := [h]];
            keys := keys + [key.value];
          }
        }
      }
      assert order[..|order|] == order;
      AllGrouped(rows, order, groups);
      forall k | k in groups ensures Lists(rows, k, groups[k]) { GroupListed(rows, order, k, groups[k]); }
    }

    /** The best values of the group. */
    method FoldGroup(key: string, group: seq<string>) returns (sum: Destination)
      requires Lists(rows, key, group)
      ensures LatestHeard(rows, key, sum.lastHeard)
      ensures sum.favorited == Flag(AnyFavourite(rows, key)) && sum.isContact == Flag(AnyContact(rows, key))
      ensures Picks(rows, key, sum) && (sum.displayName.Some? ==> Named(sum.displayName))
    {
      hide Canonical, Picks, PicksSeen, TotalsSeen, LatestHeard, AnyFavourite, AnyContact, Absorb;
      NothingSeen(rows);
      sum := Nothing;
      for i := 0 to |group|
        invariant PicksSeen(rows, group[..i], sum) && TotalsSeen(rows, group[..i], sum)
      {
        assert group[i] in group && InGroup(rows, key, group[i]);
        PicksGrow(rows, group[..i], sum, group[i]);
        TotalsGrow(rows, group[..i], sum, group[i]);
        assert group[..i + 1] == group[..i] + [group[i]];
        sum := Absorb(sum, rows[group[i]]);
      }
      assert group[..|group|] == group;
      PicksAll(rows, key, group, sum);
      TotalsAll(rows, key, group, sum);
    }

    /** Deletes the variants and writes the canonical row, unless the group is tidy. */
    method RewriteGroup(key: string, group: seq<string>)
      requires Lists(rows, key, group) && group != [] && Canonical(key) == Some(key)
      modifies this
      ensures forall h :: h in rows <==> h == key || (h in old(rows) && Canonical(h) != Some(key))
      ensures forall h | h in old(rows) && Canonical(h) != Some(key) :: rows[h] == old(rows)[h]
      ensures Merged(old(rows), key, rows[key])
    {
      hide Canonical, Upserted, Merged;
      if |group| == 1 && group[0] == key {
        TidyStands(rows, key, group);
        return;
      }
      NotTidy(rows, key, group);
      var sum := FoldGroup(key, group);
      SumMerges(rows, key, sum);
      rows := rows - (set h | h in group && h != key);
      rows := rows[key := if key in rows then Upserted(sum, rows[key]) else sum];
    }

    /** The repair after its fast path: one group after the other. */
    method CollapseGroups(order: seq<string>)
      requires (forall h :: h in order <==> h in rows) && forall i, j | 0 <= i < j < |order| :: order[i] != order[j]
      modifies this
      ensures Repaired(old(rows), rows)
    {
      hide Merged, Canonical, Partly, Lists, Keys;
      ghost var before, done := rows, {};
      Unstarted(rows);
      var groups, keys := GroupRows(order);
      for i := 0 to |keys|
        invariant done == set j | 0 <= j < i :: keys[j]
        invariant Partly(before, rows, done)
      {
        assert keys[i] in keys;
        CollapseGroup(before, done, keys[i], groups[keys[i]]);
        done := done + {keys[i]};
      }
      assert done == Keys(before);
    }

    method CollapseGroup(ghost before: Table, ghost done: set<string>, key: string, group: seq<string>)
      requires Partly(before, rows, done) && key in Keys(before) && key !in done && Lists(before, key, group)
      modifies this
      ensures Partly(before, rows, done + {key})
    {
      hide Merged, Canonical, Partly, Lists;
      GroupStands(before, rows, done, key, group);
      ghost var now := rows;
      RewriteGroup(key, group);
      OneMore(before, now, rows, done, key);
    }

    method Repair(order: seq<string>)
      requires (forall h :: h in order <==> h in rows) && forall i, j | 0 <= i < j < |order| :: order[i] != order[j]
      modifies this
      ensures AfterStartup(old(rows), rows)
    {
      if !AnyUpper(rows) { return; }
      CollapseGroups(order);
    }
  }

  /** A group not yet reached is as it was. */
  lemma GroupStands(t: Table, now: Table, done: set<string>, key: string, group: seq<string>)
    requires Partly(t, now, done) && key in Keys(t) && key !in done && Lists(t, key, group)
    ensures Lists(now, key, group) && group != [] && Canonical(key) == Some(key)
    ensures forall h :: InGroup(now, key, h) <==> InGroup(t, key, h)
  {
    var g :| g in t && Canonical(g) == Some(key);
    CanonicalIsFixed(g);
    assert InGroup(t, key, g);
    forall h ensures InGroup(now, key, h) <==> InGroup(t, key, h) {
      if h in done {
        var d :| d in t && Canonical(d) == Some(h);
        CanonicalIsFixed(d);
      }
    }
  }

  lemma KeysAreFixed(t: Table, done: set<string>)
    requires done <= Keys(t)
    ensures forall k | k in done :: Canonical(k) == Some(k)
  {
    forall k | k in done ensures Canonical(k) == Some(k) {
      var d :| d in t && Canonical(d) == Some(k);
      CanonicalIsFixed(d);
    }
  }

  lemma PicksStill(t: Table, now: Table, key: string, row: Destination)
    requires Picks(now, key, row) && forall h :: InGroup(now, key, h) <==> InGroup(t, key, h)
    requires forall h | InGroup(t, key, h) :: now[h] == t[h]
    ensures Picks(t, key, row)
  {
    hide Canonical, Trim;
    assert forall h | InGroup(now, key, h) :: now[h] == t[h];
  }

  lemma MergedStill(t: Table, now: Table, key: string, row: Destination)
    requires Merged(now, key, row) && Canonical(key) == Some(key) && forall h :: InGroup(now, key, h) <==> InGroup(t, key, h)
    requires forall h | InGroup(t, key, h) :: now[h] == t[h]
    ensures Merged(t, key, row)
  {
    PicksStill(t, now, key, row);
    hide Canonical, Picks;
    assert InGroup(now, key, key) <==> InGroup(t, key, key);
  }

  lemma OneMore(t: Table, now: Table, after: Table, done: set<string>, key: string)
    requires Partly(t, now, done) && key in Keys(t) && key !in done && Canonical(key) == Some(key)
    requires forall h :: InGroup(now, key, h) <==> InGroup(t, key, h)
    requires forall h :: h in after <==> h == key || (h in now && Canonical(h) != Some(key))
    requires forall h | h in now && Canonical(h) != Some(key) :: after[h] == now[h]
    requires Merged(now, key, after[key])
    ensures Partly(t, after, done + {key})
  {
    hide Merged, Canonical;
    KeysAreFixed(t, done);
    MergedStill(t, now, key, after[key]);
  }

  lemma Unstarted(t: Table)
    ensures Partly(t, t, {})
  {
  }
}
