/**
 Peripheral ownership registry and scan lock of `ble-coexistence-coordinator.ts`.
 Addresses are compared through an arbitrary normalisation; the empty key is not tracked.
 */
module Coexistence {
  import opened Wrappers

  datatype Profile = Meshtastic | Meshcore

  datatype Owner = Gatt(profile: Profile) | Reticulum

  datatype ScanOwner = GattScan | ReticulumScan

  /** A link the GATT proxy reports: raw address and owner. */
  datatype LinkEntry = LinkEntry(mac: string, owner: Owner)

  type Registry = map<string, Owner>

  datatype ScanLock = ScanLock(owner: Option<ScanOwner>, depth: nat)

  datatype ScanGrant = Granted | Busy(holder: ScanOwner)

  /** The registry overlaid with the proxy's links, later links winning. */
  function Overlay(normalize: string -> string, registry: Registry, links: seq<LinkEntry>): Registry {
    if links == [] then registry
    else
      var earlier := Overlay(normalize, registry, links[..|links| - 1]);
      var link := links[|links| - 1];
      var key := normalize(link.mac);
      if key == "" then earlier else earlier[key := link.owner]
  }

  /** True when `owner` may hold `key`: nobody else holds it. */
  predicate Free(normalize: string -> string, registry: Registry, links: seq<LinkEntry>, owner: Owner, key: string) {
    var owners := Overlay(normalize, registry, links);
    key !in owners || owners[key] == owner
  }

  function AfterAcquire(lock: ScanLock, owner: ScanOwner): (ScanLock, ScanGrant) {
    if lock.owner == Some(owner) then (lock.(depth := lock.depth + 1), Granted)
    else if lock.owner.Some? then (lock, Busy(lock.owner.value))
    else (ScanLock(Some(owner), 1), Granted)
  }

  function AfterRelease(lock: ScanLock, owner: ScanOwner): ScanLock {
    if lock.owner != Some(owner) then lock
    else if lock.depth > 1 then lock.(depth := lock.depth - 1)
    else ScanLock(None, 0)
  }

  predicate AssertCanConnect(normalize: string -> string, registry: Registry, links: seq<LinkEntry>,
                             scan: ScanLock, owner: Owner, mac: string) {
    if scan.owner == Some(ReticulumScan) && owner.Gatt? then false
    else normalize(mac) == "" || Free(normalize, registry, links, owner, normalize(mac))
  }

  function AfterRegister(normalize: string -> string, registry: Registry, links: seq<LinkEntry>,
                         mac: string, owner: Owner): Registry {
    var key := normalize(mac);
    if key == "" || !Free(normalize, registry, links, owner, key) then registry
    else registry[key := owner]
  }

  function AfterUnregister(normalize: string -> string, registry: Registry, mac: string, owner: Owner): Registry {
    var key := normalize(mac);
    if key != "" && key in registry && registry[key] == owner then registry - {key} else registry
  }

  /** Every owner that holds `key`, by registration or by a proxy link. */
  ghost predicate Holds(normalize: string -> string, registry: Registry, links: seq<LinkEntry>, key: string, owner: Owner) {
    || (key in registry && registry[key] == owner)
    || exists i :: 0 <= i < |links| && normalize(links[i].mac) == key && links[i].owner == owner
  }

  /** No tracked key has two different holders. */
  ghost predicate OneOwner(normalize: string -> string, registry: Registry, links: seq<LinkEntry>) {
    && "" !in registry
    && forall key, o1, o2 | key != "" && Holds(normalize, registry, links, key, o1) && Holds(normalize, registry, links, key, o2) ::
         o1 == o2
  }

  /** The overlay names exactly the holders: it never hides a conflict behind a later link. */
  lemma {:induction false} OverlayNamesAHolder(normalize: string -> string, registry: Registry, links: seq<LinkEntry>, key: string)
    requires key != ""
    ensures key in Overlay(normalize, registry, links) <==> exists o :: Holds(normalize, registry, links, key, o)
    ensures key in Overlay(normalize, registry, links) ==>
              Holds(normalize, registry, links, key, Overlay(normalize, registry, links)[key])
  {
    if links == [] {
      if key in registry { assert Holds(normalize, registry, links, key, registry[key]); }
    } else {
      var n := |links| - 1;
      OverlayNamesAHolder(normalize, registry, links[..n], key);
      forall o | Holds(normalize, registry, links, key, o) && normalize(links[n].mac) != key
        ensures Holds(normalize, registry, links[..n], key, o)
      {
        if !(key in registry && registry[key] == o) {
          var i :| 0 <= i < |links| && normalize(links[i].mac) == key && links[i].owner == o;
          assert links[..n][i] == links[i];
        }
      }
      forall o | Holds(normalize, registry, links[..n], key, o)
        ensures Holds(normalize, registry, links, key, o)
      {
        if !(key in registry && registry[key] == o) {
          var i :| 0 <= i < n && normalize(links[..n][i].mac) == key && links[..n][i].owner == o;
          assert links[i] == links[..n][i];
        }
      }
      if normalize(links[n].mac) == key {
        assert Holds(normalize, registry, links, key, links[n].owner);
      }
    }
  }

  /** The guard admits an owner exactly when every holder of the key is that owner. */
  lemma FreeMeansNoOtherHolder(normalize: string -> string, registry: Registry, links: seq<LinkEntry>, owner: Owner, key: string)
    requires key != "" && OneOwner(normalize, registry, links)
    ensures Free(normalize, registry, links, owner, key) <==>
            forall o :: Holds(normalize, registry, links, key, o) ==> o == owner
  {
    OverlayNamesAHolder(normalize, registry, links, key);
  }

  /** The guard refuses a LoRa owner while Reticulum scans, and else exactly an address with another holder. */
  lemma GuardExactly(normalize: string -> string, registry: Registry, links: seq<LinkEntry>, scan: ScanLock, owner: Owner, mac: string)
    requires OneOwner(normalize, registry, links)
    ensures AssertCanConnect(normalize, registry, links, scan, owner, mac) <==>
            && !(owner.Gatt? && scan.owner == Some(ReticulumScan))
            && (normalize(mac) == "" || forall o :: Holds(normalize, registry, links, normalize(mac), o) ==> o == owner)
  {
    if normalize(mac) != "" { FreeMeansNoOtherHolder(normalize, registry, links, owner, normalize(mac)); }
  }

  /** Registration and withdrawal keep every tracked key under one owner. */
  lemma RegistryKeepsOneOwner(normalize: string -> string, registry: Registry, links: seq<LinkEntry>, mac: string, owner: Owner)
    requires OneOwner(normalize, registry, links)
    ensures OneOwner(normalize, AfterRegister(normalize, registry, links, mac, owner), links)
    ensures OneOwner(normalize, AfterUnregister(normalize, registry, mac, owner), links)
  {
    var key := normalize(mac);
    if key != "" {
      FreeMeansNoOtherHolder(normalize, registry, links, owner, key);
      var added := AfterRegister(normalize, registry, links, mac, owner);
      forall k, o | k != "" && Holds(normalize, added, links, k, o)
        ensures Holds(normalize, registry, links, k, o) || (k == key && o == owner)
      {
      }
      var dropped := AfterUnregister(normalize, registry, mac, owner);
      forall k, o | k != "" && Holds(normalize, dropped, links, k, o)
        ensures Holds(normalize, registry, links, k, o)
      {
      }
    }
  }

  /** Whom a registration makes the owner, and whom a withdrawal leaves; all other keys stand. */
  lemma RegistryChangesExactly(normalize: string -> string, registry: Registry, links: seq<LinkEntry>, mac: string, owner: Owner)
    requires OneOwner(normalize, registry, links)
    ensures var key, added, dropped := normalize(mac), AfterRegister(normalize, registry, links, mac, owner),
                                       AfterUnregister(normalize, registry, mac, owner);
            && (key != "" ==> (key in added && added[key] == owner <==>
                                 forall o :: Holds(normalize, registry, links, key, o) ==> o == owner))
            && (forall k | k != key || key == "" :: (k in added <==> k in registry) && (k in registry ==> added[k] == registry[k]))
            && (forall k :: k in dropped <==> k in registry && !(k == key && key != "" && registry[k] == owner))
            && (forall k | k in dropped :: dropped[k] == registry[k])
  {
    var key := normalize(mac);
    if key != "" {
      FreeMeansNoOtherHolder(normalize, registry, links, owner, key);
      if key in registry { assert Holds(normalize, registry, links, key, registry[key]); }
    }
  }

  /** The coordinator object: registry map and scan lock updated in place. */
  class BleCoexistenceCoordinator {
    const normalize: string -> string
    var connections: Registry
    var scanOwner: Option<ScanOwner>
    var scanOwnerDepth: nat
    /** Set only inside `AcquireScan`; no caller can observe it true. */
    var scanAcquireInFlight: bool

    ghost predicate Settled() reads this { !scanAcquireInFlight }

    function Scan(): ScanLock reads this { ScanLock(scanOwner, scanOwnerDepth) }

    constructor (normalize: string -> string)
      ensures this.normalize == normalize && connections == map[] && Scan() == ScanLock(None, 0) && Settled()
    {
      this.normalize := normalize;
      connections, scanOwner, scanOwnerDepth, scanAcquireInFlight := map[], None, 0, false;
    }

    method GetState(links: seq<LinkEntry>) returns (owners: Registry)
      ensures owners == Overlay(normalize, connections, links)
    {
      owners := connections;
      for i := 0 to |links|
        invariant owners == Overlay(normalize, connections, links[..i])
      {
        var key := normalize(links[i].mac);
        assert links[..i + 1][..i] == links[..i];
        if key != "" { owners := owners[key := links[i].owner]; }
      }
      assert links[..|links|] == links;
    }

    method CanConnect(links: seq<LinkEntry>, owner: Owner, mac: string) returns (ok: bool)
      ensures ok == AssertCanConnect(normalize, connections, links, Scan(), owner, mac)
    {
      if scanOwner == Some(ReticulumScan) && owner.Gatt? { return false; }
      var key := normalize(mac);
      if key == "" { return true; }
      var owners := GetState(links);
      ok := key !in owners || owners[key] == owner;
    }

    method Register(links: seq<LinkEntry>, mac: string, owner: Owner) returns (ok: bool)
      modifies this`connections
      ensures connections == AfterRegister(normalize, old(connections), links, mac, owner)
      ensures ok <==> normalize(mac) == "" || Free(normalize, old(connections), links, owner, normalize(mac))
    {
      var key := normalize(mac);
      if key == "" { return true; }
      var owners := GetState(links);
      if key in owners && owners[key] != owner { return false; }
      connections := connections[key := owner];
      ok := true;
    }

    method Unregister(mac: string, owner: Owner)
      modifies this`connections
      ensures connections == AfterUnregister(normalize, old(connections), mac, owner)
    {
      var key := normalize(mac);
      if key == "" { return; }
      if key in connections && connections[key] == owner { connections := connections - {key}; }
    }

    method AcquireScan(owner: ScanOwner) returns (grant: ScanGrant)
      requires Settled()
      modifies this`scanOwner, this`scanOwnerDepth, this`scanAcquireInFlight
      ensures Settled() && (Scan(), grant) == AfterAcquire(old(Scan()), owner)
    {
      if scanOwner == Some(owner) {
        scanOwnerDepth := scanOwnerDepth + 1;
        return Granted;
      }
      if scanOwner.Some? { return Busy(scanOwner.value); }
      scanAcquireInFlight := true;
      scanOwner := Some(owner);
      scanOwnerDepth := 1;
      scanAcquireInFlight := false;
      grant := Granted;
    }

    method ReleaseScan(owner: ScanOwner)
      modifies this`scanOwner, this`scanOwnerDepth
      ensures Scan() == AfterRelease(old(Scan()), owner)
    {
      if scanOwner != Some(owner) { return; }
      if scanOwnerDepth > 1 {
        scanOwnerDepth := scanOwnerDepth - 1;
        return;
      }
      scanOwnerDepth := 0;
      scanOwner := None;
    }
  }
}
