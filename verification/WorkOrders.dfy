/** workers/lib/server/handlers/work.orders.handlers.js: a batch MOVE work order, the sockets it vacates
    and the miners that take them over. */
module WorkOrders {
  import opened Wrappers

  type Id = string

  /** None where the field is missing. */
  datatype Info = Info(location: Option<string>, status: Option<string>, container: Option<string>,
                       pos: Option<string>, subnet: Option<string>)

  datatype Thing = Thing(kind: string, info: Info)

  type Things = map<Id, Thing>

  const MINER_ROOM: string := "miner.room"
  const MAINTENANCE: string := "maintenance"
  const IN_OPERATION: string := "in_operation"
  const VALID_DEVICE_TYPES: set<string> := {"miner", "psu", "hashboard", "controller"}

  // ---------- sockets ----------

  function Or(v: Option<string>): string {
    if v.Some? then v.value else ""
  }

  predicate IsMiner(t: Thing) {
    t.kind == "miner" || "miner-" <= t.kind
  }

  /** Container and position, as the socket check reads them. */
  function PlaceOf(t: Thing): (string, string) {
    (Or(t.info.container), Or(t.info.pos))
  }

  predicate IsSocket(place: (string, string)) {
    place.0 != "" && place.0 != MAINTENANCE && place.1 != ""
  }

  predicate OccupiesSocket(t: Thing) {
    IsSocket(PlaceOf(t))
  }

  const PARKED: (string, string) := (MAINTENANCE, "")

  // ---------- the request ----------

  datatype Device = Device(deviceType: string, identifier: string, replacement: string, pos: string, container: string,
                           subnet: string)

  datatype Replacement = Replacement(thing: Id, container: string, pos: string, subnet: string)

  datatype Entry = Entry(device: Device, part: Id, replacement: Option<Replacement>)

  /** One record of partsMoves; `places` is only there for miners. */
  datatype Move = Move(partId: Id, role: string, fromLocation: Option<string>, toLocation: Option<string>,
                       fromStatus: Option<string>, toStatus: Option<string>, places: Option<Places>)
  datatype Places = Places(fromContainer: Option<string>, fromPos: Option<string>, toContainer: Option<string>,
                           toPos: Option<string>)

  /** An updateThing on one thing: only the fields given are written. */
  datatype Update = Update(id: Id, location: string, status: Option<string>, place: Option<(string, string)>,
                           subnet: Option<string>)

  function Updated(t: Thing, u: Update): Thing {
    t.(info := Info(Some(u.location),
                    if u.status.Some? then u.status else t.info.status,
                    if u.place.Some? then Some(u.place.value.0) else t.info.container,
                    if u.place.Some? then Some(u.place.value.1) else t.info.pos,
                    if u.subnet.Some? then u.subnet else t.info.subnet))
  }

  function Apply(things: Things, u: Update): Things {
    if u.id in things then things[u.id := Updated(things[u.id], u)] else things
  }

  function ApplyAll(things: Things, updates: seq<Update>): Things {
    if updates == [] then things else Apply(ApplyAll(things, updates[..|updates| - 1]), updates[|updates| - 1])
  }

  // ---------- pure parts of the code ----------

  /** Where a miner goes: parked when it leaves the room, the picked socket when it enters. */
  function MinerPlacement(device: Device, toLocation: string): Result<Option<(string, string)>, string> {
    if device.deviceType != "miner" then Ok(None)
    else if toLocation == MINER_ROOM then
      if device.pos == "" || device.container == "" then Err("ERR_WO_MINER_ROOM_PLACEMENT_REQUIRED")
      else Ok(Some((device.container, device.pos)))
    else Ok(Some(PARKED))
  }

  /** A miner that enters the room needs a socket. */
  predicate Placeable(device: Device, location: string) {
    device.deviceType == "miner" && location == "miner.room" ==> device.pos != "" && device.container != ""
  }

  /** The first of the code's checks that a replacement fails. */
  function ReplacementRefusal(things: Things, device: Device, part: Id, location: Option<string>, found: Option<Id>,
                              movingIds: set<Id>, usedIds: set<Id>): Option<string>
    requires part in things && (found.Some? ==> found.value in things)
  {
    var from := things[part].info.location;
    if device.deviceType != "miner" then Some("ERR_WO_REPLACEMENT_DEVICE_TYPE_INVALID")
    else if location.None? || location.value == "" || location.value == MINER_ROOM then
      Some("ERR_WO_REPLACEMENT_NOT_LEAVING_MINER_ROOM")
    else if from.Some? && from.value != MINER_ROOM then Some("ERR_WO_REPLACEMENT_NOT_LEAVING_MINER_ROOM")
    else if !OccupiesSocket(things[part]) then Some("ERR_WO_REPLACEMENT_POSITION_UNKNOWN")
    else if found.None? then Some("ERR_WO_REPLACEMENT_NOT_FOUND")
    else if !IsMiner(things[found.value]) then Some("ERR_WO_REPLACEMENT_DEVICE_TYPE_INVALID")
    else if found.value in movingIds then Some("ERR_WO_REPLACEMENT_IS_MOVING")
    else if found.value in usedIds then Some("ERR_WO_REPLACEMENT_DUPLICATE")
    else if things[found.value].info.location == Some(MINER_ROOM) || OccupiesSocket(things[found.value]) then
      Some("ERR_WO_REPLACEMENT_NOT_AVAILABLE")
    else None
  }

  function NonEmpty(s: Option<string>): Option<string> {
    if s == Some("") then None else s
  }

  function MoveUpdate(e: Entry, location: string, deviceStatus: Option<string>): Update {
    var placement := MinerPlacement(e.device, location);
    var entering := e.device.deviceType == "miner" && location == MINER_ROOM && e.device.subnet != "";
    Update(e.part, location, NonEmpty(deviceStatus), if placement.Ok? then placement.value else None,
           if entering then Some(e.device.subnet) else None)
  }

  function AttachedUpdate(id: Id, location: string): Update {
    Update(id, location, None, None, None)
  }

  function ReplacementUpdate(r: Replacement): Update {
    Update(r.thing, MINER_ROOM, Some(IN_OPERATION), Some((r.container, r.pos)),
           if r.subnet == "" then None else Some(r.subnet))
  }

  /** _buildPartsMove, from the part as it was resolved. */
  function MoveRecord(things: Things, e: Entry, location: Option<string>, deviceStatus: Option<string>,
                      placement: Option<(string, string)>): Move
    requires e.part in things
  {
    var info := things[e.part].info;
    Move(e.part, "move", info.location, location, info.status, deviceStatus,
         if e.device.deviceType == "miner" then
           Some(Places(info.container, info.pos,
                       if placement.Some? then Some(placement.value.0) else None,
                       if placement.Some? then Some(placement.value.1) else None))
         else None)
  }

  /** From the attached part as it was listed. */
  function AttachedRecord(things: Things, id: Id, location: string): Move {
    Move(id, "attached", if id in things then things[id].info.location else None, Some(location), None, None, None)
  }

  /** _buildReplacementMove, from the replacement as it was resolved. */
  function ReplacementRecord(things: Things, r: Replacement): Move
    requires r.thing in things
  {
    var info := things[r.thing].info;
    Move(r.thing, "replacement", info.location, Some(MINER_ROOM), info.status, Some(IN_OPERATION),
         Some(Places(info.container, info.pos, Some(r.container), Some(r.pos))))
  }

  // ---------- the batch ----------

  /** Where a batch moves its devices, the status it gives them, and the parts attached to each miner. */
  datatype Order = Order(location: string, deviceStatus: Option<string>, attached: Id -> seq<Id>)

  /** Attached parts follow a miner, by location only. */
  function AttachedUpdates(ids: seq<Id>, location: string): seq<Update> {
    seq(|ids|, i requires 0 <= i < |ids| => AttachedUpdate(ids[i], location))
  }

  function Followers(e: Entry, attached: Id -> seq<Id>): seq<Id> {
    if e.device.deviceType == "miner" then attached(e.part) else []
  }

  /** The updates one entry pushes, in order. */
  function EntryUpdates(e: Entry, wo: Order): seq<Update> {
    [MoveUpdate(e, wo.location, wo.deviceStatus)] + AttachedUpdates(Followers(e, wo.attached), wo.location) +
    (if e.replacement.Some? then [ReplacementUpdate(e.replacement.value)] else [])
  }

  function BatchUpdates(entries: seq<Entry>, wo: Order): seq<Update> {
    if entries == [] then []
    else BatchUpdates(entries[..|entries| - 1], wo) +
         EntryUpdates(entries[|entries| - 1], wo)
  }

  function AttachedRecords(things: Things, ids: seq<Id>, location: string): seq<Move> {
    seq(|ids|, i requires 0 <= i < |ids| => AttachedRecord(things, ids[i], location))
  }

  /** The records one entry adds to partsMoves, in the order of its updates. The part and the replacement
      are those resolved before the batch, the attached parts are listed when their miner has moved. */
  function EntryRecords(before: Things, now: Things, e: Entry, wo: Order): seq<Move>
    requires EntryKnown(before, e)
  {
    var move := MoveUpdate(e, wo.location, wo.deviceStatus);
    [MoveRecord(before, e, Some(wo.location), wo.deviceStatus, move.place)] +
    AttachedRecords(Apply(now, move), Followers(e, wo.attached), wo.location) +
    (if e.replacement.Some? then [ReplacementRecord(before, e.replacement.value)] else [])
  }

  predicate EntryKnown(things: Things, e: Entry) {
    e.part in things && (e.replacement.Some? ==> e.replacement.value.thing in things)
  }

  function BatchRecords(before: Things, entries: seq<Entry>, wo: Order): seq<Move>
    requires forall i :: 0 <= i < |entries| ==> EntryKnown(before, entries[i])
  {
    if entries == [] then []
    else
      var front, last := entries[..|entries| - 1], entries[|entries| - 1];
      BatchRecords(before, front, wo) + EntryRecords(before, ApplyAll(before, BatchUpdates(front, wo)), last, wo)
  }

  /** What the checks of the batch establish about its entries. */
  ghost predicate Resolved(things: Things, entries: seq<Entry>, location: Option<string>) {
    && (forall i :: 0 <= i < |entries| ==> EntryKnown(things, entries[i]))
    && (forall i :: 0 <= i < |entries| && entries[i].replacement.Some? ==>
        ReplacementFits(things, entries[i], location))
    && (forall i, j :: 0 <= i < |entries| && 0 <= j < |entries| && entries[i].replacement.Some? ==>
          entries[i].replacement.value.thing != entries[j].part)
    && (forall i, j :: 0 <= i < j < |entries| && entries[i].replacement.Some? && entries[j].replacement.Some? ==>
          entries[i].replacement.value.thing != entries[j].replacement.value.thing)
  }

  ghost predicate ReplacementFits(things: Things, e: Entry, location: Option<string>)
    requires EntryKnown(things, e) && e.replacement.Some?
  {
    var r := e.replacement.value;
    && e.device.deviceType == "miner" && location.Some? && location.value != MINER_ROOM
    && OccupiesSocket(things[e.part]) && (r.container, r.pos) == PlaceOf(things[e.part])
    && r.subnet == Or(things[e.part].info.subnet)
    && IsMiner(things[r.thing]) && !OccupiesSocket(things[r.thing])
  }

  class Inventory {
    var things: Things

    constructor (things: Things)
      ensures this.things == things
    {
      this.things := things;
    }

    method UpdateThing(u: Update)
      modifies this
      ensures things == Apply(old(things), u)
    {
      if u.id in things { things := things[u.id := Updated(things[u.id], u)]; }
    }
  }

  /** Finds every device's part before anything moves. */
  method ResolveParts(things: Things, devices: seq<Device>, find: string -> Option<Id>)
    returns (r: Result<seq<Entry>, string>)
    requires forall s :: find(s).Some? ==> find(s).value in things
    ensures r.Err? <==> exists i :: 0 <= i < |devices| && find(devices[i].identifier).None?
    ensures r.Ok? ==> |r.value| == |devices| && forall i :: 0 <= i < |devices| ==>
                        r.value[i] == Entry(devices[i], find(devices[i].identifier).value, None) &&
                        r.value[i].part in things
  {
    var entries: seq<Entry> := [];
    for i := 0 to |devices|
      invariant |entries| == i
      invariant forall k :: 0 <= k < i ==> find(devices[k].identifier).Some?
      invariant forall k :: 0 <= k < i ==>
                  entries[k] == Entry(devices[k], find(devices[k].identifier).value, None) && entries[k].part in things
    {
      var part := find(devices[i].identifier);
      if part.None? { return Err("ERR_PART_NOT_FOUND"); }
      entries := entries + [Entry(devices[i], part.value, None)];
    }
    r := Ok(entries);
  }

  function PartsOf(entries: seq<Entry>): set<Id> {
    set i | 0 <= i < |entries| :: entries[i].part
  }

  /** In some container other than maintenance, at some position. */
  ghost predicate HoldsSocket(i: Info) {
    && i.container.Some? && i.container.value != "" && i.container.value != "maintenance"
    && i.pos.Some? && i.pos.value != ""
  }

  /** What one device's replacement must be: the device a miner leaving its socket in the miner room for a
      place outside it, the replacement a known miner that is not in the room, holds no socket and stays. */
  ghost predicate Replaceable(things: Things, e: Entry, moving: set<Id>, location: Option<string>,
                              find: string -> Option<Id>)
    requires e.part in things && forall s :: find(s).Some? ==> find(s).value in things
  {
    var found, from := find(e.device.replacement), things[e.part].info.location;
    && e.device.deviceType == "miner" && HoldsSocket(things[e.part].info)
    && location.Some? && location.value != "" && location.value != MINER_ROOM
    && (from.None? || from.value == MINER_ROOM)
    && found.Some? && IsMiner(things[found.value]) && found.value !in moving
    && things[found.value].info.location != Some(MINER_ROOM) && !HoldsSocket(things[found.value].info)
  }

  predicate NamesReplacement(e: Entry) {
    e.device.replacement != ""
  }

  /** Every named replacement fits, and no two devices name the same one. */
  ghost predicate AllReplaceable(things: Things, parts: seq<Entry>, location: Option<string>,
                                 find: string -> Option<Id>)
    requires forall s :: find(s).Some? ==> find(s).value in things
    requires forall i :: 0 <= i < |parts| ==> parts[i].part in things
  {
    && (forall i :: 0 <= i < |parts| && NamesReplacement(parts[i]) ==>
        Replaceable(things, parts[i], PartsOf(parts), location, find))
    && (forall i, j :: 0 <= i < j < |parts| && NamesReplacement(parts[i]) && NamesReplacement(parts[j]) ==>
          find(parts[i].device.replacement) != find(parts[j].device.replacement))
  }

  /** `e` is the entry made from `part`, with its replacement reserved if it names one. */
  ghost predicate EntryMade(things: Things, part: Entry, e: Entry, moving: set<Id>, used: set<Id>,
                            location: Option<string>,
                            find: string -> Option<Id>)
    requires part.part in things && forall s :: find(s).Some? ==> find(s).value in things
  {
    && e.device == part.device && e.part == part.part && EntryKnown(things, e)
    && (e.replacement.Some? <==> NamesReplacement(part))
    && (e.replacement.Some? ==>
          var thing := e.replacement.value.thing;
          && ReplacementFits(things, e, location) && Replaceable(things, part, moving, location, find)
          && find(part.device.replacement) == Some(thing) && thing in used)
  }

  ghost predicate NamedBefore(parts: seq<Entry>, n: nat, find: string -> Option<Id>, x: Id) {
    exists k :: 0 <= k < n <= |parts| && NamesReplacement(parts[k]) && find(parts[k].device.replacement) == Some(x)
  }

  /** The entries made of the first n parts, and the replacements they have used up. */
  ghost predicate Reserved(things: Things, parts: seq<Entry>, n: nat, location: Option<string>,
                           find: string -> Option<Id>,
                           entries: seq<Entry>, used: set<Id>)
    requires forall s :: find(s).Some? ==> find(s).value in things
    requires forall i :: 0 <= i < |parts| ==> parts[i].part in things
  {
    && |entries| == n <= |parts|
    && (forall k :: 0 <= k < n ==> EntryMade(things, parts[k], entries[k], PartsOf(parts), used, location, find))
    && (forall k, l :: 0 <= k < l < n && entries[k].replacement.Some? && entries[l].replacement.Some? ==>
          entries[k].replacement.value.thing != entries[l].replacement.value.thing)
    && (forall x :: x in used ==> NamedBefore(parts, n, find, x))
  }

  /** One replacement for each device that names one, pairwise distinct; refused exactly when one does
      not fit or is named twice. */
  method ResolveReplacements(things: Things, parts: seq<Entry>, location: Option<string>, find: string -> Option<Id>)
    returns (r: Result<seq<Entry>, string>)
    requires forall s :: find(s).Some? ==> find(s).value in things
    requires forall i :: 0 <= i < |parts| ==> parts[i].part in things && parts[i].replacement.None?
    ensures r.Ok? <==> AllReplaceable(things, parts, location, find)
    ensures r.Ok? ==> |r.value| == |parts| && Resolved(things, r.value, location)
    ensures r.Ok? ==> forall i :: 0 <= i < |parts| ==>
              r.value[i].device == parts[i].device && r.value[i].part == parts[i].part &&
              (r.value[i].replacement.Some? <==> NamesReplacement(parts[i])) &&
              (NamesReplacement(parts[i]) ==>
                Some(r.value[i].replacement.value.thing) == find(parts[i].device.replacement))
  {
    var movingIds := PartsOf(parts);
    var usedIds: set<Id> := {};
    var entries: seq<Entry> := [];
    for i := 0 to |parts|
      invariant Reserved(things, parts, i, location, find, entries, usedIds)
    {
      var entry := parts[i];
      if entry.device.replacement != "" {
        var found := find(entry.device.replacement);
        var refusal := ReplacementRefusal(things, entry.device, entry.part, location, found, movingIds, usedIds);
        RefusalExact(things, entry, movingIds, usedIds, location, find);
        if refusal.Some? {
          RefusedMeans(things, parts, i, location, find, entries, usedIds);
          return Err(refusal.value);
        }
        var info := things[entry.part].info;
        var replacement := Replacement(found.value, Or(info.container), Or(info.pos), Or(info.subnet));
        entry := entry.(replacement := Some(replacement));
        ReserveOne(things, parts, i, location, find, entries, usedIds, entry);
        usedIds := usedIds + {found.value};
      } else {
        PassOne(things, parts, i, location, find, entries, usedIds);
      }
      entries := entries + [entry];
    }
    AllReserved(things, parts, location, find, entries, usedIds);
    r := Ok(entries);
  }

  lemma RefusalExact(things: Things, e: Entry, moving: set<Id>, used: set<Id>, location: Option<string>,
                     find: string -> Option<Id>)
    requires e.part in things && forall s :: find(s).Some? ==> find(s).value in things
    ensures ReplacementRefusal(things, e.device, e.part, location, find(e.device.replacement), moving, used).None? <==>
            Replaceable(things, e, moving, location, find) && find(e.device.replacement).value !in used
  {
  }

  lemma NamedStays(parts: seq<Entry>, n: nat, find: string -> Option<Id>, x: Id)
    requires n < |parts|
    ensures NamedBefore(parts, n, find, x) ==> NamedBefore(parts, n + 1, find, x)
    ensures NamesReplacement(parts[n]) && find(parts[n].device.replacement) == Some(x) ==>
            NamedBefore(parts, n + 1, find, x)
  {
  }

  lemma ReserveOne(things: Things, parts: seq<Entry>, n: nat, location: Option<string>, find: string -> Option<Id>,
                   entries: seq<Entry>, used: set<Id>, entry: Entry)
    requires forall s :: find(s).Some? ==> find(s).value in things
    requires forall i :: 0 <= i < |parts| ==> parts[i].part in things
    requires Reserved(things, parts, n, location, find, entries, used) && n < |parts|
    requires entry.replacement.Some? && entry.replacement.value.thing !in used
    requires EntryMade(things, parts[n], entry, PartsOf(parts), used + {entry.replacement.value.thing}, location, find)
    ensures Reserved(things, parts, n + 1, location, find, entries + [entry], used + {entry.replacement.value.thing})
  {
    var used' := used + {entry.replacement.value.thing};
    forall k | 0 <= k < n
      ensures EntryMade(things, parts[k], entries[k], PartsOf(parts), used', location, find)
    {
      assert EntryMade(things, parts[k], entries[k], PartsOf(parts), used, location, find);
    }
    forall x | x in used'
      ensures NamedBefore(parts, n + 1, find, x)
    {
      NamedStays(parts, n, find, x);
    }
  }

  lemma PassOne(things: Things, parts: seq<Entry>, n: nat, location: Option<string>, find: string -> Option<Id>,
                entries: seq<Entry>, used: set<Id>)
    requires forall s :: find(s).Some? ==> find(s).value in things
    requires forall i :: 0 <= i < |parts| ==> parts[i].part in things && parts[i].replacement.None?
    requires Reserved(things, parts, n, location, find, entries, used) && n < |parts| && !NamesReplacement(parts[n])
    ensures Reserved(things, parts, n + 1, location, find, entries + [parts[n]], used)
  {
    forall x | x in used
      ensures NamedBefore(parts, n + 1, find, x)
    {
      NamedStays(parts, n, find, x);
    }
  }

  lemma RefusedMeans(things: Things, parts: seq<Entry>, n: nat, location: Option<string>, find: string -> Option<Id>,
                     entries: seq<Entry>, used: set<Id>)
    requires forall s :: find(s).Some? ==> find(s).value in things
    requires forall i :: 0 <= i < |parts| ==> parts[i].part in things
    requires Reserved(things, parts, n, location, find, entries, used) && n < |parts| && NamesReplacement(parts[n])
    requires !Replaceable(things, parts[n], PartsOf(parts), location, find) ||
             find(parts[n].device.replacement).value in used
    ensures !AllReplaceable(things, parts, location, find)
  {
    if Replaceable(things, parts[n], PartsOf(parts), location, find) {
      var x := find(parts[n].device.replacement).value;
      assert NamedBefore(parts, n, find, x);
      var k :| 0 <= k < n && NamesReplacement(parts[k]) && find(parts[k].device.replacement) == Some(x);
    }
  }

  lemma AllReserved(things: Things, parts: seq<Entry>, location: Option<string>, find: string -> Option<Id>,
                    entries: seq<Entry>, used: set<Id>)
    requires forall s :: find(s).Some? ==> find(s).value in things
    requires forall i :: 0 <= i < |parts| ==> parts[i].part in things
    requires Reserved(things, parts, |parts|, location, find, entries, used)
    ensures AllReplaceable(things, parts, location, find) && Resolved(things, entries, location)
  {
    forall i | 0 <= i < |parts|
      ensures EntryMade(things, parts[i], entries[i], PartsOf(parts), used, location, find)
    {
    }
    forall i, j | 0 <= i < |entries| && 0 <= j < |entries| && entries[i].replacement.Some?
      ensures entries[i].replacement.value.thing != entries[j].part
    {
      assert parts[j].part in PartsOf(parts);
    }
  }

  lemma {:induction false} ApplyAllConcat(things: Things, a: seq<Update>, b: seq<Update>)
    ensures ApplyAll(things, a + b) == ApplyAll(ApplyAll(things, a), b)
  {
    if b == [] {
      assert a + b == a;
    } else {
      ApplyAllConcat(things, a, b[..|b| - 1]);
      assert (a + b)[..|a + b| - 1] == a + b[..|b| - 1];
    }
  }

  /** Moves every attached part along, in the order listed; the records say where each was when listed. */
  method MoveAttachedParts(inv: Inventory, ids: seq<Id>, location: string) returns (moves: seq<Move>)
    modifies inv
    ensures inv.things == ApplyAll(old(inv.things), AttachedUpdates(ids, location))
    ensures moves == AttachedRecords(old(inv.things), ids, location)
  {
    moves := [];
    var listed := inv.things;
    for i := 0 to |ids|
      invariant inv.things == ApplyAll(listed, AttachedUpdates(ids[..i], location))
      invariant moves == AttachedRecords(listed, ids[..i], location)
    {
      assert AttachedUpdates(ids[..i + 1], location)[..i] == AttachedUpdates(ids[..i], location);
      assert AttachedRecords(listed, ids[..i + 1], location) ==
             AttachedRecords(listed, ids[..i], location) + [AttachedRecord(listed, ids[i], location)];
      inv.UpdateThing(AttachedUpdate(ids[i], location));
      moves := moves + [AttachedRecord(listed, ids[i], location)];
    }
    assert ids[..|ids|] == ids;
  }

  /** Pushes one entry's updates and builds its records. */
  method MoveEntry(inv: Inventory, before: Things, e: Entry, wo: Order)
    returns (r: Result<seq<Move>, string>)
    requires EntryKnown(before, e)
    modifies inv
    ensures r.Err? <==> !Placeable(e.device, wo.location)
    ensures r.Err? ==> inv.things == old(inv.things)
    ensures r.Ok? ==> EntryMoved(before, e, wo, old(inv.things), inv.things, r.value)
  {
    var placement := MinerPlacement(e.device, wo.location);
    if placement.Err? { return Err(placement.error); }
    var move := MoveUpdate(e, wo.location, wo.deviceStatus);
    var moves := [MoveRecord(before, e, Some(wo.location), wo.deviceStatus, placement.value)];
    ghost var t0 := inv.things;
    inv.UpdateThing(move);
    ghost var t1 := inv.things;
    assert [move][..0] == [];
    assert t1 == ApplyAll(t0, [move]);
    var followers := Followers(e, wo.attached);
    var attachedMoves := MoveAttachedParts(inv, followers, wo.location);
    moves := moves + attachedMoves;
    ghost var updates := [move] + AttachedUpdates(followers, wo.location);
    ApplyAllConcat(t0, [move], AttachedUpdates(followers, wo.location));
    if e.replacement.Some? {
      moves := moves + [ReplacementRecord(before, e.replacement.value)];
      var u := ReplacementUpdate(e.replacement.value);
      inv.UpdateThing(u);
      assert (updates + [u])[..|updates|] == updates;
      assert EntryUpdates(e, wo) == updates + [u];
    } else {
      assert EntryUpdates(e, wo) == updates;
    }
    r := Ok(moves);
  }

  /** The inventory and the records after the first n entries. */
  ghost predicate BatchMoved(before: Things, entries: seq<Entry>, wo: Order, n: nat, things: Things, moves: seq<Move>)
    requires n <= |entries| && forall k :: 0 <= k < |entries| ==> EntryKnown(before, entries[k])
  {
    && things == ApplyAll(before, BatchUpdates(entries[..n], wo))
    && moves == BatchRecords(before, entries[..n], wo)
  }

  /** What one entry does to the inventory, and its records. */
  ghost predicate EntryMoved(before: Things, e: Entry, wo: Order, now: Things, after: Things, moves: seq<Move>)
    requires EntryKnown(before, e)
  {
    after == ApplyAll(now, EntryUpdates(e, wo)) && moves == EntryRecords(before, now, e, wo)
  }

  lemma NextEntry(before: Things, entries: seq<Entry>, wo: Order, i: nat, now: Things, partsMoves: seq<Move>,
                  after: Things, moves: seq<Move>)
    requires i < |entries| && forall k :: 0 <= k < |entries| ==> EntryKnown(before, entries[k])
    requires BatchMoved(before, entries, wo, i, now, partsMoves)
    requires EntryMoved(before, entries[i], wo, now, after, moves)
    ensures BatchMoved(before, entries, wo, i + 1, after, partsMoves + moves)
  {
    assert entries[..i + 1][..i] == entries[..i];
    ApplyAllConcat(before, BatchUpdates(entries[..i], wo), EntryUpdates(entries[i], wo));
  }

  /** The loop gets through the first `done` entries and stops there, at the end or at the first miner
      that enters the room without a socket. */
  ghost predicate StopsAt(entries: seq<Entry>, location: string, done: nat) {
    && done <= |entries|
    && (forall k :: 0 <= k < done ==> Placeable(entries[k].device, location))
    && (done < |entries| ==> !Placeable(entries[done].device, location))
  }

  /** One round of the loop: the records so far and those of entry `i`. */
  method MoveNext(inv: Inventory, before: Things, entries: seq<Entry>, wo: Order, i: nat, partsMoves: seq<Move>)
    returns (r: Result<seq<Move>, string>)
    requires i < |entries| && forall k :: 0 <= k < |entries| ==> EntryKnown(before, entries[k])
    requires BatchMoved(before, entries, wo, i, inv.things, partsMoves)
    modifies inv
    ensures r.Err? <==> !Placeable(entries[i].device, wo.location)
    ensures r.Err? ==> inv.things == old(inv.things)
    ensures r.Ok? ==> BatchMoved(before, entries, wo, i + 1, inv.things, r.value)
  {
    ghost var now := inv.things;
    var moved := MoveEntry(inv, before, entries[i], wo);
    if moved.Err? { return Err(moved.error); }
    NextEntry(before, entries, wo, i, now, partsMoves, inv.things, moved.value);
    r := Ok(partsMoves + moved.value);
  }

  method MoveEntries(inv: Inventory, before: Things, entries: seq<Entry>, wo: Order)
    returns (r: Result<seq<Move>, string>, ghost done: nat)
    requires inv.things == before && forall i :: 0 <= i < |entries| ==> EntryKnown(before, entries[i])
    modifies inv
    ensures StopsAt(entries, wo.location, done) && (r.Ok? <==> done == |entries|)
    ensures inv.things == ApplyAll(before, BatchUpdates(entries[..done], wo))
    ensures r.Ok? ==> r.value == BatchRecords(before, entries, wo)
  {
    var partsMoves: seq<Move> := [];
    for i := 0 to |entries|
      invariant forall k :: 0 <= k < i ==> Placeable(entries[k].device, wo.location)
      invariant BatchMoved(before, entries, wo, i, inv.things, partsMoves)
    {
      var moved := MoveNext(inv, before, entries, wo, i, partsMoves);
      if moved.Err? { return Err(moved.error), i; }
      partsMoves := moved.value;
    }
    assert entries[..|entries|] == entries;
    r, done := Ok(partsMoves), |entries|;
  }

  ghost predicate AllFound(devices: seq<Device>, find: string -> Option<Id>) {
    forall i :: 0 <= i < |devices| ==> find(devices[i].identifier).Some?
  }

  ghost function PartsFound(devices: seq<Device>, find: string -> Option<Id>): seq<Entry>
    requires AllFound(devices, find)
  {
    seq(|devices|, i requires 0 <= i < |devices| => Entry(devices[i], find(devices[i].identifier).value, None))
  }

  predicate AllTyped(devices: seq<Device>) {
    forall i :: 0 <= i < |devices| ==> devices[i].deviceType in VALID_DEVICE_TYPES
  }

  /** Every device is of an accepted type and known, and every replacement it names fits. */
  ghost predicate BatchFits(things: Things, devices: seq<Device>, location: string, find: string -> Option<Id>)
    requires forall s :: find(s).Some? ==> find(s).value in things
  {
    && AllTyped(devices) && AllFound(devices, find)
    && AllReplaceable(things, PartsFound(devices, find), Some(location), find)
  }

  /** Every miner that enters the room brings a socket. */
  ghost predicate AllPlaceable(devices: seq<Device>, location: string) {
    forall i :: 0 <= i < |devices| ==> Placeable(devices[i], location)
  }

  /** The entries a batch resolves its devices to. */
  ghost predicate EntriesOf(before: Things, entries: seq<Entry>, devices: seq<Device>, location: string,
                            find: string -> Option<Id>) {
    && Resolved(before, entries, Some(location)) && |entries| == |devices|
    && (forall i :: 0 <= i < |devices| ==>
          entries[i].device == devices[i] && Some(entries[i].part) == find(devices[i].identifier))
  }

  /** createWorkOrdersBatch for a MOVE with a destination. A batch that does not fit is refused before
      anything moves. One that fits applies the updates of its entries in order, up to the first miner
      that enters the room without a socket, where it fails and leaves what has moved. */
  method CreateMoveBatch(inv: Inventory, devices: seq<Device>, wo: Order, find: string -> Option<Id>)
    returns (r: Result<seq<Move>, string>, ghost entries: seq<Entry>, ghost done: nat)
    requires forall s :: find(s).Some? ==> find(s).value in inv.things
    modifies inv
    ensures r.Ok? <==> BatchFits(old(inv.things), devices, wo.location, find) && AllPlaceable(devices, wo.location)
    ensures !AllTyped(devices) ==> r == Err("ERR_INVALID_DEVICE_TYPE")
    ensures !BatchFits(old(inv.things), devices, wo.location, find) ==> inv.things == old(inv.things)
    ensures BatchFits(old(inv.things), devices, wo.location, find) ==>
              && EntriesOf(old(inv.things), entries, devices, wo.location, find)
              && StopsAt(entries, wo.location, done) && (r.Ok? <==> done == |entries|)
              && inv.things == ApplyAll(old(inv.things), BatchUpdates(entries[..done], wo))
    ensures wo.location != MINER_ROOM && r.Err? ==> inv.things == old(inv.things)
    ensures r.Ok? ==> inv.things == ApplyAll(old(inv.things), BatchUpdates(entries, wo))
    ensures r.Ok? ==> r.value == BatchRecords(old(inv.things), entries, wo)
  {
    entries, done := [], 0;
    var before := inv.things;
    for i := 0 to |devices|
      invariant AllTyped(devices[..i]) && inv.things == before
    {
      if devices[i].deviceType !in VALID_DEVICE_TYPES { return Err("ERR_INVALID_DEVICE_TYPE"), [], 0; }
      assert devices[..i + 1] == devices[..i] + [devices[i]];
    }
    assert devices[..|devices|] == devices;
    var parts := ResolveParts(before, devices, find);
    if parts.Err? { return Err(parts.error), [], 0; }
    assert parts.value == PartsFound(devices, find);
    var resolved := ResolveReplacements(before, parts.value, Some(wo.location), find);
    if resolved.Err? { return Err(resolved.error), [], 0; }
    entries := resolved.value;
    r, done := MoveEntries(inv, before, resolved.value, wo);
    StopsAtEnd(entries, devices, wo.location, done);
    assert entries[..|entries|] == entries;
  }

  /** The loop reaches the end exactly when every device can be placed. */
  lemma StopsAtEnd(entries: seq<Entry>, devices: seq<Device>, location: string, done: nat)
    requires StopsAt(entries, location, done) && |entries| == |devices|
    requires forall i :: 0 <= i < |devices| ==> entries[i].device == devices[i]
    ensures done == |entries| <==> AllPlaceable(devices, location)
    ensures location != MINER_ROOM ==> done == |entries|
  {
    if done < |entries| { assert !Placeable(devices[done], location); }
  }

  /** Some entries of a batch move and others do not exactly when its first device can be placed and a
      later one cannot; an entry that moves pushes at least one update. */
  lemma HalfMovedExactly(entries: seq<Entry>, wo: Order, done: nat)
    requires StopsAt(entries, wo.location, done)
    ensures 0 < done < |entries| <==>
            entries != [] && Placeable(entries[0].device, wo.location) &&
            exists k :: 0 < k < |entries| && !Placeable(entries[k].device, wo.location)
    ensures done > 0 <==> BatchUpdates(entries[..done], wo) != []
  {
    if done < |entries| {
      assert !Placeable(entries[done].device, wo.location);
    }
    if done > 0 {
      assert EntryUpdates(entries[..done][done - 1], wo) != [];
    }
  }

  const WAREHOUSED := Thing("miner", Info(Some("site.warehouse"), None, None, None, None))

  /** Two miners in the warehouse. */
  function TwoMiners(): Things {
    map["a" := WAREHOUSED, "b" := WAREHOUSED]
  }

  /** Both are to enter the room, only the first brings a socket. */
  function OneSocket(): seq<Device> {
    [Device("miner", "a", "", "1", "c", ""), Device("miner", "b", "", "", "", "")]
  }

  function ByName(): string -> Option<Id> {
    s => if s in TwoMiners() then Some(s) else None
  }

  function NoParts(): Id -> seq<Id> {
    id => []
  }

  /** A batch the code accepts for resolution and then fails half way: the first miner sits in its socket
      in the room, the second is still in the warehouse. */
  lemma HalfMovedBatch(entries: seq<Entry>, done: nat)
    ensures BatchFits(TwoMiners(), OneSocket(), MINER_ROOM, ByName()) && !AllPlaceable(OneSocket(), MINER_ROOM)
    ensures EntriesOf(TwoMiners(), entries, OneSocket(), MINER_ROOM, ByName()) && StopsAt(entries, MINER_ROOM, done) ==>
              ApplyAll(TwoMiners(), BatchUpdates(entries[..done], Order(MINER_ROOM, None, NoParts()))) ==
              TwoMiners()["a" := Thing("miner", Info(Some(MINER_ROOM), None, Some("c"), Some("1"), None))]
  {
    assert OneSocket()[1].deviceType == "miner" && !Placeable(OneSocket()[1], MINER_ROOM);
    if EntriesOf(TwoMiners(), entries, OneSocket(), MINER_ROOM, ByName()) && StopsAt(entries, MINER_ROOM, done) {
      assert entries[0].replacement.None? && entries[0].part == "a";
      assert Placeable(entries[0].device, MINER_ROOM) && !Placeable(entries[1].device, MINER_ROOM);
      assert done == 1 && entries[..1] == [entries[0]];
      OneUpdate(TwoMiners(), entries[0], Order(MINER_ROOM, None, NoParts()));
    }
  }

  lemma OneUpdate(before: Things, e: Entry, wo: Order)
    requires Followers(e, wo.attached) == [] && e.replacement.None? && e.part in before
    ensures ApplyAll(before, BatchUpdates([e], wo)) ==
            before[e.part := Updated(before[e.part], MoveUpdate(e, wo.location, wo.deviceStatus))]
  {
    OneEntryUpdates(e, wo);
    OnlyUpdate(before, MoveUpdate(e, wo.location, wo.deviceStatus));
  }

  lemma OneEntryUpdates(e: Entry, wo: Order)
    requires Followers(e, wo.attached) == [] && e.replacement.None?
    ensures BatchUpdates([e], wo) == [MoveUpdate(e, wo.location, wo.deviceStatus)]
  {
    assert [e][..0] == [];
    assert AttachedUpdates(Followers(e, wo.attached), wo.location) == [];
  }

  lemma OnlyUpdate(before: Things, u: Update)
    ensures ApplyAll(before, [u]) == Apply(before, u)
  {
    assert [u][..0] == [];
  }

  // ---------- one miner per socket, after every single update ----------

  ghost predicate Sits(things: Things, x: Id) {
    x in things && IsMiner(things[x]) && OccupiesSocket(things[x])
  }

  /** No two miners sit in the same socket. */
  ghost predicate Exclusive(things: Things) {
    forall a, b :: a != b && Sits(things, a) && Sits(things, b) ==> PlaceOf(things[a]) != PlaceOf(things[b])
  }

  /** `took` says whose socket a replacement has taken over: a miner that was off, for one that has left. */
  ghost predicate Took(before: Things, moved: set<Id>, took: map<Id, Id>) {
    && (forall r :: r in took ==> r !in moved && took[r] in moved && TakesOver(before, r, took[r]))
    && (forall r, q :: r in took && q in took && r != q ==> took[r] != took[q])
  }

  ghost predicate TakesOver(before: Things, r: Id, part: Id) {
    r in before && IsMiner(before[r]) && !OccupiesSocket(before[r]) && Sits(before, part)
  }

  /** Where a thing is, part way through: parked, in a socket taken over, or where it was. */
  ghost predicate At(before: Things, now: Things, moved: set<Id>, took: map<Id, Id>, x: Id)
    requires Took(before, moved, took)
  {
    x in now ==> x in before && now[x].kind == before[x].kind &&
                 PlaceOf(now[x]) ==
                 if x in took then PlaceOf(before[took[x]]) else if x in moved then PARKED else PlaceOf(before[x])
  }

  ghost predicate Placed(before: Things, now: Things, moved: set<Id>, took: map<Id, Id>) {
    Took(before, moved, took) && now.Keys == before.Keys && forall x :: At(before, now, moved, took, x)
  }

  lemma PlacedIsExclusive(before: Things, now: Things, moved: set<Id>, took: map<Id, Id>)
    requires Placed(before, now, moved, took) && Exclusive(before)
    ensures Exclusive(now)
  {
    forall a, b | a != b && Sits(now, a) && Sits(now, b)
      ensures PlaceOf(now[a]) != PlaceOf(now[b])
    {
      assert At(before, now, moved, took, a) && At(before, now, moved, took, b);
      var fromA, fromB := if a in took then took[a] else a, if b in took then took[b] else b;
      assert Sits(before, fromA) && Sits(before, fromB) && fromA != fromB;
    }
  }

  lemma MovePlaced(before: Things, now: Things, moved: set<Id>, took: map<Id, Id>, u: Update)
    requires Placed(before, now, moved, took) && u.place == Some(PARKED) && u.id !in took
    ensures Placed(before, Apply(now, u), moved + {u.id}, took)
  {
    forall x ensures Took(before, moved + {u.id}, took) && At(before, Apply(now, u), moved + {u.id}, took, x) {
      assert At(before, now, moved, took, x);
    }
  }

  lemma StayPlaced(before: Things, now: Things, moved: set<Id>, took: map<Id, Id>, u: Update)
    requires Placed(before, now, moved, took) && u.place.None?
    ensures Placed(before, Apply(now, u), moved, took)
  {
    forall x ensures At(before, Apply(now, u), moved, took, x) {
      assert At(before, now, moved, took, x);
    }
  }

  lemma TakePlaced(before: Things, now: Things, moved: set<Id>, took: map<Id, Id>, u: Update, part: Id)
    requires Placed(before, now, moved, took) && part in moved && u.id !in moved && u.id !in took
    requires TakesOver(before, u.id, part) && forall r :: r in took ==> took[r] != part
    requires u.place == Some(PlaceOf(before[part]))
    ensures Placed(before, Apply(now, u), moved, took[u.id := part])
  {
    var took' := took[u.id := part];
    assert Took(before, moved, took');
    forall x ensures At(before, Apply(now, u), moved, took', x) {
      assert At(before, now, moved, took, x);
    }
  }

  // ---------- the whole batch ----------

  /** Miners a batch takes out of the room. */
  function MovedBy(entries: seq<Entry>): set<Id> {
    set i | 0 <= i < |entries| && entries[i].device.deviceType == "miner" :: entries[i].part
  }

  function TookBy(entries: seq<Entry>): map<Id, Id> {
    if entries == [] then map[]
    else
      var t, e := TookBy(entries[..|entries| - 1]), entries[|entries| - 1];
      if e.replacement.Some? then t[e.replacement.value.thing := e.part] else t
  }

  lemma {:induction false} TookByEntries(entries: seq<Entry>, r: Id)
    requires r in TookBy(entries)
    ensures exists i :: 0 <= i < |entries| && entries[i].replacement.Some? &&
                        entries[i].replacement.value.thing == r && TookBy(entries)[r] == entries[i].part
  {
    var n := |entries| - 1;
    if !(entries[n].replacement.Some? && entries[n].replacement.value.thing == r) {
      TookByEntries(entries[..n], r);
      var i :| 0 <= i < n && entries[..n][i].replacement.Some? &&
               entries[..n][i].replacement.value.thing == r && TookBy(entries[..n])[r] == entries[..n][i].part;
      assert entries[i] == entries[..n][i];
    }
  }

  /** A batch of distinct devices leaving the miner room; devices called miners are miners. */
  ghost predicate Leaves(before: Things, entries: seq<Entry>, location: string) {
    && location != MINER_ROOM
    && Resolved(before, entries, Some(location))
    && (forall i, j :: 0 <= i < j < |entries| ==> entries[i].part != entries[j].part)
    && (forall i :: 0 <= i < |entries| && entries[i].device.deviceType == "miner" ==> IsMiner(before[entries[i].part]))
  }

  lemma LeavesFront(before: Things, entries: seq<Entry>, location: string, n: nat)
    requires Leaves(before, entries, location) && n <= |entries|
    ensures Leaves(before, entries[..n], location)
  {
    assert forall i :: 0 <= i < n ==> entries[..n][i] == entries[i];
  }

  /** How far an entry may find the batch: its own part and replacement are untouched. */
  ghost predicate Ready(before: Things, moved: set<Id>, took: map<Id, Id>, e: Entry, location: string) {
    && location != MINER_ROOM && EntryKnown(before, e) && e.part !in took
    && (e.device.deviceType == "miner" ==> IsMiner(before[e.part]))
    && (forall r :: r in took ==> took[r] != e.part)
    && (e.replacement.Some? ==>
        ReplacementFits(before, e, Some(location)) && e.replacement.value.thing !in moved + {e.part} &&
                                e.replacement.value.thing !in took)
  }

  lemma {:induction false} AttachedPlaced(before: Things, now: Things, moved: set<Id>, took: map<Id, Id>, ids: seq<Id>,
                                          location: string, m: nat)
    requires Placed(before, now, moved, took) && m <= |ids|
    ensures Placed(before, ApplyAll(now, AttachedUpdates(ids, location)[..m]), moved, took)
  {
    if m > 0 {
      AttachedPlaced(before, now, moved, took, ids, location, m - 1);
      var u := AttachedUpdates(ids, location);
      assert u[..m][..m - 1] == u[..m - 1] && u[..m][m - 1] == AttachedUpdate(ids[m - 1], location);
      StayPlaced(before, ApplyAll(now, u[..m - 1]), moved, took, u[m - 1]);
    }
  }

  lemma MovesPlaced(before: Things, now: Things, moved: set<Id>, took: map<Id, Id>, e: Entry, location: string,
                    deviceStatus: Option<string>)
    requires Placed(before, now, moved, took) && Ready(before, moved, took, e, location)
    ensures Placed(before, Apply(now, MoveUpdate(e, location, deviceStatus)),
                   if e.device.deviceType == "miner" then moved + {e.part} else moved, took)
  {
    if e.device.deviceType == "miner" {
      MovePlaced(before, now, moved, took, MoveUpdate(e, location, deviceStatus));
    } else {
      StayPlaced(before, now, moved, took, MoveUpdate(e, location, deviceStatus));
    }
  }

  /** After each of an entry's updates every thing is accounted for. */
  lemma EntryPlaced(before: Things, now: Things, moved: set<Id>, took: map<Id, Id>, e: Entry, wo: Order, m: nat)
    returns (moved': set<Id>, took': map<Id, Id>)
    requires Placed(before, now, moved, took) && Ready(before, moved, took, e, wo.location)
    requires m <= |EntryUpdates(e, wo)|
    ensures Placed(before, ApplyAll(now, EntryUpdates(e, wo)[..m]), moved', took')
    ensures m == |EntryUpdates(e, wo)| ==>
              moved' == (if e.device.deviceType == "miner" then moved + {e.part} else moved) &&
              took' == (if e.replacement.Some? then took[e.replacement.value.thing := e.part] else took)
  {
    var all, move, ids := EntryUpdates(e, wo), MoveUpdate(e, wo.location, wo.deviceStatus), Followers(e, wo.attached);
    var follow := AttachedUpdates(ids, wo.location);
    moved', took' := moved, took;
    if m == 0 {
      assert all[..0] == [];
    } else {
      moved' := if e.device.deviceType == "miner" then moved + {e.part} else moved;
      MovesPlaced(before, now, moved, took, e, wo.location, wo.deviceStatus);
      var k := if m - 1 <= |follow| then m - 1 else |follow|;
      AttachedPlaced(before, Apply(now, move), moved', took, ids, wo.location, k);
      ApplyAllConcat(now, [move], follow[..k]);
      assert [move][..0] == [];
      if m == |follow| + 2 {
        var u := ReplacementUpdate(e.replacement.value);
        assert all[..m] == ([move] + follow[..k]) + [u];
        assert all[..m][..m - 1] == [move] + follow[..k];
        TakePlaced(before, ApplyAll(now, [move] + follow[..k]), moved', took, u, e.part);
        took' := took[e.replacement.value.thing := e.part];
      } else {
        assert all[..m] == [move] + follow[..k];
      }
    }
  }

  lemma EntryIsReady(before: Things, entries: seq<Entry>, location: string, n: nat)
    requires Leaves(before, entries, location) && n < |entries|
    ensures Ready(before, MovedBy(entries[..n]), TookBy(entries[..n]), entries[n], location)
  {
    var took := TookBy(entries[..n]);
    forall r | r in took
      ensures r != entries[n].part && took[r] != entries[n].part
      ensures entries[n].replacement.Some? ==> r != entries[n].replacement.value.thing
    {
      TookByEntries(entries[..n], r);
      var i :| 0 <= i < n && entries[..n][i].replacement.Some? &&
               entries[..n][i].replacement.value.thing == r && took[r] == entries[..n][i].part;
      assert entries[i] == entries[..n][i];
    }
    assert forall i :: 0 <= i < n ==> entries[..n][i] == entries[i];
  }

  lemma {:induction false} BatchPlaced(before: Things, entries: seq<Entry>, wo: Order)
    requires Leaves(before, entries, wo.location)
    ensures Placed(before, ApplyAll(before, BatchUpdates(entries, wo)), MovedBy(entries), TookBy(entries))
  {
    if entries == [] {
      forall x ensures Took(before, {}, map[]) && At(before, before, {}, map[], x) {
      }
      assert MovedBy(entries) == {};
    } else {
      var n := |entries| - 1;
      LeavesFront(before, entries, wo.location, n);
      BatchPlaced(before, entries[..n], wo);
      EntryIsReady(before, entries, wo.location, n);
      var front, last := BatchUpdates(entries[..n], wo), EntryUpdates(entries[n], wo);
      var moved', took' := EntryPlaced(before, ApplyAll(before, front), MovedBy(entries[..n]), TookBy(entries[..n]),
                                       entries[n], wo, |last|);
      assert last[..|last|] == last;
      ApplyAllConcat(before, front, last);
      assert moved' == MovedBy(entries) by {
        assert entries == entries[..n] + [entries[n]];
        MovedBySnoc(entries[..n], entries[n]);
      }
    }
  }

  lemma MovedBySnoc(entries: seq<Entry>, e: Entry)
    ensures MovedBy(entries + [e]) ==
            if e.device.deviceType == "miner" then MovedBy(entries) + {e.part} else MovedBy(entries)
  {
    var all := entries + [e];
    forall x | x in MovedBy(entries) ensures x in MovedBy(all) {
      var i :| 0 <= i < |entries| && entries[i].device.deviceType == "miner" && entries[i].part == x;
      assert all[i].part == x && all[i].device.deviceType == "miner";
    }
    assert e.device.deviceType == "miner" ==> all[|entries|].part == e.part && e.part in MovedBy(all);
  }

  lemma TakeOfConcat<T>(a: seq<T>, b: seq<T>, n: nat)
    requires n <= |a + b|
    ensures (a + b)[..n] == if n <= |a| then a[..n] else a + b[..n - |a|]
  {
  }

  /** After every single update of the batch, no two miners share a socket. */
  lemma {:induction false} ExclusiveThroughout(before: Things, entries: seq<Entry>, wo: Order, n: nat)
    requires Leaves(before, entries, wo.location) && Exclusive(before)
    requires n <= |BatchUpdates(entries, wo)|
    ensures Exclusive(ApplyAll(before, BatchUpdates(entries, wo)[..n]))
  {
    if entries == [] {
      assert BatchUpdates(entries, wo)[..n] == [];
    } else {
      var k := |entries| - 1;
      var front, last := BatchUpdates(entries[..k], wo), EntryUpdates(entries[k], wo);
      TakeOfConcat(front, last, n);
      if n <= |front| {
        LeavesFront(before, entries, wo.location, k);
        ExclusiveThroughout(before, entries[..k], wo, n);
      } else {
        LastEntryExclusive(before, entries, wo, n - |front|);
      }
    }
  }

  lemma LastEntryExclusive(before: Things, entries: seq<Entry>, wo: Order, m: nat)
    requires Leaves(before, entries, wo.location) && Exclusive(before) && entries != []
    requires m <= |EntryUpdates(entries[|entries| - 1], wo)|
    ensures var k := |entries| - 1;
            Exclusive(ApplyAll(before, BatchUpdates(entries[..k], wo)
                                       + EntryUpdates(entries[k], wo)[..m]))
  {
    var k := |entries| - 1;
    LeavesFront(before, entries, wo.location, k);
    var front, last := BatchUpdates(entries[..k], wo), EntryUpdates(entries[k], wo);
    BatchPlaced(before, entries[..k], wo);
    EntryIsReady(before, entries, wo.location, k);
    var moved', took' := EntryPlaced(before, ApplyAll(before, front), MovedBy(entries[..k]), TookBy(entries[..k]),
                                     entries[k], wo, m);
    ApplyAllConcat(before, front, last[..m]);
    PlacedIsExclusive(before, ApplyAll(before, front + last[..m]), moved', took');
  }

  ghost function Sockets(things: Things): set<(string, string)> {
    set x | x in things && Sits(things, x) :: PlaceOf(things[x])
  }

  /** The sockets of miners that left without anyone taking over. */
  ghost function Vacated(before: Things, moved: set<Id>, took: map<Id, Id>): set<(string, string)> {
    set x | x in moved && Sits(before, x) && x !in took.Values :: PlaceOf(before[x])
  }

  lemma SocketsOfPlaced(before: Things, now: Things, moved: set<Id>, took: map<Id, Id>)
    requires Placed(before, now, moved, took) && Exclusive(before)
    ensures Sockets(now) == Sockets(before) - Vacated(before, moved, took)
  {
    forall p ensures p in Sockets(now) ==> p in Sockets(before) && p !in Vacated(before, moved, took) {
      if p in Sockets(now) {
        var x :| x in now && Sits(now, x) && PlaceOf(now[x]) == p;
        assert At(before, now, moved, took, x);
        var from := if x in took then took[x] else x;
        assert Sits(before, from) && PlaceOf(before[from]) == p;
        assert x in took ==> from in took.Values;
      }
    }
    forall p ensures p in Sockets(before) && p !in Vacated(before, moved, took) ==> p in Sockets(now) {
      if p in Sockets(before) && p !in Vacated(before, moved, took) {
        var y :| y in before && Sits(before, y) && PlaceOf(before[y]) == p;
        assert At(before, now, moved, took, y);
        if y in moved {
          assert y in took.Values;
          var r :| r in took && took[r] == y;
          assert At(before, now, moved, took, r);
          assert Sits(now, r);
        } else {
          assert Sits(now, y);
        }
      }
    }
  }

  /** In the end exactly the sockets vacated without replacement are free. */
  lemma SocketsAfterBatch(before: Things, entries: seq<Entry>, wo: Order)
    requires Leaves(before, entries, wo.location) && Exclusive(before)
    ensures Sockets(ApplyAll(before, BatchUpdates(entries, wo))) ==
            Sockets(before) - Vacated(before, MovedBy(entries), TookBy(entries))
  {
    BatchPlaced(before, entries, wo);
    SocketsOfPlaced(before, ApplyAll(before, BatchUpdates(entries, wo)), MovedBy(entries), TookBy(entries));
  }

  // ---------- what has become of every thing ----------

  function Given(s: Option<string>): bool {
    s.Some? && s.value != ""
  }

  /** What a moved device has become: at the destination, with the new status if one is given; a miner sits
      in the socket picked for it if it enters the room, and is parked without one if it leaves. */
  ghost predicate MovedAs(was: Info, now: Info, device: Device, location: string, status: Option<string>) {
    && now.location == Some(location) && now.status == (if Given(status) then status else was.status)
    && if device.deviceType != "miner" then
         now.container == was.container && now.pos == was.pos && now.subnet == was.subnet
       else if location == "miner.room" then
         now.container == Some(device.container) && now.pos == Some(device.pos) &&
         now.subnet == (if device.subnet != "" then Some(device.subnet) else was.subnet)
       else
         now.container == Some("maintenance") && now.pos == Some("") && now.subnet == was.subnet
  }

  /** What a replacement has become: in operation in the room, in the socket `left` held, on its subnet. */
  ghost predicate TookSocket(was: Info, left: Info, now: Info) {
    && now.location == Some("miner.room") && now.status == Some("in_operation")
    && now.container == left.container && now.pos == left.pos
    && now.subnet == (if Given(left.subnet) then left.subnet else was.subnet)
  }

  /** The updates write to `x`. */
  ghost predicate Writes(updates: seq<Update>, x: Id) {
    exists i :: 0 <= i < |updates| && updates[i].id == x
  }

  ghost predicate Follows(e: Entry, wo: Order, x: Id) {
    e.device.deviceType == "miner" && x in wo.attached(e.part)
  }

  /** `x` is attached to a miner of the batch. */
  ghost predicate Followed(entries: seq<Entry>, wo: Order, x: Id) {
    exists i :: 0 <= i < |entries| && Follows(entries[i], wo, x)
  }

  lemma {:induction false} Unwritten(things: Things, updates: seq<Update>, x: Id)
    requires !Writes(updates, x)
    ensures ApplyAll(things, updates).Keys == things.Keys
    ensures x in things ==> ApplyAll(things, updates)[x] == things[x]
  {
    AppliedKeys(things, updates);
    if updates != [] {
      var n := |updates| - 1;
      assert updates[n].id != x;
      assert forall i :: 0 <= i < n ==> updates[..n][i] == updates[i];
      Unwritten(things, updates[..n], x);
    }
  }

  lemma {:induction false} AppliedKeys(things: Things, updates: seq<Update>)
    ensures ApplyAll(things, updates).Keys == things.Keys
  {
    if updates != [] { AppliedKeys(things, updates[..|updates| - 1]); }
  }

  /** A thing written once is what that update makes of it. */
  lemma WrittenOnce(things: Things, a: seq<Update>, u: Update, b: seq<Update>)
    requires u.id in things && !Writes(a, u.id) && !Writes(b, u.id)
    ensures u.id in ApplyAll(things, a + [u] + b) && ApplyAll(things, a + [u] + b)[u.id] == Updated(things[u.id], u)
  {
    ApplyAllConcat(things, a + [u], b);
    ApplyAllConcat(things, a, [u]);
    OnlyUpdate(ApplyAll(things, a), u);
    Unwritten(things, a, u.id);
    Unwritten(ApplyAll(things, a + [u]), b, u.id);
  }

  lemma WritesConcat(a: seq<Update>, b: seq<Update>, x: Id)
    ensures Writes(a + b, x) <==> Writes(a, x) || Writes(b, x)
  {
    if i :| 0 <= i < |a| && a[i].id == x { assert (a + b)[i].id == x; }
    if i :| 0 <= i < |b| && b[i].id == x { assert (a + b)[|a| + i].id == x; }
  }

  lemma FollowersWrite(ids: seq<Id>, location: string, x: Id)
    ensures Writes(AttachedUpdates(ids, location), x) <==> x in ids
  {
    if i :| 0 <= i < |ids| && ids[i] == x { assert AttachedUpdates(ids, location)[i].id == x; }
  }

  /** Whom an entry writes to: its part, the parts attached to it, its replacement. */
  ghost predicate Touches(e: Entry, wo: Order, x: Id) {
    x == e.part || Follows(e, wo, x) || (e.replacement.Some? && e.replacement.value.thing == x)
  }

  lemma OneWrites(u: Update, x: Id)
    ensures Writes([u], x) <==> u.id == x
  {
    assert [u][0] == u;
  }

  lemma EntryWrites(e: Entry, wo: Order, x: Id)
    ensures Writes(EntryUpdates(e, wo), x) <==> Touches(e, wo, x)
  {
    var move, follow := MoveUpdate(e, wo.location, wo.deviceStatus),
                        AttachedUpdates(Followers(e, wo.attached), wo.location);
    OneWrites(move, x);
    FollowersWrite(Followers(e, wo.attached), wo.location, x);
    WritesConcat([move], follow, x);
    if e.replacement.Some? {
      OneWrites(ReplacementUpdate(e.replacement.value), x);
      WritesConcat([move] + follow, [ReplacementUpdate(e.replacement.value)], x);
    } else {
      assert EntryUpdates(e, wo) == [move] + follow;
    }
  }

  lemma {:induction false} BatchWrites(entries: seq<Entry>, wo: Order, x: Id)
    ensures Writes(BatchUpdates(entries, wo), x) <==> exists i :: 0 <= i < |entries| && Touches(entries[i], wo, x)
  {
    if entries != [] {
      var n := |entries| - 1;
      BatchWrites(entries[..n], wo, x);
      EntryWrites(entries[n], wo, x);
      WritesConcat(BatchUpdates(entries[..n], wo), EntryUpdates(entries[n], wo), x);
      if i :| 0 <= i < n && Touches(entries[..n][i], wo, x) { assert entries[i] == entries[..n][i]; }
      if i :| 0 <= i < |entries| && Touches(entries[i], wo, x) { assert i < n ==> entries[..n][i] == entries[i]; }
    }
  }

  lemma {:induction false} BatchConcat(a: seq<Entry>, b: seq<Entry>, wo: Order)
    ensures BatchUpdates(a + b, wo) == BatchUpdates(a, wo) + BatchUpdates(b, wo)
  {
    if b == [] {
      assert a + b == a;
    } else {
      var front, last := b[..|b| - 1], b[|b| - 1];
      BatchConcat(a, front, wo);
      BatchSnoc(b, front, last, wo);
      BatchSnoc(a + b, a + front, last, wo);
      Regrouped(BatchUpdates(a, wo), BatchUpdates(front, wo), EntryUpdates(last, wo));
    }
  }

  lemma BatchSnoc(entries: seq<Entry>, front: seq<Entry>, e: Entry, wo: Order)
    requires entries == front + [e]
    ensures BatchUpdates(entries, wo) == BatchUpdates(front, wo) + EntryUpdates(e, wo)
  {
    assert entries[..|front|] == front;
  }

  lemma Regrouped(a: seq<Update>, b: seq<Update>, c: seq<Update>)
    ensures (a + b) + c == a + (b + c)
  {
  }

  lemma BatchOfOne(e: Entry, wo: Order)
    ensures BatchUpdates([e], wo) == EntryUpdates(e, wo)
  {
    assert [e][..0] == [];
    assert BatchUpdates([], wo) == [];
  }

  lemma BatchSplits(entries: seq<Entry>, wo: Order, i: nat)
    requires i < |entries|
    ensures BatchUpdates(entries, wo) ==
            BatchUpdates(entries[..i], wo) + EntryUpdates(entries[i], wo) + BatchUpdates(entries[i + 1..], wo)
  {
    var front, e, back := entries[..i], entries[i], entries[i + 1..];
    assert entries == front + [e] + back;
    BatchConcat(front + [e], back, wo);
    BatchConcat(front, [e], wo);
    BatchOfOne(e, wo);
  }

  /** Entry `i` alone touches `x`. */
  ghost predicate TouchedOnlyBy(entries: seq<Entry>, wo: Order, i: nat, x: Id) {
    forall j :: 0 <= j < |entries| && j != i ==> !Touches(entries[j], wo, x)
  }

  lemma OthersDontWrite(entries: seq<Entry>, wo: Order, i: nat, x: Id)
    requires i < |entries| && TouchedOnlyBy(entries, wo, i, x)
    ensures !Writes(BatchUpdates(entries[..i], wo), x) && !Writes(BatchUpdates(entries[i + 1..], wo), x)
  {
    BatchWrites(entries[..i], wo, x);
    BatchWrites(entries[i + 1..], wo, x);
    forall j | 0 <= j < i ensures !Touches(entries[..i][j], wo, x) {
      assert entries[..i][j] == entries[j];
    }
    var back := entries[i + 1..];
    forall j | 0 <= j < |back| ensures !Touches(back[j], wo, x) {
      assert back[j] == entries[i + 1 + j];
    }
  }

  lemma UpdateMoves(t: Thing, e: Entry, wo: Order)
    requires Placeable(e.device, wo.location)
    ensures var after := Updated(t, MoveUpdate(e, wo.location, wo.deviceStatus));
            after.kind == t.kind && MovedAs(t.info, after.info, e.device, wo.location, wo.deviceStatus)
  {
  }

  /** The device of an entry, when nothing else in the batch touches it. */
  lemma DeviceMoved(before: Things, entries: seq<Entry>, wo: Order, i: nat)
    requires i < |entries| && EntryKnown(before, entries[i])
    requires TouchedOnlyBy(entries, wo, i, entries[i].part) && !Follows(entries[i], wo, entries[i].part)
    requires entries[i].replacement.Some? ==> entries[i].replacement.value.thing != entries[i].part
    ensures var now, x := ApplyAll(before, BatchUpdates(entries, wo)), entries[i].part;
            x in now && now[x] == Updated(before[x], MoveUpdate(entries[i], wo.location, wo.deviceStatus))
  {
    var e := entries[i];
    var front, back := BatchUpdates(entries[..i], wo), BatchUpdates(entries[i + 1..], wo);
    var u, rest := MoveUpdate(e, wo.location, wo.deviceStatus), EntryUpdates(e, wo)[1..];
    BatchSplits(entries, wo, i);
    OthersDontWrite(entries, wo, i, e.part);
    RestDoesntWrite(e, wo);
    WritesConcat(rest, back, e.part);
    HeadFirst(front, EntryUpdates(e, wo), back);
    WrittenOnce(before, front, u, rest + back);
  }

  lemma HeadFirst(a: seq<Update>, b: seq<Update>, c: seq<Update>)
    requires b != []
    ensures a + b + c == a + [b[0]] + (b[1..] + c)
  {
  }

  lemma LastLast(a: seq<Update>, b: seq<Update>, c: seq<Update>)
    requires b != []
    ensures a + b + c == (a + b[..|b| - 1]) + [b[|b| - 1]] + c
  {
  }

  lemma RestDoesntWrite(e: Entry, wo: Order)
    requires !Follows(e, wo, e.part) && (e.replacement.Some? ==> e.replacement.value.thing != e.part)
    ensures !Writes(EntryUpdates(e, wo)[1..], e.part)
  {
    var follow := AttachedUpdates(Followers(e, wo.attached), wo.location);
    FollowersWrite(Followers(e, wo.attached), wo.location, e.part);
    if e.replacement.Some? {
      var u := ReplacementUpdate(e.replacement.value);
      OneWrites(u, e.part);
      WritesConcat(follow, [u], e.part);
      assert EntryUpdates(e, wo)[1..] == follow + [u];
    } else {
      assert EntryUpdates(e, wo)[1..] == follow;
    }
  }

  /** The replacement of one entry sits where the miner it replaces sat before the batch. */
  lemma ReplacementSits(before: Things, entries: seq<Entry>, wo: Order, i: nat)
    requires i < |entries| && EntryKnown(before, entries[i]) && entries[i].replacement.Some?
    requires ReplacementFits(before, entries[i], Some(wo.location))
    requires TouchedOnlyBy(entries, wo, i, entries[i].replacement.value.thing)
    requires entries[i].replacement.value.thing != entries[i].part
    requires !Follows(entries[i], wo, entries[i].replacement.value.thing)
    ensures var now, x := ApplyAll(before, BatchUpdates(entries, wo)), entries[i].replacement.value.thing;
            x in now && now[x].kind == before[x].kind &&
            TookSocket(before[x].info, before[entries[i].part].info, now[x].info)
  {
    var e, x := entries[i], entries[i].replacement.value.thing;
    var front, back := BatchUpdates(entries[..i], wo), BatchUpdates(entries[i + 1..], wo);
    var u := ReplacementUpdate(e.replacement.value);
    var start := EntryUpdates(e, wo)[..|EntryUpdates(e, wo)| - 1];
    BatchSplits(entries, wo, i);
    OthersDontWrite(entries, wo, i, x);
    StartDoesntWrite(e, wo);
    WritesConcat(front, start, x);
    LastLast(front, EntryUpdates(e, wo), back);
    WrittenOnce(before, front + start, u, back);
  }

  lemma StartDoesntWrite(e: Entry, wo: Order)
    requires e.replacement.Some? && e.replacement.value.thing != e.part
    requires !Follows(e, wo, e.replacement.value.thing)
    ensures !Writes(EntryUpdates(e, wo)[..|EntryUpdates(e, wo)| - 1], e.replacement.value.thing)
  {
    var move, follow := MoveUpdate(e, wo.location, wo.deviceStatus),
                        AttachedUpdates(Followers(e, wo.attached), wo.location);
    var x := e.replacement.value.thing;
    OneWrites(move, x);
    FollowersWrite(Followers(e, wo.attached), wo.location, x);
    WritesConcat([move], follow, x);
    assert EntryUpdates(e, wo)[..|EntryUpdates(e, wo)| - 1] == [move] + follow;
  }

  /** A batch of distinct devices, and `x` is attached to none of its miners. */
  ghost predicate Apart(entries: seq<Entry>, wo: Order, x: Id) {
    && (forall i, j :: 0 <= i < j < |entries| ==> entries[i].part != entries[j].part)
    && (forall i :: 0 <= i < |entries| ==> !Follows(entries[i], wo, x))
  }

  /** What a batch that went through has made of a device and of its replacement: the device moved, the
      replacement in the socket the device held before the batch. */
  lemma BatchOutcome(before: Things, entries: seq<Entry>, wo: Order, i: nat)
    requires Resolved(before, entries, Some(wo.location)) && i < |entries|
    requires Placeable(entries[i].device, wo.location)
    ensures var now, e := ApplyAll(before, BatchUpdates(entries, wo)), entries[i];
            Apart(entries, wo, e.part) ==>
              e.part in now && now[e.part].kind == before[e.part].kind &&
              MovedAs(before[e.part].info, now[e.part].info, e.device, wo.location, wo.deviceStatus)
    ensures var now, e := ApplyAll(before, BatchUpdates(entries, wo)), entries[i];
            e.replacement.Some? && Apart(entries, wo, e.replacement.value.thing) ==>
              var x := e.replacement.value.thing;
              x in now && now[x].kind == before[x].kind &&
              TookSocket(before[x].info, before[e.part].info, now[x].info)
  {
    var e := entries[i];
    if Apart(entries, wo, e.part) {
      forall j | 0 <= j < |entries| && j != i ensures !Touches(entries[j], wo, e.part) {
      }
      DeviceMoved(before, entries, wo, i);
      UpdateMoves(before[e.part], e, wo);
    }
    if e.replacement.Some? && Apart(entries, wo, e.replacement.value.thing) {
      forall j | 0 <= j < |entries| && j != i ensures !Touches(entries[j], wo, e.replacement.value.thing) {
      }
      ReplacementSits(before, entries, wo, i);
    }
  }

  /** Nothing else has changed: what is neither moved, nor attached, nor a replacement is as it was, and
      nothing has come or gone. */
  lemma OthersStay(before: Things, entries: seq<Entry>, wo: Order, x: Id)
    requires forall i :: 0 <= i < |entries| ==> !Touches(entries[i], wo, x)
    ensures ApplyAll(before, BatchUpdates(entries, wo)).Keys == before.Keys
    ensures x in before ==> ApplyAll(before, BatchUpdates(entries, wo))[x] == before[x]
  {
    BatchWrites(entries, wo, x);
    Unwritten(before, BatchUpdates(entries, wo), x);
  }

  /** Updates that write nothing but the location of `x`. */
  ghost predicate OnlyRelocate(updates: seq<Update>, x: Id, location: string) {
    forall i :: 0 <= i < |updates| && updates[i].id == x ==> updates[i] == Update(x, location, None, None, None)
  }

  lemma {:induction false} Relocated(things: Things, updates: seq<Update>, x: Id, location: string)
    requires OnlyRelocate(updates, x, location) && x in things
    ensures x in ApplyAll(things, updates)
    ensures ApplyAll(things, updates)[x] ==
            if Writes(updates, x) then things[x].(info := things[x].info.(location := Some(location))) else things[x]
  {
    AppliedKeys(things, updates);
    if updates != [] {
      var front, u := updates[..|updates| - 1], updates[|updates| - 1];
      assert updates == front + [u];
      assert OnlyRelocate(front, x, location);
      Relocated(things, front, x, location);
      WritesConcat(front, [u], x);
      OneWrites(u, x);
      AppliedKeys(things, front);
    }
  }

  lemma {:induction false} BatchRelocates(entries: seq<Entry>, wo: Order, x: Id)
    requires forall i :: 0 <= i < |entries| ==>
               entries[i].part != x && (entries[i].replacement.Some? ==> entries[i].replacement.value.thing != x)
    ensures OnlyRelocate(BatchUpdates(entries, wo), x, wo.location)
  {
    if entries != [] { BatchRelocates(entries[..|entries| - 1], wo, x); }
  }

  /** A part attached to a miner of the batch has followed it, by location only. */
  lemma FollowerMoved(before: Things, entries: seq<Entry>, wo: Order, x: Id)
    requires x in before && Followed(entries, wo, x)
    requires forall i :: 0 <= i < |entries| ==>
               entries[i].part != x && (entries[i].replacement.Some? ==> entries[i].replacement.value.thing != x)
    ensures var now := ApplyAll(before, BatchUpdates(entries, wo));
            x in now && now[x] == before[x].(info := before[x].info.(location := Some(wo.location)))
  {
    var i :| 0 <= i < |entries| && Follows(entries[i], wo, x);
    assert Touches(entries[i], wo, x);
    BatchWrites(entries, wo, x);
    BatchRelocates(entries, wo, x);
    Relocated(before, BatchUpdates(entries, wo), x, wo.location);
  }

  /** The records of an entry say where its part, the parts attached to it and its replacement came from. */
  lemma RecordsTellOrigins(before: Things, now: Things, e: Entry, wo: Order, k: nat)
    requires EntryKnown(before, e) && k < |EntryRecords(before, now, e, wo)|
    ensures var m, ids := EntryRecords(before, now, e, wo)[k], Followers(e, wo.attached);
            if k == 0 then
              var was := before[e.part].info;
              m.partId == e.part && m.role == "move" && m.fromLocation == was.location && m.fromStatus == was.status &&
              (m.places.Some? <==> e.device.deviceType == "miner") &&
              (m.places.Some? ==> m.places.value.fromContainer == was.container && m.places.value.fromPos == was.pos)
            else if k <= |ids| then
              m.partId == ids[k - 1] && m.role == "attached" && m.places.None? &&
              (ids[k - 1] in now && ids[k - 1] != e.part ==> m.fromLocation == now[ids[k - 1]].info.location)
            else
              e.replacement.Some? &&
              var was := before[e.replacement.value.thing].info;
              m.partId == e.replacement.value.thing && m.role == "replacement" && m.fromLocation == was.location &&
              m.fromStatus == was.status && m.places.Some? && m.places.value.fromContainer == was.container &&
              m.places.value.fromPos == was.pos
  {
  }

  // ---------- partsMoves replays the batch ----------

  /** What a record says happened to its part. */
  function ReplayOne(things: Things, m: Move): Things {
    if m.partId !in things then things
    else
      var i := things[m.partId].info;
      things[m.partId := Thing(things[m.partId].kind,
        Info(if m.toLocation.Some? then m.toLocation else i.location,
             if NonEmpty(m.toStatus).Some? then m.toStatus else i.status,
             if m.places.Some? then m.places.value.toContainer else i.container,
             if m.places.Some? then m.places.value.toPos else i.pos,
             i.subnet))]
  }

  function Replay(things: Things, moves: seq<Move>): Things {
    if moves == [] then things else ReplayOne(Replay(things, moves[..|moves| - 1]), moves[|moves| - 1])
  }

  /** Same location, status, container and pos everywhere. */
  ghost predicate SameRecorded(a: Things, b: Things) {
    a.Keys == b.Keys &&
    forall x :: x in a ==> a[x].kind == b[x].kind && a[x].info == b[x].info.(subnet := a[x].info.subnet)
  }

  /** A record and an update say the same. */
  ghost predicate Says(m: Move, u: Update) {
    && m.partId == u.id && m.toLocation == Some(u.location) && NonEmpty(m.toStatus) == u.status
    && (m.places.Some? <==> u.place.Some?)
    && (u.place.Some? ==>
        m.places.value.toContainer == Some(u.place.value.0) && m.places.value.toPos == Some(u.place.value.1))
  }

  lemma {:induction false} ReplayMatches(a: Things, moves: seq<Move>, updates: seq<Update>)
    requires |moves| == |updates| && forall i :: 0 <= i < |moves| ==> Says(moves[i], updates[i])
    ensures SameRecorded(Replay(a, moves), ApplyAll(a, updates))
  {
    if moves != [] {
      ReplayMatches(a, moves[..|moves| - 1], updates[..|updates| - 1]);
      assert Says(moves[|moves| - 1], updates[|updates| - 1]);
    }
  }

  lemma EntrySays(before: Things, now: Things, e: Entry, wo: Order)
    requires EntryKnown(before, e) && Placeable(e.device, wo.location)
    ensures var m, u := EntryRecords(before, now, e, wo), EntryUpdates(e, wo);
            |m| == |u| && forall i :: 0 <= i < |m| ==> Says(m[i], u[i])
  {
    var ids, listed := Followers(e, wo.attached), Apply(now, MoveUpdate(e, wo.location, wo.deviceStatus));
    forall i | 0 <= i < |ids|
      ensures Says(AttachedRecords(listed, ids, wo.location)[i], AttachedUpdates(ids, wo.location)[i])
    {
    }
  }

  lemma {:induction false} BatchSays(before: Things, entries: seq<Entry>, wo: Order)
    requires forall i :: 0 <= i < |entries| ==>
             EntryKnown(before, entries[i]) && Placeable(entries[i].device, wo.location)
    ensures var m, u := BatchRecords(before, entries, wo), BatchUpdates(entries, wo);
            |m| == |u| && forall i :: 0 <= i < |m| ==> Says(m[i], u[i])
  {
    if entries != [] {
      var front := entries[..|entries| - 1];
      BatchSays(before, front, wo);
      EntrySays(before, ApplyAll(before, BatchUpdates(front, wo)), entries[|entries| - 1], wo);
    }
  }

  /** Replaying partsMoves over the old inventory gives the new location, status, container and pos of
      every thing, in or out of the miner room. */
  lemma RecordsReplayTheBatch(before: Things, entries: seq<Entry>, wo: Order)
    requires forall i :: 0 <= i < |entries| ==>
             EntryKnown(before, entries[i]) && Placeable(entries[i].device, wo.location)
    ensures SameRecorded(Replay(before, BatchRecords(before, entries, wo)),
                         ApplyAll(before, BatchUpdates(entries, wo)))
  {
    BatchSays(before, entries, wo);
    ReplayMatches(before, BatchRecords(before, entries, wo),
                  BatchUpdates(entries, wo));
  }
}
