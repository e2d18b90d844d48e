// The pure part of index.tsx: each handler computes a new {devices, history}
// aggregate from the old one, and two memoised values are derived from it.
// Ids and timestamps, which the source draws from generateId() and
// Date.now(), are parameters.  A result of None means the handler returned
// early and changed nothing.

module Inventory {
  import opened Types
  import opened Util

  /** `devices.findIndex(d => d.id === id)`: the first device with that id. */
  function FindIndex(ds: seq<Device>, id: string): (r: Option<nat>)
    ensures r.Some? ==> r.value < |ds| && ds[r.value].id == id
    ensures r.Some? ==> forall j :: 0 <= j < r.value ==> ds[j].id != id
    ensures r.None? <==> forall j :: 0 <= j < |ds| ==> ds[j].id != id
  {
    if ds == [] then None
    else if ds[0].id == id then Some(0)
    else match FindIndex(ds[1..], id)
      case None => None
      case Some(k) => Some(k + 1)
  }

  /** History only ever grows at the front by one record. */
  predicate Prepended(before: seq<HistoryRecord>, after: seq<HistoryRecord>) {
    |after| == |before| + 1 && after[1..] == before
  }

  /** handleAddDevice: an empty name is refused; otherwise an available
      device without borrower is appended and an `add` record naming it is
      logged.  The form's image string is always stored, '' included. */
  function AddDevice(data: AppData, name: string, kind: string, image: string,
                     deviceId: string, recordId: string, updatedAt: nat, loggedAt: nat): (r: Option<AppData>)
    ensures r.None? <==> name == ""
    ensures r.Some? ==> var ds := r.value.devices;
      && |ds| == |data.devices| + 1
      && ds[..|data.devices|] == data.devices
      && ds[|data.devices|] == Device(deviceId, name, kind, Some(image), Available, None, updatedAt)
    ensures r.Some? ==> Prepended(data.history, r.value.history)
    ensures r.Some? ==> r.value.history[0] == HistoryRecord(recordId, deviceId, name, Add, None, loggedAt)
    ensures r.Some? && AllWellFormed(data.devices) ==> AllWellFormed(r.value.devices)
  {
    if name == "" then None
    else
      var device := Device(deviceId, name, kind, Some(image), Available, None, updatedAt);
      var record := HistoryRecord(recordId, deviceId, name, Add, None, loggedAt);
      Some(AppData(data.devices + [device], [record] + data.history))
  }

  /** handleBorrow: refused without a selected id, without a borrower name,
      or when no device has the id; otherwise the first device with the id
      becomes borrowed by that name and a `borrow` record is logged. */
  function BorrowDevice(data: AppData, selected: Option<string>, borrowerName: string,
                        recordId: string, updatedAt: nat, loggedAt: nat): (r: Option<AppData>)
    ensures r.None? <==> !Present(selected) || borrowerName == "" || FindIndex(data.devices, selected.value).None?
    ensures r.Some? ==>
      var i := FindIndex(data.devices, selected.value).value;
      var d := data.devices[i];
      && |r.value.devices| == |data.devices|
      && (forall j :: 0 <= j < |data.devices| && j != i ==> r.value.devices[j] == data.devices[j])
      && r.value.devices[i] == d.(status := Borrowed, borrower := Some(borrowerName), lastUpdated := updatedAt)
      && Prepended(data.history, r.value.history)
      && r.value.history[0] == HistoryRecord(recordId, d.id, d.name, Borrow, Some(borrowerName), loggedAt)
    ensures r.Some? && AllWellFormed(data.devices) ==> AllWellFormed(r.value.devices)
  {
    if !Present(selected) || borrowerName == "" then None
    else match FindIndex(data.devices, selected.value)
      case None => None
      case Some(i) =>
        var d := data.devices[i];
        var updated := d.(status := Borrowed, borrower := Some(borrowerName), lastUpdated := updatedAt);
        var record := HistoryRecord(recordId, d.id, d.name, Borrow, Some(borrowerName), loggedAt);
        Some(AppData(data.devices[i := updated], [record] + data.history))
  }

  /** handleReturn: refused without a selected id or when no device has it;
      otherwise the first device with the id becomes available without a
      borrower and a `return` record carries the borrower it had.  Nothing
      checks that the device was borrowed. */
  function ReturnDevice(data: AppData, selected: Option<string>,
                        recordId: string, updatedAt: nat, loggedAt: nat): (r: Option<AppData>)
    ensures r.None? <==> !Present(selected) || FindIndex(data.devices, selected.value).None?
    ensures r.Some? ==>
      var i := FindIndex(data.devices, selected.value).value;
      var d := data.devices[i];
      && |r.value.devices| == |data.devices|
      && (forall j :: 0 <= j < |data.devices| && j != i ==> r.value.devices[j] == data.devices[j])
      && r.value.devices[i] == d.(status := Available, borrower := None, lastUpdated := updatedAt)
      && Prepended(data.history, r.value.history)
      && r.value.history[0] == HistoryRecord(recordId, d.id, d.name, Return, d.borrower, loggedAt)
    ensures r.Some? && AllWellFormed(data.devices) ==> AllWellFormed(r.value.devices)
  {
    if !Present(selected) then None
    else match FindIndex(data.devices, selected.value)
      case None => None
      case Some(i) =>
        var d := data.devices[i];
        var updated := d.(status := Available, borrower := None, lastUpdated := updatedAt);
        var record := HistoryRecord(recordId, d.id, d.name, Return, d.borrower, loggedAt);
        Some(AppData(data.devices[i := updated], [record] + data.history))
  }

  /** The filter predicate handleDelete uses, for one target id. */
  function KeepsOtherThan(target: string): Device -> bool {
    (d: Device) => d.id != target
  }

  /** handleDelete: refused without a target id or when no device has it;
      otherwise every device with that id is removed, the others keep their
      order, and a `delete` record names the first device with the id. */
  function DeleteDevice(data: AppData, target: Option<string>, recordId: string, loggedAt: nat): (r: Option<AppData>)
    ensures r.None? <==> !Present(target) || FindIndex(data.devices, target.value).None?
    ensures r.Some? ==>
      && r.value.devices == Filter(data.devices, KeepsOtherThan(target.value))
      && Prepended(data.history, r.value.history)
      && var d := data.devices[FindIndex(data.devices, target.value).value];
         r.value.history[0] == HistoryRecord(recordId, target.value, d.name, Delete, None, loggedAt)
  {
    if !Present(target) then None
    else match FindIndex(data.devices, target.value)
      case None => None
      case Some(i) =>
        var d := data.devices[i];
        var record := HistoryRecord(recordId, d.id, d.name, Delete, None, loggedAt);
        Some(AppData(Filter(data.devices, KeepsOtherThan(target.value)), [record] + data.history))
  }

  /** After a delete, a device is left exactly when it was there and has
      another id, so no device with the target id survives. */
  lemma DeleteRemovesExactly(data: AppData, target: Option<string>, recordId: string, loggedAt: nat, x: Device)
    requires DeleteDevice(data, target, recordId, loggedAt).Some?
    ensures var after := DeleteDevice(data, target, recordId, loggedAt).value.devices;
      x in after <==> x in data.devices && x.id != target.value
  {
    FilterMembership(data.devices, KeepsOtherThan(target.value), x);
  }

  /** Deleting keeps the device invariant. */
  lemma {:induction false} DeletePreservesWellFormed(data: AppData, target: Option<string>, recordId: string, loggedAt: nat)
    requires AllWellFormed(data.devices)
    requires DeleteDevice(data, target, recordId, loggedAt).Some?
    ensures AllWellFormed(DeleteDevice(data, target, recordId, loggedAt).value.devices)
  {
    var after := DeleteDevice(data, target, recordId, loggedAt).value.devices;
    forall i | 0 <= i < |after|
      ensures WellFormed(after[i])
    {
      DeleteRemovesExactly(data, target, recordId, loggedAt, after[i]);
      var j :| 0 <= j < |data.devices| && data.devices[j] == after[i];
    }
  }

  // ---- deviceStats ----------------------------------------------------------

  function IsAvailable(d: Device): bool {
    d.status == Available
  }

  function IsBorrowed(d: Device): bool {
    d.status == Borrowed
  }

  datatype Stats = Stats(total: nat, available: nat, borrowed: nat)

  /** deviceStats: the length and the two status counts. */
  function DeviceStats(ds: seq<Device>): (r: Stats)
    ensures r.total == |ds|
    ensures r.available + r.borrowed == r.total
  {
    FilterPartition(ds, IsAvailable, IsBorrowed);
    Stats(|ds|, |Filter(ds, IsAvailable)|, |Filter(ds, IsBorrowed)|)
  }

  /** Borrowing an available device moves one unit from available to
      borrowed; borrowing one already out changes no count. */
  lemma BorrowStats(data: AppData, selected: Option<string>, borrowerName: string,
                    recordId: string, updatedAt: nat, loggedAt: nat)
    requires BorrowDevice(data, selected, borrowerName, recordId, updatedAt, loggedAt).Some?
    ensures var before := DeviceStats(data.devices);
      var after := DeviceStats(BorrowDevice(data, selected, borrowerName, recordId, updatedAt, loggedAt).value.devices);
      var i := FindIndex(data.devices, selected.value).value;
      && after.total == before.total
      && (data.devices[i].status == Available ==> after.available + 1 == before.available && after.borrowed == before.borrowed + 1)
      && (data.devices[i].status == Borrowed ==> after == before)
  {
    var i := FindIndex(data.devices, selected.value).value;
    var ds := BorrowDevice(data, selected, borrowerName, recordId, updatedAt, loggedAt).value.devices;
    var x := ds[i];
    assert ds == data.devices[i := x];
    FilterUpdateCount(data.devices, i, x, IsAvailable);
    FilterUpdateCount(data.devices, i, x, IsBorrowed);
  }

  /** Returning a borrowed device moves one unit back to available; since
      the status is not checked, returning an available one changes no count. */
  lemma ReturnStats(data: AppData, selected: Option<string>, recordId: string, updatedAt: nat, loggedAt: nat)
    requires ReturnDevice(data, selected, recordId, updatedAt, loggedAt).Some?
    ensures var before := DeviceStats(data.devices);
      var after := DeviceStats(ReturnDevice(data, selected, recordId, updatedAt, loggedAt).value.devices);
      var i := FindIndex(data.devices, selected.value).value;
      && after.total == before.total
      && (data.devices[i].status == Borrowed ==> after.available == before.available + 1 && after.borrowed + 1 == before.borrowed)
      && (data.devices[i].status == Available ==> after == before)
  {
    var i := FindIndex(data.devices, selected.value).value;
    var ds := ReturnDevice(data, selected, recordId, updatedAt, loggedAt).value.devices;
    var x := ds[i];
    assert ds == data.devices[i := x];
    FilterUpdateCount(data.devices, i, x, IsAvailable);
    FilterUpdateCount(data.devices, i, x, IsBorrowed);
  }

  /** Adding a device adds one available unit. */
  lemma AddStats(data: AppData, name: string, kind: string, image: string,
                 deviceId: string, recordId: string, updatedAt: nat, loggedAt: nat)
    requires AddDevice(data, name, kind, image, deviceId, recordId, updatedAt, loggedAt).Some?
    ensures var before := DeviceStats(data.devices);
      var after := DeviceStats(AddDevice(data, name, kind, image, deviceId, recordId, updatedAt, loggedAt).value.devices);
      after == Stats(before.total + 1, before.available + 1, before.borrowed)
  {
    var ds := AddDevice(data, name, kind, image, deviceId, recordId, updatedAt, loggedAt).value.devices;
    var n := |data.devices|;
    assert ds == data.devices + [ds[n]];
    FilterAppend(data.devices, [ds[n]], IsAvailable);
    FilterAppend(data.devices, [ds[n]], IsBorrowed);
  }

  // ---- previousBorrowers ------------------------------------------------------

  /** One step of the Set built by previousBorrowers: a truthy borrower not
      yet in the set is added at the end (a Set keeps insertion order). */
  function AddBorrower(names: seq<string>, r: HistoryRecord): seq<string> {
    if Present(r.borrower) && r.borrower.value !in names then names + [r.borrower.value] else names
  }

  predicate Distinct(names: seq<string>) {
    forall i, j :: 0 <= i < j < |names| ==> names[i] != names[j]
  }

  predicate NamedIn(h: seq<HistoryRecord>, x: string) {
    exists k :: 0 <= k < |h| && Present(h[k].borrower) && h[k].borrower.value == x
  }

  /** The names of previousBorrowers, in first-appearance order: every
      non-empty borrower of the history exactly once, and nothing else. */
  function BorrowersOf(h: seq<HistoryRecord>): (r: seq<string>)
    ensures Distinct(r)
    ensures forall x :: x in r <==> NamedIn(h, x)
  {
    if h == [] then []
    else
      var prefix := h[..|h| - 1];
      var names := BorrowersOf(prefix);
      assert forall x :: NamedIn(h, x) <==> NamedIn(prefix, x) || (Present(h[|h| - 1].borrower) && h[|h| - 1].borrower.value == x) by {
        forall x
          ensures NamedIn(h, x) ==> NamedIn(prefix, x) || (Present(h[|h| - 1].borrower) && h[|h| - 1].borrower.value == x)
        {
          if NamedIn(h, x) {
            var k :| 0 <= k < |h| && Present(h[k].borrower) && h[k].borrower.value == x;
            if k < |h| - 1 {
              assert prefix[k] == h[k];
            }
          }
        }
        forall x | NamedIn(prefix, x)
          ensures NamedIn(h, x)
        {
          var k :| 0 <= k < |prefix| && Present(prefix[k].borrower) && prefix[k].borrower.value == x;
          assert h[k] == prefix[k];
        }
      }
      AddBorrower(names, h[|h| - 1])
  }

  /** previousBorrowers, as the source computes it: one pass over the
      history adding each truthy borrower to a set. */
  method PreviousBorrowers(history: seq<HistoryRecord>) returns (names: seq<string>)
    ensures names == BorrowersOf(history)
  {
    names := [];
    var i := 0;
    while i < |history|
      invariant 0 <= i <= |history|
      invariant names == BorrowersOf(history[..i])
    {
      var r := history[i];
      if Present(r.borrower) && r.borrower.value !in names {
        names := names + [r.borrower.value];
      }
      assert history[..i + 1][..i] == history[..i];
      i := i + 1;
    }
    assert history[..i] == history;
  }

  // ---- Image upload validation --------------------------------------------

  const ImageTypes: seq<string> := ["image/jpeg", "image/jpg", "image/png", "image/gif", "image/webp"]
  const MaxImageBytes: nat := 5 * 1024 * 1024

  datatype ImageCheck = Accepted | BadType | TooLarge(size: nat)

  /** handleImageUpload's two checks, the type first and then the size. */
  function ValidateImage(mime: string, size: nat): (r: ImageCheck)
    ensures r.Accepted? <==> mime in ImageTypes && size <= MaxImageBytes
    ensures r.BadType? <==> mime !in ImageTypes
    ensures r.TooLarge? ==> r.size == size && size > MaxImageBytes
  {
    if mime !in ImageTypes then BadType
    else if size > MaxImageBytes then TooLarge(size)
    else Accepted
  }
}
