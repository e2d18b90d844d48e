// The record shapes of types.ts.  A TypeScript optional property (`image?`,
// `borrower?`) is an Option; every other property is always present.

module Types {

  /** Optional values, usable with `:-` in the parsers. */
  datatype Option<+T> = None | Some(value: T) {
    predicate IsFailure() { None? }

    function PropagateFailure<U>(): Option<U>
      requires None?
    {
      None
    }

    function Extract(): T
      requires Some?
    {
      value
    }
  }

  /** `DeviceStatus`: exactly two values. */
  datatype DeviceStatus = Available | Borrowed

  /** `ActionType`: exactly four values. */
  datatype ActionType = Add | Borrow | Return | Delete

  /** `Device`: only `image` and `borrower` are optional. */
  datatype Device = Device(
    id: string,
    name: string,
    kind: string,            // the `type` property
    image: Option<string>,
    status: DeviceStatus,
    borrower: Option<string>,
    lastUpdated: nat)

  /** `HistoryRecord`: only `borrower` is optional. */
  datatype HistoryRecord = HistoryRecord(
    id: string,
    deviceId: string,
    deviceName: string,
    action: ActionType,
    borrower: Option<string>,
    timestamp: nat)

  /** `AppData`: the aggregate, a pair of sequences. */
  datatype AppData = AppData(devices: seq<Device>, history: seq<HistoryRecord>)

  /** The device invariant: a device is borrowed exactly when it has a
      borrower, and a borrower's name is never empty. */
  predicate WellFormed(d: Device) {
    && (d.status == Borrowed <==> d.borrower.Some?)
    && (d.borrower.Some? ==> d.borrower.value != "")
  }

  predicate AllWellFormed(ds: seq<Device>) {
    forall i :: 0 <= i < |ds| ==> WellFormed(ds[i])
  }

  /** JavaScript truthiness of an optional string: defined and not empty. */
  predicate Present(s: Option<string>) {
    s.Some? && s.value != ""
  }

  /** The text TypeScript's `${s}` produces for an optional string. */
  function Interpolated(s: Option<string>): (r: string)
    ensures s.Some? ==> r == s.value
    ensures s.None? ==> r == "undefined"
  {
    match s
    case Some(v) => v
    case None => "undefined"
  }
}
