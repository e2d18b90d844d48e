// services/storageService.ts: the aggregate and the wallpaper cache kept in
// the browser's local key/value store, here a map from string to string
// held by a Store object.

module StorageService {
  import opened Types
  import opened Util
  import opened Json

  const StorageKey: string := "equiptrack_data_v1"
  const WallpaperKey: string := "equiptrack_wallpaper"
  const WallpaperDateKey: string := "equiptrack_wallpaper_date"

  /** The ceiling saveData enforces: 5 MiB. */
  const MaxDataBytes: nat := 5 * 1024 * 1024

  datatype StoreError = CapacityExceeded(bytes: nat)

  datatype SaveResult = Saved | Failed(error: StoreError)

  /** DEFAULT_DATA, the seed used when nothing usable is stored.  Its
      timestamps are the clock reading taken when the module was loaded. */
  function DefaultData(loadedAt: nat): (r: AppData)
    ensures |r.devices| == 3 && |r.history| == 1
    ensures forall i, j :: 0 <= i < j < |r.devices| ==> r.devices[i].id != r.devices[j].id
    ensures forall i :: 0 <= i < |r.devices| ==> (r.devices[i].status == Borrowed <==> r.devices[i].id == "2")
    ensures AllWellFormed(r.devices)
    ensures r.history[0].action == Borrow && r.history[0].deviceId == "2"
    ensures r.history[0].borrower == r.devices[1].borrower && Present(r.history[0].borrower)
    ensures r.history[0].deviceName == r.devices[1].name
  {
    AppData(
      [ Device("1", "MacBook Pro 16\"", "Laptop", None, Available, None, loadedAt),
        Device("2", "iPhone 15 Pro Max", "Mobile", None, Borrowed, Some("Alice Zhang"), loadedAt),
        Device("3", "Sony A7IV Camera", "Camera", None, Available, None, loadedAt) ],
      [ HistoryRecord("h1", "2", "iPhone 15 Pro Max", Borrow, Some("Alice Zhang"), loadedAt) ])
  }

  /** The pair `JSON.stringify` / `JSON.parse` the service applies to the
      aggregate.  The store holds it as a value, so that what is proved about
      saving and loading rests only on the pair's round trip. */
  datatype Serializer = Serializer(stringify: AppData -> string, parse: string -> Option<AppData>)

  /** Parsing gives back every serialised aggregate. */
  ghost predicate RoundTrips(s: Serializer) {
    forall d :: s.parse(s.stringify(d)) == Some(d)
  }

  /** The serialiser of the Json module. */
  const JsonSerializer: Serializer := Serializer(Serialize, Parse)

  lemma JsonSerializerRoundTrips()
    ensures RoundTrips(JsonSerializer)
  {
    forall d: AppData
      ensures Parse(Serialize(d)) == Some(d)
    {
      ParseSerialize(d);
    }
  }

  /** Byte size of the serialised aggregate, as `new Blob([json]).size`. */
  function DataSize(s: Serializer, d: AppData): nat {
    Utf8Size(s.stringify(d))
  }

  /** The test saveData performs: the size in MiB, as a float, above 5. */
  predicate ExceedsLimit(bytes: nat) {
    (bytes as real) / (1024.0 * 1024.0) > 5.0
  }

  /** The floating-point test is the integer comparison with 5 MiB. */
  lemma ExceedsLimitIsByteBound(bytes: nat)
    ensures ExceedsLimit(bytes) <==> bytes > MaxDataBytes
  {
  }

  /** What loadData returns for the current contents of the store. */
  function LoadedData(s: Serializer, items: map<string, string>, seed: AppData): (r: AppData)
    ensures StorageKey !in items || items[StorageKey] == "" ==> r == seed
    ensures StorageKey in items && items[StorageKey] != "" ==>
              if s.parse(items[StorageKey]).Some? then r == s.parse(items[StorageKey]).value else r == seed
  {
    if StorageKey !in items || items[StorageKey] == "" then seed
    else match s.parse(items[StorageKey])
      case Some(d) => d
      case None => seed
  }

  /** A save followed by a load gives back what was saved, whatever else
      the store holds. */
  lemma SaveThenLoad(items: map<string, string>, data: AppData, seed: AppData)
    ensures LoadedData(JsonSerializer, items[StorageKey := Serialize(data)], seed) == data
  {
    JsonSerializerRoundTrips();
    assert JsonSerializer.parse(JsonSerializer.stringify(data)) == Some(data);
  }

  // ---- Wallpaper cache ------------------------------------------------------

  /** A local calendar day as `Date` reports it: the full year, the 0-based
      month of getMonth() and the day of the month. */
  datatype LocalDate = LocalDate(year: nat, month: nat, day: nat)

  predicate ValidDate(d: LocalDate) {
    d.month < 12 && 1 <= d.day <= 31
  }

  /** getTodayDateString: year, 2-digit 1-based month and 2-digit day,
      joined by hyphens. */
  function DayStamp(d: LocalDate): string {
    NatToString(d.year) + "-" + PadStart2(d.month + 1) + "-" + PadStart2(d.day)
  }

  lemma {:induction false} DayStampFormat(d: LocalDate)
    requires ValidDate(d)
    ensures var y, s := NatToString(d.year), DayStamp(d);
      && |s| == |y| + 6
      && s[..|y|] == y
      && s[|y|] == '-' && s[|y| + 3] == '-'
      && IsDigit(s[|y| + 1]) && IsDigit(s[|y| + 2]) && IsDigit(s[|y| + 4]) && IsDigit(s[|y| + 5])
      && DigitsValue(s[|y| + 1..|y| + 3]) == d.month + 1
      && DigitsValue(s[|y| + 4..]) == d.day
  {
    var y, s := NatToString(d.year), DayStamp(d);
    var m, dd := PadStart2(d.month + 1), PadStart2(d.day);
    assert s == y + "-" + m + "-" + dd;
    assert s[|y| + 1..|y| + 3] == m;
    assert s[|y| + 4..] == dd;
    PadStart2Value(d.month + 1);
    PadStart2Value(d.day);
  }

  /** Two valid days have the same stamp only if they are the same day. */
  lemma DayStampInjective(a: LocalDate, b: LocalDate)
    requires ValidDate(a) && ValidDate(b)
    requires DayStamp(a) == DayStamp(b)
    ensures a == b
  {
    DayStampFormat(a);
    DayStampFormat(b);
    var ya, yb := NatToString(a.year), NatToString(b.year);
    assert |ya| == |yb|;
    assert ya == DayStamp(a)[..|ya|] == yb;
    NatToStringInjective(a.year, b.year);
  }

  /** What loadWallpaper returns. */
  function StoredWallpaper(items: map<string, string>): (r: Option<string>)
    ensures r.Some? <==> WallpaperKey in items
  {
    if WallpaperKey in items then Some(items[WallpaperKey]) else None
  }

  /** What isWallpaperFetchedToday returns: the stored day is today's stamp,
      and false when no day is stored. */
  predicate FetchedOn(items: map<string, string>, today: LocalDate) {
    WallpaperDateKey in items && items[WallpaperDateKey] == DayStamp(today)
  }

  /** The store after saveWallpaper(url) on day `today`. */
  function WallpaperSaved(items: map<string, string>, url: string, today: LocalDate): map<string, string> {
    items[WallpaperKey := url][WallpaperDateKey := DayStamp(today)]
  }

  /** After saving, the URL reads back and the wallpaper counts as fetched
      today, and on no other valid day; the aggregate is untouched. */
  lemma SaveWallpaperThenRead(items: map<string, string>, url: string, today: LocalDate, other: LocalDate)
    requires ValidDate(today) && ValidDate(other)
    ensures StoredWallpaper(WallpaperSaved(items, url, today)) == Some(url)
    ensures FetchedOn(WallpaperSaved(items, url, today), other) <==> other == today
    ensures forall s, seed :: LoadedData(s, WallpaperSaved(items, url, today), seed) == LoadedData(s, items, seed)
  {
    var after := WallpaperSaved(items, url, today);
    assert after[WallpaperKey] == url;
    if FetchedOn(after, other) {
      DayStampInjective(other, today);
    }
  }

  /** The browser's local storage as seen by storageService.ts. */
  class Store {
    var items: map<string, string>
    /** The clock reading DEFAULT_DATA was built with. */
    const loadedAt: nat
    const json: Serializer

    constructor (items: map<string, string>, loadedAt: nat)
      ensures this.items == items && this.loadedAt == loadedAt && json == JsonSerializer
    {
      this.items := items;
      this.loadedAt := loadedAt;
      json := JsonSerializer;
    }

    /** saveData: rejects a serialisation above the ceiling without writing,
        otherwise overwrites the aggregate's key and nothing else. */
    method SaveData(data: AppData) returns (r: SaveResult)
      modifies this`items
      ensures r.Failed? <==> DataSize(json, data) > MaxDataBytes
      ensures r.Failed? ==> r.error == CapacityExceeded(DataSize(json, data)) && items == old(items)
      ensures r.Saved? ==> items == old(items)[StorageKey := json.stringify(data)]
    {
      var text := json.stringify(data);
      var size := Utf8Size(text);
      ExceedsLimitIsByteBound(size);
      if ExceedsLimit(size) {
        return Failed(CapacityExceeded(size));
      }
      items := items[StorageKey := text];
      return Saved;
    }

    /** loadData: the stored aggregate, or DEFAULT_DATA when the key is
        missing, empty or does not parse. */
    method LoadData() returns (d: AppData)
      ensures d == LoadedData(json, items, DefaultData(loadedAt))
    {
      if StorageKey !in items || items[StorageKey] == "" {
        return DefaultData(loadedAt);
      }
      var parsed := json.parse(items[StorageKey]);
      if parsed.None? {
        return DefaultData(loadedAt);
      }
      return parsed.value;
    }

    method LoadWallpaper() returns (url: Option<string>)
      ensures url == StoredWallpaper(items)
    {
      if WallpaperKey in items {
        url := Some(items[WallpaperKey]);
      } else {
        url := None;
      }
    }

    method IsWallpaperFetchedToday(today: LocalDate) returns (b: bool)
      ensures b == FetchedOn(items, today)
    {
      var stamp := DayStamp(today);
      b := WallpaperDateKey in items && items[WallpaperDateKey] == stamp;
    }

    method SaveWallpaper(url: string, today: LocalDate)
      modifies this`items
      ensures items == WallpaperSaved(old(items), url, today)
    {
      items := items[WallpaperKey := url];
      items := items[WallpaperDateKey := DayStamp(today)];
    }
  }
}
