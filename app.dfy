// The App component of index.tsx: its useState cells are the fields of an
// AppState object, each setter call an assignment, and the storage service
// a Store object the handlers write through.

module App {
  import opened Types
  import opened StorageService
  import opened Inventory
  import opened Wallpaper

  /** The messages the error banner can show. */
  datatype AppError =
    | SaveFailed(cause: StoreError)
    | InvalidImageType
    | ImageTooLarge(size: nat)
    | ImageReadFailed

  /** The first file of the picker, by MIME type and byte size. */
  datatype ImageFile = ImageFile(mime: string, size: nat)

  /** How FileReader.readAsDataURL ended. */
  datatype ReadOutcome = ReadSucceeded(dataUrl: string) | ReadFailed

  /** The events FileReader fires for one read: `load` or `error`, and
      `loadend` after either. */
  datatype ReaderEvent = LoadEvent | ErrorEvent | LoadEndEvent

  function ReaderEvents(read: ReadOutcome): (es: seq<ReaderEvent>)
    ensures |es| == 2 && es[1] == LoadEndEvent
  {
    match read
    case ReadSucceeded(_) => [LoadEvent, LoadEndEvent]
    case ReadFailed => [ErrorEvent, LoadEndEvent]
  }

  /** `reader.result` once the read has ended: the data URL, or null (None). */
  function ReaderResult(read: ReadOutcome): Option<string> {
    match read
    case ReadSucceeded(u) => Some(u)
    case ReadFailed => None
  }

  /** The (image, banner) cells after the installed handlers react to one
      event: no handler listens for `load`, `onerror` sets the banner, and
      `onloadend` stores `reader.result` and clears the banner. */
  function OnEvent(e: ReaderEvent, result: Option<string>, cells: (Option<string>, Option<AppError>)): (Option<string>, Option<AppError>) {
    match e
    case LoadEvent => cells
    case ErrorEvent => (cells.0, Some(ImageReadFailed))
    case LoadEndEvent => (result, None)
  }

  /** The cells after a run of events, handled in order. */
  function RunEvents(es: seq<ReaderEvent>, result: Option<string>, cells: (Option<string>, Option<AppError>)): (Option<string>, Option<AppError>)
    decreases |es|
  {
    if es == [] then cells else RunEvents(es[1..], result, OnEvent(es[0], result, cells))
  }

  /** The callbacks as installed, as (image, banner) once the read ends: the
      last event is always `loadend`, so its effect is what remains. */
  function ReadCallbacksAsWritten(read: ReadOutcome, image: string, error: Option<AppError>): (r: (Option<string>, Option<AppError>))
    ensures r.1.None?
    ensures r.0 == ReaderResult(read)
  {
    var es, result, cells := ReaderEvents(read), ReaderResult(read), (Some(image), error);
    var first := OnEvent(es[0], result, cells);
    assert es[1..][0] == LoadEndEvent && es[1..][1..] == [];
    assert RunEvents(es[1..], result, first) == OnEvent(LoadEndEvent, result, first);
    RunEvents(es, result, cells)
  }

  /** As written, a failed read leaves no error and wipes the image. */
  lemma ReadFailureLostAsWritten(image: string, error: Option<AppError>)
    ensures ReadCallbacksAsWritten(ReadFailed, image, error) == (None, None)
  {
  }

  /** The evidently intended callbacks: a success stores the data URL and
      clears the error; a failure reports itself and keeps the image. */
  function ReadCallbacks(read: ReadOutcome, image: string, error: Option<AppError>): (r: (string, Option<AppError>))
    ensures r.1 == Some(ImageReadFailed) <==> read.ReadFailed?
    ensures r.1.None? <==> read.ReadSucceeded?
    ensures read.ReadFailed? ==> r.0 == image
    ensures read.ReadSucceeded? ==> r.0 == read.dataUrl
  {
    match read
    case ReadSucceeded(u) => (u, None)
    case ReadFailed => (image, Some(ImageReadFailed))
  }

  class AppState {
    var data: AppData
    var storageError: Option<AppError>
    var isAddModalOpen: bool
    var isBorrowModalOpen: bool
    var isReturnModalOpen: bool
    var isDeleteModalOpen: bool
    var selectedDeviceId: Option<string>
    var deviceToDeleteId: Option<string>
    var newDeviceName: string
    var newDeviceType: string
    var newDeviceImage: string
    var borrowerName: string
    var bgUrl: string
    var isBgLoading: bool
    const store: Store

    /** Every device satisfies the borrower invariant. */
    predicate Valid()
      reads this`data
    {
      AllWellFormed(data.devices)
    }

    /** The store holds the serialisation of what is in memory, so a reload
        reads it back (StorageService.SaveThenLoad). */
    predicate Persisted()
      reads this`data, store`items
    {
      StorageKey in store.items && store.items[StorageKey] == store.json.stringify(data)
    }

    /** The aggregate is loaded once, when the component is created; every
        other cell starts at its useState default. */
    constructor (store: Store)
      ensures this.store == store
      ensures data == LoadedData(store.json, store.items, DefaultData(store.loadedAt))
      ensures StorageKey !in store.items || store.items[StorageKey] == "" ==> Valid()
      ensures storageError.None? && selectedDeviceId.None? && deviceToDeleteId.None?
      ensures !isAddModalOpen && !isBorrowModalOpen && !isReturnModalOpen && !isDeleteModalOpen
      ensures newDeviceName == "" && newDeviceType == "Laptop" && newDeviceImage == "" && borrowerName == ""
      ensures bgUrl == "" && isBgLoading
    {
      var loaded := store.LoadData();
      this.store := store;
      data := loaded;
      storageError := None;
      isAddModalOpen := false;
      isBorrowModalOpen := false;
      isReturnModalOpen := false;
      isDeleteModalOpen := false;
      selectedDeviceId := None;
      deviceToDeleteId := None;
      newDeviceName := "";
      newDeviceType := "Laptop";
      newDeviceImage := "";
      borrowerName := "";
      bgUrl := "";
      isBgLoading := true;
    }

    /** The error a save of `next` leaves in the banner, if any. */
    function SaveError(next: AppData): Option<AppError> {
      if DataSize(store.json, next) > MaxDataBytes then Some(SaveFailed(CapacityExceeded(DataSize(store.json, next)))) else None
    }

    /** The shared tail of the four handlers: the new aggregate goes into
        memory first, then the save is tried and its outcome recorded. */
    method Commit(next: AppData) returns (saved: bool)
      modifies this`data, this`storageError, store`items
      ensures data == next
      ensures saved <==> DataSize(store.json, next) <= MaxDataBytes
      ensures storageError == SaveError(next)
      ensures saved ==> store.items == old(store.items)[StorageKey := store.json.stringify(next)] && Persisted()
      ensures !saved ==> store.items == old(store.items)
    {
      data := next;
      var outcome := store.SaveData(next);
      if outcome.Failed? {
        storageError := Some(SaveFailed(outcome.error));
        return false;
      }
      storageError := None;
      return true;
    }

    /** handleAddDevice.  A refused add changes nothing; otherwise the new
        aggregate is in memory whatever the save does, and only a successful
        save closes the dialog and resets the form. */
    method HandleAddDevice(deviceId: string, recordId: string, updatedAt: nat, loggedAt: nat)
      modifies this`data, this`storageError, this`isAddModalOpen, this`newDeviceName,
               this`newDeviceType, this`newDeviceImage, store`items
      ensures var next := AddDevice(old(data), old(newDeviceName), old(newDeviceType), old(newDeviceImage),
                                    deviceId, recordId, updatedAt, loggedAt);
        if next.None? then
          unchanged(this, store)
        else
          && data == next.value
          && storageError == SaveError(next.value)
          && (storageError.Some? ==> unchanged(store) && unchanged(this`isAddModalOpen, this`newDeviceName, this`newDeviceType, this`newDeviceImage))
          && (storageError.None? ==> store.items == old(store.items)[StorageKey := store.json.stringify(data)] && Persisted() && !isAddModalOpen
                                     && newDeviceName == "" && newDeviceType == "Laptop" && newDeviceImage == "")
      ensures old(Valid()) ==> Valid()
    {
      var next := AddDevice(data, newDeviceName, newDeviceType, newDeviceImage, deviceId, recordId, updatedAt, loggedAt);
      if next.None? {
        return;
      }
      var saved := Commit(next.value);
      if !saved {
        return;
      }
      isAddModalOpen := false;
      newDeviceName := "";
      newDeviceType := "Laptop";
      newDeviceImage := "";
    }

    /** openBorrowModal. */
    method OpenBorrowModal(deviceId: string)
      modifies this`selectedDeviceId, this`borrowerName, this`isBorrowModalOpen
      ensures selectedDeviceId == Some(deviceId) && borrowerName == "" && isBorrowModalOpen
    {
      selectedDeviceId := Some(deviceId);
      borrowerName := "";
      isBorrowModalOpen := true;
    }

    /** handleBorrow.  Only a successful save closes the dialog. */
    method HandleBorrow(recordId: string, updatedAt: nat, loggedAt: nat)
      modifies this`data, this`storageError, this`isBorrowModalOpen, store`items
      ensures var next := BorrowDevice(old(data), old(selectedDeviceId), old(borrowerName), recordId, updatedAt, loggedAt);
        if next.None? then
          unchanged(this, store)
        else
          && data == next.value
          && storageError == SaveError(next.value)
          && (storageError.Some? ==> unchanged(store) && isBorrowModalOpen == old(isBorrowModalOpen))
          && (storageError.None? ==> store.items == old(store.items)[StorageKey := store.json.stringify(data)] && Persisted() && !isBorrowModalOpen)
      ensures old(Valid()) ==> Valid()
    {
      var next := BorrowDevice(data, selectedDeviceId, borrowerName, recordId, updatedAt, loggedAt);
      if next.None? {
        return;
      }
      var saved := Commit(next.value);
      if !saved {
        return;
      }
      isBorrowModalOpen := false;
    }

    /** openReturnModal. */
    method OpenReturnModal(deviceId: string)
      modifies this`selectedDeviceId, this`isReturnModalOpen
      ensures selectedDeviceId == Some(deviceId) && isReturnModalOpen
    {
      selectedDeviceId := Some(deviceId);
      isReturnModalOpen := true;
    }

    /** handleReturn.  Only a successful save closes the dialog. */
    method HandleReturn(recordId: string, updatedAt: nat, loggedAt: nat)
      modifies this`data, this`storageError, this`isReturnModalOpen, store`items
      ensures var next := ReturnDevice(old(data), old(selectedDeviceId), recordId, updatedAt, loggedAt);
        if next.None? then
          unchanged(this, store)
        else
          && data == next.value
          && storageError == SaveError(next.value)
          && (storageError.Some? ==> unchanged(store) && isReturnModalOpen == old(isReturnModalOpen))
          && (storageError.None? ==> store.items == old(store.items)[StorageKey := store.json.stringify(data)] && Persisted() && !isReturnModalOpen)
      ensures old(Valid()) ==> Valid()
    {
      var next := ReturnDevice(data, selectedDeviceId, recordId, updatedAt, loggedAt);
      if next.None? {
        return;
      }
      var saved := Commit(next.value);
      if !saved {
        return;
      }
      isReturnModalOpen := false;
    }

    /** openDeleteModal. */
    method OpenDeleteModal(deviceId: string)
      modifies this`deviceToDeleteId, this`isDeleteModalOpen
      ensures deviceToDeleteId == Some(deviceId) && isDeleteModalOpen
    {
      deviceToDeleteId := Some(deviceId);
      isDeleteModalOpen := true;
    }

    /** handleDelete.  Only a successful save closes the dialog and forgets
        the target. */
    method HandleDelete(recordId: string, loggedAt: nat)
      modifies this`data, this`storageError, this`isDeleteModalOpen, this`deviceToDeleteId, store`items
      ensures var next := DeleteDevice(old(data), old(deviceToDeleteId), recordId, loggedAt);
        if next.None? then
          unchanged(this, store)
        else
          && data == next.value
          && storageError == SaveError(next.value)
          && (storageError.Some? ==> unchanged(store) && unchanged(this`isDeleteModalOpen, this`deviceToDeleteId))
          && (storageError.None? ==> store.items == old(store.items)[StorageKey := store.json.stringify(data)] && Persisted() && !isDeleteModalOpen && deviceToDeleteId.None?)
      ensures old(Valid()) ==> Valid()
    {
      var next := DeleteDevice(data, deviceToDeleteId, recordId, loggedAt);
      if next.None? {
        return;
      }
      if Valid() {
        DeletePreservesWellFormed(data, deviceToDeleteId, recordId, loggedAt);
      }
      var saved := Commit(next.value);
      if !saved {
        return;
      }
      isDeleteModalOpen := false;
      deviceToDeleteId := None;
    }

    /** The banner's dismiss button. */
    method DismissError()
      modifies this`storageError
      ensures storageError.None?
    {
      storageError := None;
    }

    /** handleImageUpload, with the reader's outcome as an input.  No file:
        nothing happens; a refused file sets the matching error; an accepted
        one is read and its callbacks run. */
    method HandleImageUpload(file: Option<ImageFile>, read: ReadOutcome)
      modifies this`storageError, this`newDeviceImage
      ensures file.None? ==> unchanged(this)
      ensures file.Some? ==>
        match ValidateImage(file.value.mime, file.value.size)
        case BadType => storageError == Some(InvalidImageType) && newDeviceImage == old(newDeviceImage)
        case TooLarge(size) => storageError == Some(ImageTooLarge(size)) && newDeviceImage == old(newDeviceImage)
        case Accepted => (newDeviceImage, storageError) == ReadCallbacks(read, old(newDeviceImage), old(storageError))
    {
      if file.None? {
        return;
      }
      var check := ValidateImage(file.value.mime, file.value.size);
      match check
      case BadType =>
        storageError := Some(InvalidImageType);
      case TooLarge(size) =>
        storageError := Some(ImageTooLarge(size));
      case Accepted =>
        var after := ReadCallbacks(read, newDeviceImage, storageError);
        newDeviceImage := after.0;
        storageError := after.1;
    }

    /** The wallpaper effect, run once on mount on day `today`, with the
        request's outcome as an input.  It settles on Refresh's decision and
        writes the cache only after a successful fetch. */
    method InitializeWallpaper(today: LocalDate, outcome: FetchOutcome) returns (fetched: bool)
      modifies this`bgUrl, this`isBgLoading, store`items
      ensures var plan := Refresh(old(StoredWallpaper(store.items)), old(FetchedOn(store.items, today)), outcome);
        && bgUrl == plan.url && isBgLoading == plan.loading
        && fetched == plan.fetches
        && store.items == (if plan.saves.Some? then WallpaperSaved(old(store.items), plan.saves.value, today)
                           else old(store.items))
    {
      var saved := store.LoadWallpaper();
      if Present(saved) {
        bgUrl := saved.value;
        isBgLoading := false;
      }
      var fetchedToday := store.IsWallpaperFetchedToday(today);
      if fetchedToday {
        if !Present(saved) {
          bgUrl := FallbackUrl;
        }
        isBgLoading := false;
        return false;
      }
      if !Present(saved) {
        isBgLoading := true;
      }
      if outcome.Fetched? && outcome.url != "" {
        store.SaveWallpaper(outcome.url, today);
        bgUrl := outcome.url;
      } else if !Present(saved) {
        bgUrl := FallbackUrl;
      }
      isBgLoading := false;
      return true;
    }
  }
}
