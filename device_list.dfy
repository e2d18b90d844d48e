// components/DeviceList.tsx: the status filter above the grid, the icon each
// card shows for its device type, and the buttons each card offers.

module DeviceList {
  import opened Types
  import opened Util
  import opened Inventory

  // ---- Status filter --------------------------------------------------------

  /** The `filter` state: 'all' or one status. */
  datatype StatusFilter = All | Only(status: DeviceStatus)

  /** The test `filter === 'all' || d.status === filter`. */
  function Shows(filter: StatusFilter): Device -> bool {
    (d: Device) => filter.All? || d.status == filter.status
  }

  /** filteredDevices. */
  function FilteredDevices(devices: seq<Device>, filter: StatusFilter): (r: seq<Device>)
    ensures filter.All? ==> r == devices
    ensures filter.Only? ==> forall i :: 0 <= i < |r| ==> r[i].status == filter.status
  {
    if filter.All? then FilterKeepsAll(devices, Shows(filter)); Filter(devices, Shows(filter))
    else Filter(devices, Shows(filter))
  }

  /** A status filter keeps, in their order, exactly the devices with that
      status, each as often as it occurs. */
  lemma FilteredDevicesExact(devices: seq<Device>, status: DeviceStatus, d: Device)
    ensures IsSubsequence(FilteredDevices(devices, Only(status)), devices)
    ensures multiset(FilteredDevices(devices, Only(status)))[d]
         == if d.status == status then multiset(devices)[d] else 0
  {
    FilterIsSubsequence(devices, Shows(Only(status)));
    FilterCount(devices, Shows(Only(status)), d);
  }

  /** The two status tabs list as many devices as the dashboard's counters
      report. */
  lemma FilterTabsMatchStats(devices: seq<Device>)
    ensures |FilteredDevices(devices, Only(Available))| == DeviceStats(devices).available
    ensures |FilteredDevices(devices, Only(Borrowed))| == DeviceStats(devices).borrowed
  {
    FilterSamePredicate(devices, Shows(Only(Available)), IsAvailable);
    FilterSamePredicate(devices, Shows(Only(Borrowed)), IsBorrowed);
  }

  // ---- Icons ----------------------------------------------------------------

  /** The eighteen icon components of the lookup table. */
  datatype Icon =
    | Laptop | Smartphone | Camera | Headphones | Keyboard | Box
    | Tablet | Monitor | Printer | Server | HardDrive | Mouse
    | Speaker | Gamepad2 | Watch | Tv | Radio | Package

  /** The table's key for each component (its export name). */
  function IconName(icon: Icon): string {
    match icon
    case Laptop => "Laptop"
    case Smartphone => "Smartphone"
    case Camera => "Camera"
    case Headphones => "Headphones"
    case Keyboard => "Keyboard"
    case Box => "Box"
    case Tablet => "Tablet"
    case Monitor => "Monitor"
    case Printer => "Printer"
    case Server => "Server"
    case HardDrive => "HardDrive"
    case Mouse => "Mouse"
    case Speaker => "Speaker"
    case Gamepad2 => "Gamepad2"
    case Watch => "Watch"
    case Tv => "Tv"
    case Radio => "Radio"
    case Package => "Package"
  }

  /** `iconMap`, by its own keys: the component exported under `name`. */
  function IconNamed(name: string): (r: Option<Icon>)
    ensures r.Some? ==> IconName(r.value) == name
  {
    match name
    case "Laptop" => Some(Laptop)
    case "Smartphone" => Some(Smartphone)
    case "Camera" => Some(Camera)
    case "Headphones" => Some(Headphones)
    case "Keyboard" => Some(Keyboard)
    case "Box" => Some(Box)
    case "Tablet" => Some(Tablet)
    case "Monitor" => Some(Monitor)
    case "Printer" => Some(Printer)
    case "Server" => Some(Server)
    case "HardDrive" => Some(HardDrive)
    case "Mouse" => Some(Mouse)
    case "Speaker" => Some(Speaker)
    case "Gamepad2" => Some(Gamepad2)
    case "Watch" => Some(Watch)
    case "Tv" => Some(Tv)
    case "Radio" => Some(Radio)
    case "Package" => Some(Package)
    case _ => None
  }

  /** Every component of the table is found under its own name. */
  lemma IconNamesResolve(icon: Icon)
    ensures IconNamed(IconName(icon)) == Some(icon)
  {
  }

  /** The members every object literal inherits from Object.prototype, all of
      them truthy. */
  predicate Inherited(name: string) {
    name in ["constructor", "hasOwnProperty", "isPrototypeOf", "propertyIsEnumerable",
             "toLocaleString", "toString", "valueOf", "__proto__",
             "__defineGetter__", "__defineSetter__", "__lookupGetter__", "__lookupSetter__"]
  }

  /** What `iconMap[iconName] || Box` yields: a component, or an inherited
      prototype member that is not one. */
  datatype Lookup = Component(icon: Icon) | InheritedMember(name: string)

  /** getIconComponent as written: the bracket lookup also finds inherited
      members, which are truthy and so are returned instead of Box. */
  function GetIconComponentAsWritten(iconName: string): (r: Lookup)
    ensures IconNamed(iconName).Some? ==> r == Component(IconNamed(iconName).value)
    ensures IconNamed(iconName).None? && !Inherited(iconName) ==> r == Component(Box)
  {
    match IconNamed(iconName)
    case Some(icon) => Component(icon)
    case None => if Inherited(iconName) then InheritedMember(iconName) else Component(Box)
  }

  /** An icon name such as "toString" yields a function that is not an icon
      component. */
  lemma InheritedNameIsNotAnIcon(name: string)
    requires name == "toString"
    ensures GetIconComponentAsWritten(name) == InheritedMember(name)
  {
    assert IconNamed(name).None?;
  }

  /** getIconComponent as intended: only the table's own keys resolve, and
      every other name, inherited member names included, falls back to Box. */
  function GetIconComponent(iconName: string): (r: Icon)
    ensures IconNamed(iconName).Some? ==> r == IconNamed(iconName).value
    ensures IconNamed(iconName).None? ==> r == Box
    ensures r != Box ==> IconName(r) == iconName
  {
    match IconNamed(iconName)
    case Some(icon) => icon
    case None => Box
  }

  /** The corrected lookup returns a component for every inherited name,
      and it is Box. */
  lemma InheritedNameGivesBox(name: string)
    requires Inherited(name)
    ensures GetIconComponent(name) == Box
  {
    assert IconNamed(name).None?;
  }

  /** The icon a card shows and its colour class. */
  datatype IconChoice = IconChoice(icon: Icon, color: string)

  /** An entry of `deviceTypeMap`: an icon name and a colour class. */
  datatype TypeStyle = TypeStyle(icon: string, color: string)

  const LaptopWords: seq<string> := ["laptop", "mac"]
  const PhoneWords: seq<string> := ["phone", "mobile", "android", "ios"]
  const CameraWords: seq<string> := ["camera"]
  const AudioWords: seq<string> := ["audio", "mic"]
  const AccessoryWords: seq<string> := ["accessory"]

  /** Some keyword of `words` occurs in `t`. */
  predicate Mentions(t: string, words: seq<string>) {
    exists w :: w in words && Contains(t, w)
  }

  /** The keyword lists spelled out as the chains of `includes` tests. */
  lemma KeywordLists(t: string)
    ensures Mentions(t, LaptopWords) <==> Contains(t, "laptop") || Contains(t, "mac")
    ensures Mentions(t, PhoneWords) <==>
              Contains(t, "phone") || Contains(t, "mobile") || Contains(t, "android") || Contains(t, "ios")
    ensures Mentions(t, CameraWords) <==> Contains(t, "camera")
    ensures Mentions(t, AudioWords) <==> Contains(t, "audio") || Contains(t, "mic")
    ensures Mentions(t, AccessoryWords) <==> Contains(t, "accessory")
  {
  }

  /** The keyword fallback on the lower-cased type: the first rule whose
      keywords occur wins, and Box in gray when none does. */
  function KeywordIcon(t: string): (r: IconChoice)
    ensures r.icon == Laptop <==> Mentions(t, LaptopWords)
    ensures r.icon == Smartphone <==> !Mentions(t, LaptopWords) && Mentions(t, PhoneWords)
    ensures r.icon == Camera <==> !Mentions(t, LaptopWords) && !Mentions(t, PhoneWords) && Mentions(t, CameraWords)
    ensures r.icon == Headphones <==>
              !Mentions(t, LaptopWords) && !Mentions(t, PhoneWords) && !Mentions(t, CameraWords) && Mentions(t, AudioWords)
    ensures r.icon == Keyboard <==>
              !Mentions(t, LaptopWords) && !Mentions(t, PhoneWords) && !Mentions(t, CameraWords)
              && !Mentions(t, AudioWords) && Mentions(t, AccessoryWords)
    ensures r.icon == Box <==>
              !Mentions(t, LaptopWords) && !Mentions(t, PhoneWords) && !Mentions(t, CameraWords)
              && !Mentions(t, AudioWords) && !Mentions(t, AccessoryWords)
    ensures r.color == KeywordColor(r.icon)
  {
    KeywordLists(t);
    if Contains(t, "laptop") || Contains(t, "mac") then IconChoice(Laptop, "text-blue-600")
    else if Contains(t, "phone") || Contains(t, "mobile") || Contains(t, "android") || Contains(t, "ios") then
      IconChoice(Smartphone, "text-purple-600")
    else if Contains(t, "camera") then IconChoice(Camera, "text-rose-600")
    else if Contains(t, "audio") || Contains(t, "mic") then IconChoice(Headphones, "text-pink-600")
    else if Contains(t, "accessory") then IconChoice(Keyboard, "text-amber-600")
    else IconChoice(Box, "text-gray-600")
  }

  /** The colour class each keyword rule pairs with its icon. */
  function KeywordColor(icon: Icon): string {
    match icon
    case Laptop => "text-blue-600"
    case Smartphone => "text-purple-600"
    case Camera => "text-rose-600"
    case Headphones => "text-pink-600"
    case Keyboard => "text-amber-600"
    case _ => "text-gray-600"
  }

  /** getIcon: a `deviceTypeMap` entry for the type wins; otherwise the
      keyword rules decide. */
  function GetIcon(typeMap: Option<map<string, TypeStyle>>, kind: string): (r: IconChoice)
    ensures typeMap.Some? && kind in typeMap.value ==>
              r.color == typeMap.value[kind].color && r.icon == GetIconComponent(typeMap.value[kind].icon)
    ensures !(typeMap.Some? && kind in typeMap.value) ==> r == KeywordIcon(ToLower(kind))
  {
    if typeMap.Some? && kind in typeMap.value then
      var style := typeMap.value[kind];
      IconChoice(GetIconComponent(style.icon), style.color)
    else KeywordIcon(ToLower(kind))
  }

  /** Without a map entry, the case of the type name does not matter. */
  lemma GetIconIgnoresCase(typeMap: Option<map<string, TypeStyle>>, kind: string)
    requires typeMap.None? || (kind !in typeMap.value && ToLower(kind) !in typeMap.value)
    ensures GetIcon(typeMap, kind) == GetIcon(typeMap, ToLower(kind))
  {
    ToLowerIdempotent(kind);
  }

  /** Which keywords occur in "microphone". */
  lemma MicrophoneKeywords(t: string)
    requires t == "microphone"
    ensures Contains(t, "phone") && Contains(t, "mic")
    ensures !Contains(t, "laptop") && !Contains(t, "mac")
  {
    MissingCharNotContained(t, "laptop", 'l');
    MissingCharNotContained(t, "mac", 'a');
    assert t[5..10] == "phone" && t[0..3] == "mic";
    ContainsAt(t, "phone", 5);
    ContainsAt(t, "mic", 0);
  }

  /** The rules are tried in order: "microphone" matches both the phone
      rule and the audio rule, and the phone rule, tried first, decides. */
  lemma RuleOrderMicrophone(t: string)
    requires t == "microphone"
    ensures Mentions(t, PhoneWords) && Mentions(t, AudioWords)
    ensures KeywordIcon(t).icon == Smartphone
  {
    MicrophoneKeywords(t);
    KeywordLists(t);
  }

  // ---- Card buttons ---------------------------------------------------------

  datatype CardAction = BorrowAction | ReturnAction | DeleteAction

  /** The buttons at the foot of a card, left to right. */
  function CardActions(d: Device): (r: seq<CardAction>)
    ensures |r| == 2 && r[1] == DeleteAction
    ensures r[0] == BorrowAction <==> d.status == Available
    ensures r[0] == ReturnAction <==> d.status == Borrowed
  {
    [if d.status == Available then BorrowAction else ReturnAction, DeleteAction]
  }

  /** Every button a card offers is carried out by its handler.  When the
      card is the first one with its id and the list keeps the borrower
      invariant, a Return is only offered for a device with a borrower, so
      the `return` record names one. */
  lemma OfferedActionsApply(data: AppData, i: nat, borrowerName: string, recordId: string, at: nat)
    requires i < |data.devices| && data.devices[i].id != ""
    requires FindIndex(data.devices, data.devices[i].id) == Some(i)
    requires AllWellFormed(data.devices)
    ensures var d := data.devices[i];
      && (BorrowAction in CardActions(d) && borrowerName != "" ==>
            BorrowDevice(data, Some(d.id), borrowerName, recordId, at, at).Some?)
      && (ReturnAction in CardActions(d) ==>
            var r := ReturnDevice(data, Some(d.id), recordId, at, at);
            r.Some? && Present(r.value.history[0].borrower))
      && DeleteDevice(data, Some(d.id), recordId, at).Some?
  {
    assert WellFormed(data.devices[i]);
  }
}
