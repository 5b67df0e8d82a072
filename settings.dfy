/**
 * The settings window (src/settings.rs): four text fields kept in eframe's
 * key-value storage, the optional-u16 parsing of the two USB id fields, the
 * device id they describe, and the window's open/close and save logic.
 */
module AppSettings {
  import opened Prelude
  import opened Decimal
  import opened Device

  /** `SettingStringField<u16>`: the text as typed. */
  datatype SettingStringField = SettingStringField(s: string)

  /** `SettingStringField::parse`: empty text is no id; other text must be a `u16` in Rust's syntax. */
  function ParseField(f: SettingStringField): Result<Option<uint16>, IntErrorKind> {
    if f.s == [] then Ok(None)
    else
      match ParseUnsigned(f.s, U16_MAX)
      case Ok(v) => Ok(Some(v as uint16))
      case Err(k) => Err(k)
  }

  /**
   * A field parses to no id exactly when it is empty, and to an id exactly when
   * it is, after one optional `+`, a non-empty run of digits worth at most
   * 65535 — that value; anything else is an error.
   */
  lemma ParseFieldIff(f: SettingStringField)
    ensures ParseField(f) == Ok(None) <==> f.s == []
    ensures ParseField(f).Ok? <==>
      f.s == [] || (|Unsigned(f.s)| > 0 && AllDigits(Unsigned(f.s)) && DigitsValue(Unsigned(f.s)) <= U16_MAX)
    ensures ParseField(f).Ok? && f.s != [] ==> ParseField(f) == Ok(Some(DigitsValue(Unsigned(f.s)) as uint16))
  {
    ParseUnsignedCorrect(f.s, U16_MAX);
  }

  /** The text a field shows for an id: empty for none, decimal otherwise. */
  function FieldText(id: Option<uint16>): SettingStringField {
    if id.None? then SettingStringField("") else SettingStringField(DecimalString(id.value))
  }

  /** Every id, present or not, survives being written into a field and parsed back. */
  lemma FieldRoundTrip(id: Option<uint16>)
    ensures ParseField(FieldText(id)) == Ok(id)
  {
    if id.Some? {
      DecimalRoundTrip(id.value, U16_MAX);
    }
  }

  datatype Settings = Settings(
    windowTitle: string,
    productId: SettingStringField,
    vendorId: SettingStringField,
    serialNumber: string)

  /** `(!serial.is_empty()).then(|| serial.clone())`. */
  function SerialOf(serial: string): Option<string> {
    if serial == [] then None else Some(serial)
  }

  /** `Settings::deviceid`: `None` when either id field does not parse. */
  function DeviceIdOf(settings: Settings): Option<DeviceId> {
    match (ParseField(settings.productId), ParseField(settings.vendorId))
    case (Ok(pid), Ok(vid)) => Some(DeviceId(vid, pid, SerialOf(settings.serialNumber)))
    case _ => None
  }

  /**
   * The device id is absent exactly when an id field fails to parse; otherwise
   * its ids are the parsed ones (`None` for an empty field) and its serial
   * number is absent exactly when the serial field is empty.
   */
  lemma DeviceIdOfIff(settings: Settings)
    ensures DeviceIdOf(settings).None? <==>
      ParseField(settings.productId).Err? || ParseField(settings.vendorId).Err?
    ensures DeviceIdOf(settings).Some? ==>
      && DeviceIdOf(settings).value.productId == ParseField(settings.productId).value
      && DeviceIdOf(settings).value.vendorId == ParseField(settings.vendorId).value
      && (DeviceIdOf(settings).value.serialNumber.None? <==> settings.serialNumber == [])
      && (settings.serialNumber != [] ==> DeviceIdOf(settings).value.serialNumber == Some(settings.serialNumber))
  {
  }

  /** Settings whose fields show a device id. */
  function SettingsFor(title: string, devid: DeviceId): Settings {
    Settings(title, FieldText(devid.productId), FieldText(devid.vendorId),
      if devid.serialNumber.Some? then devid.serialNumber.value else "")
  }

  /** Every device id whose serial number, when present, is non-empty is described exactly by the settings that show it. */
  lemma DeviceIdRoundTrip(title: string, devid: DeviceId)
    requires devid.serialNumber != Some("")
    ensures DeviceIdOf(SettingsFor(title, devid)) == Some(devid)
  {
    FieldRoundTrip(devid.productId);
    FieldRoundTrip(devid.vendorId);
  }

  const WINDOW_TITLE_KEY: string := "ccdisplay.windowtitle"
  const PRODUCT_ID_KEY: string := "ccdisplay.pid"
  const VENDOR_ID_KEY: string := "ccdisplay.vid"
  const SERIAL_NUMBER_KEY: string := "ccdisplay.serialnum"
  const DEFAULT_WINDOW_TITLE: string := "CCDisplay"

  /** `storage.get_string(key)`, with `default` when the key is absent. */
  function GetOr(storage: map<string, string>, key: string, default: string): string {
    if key in storage then storage[key] else default
  }

  /** `Settings::from_storage`. */
  function FromStorage(storage: map<string, string>): Settings {
    Settings(
      GetOr(storage, WINDOW_TITLE_KEY, DEFAULT_WINDOW_TITLE),
      SettingStringField(GetOr(storage, PRODUCT_ID_KEY, "")),
      SettingStringField(GetOr(storage, VENDOR_ID_KEY, "")),
      GetOr(storage, SERIAL_NUMBER_KEY, ""))
  }

  /** Empty storage gives the title "CCDisplay" and no device id constraints. */
  lemma FromEmptyStorage()
    ensures FromStorage(map[]) == Settings(DEFAULT_WINDOW_TITLE, SettingStringField(""), SettingStringField(""), "")
    ensures DeviceIdOf(FromStorage(map[])) == Some(DeviceId(None, None, None))
  {
  }

  /** Storage after `Settings::save`: the four keys written, in order. */
  function SaveTo(settings: Settings, storage: map<string, string>): map<string, string> {
    storage[WINDOW_TITLE_KEY := settings.windowTitle]
      [PRODUCT_ID_KEY := settings.productId.s]
      [VENDOR_ID_KEY := settings.vendorId.s]
      [SERIAL_NUMBER_KEY := settings.serialNumber]
  }

  /**
   * Loading what was saved gives back the same settings, whatever the storage
   * held before; saving touches the four keys and no other.
   */
  lemma SaveLoadRoundTrip(settings: Settings, storage: map<string, string>)
    ensures FromStorage(SaveTo(settings, storage)) == settings
    ensures SaveTo(settings, storage).Keys == storage.Keys + {WINDOW_TITLE_KEY, PRODUCT_ID_KEY, VENDOR_ID_KEY, SERIAL_NUMBER_KEY}
    ensures forall k :: k in storage && k !in {WINDOW_TITLE_KEY, PRODUCT_ID_KEY, VENDOR_ID_KEY, SERIAL_NUMBER_KEY} ==>
      SaveTo(settings, storage)[k] == storage[k]
  {
    assert WINDOW_TITLE_KEY != PRODUCT_ID_KEY by { assert WINDOW_TITLE_KEY[10] != PRODUCT_ID_KEY[10]; }
    assert WINDOW_TITLE_KEY != VENDOR_ID_KEY by { assert WINDOW_TITLE_KEY[10] != VENDOR_ID_KEY[10]; }
    assert WINDOW_TITLE_KEY != SERIAL_NUMBER_KEY by { assert WINDOW_TITLE_KEY[10] != SERIAL_NUMBER_KEY[10]; }
    assert PRODUCT_ID_KEY != VENDOR_ID_KEY by { assert PRODUCT_ID_KEY[10] != VENDOR_ID_KEY[10]; }
    assert PRODUCT_ID_KEY != SERIAL_NUMBER_KEY by { assert PRODUCT_ID_KEY[10] != SERIAL_NUMBER_KEY[10]; }
    assert VENDOR_ID_KEY != SERIAL_NUMBER_KEY by { assert VENDOR_ID_KEY[10] != SERIAL_NUMBER_KEY[10]; }
  }

  /** eframe's key-value storage. */
  class EframeStorage {
    var entries: map<string, string>

    constructor (entries: map<string, string>)
      ensures this.entries == entries
    {
      this.entries := entries;
    }

    method SetString(key: string, value: string)
      modifies this
      ensures entries == old(entries)[key := value]
    {
      entries := entries[key := value];
    }
  }

  /** `Settings::save`. */
  method Save(settings: Settings, storage: EframeStorage)
    modifies storage
    ensures storage.entries == SaveTo(settings, old(storage.entries))
  {
    storage.SetString(WINDOW_TITLE_KEY, settings.windowTitle);
    storage.SetString(PRODUCT_ID_KEY, settings.productId.s);
    storage.SetString(VENDOR_ID_KEY, settings.vendorId.s);
    storage.SetString(SERIAL_NUMBER_KEY, settings.serialNumber);
  }

  /**
   * What one frame brings to the settings window: Alt+S, Escape, the four
   * fields as the user leaves them after this frame's edits, a click on Save,
   * and a click on the window's close button.
   */
  datatype WindowInput = WindowInput(altS: bool, escape: bool, edited: Settings, saveClicked: bool, closeClicked: bool)

  /** What one frame does outside the window's state: the window title it sets, and the device id it sends. */
  datatype WindowOutput = WindowOutput(title: Option<string>, sent: Option<DeviceId>)

  datatype WindowModel = WindowModel(open: bool, firstRender: bool, settings: Settings, stored: map<string, string>)

  /** `SettingsWindow::new`. */
  function NewWindow(settings: Settings, stored: map<string, string>): WindowModel {
    WindowModel(false, true, settings, stored)
  }

  /** Whether the window is open when it is about to be shown: Alt+S toggles it, then Escape closes it. */
  function OpenBeforeShow(open: bool, altS: bool, escape: bool): bool {
    var toggled := if altS then !open else open;
    toggled && !escape
  }

  /** One call of `SettingsWindow::update`. */
  function WindowStep(m: WindowModel, input: WindowInput): (WindowModel, WindowOutput) {
    var title := if m.firstRender then Some(m.settings.windowTitle) else None;
    if !OpenBeforeShow(m.open, input.altS, input.escape) then
      (m.(open := false, firstRender := false), WindowOutput(title, None))
    else
      var pid := ParseField(m.settings.productId);
      var vid := ParseField(m.settings.vendorId);
      var edited := input.edited;
      if pid.Ok? && vid.Ok? && input.saveClicked then
        var devid := DeviceId(vid.value, pid.value, SerialOf(edited.serialNumber));
        (WindowModel(false, false, edited, SaveTo(edited, m.stored)), WindowOutput(title, Some(devid)))
      else
        (WindowModel(!input.closeClicked, false, edited, m.stored), WindowOutput(title, None))
  }

  /** Alt+S opens a closed window and closes an open one; Escape always leaves it closed. */
  lemma OpenCloseKeys(m: WindowModel, input: WindowInput)
    ensures input.escape ==> !WindowStep(m, input).0.open
    ensures !input.escape ==> (OpenBeforeShow(m.open, input.altS, input.escape) <==> m.open != input.altS)
  {
  }

  /** A window that is not shown keeps its fields and storage and sends nothing. */
  lemma HiddenWindowInert(m: WindowModel, input: WindowInput)
    requires !OpenBeforeShow(m.open, input.altS, input.escape)
    ensures var (m', out) := WindowStep(m, input);
      m' == m.(open := false, firstRender := false) && out.sent.None?
  {
  }

  /**
   * In a shown window, Save is usable exactly when both id fields parse (as they
   * stood before this frame's edits); a click on it sends the device id of the
   * parsed ids and the edited serial number, saves the edited settings, and
   * closes the window.
   */
  lemma SaveSendsAndCloses(m: WindowModel, input: WindowInput)
    requires OpenBeforeShow(m.open, input.altS, input.escape)
    ensures var (m', out) := WindowStep(m, input);
      && (out.sent.Some? <==> ParseField(m.settings.productId).Ok? && ParseField(m.settings.vendorId).Ok? && input.saveClicked)
      && (out.sent.Some? ==>
            && out.sent.value.productId == ParseField(m.settings.productId).value
            && out.sent.value.vendorId == ParseField(m.settings.vendorId).value
            && out.sent.value.serialNumber == SerialOf(input.edited.serialNumber)
            && !m'.open && FromStorage(m'.stored) == input.edited)
      && (out.sent.None? ==> m'.stored == m.stored && (m'.open <==> !input.closeClicked))
      && m'.settings == input.edited
  {
    SaveLoadRoundTrip(input.edited, m.stored);
  }

  /** The window titles a sequence of frames sets. */
  function Titles(m: WindowModel, inputs: seq<WindowInput>): seq<Option<string>>
    decreases |inputs|
  {
    if inputs == [] then []
    else
      var step := WindowStep(m, inputs[0]);
      [step.1.title] + Titles(step.0, inputs[1..])
  }

  /** The title is set in the first frame of a new window, to the stored title, and never again. */
  lemma {:induction false} TitleOnFirstFrameOnly(m: WindowModel, inputs: seq<WindowInput>)
    requires m.firstRender
    ensures |Titles(m, inputs)| == |inputs|
    ensures |inputs| > 0 ==> Titles(m, inputs)[0] == Some(m.settings.windowTitle)
    ensures forall i :: 0 < i < |inputs| ==> Titles(m, inputs)[i] == None
  {
    if inputs != [] {
      NoTitleAfterFirst(WindowStep(m, inputs[0]).0, inputs[1..]);
    }
  }

  lemma {:induction false} NoTitleAfterFirst(m: WindowModel, inputs: seq<WindowInput>)
    requires !m.firstRender
    ensures |Titles(m, inputs)| == |inputs|
    ensures forall i :: 0 <= i < |inputs| ==> Titles(m, inputs)[i] == None
    decreases |inputs|
  {
    if inputs != [] {
      NoTitleAfterFirst(WindowStep(m, inputs[0]).0, inputs[1..]);
    }
  }

  /** `SettingsWindow`, with the device-id channel as the sequence of ids sent on it. */
  class SettingsWindow {
    var open: bool
    var firstRender: bool
    var settings: Settings
    var sent: seq<DeviceId>
    const storage: EframeStorage

    ghost function Model(): WindowModel
      reads this, storage
    {
      WindowModel(open, firstRender, settings, storage.entries)
    }

    constructor (settings: Settings, storage: EframeStorage)
      ensures Model() == NewWindow(settings, old(storage.entries)) && sent == []
    {
      open := false;
      firstRender := true;
      this.settings := settings;
      sent := [];
      this.storage := storage;
    }

    /** `update`, without the rendering; returns the window title it sets. */
    method Update(input: WindowInput) returns (title: Option<string>)
      modifies this, storage
      ensures var (m', out) := WindowStep(old(Model()), input);
        && Model() == m' && title == out.title
        && sent == old(sent) + (if out.sent.Some? then [out.sent.value] else [])
    {
      title := if firstRender then Some(settings.windowTitle) else None;
      firstRender := false;
      if input.altS {
        open := !open;
      }
      if open && input.escape {
        open := false;
      }
      var close := false;
      if open {
        var productId := ParseField(settings.productId);
        var vendorId := ParseField(settings.vendorId);
        settings := input.edited;
        if productId.Ok? && vendorId.Ok? && input.saveClicked {
          sent := sent + [DeviceId(vendorId.value, productId.value, SerialOf(settings.serialNumber))];
          Save(settings, storage);
          close := true;
        } else if input.closeClicked {
          open := false;
        }
      }
      if close {
        open := false;
      }
    }
  }
}
