/**
 * The camera side (src/video.rs): choosing a stream format by an ordered list
 * of preferences, converting a decoded RGB frame into the RGBA pixels of the
 * texture, deciding when a streaming session ends, and the hotplug filter.
 */
module Video {
  import opened Prelude
  import opened Device

  datatype Ordering = Less | Equal | Greater

  /** uvc's frame formats; all but `Uncompressed` are told apart only by a code here. */
  datatype FrameFormat = Uncompressed | Other(code: nat)

  datatype StreamFormat = StreamFormat(width: uint32, height: uint32, fps: uint32, format: FrameFormat)

  /** A comparison of two formats, as one entry of the preference list. */
  type Preference = (StreamFormat, StreamFormat) -> Ordering

  function CompareNat(x: nat, y: nat): Ordering {
    if x < y then Less else if x > y then Greater else Equal
  }

  function CompareReal(x: real, y: real): Ordering {
    if x < y then Less else if x > y then Greater else Equal
  }

  /** `bool`'s order: `false < true`. */
  function CompareBool(x: bool, y: bool): Ordering {
    if x == y then Equal else if y then Less else Greater
  }

  /** Higher frame rate is preferred. */
  function ByFps(a: StreamFormat, b: StreamFormat): Ordering {
    CompareNat(a.fps, b.fps)
  }

  /** An uncompressed format is preferred to any other. */
  function ByUncompressed(a: StreamFormat, b: StreamFormat): Ordering {
    CompareBool(a.format == Uncompressed, b.format == Uncompressed)
  }

  /** 16:9, the aspect ratio the preference aims at. */
  const TARGET_RATIO: real := 16.0 / 9.0

  /** width / height, exactly. */
  function AspectRatio(f: StreamFormat): real {
    if f.height == 0 then 0.0 else f.width as real / f.height as real
  }

  function Abs(x: real): real {
    if x < 0.0 then -x else x
  }

  /** How far a format's aspect ratio is from 16:9. */
  function RatioDistance(f: StreamFormat): real {
    Abs(TARGET_RATIO - AspectRatio(f))
  }

  /** The ratio preference as written: `Reverse` of the signed difference `TARGET_RATIO - ratio`. */
  function ByRatioAsWritten(a: StreamFormat, b: StreamFormat): Ordering {
    CompareReal(TARGET_RATIO - AspectRatio(b), TARGET_RATIO - AspectRatio(a))
  }

  /** The ratio preference as intended: the format nearer 16:9 is preferred. */
  function ByRatioNearest(a: StreamFormat, b: StreamFormat): Ordering {
    CompareReal(RatioDistance(b), RatioDistance(a))
  }

  /** `FORMAT_PREFERENCES` as written. */
  const FORMAT_PREFERENCES: seq<Preference> := [ByFps, ByUncompressed, ByRatioAsWritten]

  /** `FORMAT_PREFERENCES` with the ratio preference as intended. */
  const FORMAT_PREFERENCES_CORRECTED: seq<Preference> := [ByFps, ByUncompressed, ByRatioNearest]

  /** What the chooser returns: the first preference that is not `Equal` decides, `b` on `Less`, `a` on `Greater`; `a` when all are `Equal`. */
  function Decide(prefs: seq<Preference>, a: StreamFormat, b: StreamFormat): (r: StreamFormat)
    ensures r == a || r == b
    decreases |prefs|
  {
    if prefs == [] then a
    else
      match prefs[0](a, b)
      case Less => b
      case Greater => a
      case Equal => Decide(prefs[1..], a, b)
  }

  /** The index of the first preference that tells `a` and `b` apart, or `|prefs|` when none does. */
  function FirstDecisive(prefs: seq<Preference>, a: StreamFormat, b: StreamFormat): (i: nat)
    ensures i <= |prefs|
    ensures forall j :: 0 <= j < i ==> prefs[j](a, b) == Equal
    ensures i < |prefs| ==> prefs[i](a, b) != Equal
    decreases |prefs|
  {
    if prefs == [] || prefs[0](a, b) != Equal then 0
    else
      var i := 1 + FirstDecisive(prefs[1..], a, b);
      assert forall j :: 1 <= j < i ==> prefs[j] == prefs[1..][j - 1];
      i
  }

  /** The chooser's answer is fixed by the first decisive preference alone. */
  lemma {:induction false} DecideByFirstDecisive(prefs: seq<Preference>, a: StreamFormat, b: StreamFormat)
    ensures var i := FirstDecisive(prefs, a, b);
      Decide(prefs, a, b) == (if i == |prefs| then a else if prefs[i](a, b) == Less then b else a)
    decreases |prefs|
  {
    if prefs != [] && prefs[0](a, b) == Equal {
      DecideByFirstDecisive(prefs[1..], a, b);
    }
  }

  /** The closure given to `get_preferred_format`: the preferences in order, returning early on the first decisive one. */
  method ChoosePreferred(prefs: seq<Preference>, a: StreamFormat, b: StreamFormat) returns (r: StreamFormat)
    ensures r == Decide(prefs, a, b)
  {
    for i := 0 to |prefs|
      invariant Decide(prefs, a, b) == Decide(prefs[i..], a, b)
    {
      assert prefs[i..][1..] == prefs[i + 1..];
      match prefs[i](a, b) {
        case Less => return b;
        case Greater => return a;
        case Equal =>
      }
    }
    assert prefs[|prefs|..] == [];
    return a;
  }

  /** A higher frame rate wins regardless of everything else, in the list as written and in the corrected one. */
  lemma HigherFpsWins(a: StreamFormat, b: StreamFormat)
    requires a.fps != b.fps
    ensures Decide(FORMAT_PREFERENCES, a, b) == if a.fps > b.fps then a else b
    ensures Decide(FORMAT_PREFERENCES_CORRECTED, a, b) == if a.fps > b.fps then a else b
  {
  }

  /** At equal frame rates an uncompressed format beats a compressed one, in the list as written and in the corrected one. */
  lemma UncompressedBreaksFpsTie(a: StreamFormat, b: StreamFormat)
    requires a.fps == b.fps && (a.format == Uncompressed) != (b.format == Uncompressed)
    ensures Decide(FORMAT_PREFERENCES, a, b) == if a.format == Uncompressed then a else b
    ensures Decide(FORMAT_PREFERENCES_CORRECTED, a, b) == if a.format == Uncompressed then a else b
  {
  }

  /** When frame rate and compression tie, the format nearer 16:9 wins, and `a` on an exact tie. */
  lemma NearestRatioBreaksRemainingTie(a: StreamFormat, b: StreamFormat)
    requires a.fps == b.fps && (a.format == Uncompressed) == (b.format == Uncompressed)
    ensures Decide(FORMAT_PREFERENCES_CORRECTED, a, b) == if RatioDistance(b) < RatioDistance(a) then b else a
  {
    DecideThree(FORMAT_PREFERENCES_CORRECTED, a, b);
    assert FORMAT_PREFERENCES_CORRECTED[2](a, b) == ByRatioNearest(a, b);
  }

  /** With three preferences the chooser looks at most at all three, in order. */
  lemma DecideThree(prefs: seq<Preference>, a: StreamFormat, b: StreamFormat)
    requires |prefs| == 3
    ensures Decide(prefs, a, b) ==
      if prefs[0](a, b) != Equal then (if prefs[0](a, b) == Less then b else a)
      else if prefs[1](a, b) != Equal then (if prefs[1](a, b) == Less then b else a)
      else if prefs[2](a, b) != Equal then (if prefs[2](a, b) == Less then b else a)
      else a
  {
    var rest1 := prefs[1..];
    var rest2 := rest1[1..];
    assert rest1[0] == prefs[1] && rest2[0] == prefs[2] && rest2[1..] == [];
    if prefs[0](a, b) == Equal {
      assert Decide(prefs, a, b) == Decide(rest1, a, b);
      if prefs[1](a, b) == Equal {
        assert Decide(rest1, a, b) == Decide(rest2, a, b);
      }
    }
  }

  /** As written, the ratio preference ranks formats by aspect ratio alone: the wider one wins. */
  lemma AsWrittenPrefersWider(a: StreamFormat, b: StreamFormat)
    ensures ByRatioAsWritten(a, b) == CompareReal(AspectRatio(a), AspectRatio(b))
  {
  }

  const FULL_HD: StreamFormat := StreamFormat(1920, 1080, 60, Uncompressed)
  const ULTRAWIDE: StreamFormat := StreamFormat(2560, 1080, 60, Uncompressed)

  /** As written, 2560x1080 is chosen over an exactly 16:9 1920x1080 at the same rate and compression. */
  lemma AsWrittenChoosesUltrawide()
    ensures RatioDistance(FULL_HD) == 0.0 && RatioDistance(ULTRAWIDE) > 0.0
    ensures Decide(FORMAT_PREFERENCES, FULL_HD, ULTRAWIDE) == ULTRAWIDE
    ensures Decide(FORMAT_PREFERENCES_CORRECTED, FULL_HD, ULTRAWIDE) == FULL_HD
  {
    assert AspectRatio(FULL_HD) == TARGET_RATIO;
    assert AspectRatio(ULTRAWIDE) == 64.0 / 27.0;
    DecideThree(FORMAT_PREFERENCES_CORRECTED, FULL_HD, ULTRAWIDE);
    DecideThree(FORMAT_PREFERENCES, FULL_HD, ULTRAWIDE);
    assert FORMAT_PREFERENCES_CORRECTED[2](FULL_HD, ULTRAWIDE) == ByRatioNearest(FULL_HD, ULTRAWIDE) == Greater;
    assert FORMAT_PREFERENCES[2](FULL_HD, ULTRAWIDE) == ByRatioAsWritten(FULL_HD, ULTRAWIDE) == Less;
  }

  /** egui's `Color32`, in premultiplied RGBA. */
  datatype Color32 = Color32(r: byte, g: byte, b: byte, a: byte)

  const TRANSPARENT: Color32 := Color32(0, 0, 0, 0)

  /** `Color32::from_rgb`: opaque. */
  function FromRgb(r: byte, g: byte, b: byte): Color32 {
    Color32(r, g, b, 255)
  }

  /** egui's `ColorImage`: `size` is [width, height]. */
  datatype ColorImage = ColorImage(width: nat, height: nat, pixels: seq<Color32>)

  /**
   * Pixel `i` of a frame converted from `rgb`: the `i`-th complete RGB triple,
   * opaque; transparent where `rgb` has no complete triple left.
   */
  function FramePixel(rgb: seq<byte>, i: nat): Color32 {
    if i < |rgb| / 3 then FromRgb(rgb[3 * i], rgb[3 * i + 1], rgb[3 * i + 2]) else TRANSPARENT
  }

  /** `img` is the frame `handle_frame` shows for a `width` x `height` frame whose RGB bytes are `rgb`. */
  ghost predicate IsFrameImage(img: ColorImage, width: nat, height: nat, rgb: seq<byte>) {
    && img.width == width && img.height == height
    && |img.pixels| == width * height
    && forall i :: 0 <= i < |img.pixels| ==> img.pixels[i] == FramePixel(rgb, i)
  }

  /**
   * The buffer fill of `handle_frame`: width*height transparent pixels, each
   * overwritten from one RGB triple, zipping stopping at whichever runs out first.
   */
  method RgbaPixels(width: nat, height: nat, rgb: seq<byte>) returns (pixels: seq<Color32>)
    ensures |pixels| == width * height
    ensures forall i :: 0 <= i < |pixels| ==> pixels[i] == FramePixel(rgb, i)
  {
    var rgba := new Color32[width * height](_ => TRANSPARENT);
    var n := if rgba.Length < |rgb| / 3 then rgba.Length else |rgb| / 3;
    for i := 0 to n
      invariant forall j :: 0 <= j < i ==> rgba[j] == FramePixel(rgb, j)
      invariant forall j :: i <= j < rgba.Length ==> rgba[j] == TRANSPARENT
    {
      rgba[i] := FromRgb(rgb[3 * i], rgb[3 * i + 1], rgb[3 * i + 2]);
    }
    pixels := rgba[..];
  }

  /** The texture handle the camera draws into, and the repaints it requests. */
  class EguiTexture {
    var image: Option<ColorImage>
    var repaints: nat

    constructor ()
      ensures image == None && repaints == 0
    {
      image := None;
      repaints := 0;
    }

    /** `set_texture`: replace the image and request a repaint. */
    method SetTexture(img: ColorImage)
      modifies this
      ensures image == Some(img) && repaints == old(repaints) + 1
    {
      image := Some(img);
      repaints := repaints + 1;
    }

    /** `handle_frame`, given the frame's size and the outcome of `frame.to_rgb()`. */
    method HandleFrame(width: uint32, height: uint32, rgb: Result<seq<byte>, string>)
      modifies this
      ensures rgb.Err? ==> image == old(image) && repaints == old(repaints)
      ensures rgb.Ok? ==>
        image.Some? && IsFrameImage(image.value, width as nat, height as nat, rgb.value) && repaints == old(repaints) + 1
    {
      if rgb.Err? {
        return;
      }
      var pixels := RgbaPixels(width as nat, height as nat, rgb.value);
      SetTexture(ColorImage(width as nat, height as nat, pixels));
    }
  }

  /** What the hotplug callback reports. */
  datatype UsbUpdate = Connected | Disconnected

  /** What the event selector in `go` receives: a USB update, or a new device id (`None` once the sender is gone). */
  datatype GoEvent = Usb(update: UsbUpdate) | NewDevid(devid: Option<DeviceId>)

  /** `ControlFlow::Break((forget_dev, switch_dev))`. */
  datatype GoExit = GoExit(forgetDevice: bool, switchDevice: bool)

  /** One event in `go`'s loop: whether it ends the session, and the device id afterwards. */
  function GoStep(devid: DeviceId, ev: GoEvent): (Option<GoExit>, DeviceId) {
    match ev
    case Usb(Disconnected) => (Some(GoExit(true, false)), devid)
    case Usb(Connected) => (None, devid)
    case NewDevid(Some(d)) => (Some(GoExit(false, d != devid)), d)
    case NewDevid(None) => (None, devid)
  }

  /** The events that end a session. */
  predicate Decisive(ev: GoEvent) {
    ev == Usb(Disconnected) || (ev.NewDevid? && ev.devid.Some?)
  }

  /** `go`'s loop over the events it receives: the exit, the device id, and how many events were taken. */
  function GoRun(devid: DeviceId, events: seq<GoEvent>): (Option<GoExit>, DeviceId, nat)
    decreases |events|
  {
    if events == [] then (None, devid, 0)
    else
      var (exit, d) := GoStep(devid, events[0]);
      if exit.Some? then (exit, d, 1)
      else
        var (exit', d', n) := GoRun(d, events[1..]);
        (exit', d', n + 1)
  }

  /**
   * The session ends at the first decisive event and nowhere else: a
   * disconnection forgets the device without switching, a device id replaces
   * the current one and switches exactly when it differs; a connection or a
   * closed device-id channel is ignored.
   */
  lemma {:induction false} GoRunEndsAtFirstDecisive(devid: DeviceId, events: seq<GoEvent>)
    ensures var (exit, d, n) := GoRun(devid, events);
      && n <= |events|
      && (forall j :: 0 <= j < n - 1 ==> !Decisive(events[j]))
      && (exit.None? <==> forall j :: 0 <= j < |events| ==> !Decisive(events[j]))
      && (exit.None? ==> n == |events| && d == devid)
      && (exit.Some? ==> n > 0 && Decisive(events[n - 1]))
      && (exit.Some? && events[n - 1] == Usb(Disconnected) ==> exit.value == GoExit(true, false) && d == devid)
      && (exit.Some? && events[n - 1].NewDevid? ==>
            d == events[n - 1].devid.value && exit.value == GoExit(false, d != devid))
    decreases |events|
  {
    if events != [] && !Decisive(events[0]) {
      GoRunEndsAtFirstDecisive(devid, events[1..]);
      var (exit, d, n) := GoRun(devid, events);
      forall j | 0 < j < |events| ensures events[j] == events[1..][j - 1] {
      }
    }
  }

  /** `hotplug`'s filter: enumerate existing devices, and match vendor and product ids only where the device id has them. */
  datatype HotplugFilter = HotplugFilter(enumerate: bool, vendorId: Option<uint16>, productId: Option<uint16>)

  function HotplugFilterOf(devid: DeviceId): HotplugFilter {
    HotplugFilter(true, devid.vendorId, devid.productId)
  }

  /** libusb's hotplug matching: an absent id matches any device. */
  predicate FilterMatches(f: HotplugFilter, vendorId: uint16, productId: uint16) {
    (f.vendorId.None? || f.vendorId.value == vendorId) && (f.productId.None? || f.productId.value == productId)
  }

  /** A device is reported exactly when each id the device id names equals the device's; the serial number plays no part. */
  lemma HotplugFilterMatches(devid: DeviceId, vendorId: uint16, productId: uint16)
    ensures HotplugFilterOf(devid).enumerate
    ensures FilterMatches(HotplugFilterOf(devid), vendorId, productId) <==>
      (devid.vendorId == None || devid.vendorId == Some(vendorId)) &&
      (devid.productId == None || devid.productId == Some(productId))
    ensures forall s :: HotplugFilterOf(devid.(serialNumber := s)) == HotplugFilterOf(devid)
  {
  }

  /** The camera actor's state that outlives one session. */
  class CameraActor {
    var devid: DeviceId
    var registration: HotplugFilter
    const texture: EguiTexture

    constructor (devid: DeviceId, texture: EguiTexture)
      ensures this.devid == devid && registration == HotplugFilterOf(devid) && this.texture == texture
    {
      this.devid := devid;
      registration := HotplugFilterOf(devid);
      this.texture := texture;
    }

    /** The loop of `go` after the stream started: take events until one ends the session. */
    method Go(events: seq<GoEvent>) returns (exit: Option<GoExit>, taken: nat)
      modifies this
      ensures (exit, devid, taken) == GoRun(old(devid), events)
      ensures registration == old(registration)
    {
      ghost var d0 := devid;
      exit := None;
      taken := 0;
      while taken < |events| && exit.None?
        invariant taken <= |events|
        invariant registration == old(registration)
        invariant exit.Some? ==> taken > 0
        invariant GoRun(d0, events) ==
          if exit.Some? then (exit, devid, taken)
          else var (e, d, n) := GoRun(devid, events[taken..]); (e, d, n + taken)
        decreases |events| - taken, if exit.None? then 1 else 0
      {
        assert events[taken..][1..] == events[taken + 1..];
        var ev := events[taken];
        match ev {
          case Usb(update) =>
            if update == Disconnected {
              exit := Some(GoExit(true, false));
            }
          case NewDevid(d) =>
            if d.Some? {
              var switch := d.value != devid;
              devid := d.value;
              exit := Some(GoExit(false, switch));
            }
        }
        taken := taken + 1;
      }
      assert exit.None? ==> events[taken..] == [];
    }

    /** After a session: show egui's example image again, and re-register the hotplug filter when the device id switched. */
    method EndSession(result: Result<bool, string>, example: ColorImage)
      modifies this, texture
      ensures texture.image == Some(example) && texture.repaints == old(texture.repaints) + 1
      ensures devid == old(devid)
      ensures registration == if result == Ok(true) then HotplugFilterOf(devid) else old(registration)
    {
      texture.SetTexture(example);
      if result == Ok(true) {
        registration := HotplugFilterOf(devid);
      }
    }
  }
}
