/**
 * The renderer's window store (src/renderer/src/stores/windowStore.ts):
 * the auto-paste and auto-clear time tables, the decision whether to clear
 * the search box when the window shows again, the placeholder, avatar and
 * current-plugin updates, the avatar rule when settings load, and the
 * conversion between `#rrggbb` colours and red/green/blue components.
 */
module WindowStore {
  import opened Wrappers
  import Text

  /** `getAutoPasteTimeLimit`: 1s/3s/5s/10s in milliseconds, 0 (off) for anything else. */
  function AutoPasteTimeLimit(option: string): (ms: int)
    ensures ms >= 0
  {
    match option
    case "1s" => 1000
    case "3s" => 3000
    case "5s" => 5000
    case "10s" => 10000
    case _ => 0
  }

  const PasteOptions: seq<string> := ["1s", "3s", "5s", "10s"]

  /** Only the four timed settings paste; each allows exactly as many seconds as it names. */
  lemma AutoPasteTable(option: string)
    ensures AutoPasteTimeLimit(option) > 0 <==> option in PasteOptions
    ensures AutoPasteTimeLimit("1s") == 1 * 1000 && AutoPasteTimeLimit("3s") == 3 * 1000
    ensures AutoPasteTimeLimit("5s") == 5 * 1000 && AutoPasteTimeLimit("10s") == 10 * 1000
    ensures AutoPasteTimeLimit("off") == 0
  {
  }

  /** `getAutoClearTimeLimit`: 0 clears at once, −1 never clears, otherwise milliseconds; unknown settings clear at once. */
  function AutoClearTimeLimit(option: string): (ms: int)
    ensures ms >= -1
  {
    match option
    case "immediately" => 0
    case "1m" => 60000
    case "2m" => 120000
    case "3m" => 180000
    case "5m" => 300000
    case "10m" => 600000
    case "never" => -1
    case _ => 0
  }

  const ClearMinutes: seq<(string, int)> := [("1m", 1), ("2m", 2), ("3m", 3), ("5m", 5), ("10m", 10)]

  /** Only 'never' disables clearing; each timed setting waits as many minutes as it names. */
  lemma AutoClearTable(option: string)
    ensures AutoClearTimeLimit(option) == -1 <==> option == "never"
    ensures forall k :: 0 <= k < |ClearMinutes| ==> AutoClearTimeLimit(ClearMinutes[k].0) == ClearMinutes[k].1 * 60 * 1000
  {
  }

  /** Whether to clear, given the limit and how long the window was hidden. */
  function ClearAfter(limit: int, elapsed: int): (clear: bool)
    ensures limit == -1 ==> !clear
    ensures limit == 0 ==> clear
    ensures limit > 0 ==> (clear <==> elapsed >= limit)
  {
    if limit == -1 then false else if limit == 0 then true else elapsed >= limit
  }

  /** Only 'never' keeps the search forever; 'immediately' and any unrecognised setting clear every time. */
  lemma ClearSettings(option: string, elapsed: int)
    ensures option == "never" ==> !ClearAfter(AutoClearTimeLimit(option), elapsed)
    ensures option == "immediately" ==> ClearAfter(AutoClearTimeLimit(option), elapsed)
    ensures (option !in {"never", "1m", "2m", "3m", "5m", "10m"}) ==> ClearAfter(AutoClearTimeLimit(option), elapsed)
  {
  }

  /** Waiting longer never turns a clear into a keep. */
  lemma ClearMonotone(limit: int, elapsed: int, later: int)
    requires elapsed <= later && ClearAfter(limit, elapsed)
    ensures ClearAfter(limit, later)
  {
  }

  // ---- colours ----

  datatype Rgb = Rgb(r: nat, g: nat, b: nat)

  /** `[a-f\d]` under the `i` flag. */
  predicate IsHexDigit(c: char) {
    Text.IsDigit(c) || 'a' <= c <= 'f' || 'A' <= c <= 'F'
  }

  function HexValue(c: char): (v: nat)
    requires IsHexDigit(c)
    ensures v < 16
  {
    if Text.IsDigit(c) then c as int - '0' as int
    else if 'a' <= c <= 'f' then c as int - 'a' as int + 10
    else c as int - 'A' as int + 10
  }

  /** The lowercase digit `toString(16)` writes. */
  function HexChar(d: nat): (c: char)
    requires d < 16
    ensures IsHexDigit(c) && HexValue(c) == d
    ensures Text.LowerChar(c) == c
  {
    if d < 10 then ('0' as int + d) as char else ('a' as int + d - 10) as char
  }

  /** `parseInt(pair, 16)` for two hex digits. */
  function PairValue(pair: string): (v: nat)
    requires |pair| == 2 && IsHexDigit(pair[0]) && IsHexDigit(pair[1])
    ensures v < 256
  {
    HexValue(pair[0]) * 16 + HexValue(pair[1])
  }

  predicate SixHex(s: string) {
    |s| == 6 && forall i :: 0 <= i < 6 ==> IsHexDigit(s[i])
  }

  /** `hexToRgb`: `^#?([a-f\d]{2})([a-f\d]{2})([a-f\d]{2})$`, case-insensitive. */
  function HexToRgb(hex: string): (c: Option<Rgb>)
    ensures c.Some? <==> SixHex(hex) || (|hex| == 7 && hex[0] == '#' && SixHex(hex[1..]))
    ensures c.Some? ==> c.value.r < 256 && c.value.g < 256 && c.value.b < 256
  {
    var digits := if |hex| == 7 && hex[0] == '#' then hex[1..] else hex;
    if SixHex(digits) && (|hex| == 6 || |hex| == 7) then
      Some(Rgb(PairValue(digits[0..2]), PairValue(digits[2..4]), PairValue(digits[4..6])))
    else
      None
  }

  /** `n.toString(16)` for a non-negative integer. */
  function HexString(n: nat): (s: string)
    ensures |s| >= 1
    decreases n
  {
    if n < 16 then [HexChar(n)] else HexString(n / 16) + [HexChar(n % 16)]
  }

  /** `.padStart(2, '0')` */
  function PadStart2(s: string): (r: string)
    ensures |r| == if |s| < 2 then 2 else |s|
  {
    if |s| == 0 then "00" else if |s| == 1 then "0" + s else s
  }

  /** `rgbToHex` */
  function RgbToHex(r: nat, g: nat, b: nat): string {
    "#" + PadStart2(HexString(r)) + PadStart2(HexString(g)) + PadStart2(HexString(b))
  }

  /** A component below 256 is written as exactly two lowercase hex digits. */
  lemma TwoDigits(n: nat)
    requires n < 256
    ensures PadStart2(HexString(n)) == [HexChar(n / 16), HexChar(n % 16)]
  {
    if n >= 16 {
      assert HexString(n / 16) == [HexChar(n / 16)];
    }
  }

  /** Writing three components as a colour and reading it back gives them back. */
  lemma RgbRoundTrip(r: nat, g: nat, b: nat)
    requires r < 256 && g < 256 && b < 256
    ensures HexToRgb(RgbToHex(r, g, b)) == Some(Rgb(r, g, b))
  {
    TwoDigits(r);
    TwoDigits(g);
    TwoDigits(b);
    var hex := RgbToHex(r, g, b);
    var digits := hex[1..];
    assert digits == [HexChar(r / 16), HexChar(r % 16), HexChar(g / 16), HexChar(g % 16), HexChar(b / 16), HexChar(b % 16)];
    assert SixHex(digits);
    assert digits[0..2] == [HexChar(r / 16), HexChar(r % 16)];
    assert digits[2..4] == [HexChar(g / 16), HexChar(g % 16)];
    assert digits[4..6] == [HexChar(b / 16), HexChar(b % 16)];
  }

  /** Reading one hex digit and writing it back lower-cases it. */
  lemma DigitCanonical(c: char)
    requires IsHexDigit(c)
    ensures HexChar(HexValue(c)) == Text.LowerChar(c)
  {
  }

  /** Reading a two-digit pair and writing it back lower-cases it. */
  lemma PairCanonical(pair: string)
    requires |pair| == 2 && IsHexDigit(pair[0]) && IsHexDigit(pair[1])
    ensures PadStart2(HexString(PairValue(pair))) == Text.Lower(pair)
  {
    var v := PairValue(pair);
    TwoDigits(v);
    assert v / 16 == HexValue(pair[0]) && v % 16 == HexValue(pair[1]);
    DigitCanonical(pair[0]);
    DigitCanonical(pair[1]);
  }

  /** Six hex digits read as three pairs and written back come out lower-cased after a '#'. */
  lemma SixDigitsCanonical(digits: string)
    requires SixHex(digits)
    ensures RgbToHex(PairValue(digits[0..2]), PairValue(digits[2..4]), PairValue(digits[4..6])) == "#" + Text.Lower(digits)
  {
    PairCanonical(digits[0..2]);
    PairCanonical(digits[2..4]);
    PairCanonical(digits[4..6]);
    var lower := Text.Lower(digits);
    assert lower[0..2] == Text.Lower(digits[0..2]);
    assert lower[2..4] == Text.Lower(digits[2..4]);
    assert lower[4..6] == Text.Lower(digits[4..6]);
    assert lower == lower[0..2] + lower[2..4] + lower[4..6];
  }

  /** Reading a colour and writing it back gives its lower-case `#` form. */
  lemma HexCanonical(hex: string)
    requires HexToRgb(hex).Some?
    ensures var c := HexToRgb(hex).value;
            RgbToHex(c.r, c.g, c.b) == "#" + Text.Lower(if |hex| == 7 then hex[1..] else hex)
  {
    var digits := if |hex| == 7 then hex[1..] else hex;
    assert SixHex(digits);
    SixDigitsCanonical(digits);
  }

  // ---- the store ----

  const DefaultPlaceholder: string := "搜索应用和指令 / 粘贴文件或图片"
  const DefaultSubInputPlaceholder: string := "搜索"

  /** The plugin the search bar shows; its optional sub-input settings as the backend sends them. */
  datatype PluginInfo = PluginInfo(name: string, logo: string, path: string,
                                   subInputPlaceholder: Option<string>, subInputVisible: Option<bool>)

  /** The stored general settings this store reads on load; "" stands for a missing or empty field. */
  datatype GeneralSettings = GeneralSettings(placeholder: string, avatar: string, autoPaste: string, autoClear: string)

  class Store {
    /** The bundled default avatar's URL. */
    const defaultAvatar: string
    var placeholder: string
    var avatar: string
    var currentPlugin: Option<PluginInfo>
    var pluginLoading: bool
    var subInputPlaceholder: string
    var subInputVisible: bool
    var autoPaste: string
    var autoClear: string
    var lastShowTime: int

    constructor(defaultAvatar: string, now: int)
      ensures this.defaultAvatar == defaultAvatar && avatar == defaultAvatar && placeholder == DefaultPlaceholder
      ensures currentPlugin.None? && !pluginLoading && subInputPlaceholder == DefaultSubInputPlaceholder && !subInputVisible
      ensures autoPaste == "off" && autoClear == "immediately" && lastShowTime == now
    {
      this.defaultAvatar := defaultAvatar;
      avatar := defaultAvatar;
      placeholder := DefaultPlaceholder;
      currentPlugin := None;
      pluginLoading := false;
      subInputPlaceholder := DefaultSubInputPlaceholder;
      subInputVisible := false;
      autoPaste := "off";
      autoClear := "immediately";
      lastShowTime := now;
    }

    /** `updatePlaceholder`: an empty value restores the default. */
    method UpdatePlaceholder(value: string)
      modifies this`placeholder
      ensures placeholder == (if value == "" then DefaultPlaceholder else value)
      ensures placeholder != ""
    {
      placeholder := if value == "" then DefaultPlaceholder else value;
    }

    /** `updateAvatar`: an empty value restores the default. */
    method UpdateAvatar(value: string)
      modifies this`avatar
      ensures avatar == (if value == "" then defaultAvatar else value)
    {
      avatar := if value == "" then defaultAvatar else value;
    }

    /**
     * `updateCurrentPlugin`: no plugin stops the loading indicator; a plugin
     * starts it and sets the sub-input placeholder (its own, or '搜索') and
     * visibility (its own, or hidden).
     */
    method UpdateCurrentPlugin(plugin: Option<PluginInfo>)
      modifies this`currentPlugin, this`subInputPlaceholder, this`subInputVisible, this`pluginLoading
      ensures currentPlugin == plugin
      ensures plugin.None? ==> !pluginLoading && subInputPlaceholder == old(subInputPlaceholder)
                               && subInputVisible == old(subInputVisible)
      ensures plugin.Some? ==>
                pluginLoading
                && subInputPlaceholder == (match plugin.value.subInputPlaceholder
                                           case Some(p) => if p == "" then DefaultSubInputPlaceholder else p
                                           case None => DefaultSubInputPlaceholder)
                && subInputVisible == plugin.value.subInputVisible.UnwrapOr(false)
    {
      currentPlugin := plugin;
      if plugin.Some? {
        var p := plugin.value;
        if p.subInputPlaceholder.Some? && p.subInputPlaceholder.value != "" {
          subInputPlaceholder := p.subInputPlaceholder.value;
        } else {
          subInputPlaceholder := DefaultSubInputPlaceholder;
        }
        if p.subInputVisible.Some? {
          subInputVisible := p.subInputVisible.value;
        } else {
          subInputVisible := false;
        }
        pluginLoading := true;
      } else {
        pluginLoading := false;
      }
    }

    /** `updateSubInputPlaceholder`: shown only while a plugin is current; empty means '搜索'. */
    method UpdateSubInputPlaceholder(value: string)
      modifies this`subInputPlaceholder
      ensures currentPlugin.None? ==> subInputPlaceholder == old(subInputPlaceholder)
      ensures currentPlugin.Some? ==> subInputPlaceholder == (if value == "" then DefaultSubInputPlaceholder else value)
    {
      var newValue := if value == "" then DefaultSubInputPlaceholder else value;
      if currentPlugin.Some? {
        subInputPlaceholder := newValue;
      }
    }

    /** `updateAutoPaste` */
    method UpdateAutoPaste(value: string)
      modifies this`autoPaste
      ensures autoPaste == value
    {
      autoPaste := value;
    }

    /** `updateAutoClear` */
    method UpdateAutoClear(value: string)
      modifies this`autoClear
      ensures autoClear == value
    {
      autoClear := value;
    }

    /** `shouldClearSearch` at time `now`: the show time is always updated; the answer follows the clear setting. */
    method ShouldClearSearch(now: int) returns (clear: bool)
      modifies this`lastShowTime
      ensures lastShowTime == now
      ensures clear == ClearAfter(AutoClearTimeLimit(autoClear), now - old(lastShowTime))
    {
      var timeLimit := AutoClearTimeLimit(autoClear);
      var elapsed := now - lastShowTime;
      lastShowTime := now;
      if timeLimit == -1 {
        return false;
      }
      if timeLimit == 0 {
        return true;
      }
      return elapsed >= timeLimit;
    }

    /**
     * The search-box part of `loadSettings`: each non-empty stored value is
     * taken, except that a stored avatar equal to the bundled default is
     * ignored (old records kept the default's path).
     */
    method LoadSettings(data: Option<GeneralSettings>)
      modifies this`placeholder, this`avatar, this`autoPaste, this`autoClear
      ensures data.None? ==> placeholder == old(placeholder) && avatar == old(avatar)
                             && autoPaste == old(autoPaste) && autoClear == old(autoClear)
      ensures data.Some? ==>
                var d := data.value;
                placeholder == (if d.placeholder != "" then d.placeholder else old(placeholder))
                && avatar == (if d.avatar != "" && d.avatar != defaultAvatar then d.avatar else old(avatar))
                && autoPaste == (if d.autoPaste != "" then d.autoPaste else old(autoPaste))
                && autoClear == (if d.autoClear != "" then d.autoClear else old(autoClear))
    {
      if data.Some? {
        var d := data.value;
        if d.placeholder != "" {
          placeholder := d.placeholder;
        }
        if d.avatar != "" && d.avatar != defaultAvatar {
          avatar := d.avatar;
        }
        if d.autoPaste != "" {
          autoPaste := d.autoPaste;
        }
        if d.autoClear != "" {
          autoClear := d.autoClear;
        }
      }
    }
  }
}
