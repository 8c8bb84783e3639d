/**
 * The UI settings record: clamped numeric setters, boolean toggles, plain
 * setters, reset to defaults, and the overlay of stored fields on the
 * defaults when the store starts. Writing to local storage is outside the
 * model; the stored record is an input to `Load`.
 */
module Settings {
  import opened Wrappers

  datatype Theme = Dark | Light

  datatype UISettings = UISettings(
    theme: Theme,
    leftPanelWidth: int,
    showLifecycleVisualizer: bool,
    showTransactionTree: bool,
    jsonExpandLevel: int,
    serverUrl: string,
    apiKey: string)

  const Defaults := UISettings(Dark, 50, true, true, 2, "", "")

  const MinPanelWidth := 20
  const MaxPanelWidth := 80
  const MaxExpandLevel := 10

  /** `Math.max(lo, Math.min(hi, x))` */
  function Clamp(lo: int, hi: int, x: int): (r: int)
    requires lo <= hi
    ensures lo <= r <= hi
    ensures lo <= x <= hi ==> r == x
    ensures x < lo ==> r == lo
    ensures x > hi ==> r == hi
  {
    if x < lo then lo else if x > hi then hi else x
  }

  /** The ranges the clamped setters keep the numeric fields in. */
  predicate InRange(s: UISettings) {
    MinPanelWidth <= s.leftPanelWidth <= MaxPanelWidth && 0 <= s.jsonExpandLevel <= MaxExpandLevel
  }

  /** One call on the settings store. */
  datatype Update =
    | SetTheme(theme: Theme)
    | SetLeftPanelWidth(width: int)
    | ToggleLifecycleVisualizer
    | ToggleTransactionTree
    | SetJsonExpandLevel(level: int)
    | SetServerUrl(url: string)
    | SetApiKey(key: string)
    | Reset

  /** The record after one call. */
  function Apply(s: UISettings, u: Update): (r: UISettings)
    ensures u.Reset? ==> r == Defaults
    ensures u.SetLeftPanelWidth? ==> MinPanelWidth <= r.leftPanelWidth <= MaxPanelWidth
    ensures u.SetJsonExpandLevel? ==> 0 <= r.jsonExpandLevel <= MaxExpandLevel
    ensures !u.Reset? && !u.SetTheme? ==> r.theme == s.theme
    ensures !u.Reset? && !u.SetLeftPanelWidth? ==> r.leftPanelWidth == s.leftPanelWidth
    ensures !u.Reset? && !u.ToggleLifecycleVisualizer? ==> r.showLifecycleVisualizer == s.showLifecycleVisualizer
    ensures !u.Reset? && !u.ToggleTransactionTree? ==> r.showTransactionTree == s.showTransactionTree
    ensures !u.Reset? && !u.SetJsonExpandLevel? ==> r.jsonExpandLevel == s.jsonExpandLevel
    ensures !u.Reset? && !u.SetServerUrl? ==> r.serverUrl == s.serverUrl
    ensures !u.Reset? && !u.SetApiKey? ==> r.apiKey == s.apiKey
  {
    match u
    case SetTheme(t) => s.(theme := t)
    case SetLeftPanelWidth(w) => s.(leftPanelWidth := Clamp(MinPanelWidth, MaxPanelWidth, w))
    case ToggleLifecycleVisualizer => s.(showLifecycleVisualizer := !s.showLifecycleVisualizer)
    case ToggleTransactionTree => s.(showTransactionTree := !s.showTransactionTree)
    case SetJsonExpandLevel(l) => s.(jsonExpandLevel := Clamp(0, MaxExpandLevel, l))
    case SetServerUrl(url) => s.(serverUrl := url)
    case SetApiKey(key) => s.(apiKey := key)
    case Reset => Defaults
  }

  /** The panel width is stored clamped to [20, 80]; every other field keeps its value. */
  lemma PanelWidthClamped(s: UISettings, width: int)
    ensures var r := Apply(s, SetLeftPanelWidth(width));
      && MinPanelWidth <= r.leftPanelWidth <= MaxPanelWidth
      && (MinPanelWidth <= width <= MaxPanelWidth ==> r.leftPanelWidth == width)
      && (width < MinPanelWidth ==> r.leftPanelWidth == MinPanelWidth)
      && (width > MaxPanelWidth ==> r.leftPanelWidth == MaxPanelWidth)
      && r.(leftPanelWidth := s.leftPanelWidth) == s
  {
  }

  /** The expand level is stored clamped to [0, 10]; every other field keeps its value. */
  lemma ExpandLevelClamped(s: UISettings, level: int)
    ensures var r := Apply(s, SetJsonExpandLevel(level));
      && 0 <= r.jsonExpandLevel <= MaxExpandLevel
      && (0 <= level <= MaxExpandLevel ==> r.jsonExpandLevel == level)
      && (level < 0 ==> r.jsonExpandLevel == 0)
      && (level > MaxExpandLevel ==> r.jsonExpandLevel == MaxExpandLevel)
      && r.(jsonExpandLevel := s.jsonExpandLevel) == s
  {
  }

  /** Each toggle flips exactly its own flag, and toggling twice restores the record. */
  lemma TogglesAreInvolutions(s: UISettings)
    ensures Apply(s, ToggleLifecycleVisualizer).showLifecycleVisualizer != s.showLifecycleVisualizer
    ensures Apply(s, ToggleLifecycleVisualizer).(showLifecycleVisualizer := s.showLifecycleVisualizer) == s
    ensures Apply(Apply(s, ToggleLifecycleVisualizer), ToggleLifecycleVisualizer) == s
    ensures Apply(s, ToggleTransactionTree).showTransactionTree != s.showTransactionTree
    ensures Apply(s, ToggleTransactionTree).(showTransactionTree := s.showTransactionTree) == s
    ensures Apply(Apply(s, ToggleTransactionTree), ToggleTransactionTree) == s
  {
  }

  /** The plain setters store their argument as given and change no other field. */
  lemma SettersChangeOneField(s: UISettings, t: Theme, url: string, key: string)
    ensures Apply(s, SetTheme(t)) == s.(theme := t)
    ensures Apply(s, SetServerUrl(url)) == s.(serverUrl := url)
    ensures Apply(s, SetApiKey(key)) == s.(apiKey := key)
  {
  }

  /** `reset` forgets the whole record: the result does not depend on what was there. */
  lemma ResetRestoresDefaults(s: UISettings, t: UISettings)
    ensures Apply(s, Reset) == Defaults == Apply(t, Reset)
    ensures InRange(Apply(s, Reset))
  {
  }

  /** Every call keeps the numeric fields in range. */
  lemma {:induction false} ApplyKeepsInRange(s: UISettings, u: Update)
    requires InRange(s)
    ensures InRange(Apply(s, u))
  {
    match u {
      case SetLeftPanelWidth(w) =>
        assert MinPanelWidth <= Clamp(MinPanelWidth, MaxPanelWidth, w) <= MaxPanelWidth;
      case SetJsonExpandLevel(l) =>
        assert 0 <= Clamp(0, MaxExpandLevel, l) <= MaxExpandLevel;
      case _ =>
    }
  }

  /** The record after a sequence of calls, oldest first. */
  function ApplyAll(s: UISettings, us: seq<Update>): UISettings {
    if us == [] then s else Apply(ApplyAll(s, us[..|us| - 1]), us[|us| - 1])
  }

  /** Starting in range, any sequence of calls stays in range. */
  lemma {:induction false} ApplyAllKeepsInRange(s: UISettings, us: seq<Update>)
    requires InRange(s)
    ensures InRange(ApplyAll(s, us))
  {
    if us != [] {
      ApplyAllKeepsInRange(s, us[..|us| - 1]);
      ApplyKeepsInRange(ApplyAll(s, us[..|us| - 1]), us[|us| - 1]);
    }
  }

  /** The fields found in local storage; a field missing there is `None`. */
  datatype StoredSettings = StoredSettings(
    theme: Option<Theme>,
    leftPanelWidth: Option<int>,
    showLifecycleVisualizer: Option<bool>,
    showTransactionTree: Option<bool>,
    jsonExpandLevel: Option<int>,
    serverUrl: Option<string>,
    apiKey: Option<string>)

  /**
   * `loadSettings`: with no stored record (no window, nothing stored, or a
   * parse failure) the defaults; otherwise the stored fields spread over the
   * defaults.
   */
  function Load(stored: Option<StoredSettings>): (r: UISettings)
    ensures stored.None? ==> r == Defaults
    ensures stored.Some? ==>
              && r.theme == stored.value.theme.GetOr(Defaults.theme)
              && r.leftPanelWidth == stored.value.leftPanelWidth.GetOr(Defaults.leftPanelWidth)
              && r.showLifecycleVisualizer == stored.value.showLifecycleVisualizer.GetOr(Defaults.showLifecycleVisualizer)
              && r.showTransactionTree == stored.value.showTransactionTree.GetOr(Defaults.showTransactionTree)
              && r.jsonExpandLevel == stored.value.jsonExpandLevel.GetOr(Defaults.jsonExpandLevel)
              && r.serverUrl == stored.value.serverUrl.GetOr(Defaults.serverUrl)
              && r.apiKey == stored.value.apiKey.GetOr(Defaults.apiKey)
  {
    match stored
    case None => Defaults
    case Some(st) =>
      UISettings(
        st.theme.GetOr(Defaults.theme),
        st.leftPanelWidth.GetOr(Defaults.leftPanelWidth),
        st.showLifecycleVisualizer.GetOr(Defaults.showLifecycleVisualizer),
        st.showTransactionTree.GetOr(Defaults.showTransactionTree),
        st.jsonExpandLevel.GetOr(Defaults.jsonExpandLevel),
        st.serverUrl.GetOr(Defaults.serverUrl),
        st.apiKey.GetOr(Defaults.apiKey))
  }

  /** What `saveSettings` writes: every field present. */
  function Stored(s: UISettings): StoredSettings {
    StoredSettings(Some(s.theme), Some(s.leftPanelWidth), Some(s.showLifecycleVisualizer),
      Some(s.showTransactionTree), Some(s.jsonExpandLevel), Some(s.serverUrl), Some(s.apiKey))
  }

  /** Saving a record and loading it back yields the same record; an empty stored record yields the defaults. */
  lemma LoadSavedRoundTrip(s: UISettings)
    ensures Load(Some(Stored(s))) == s
    ensures Load(Some(StoredSettings(None, None, None, None, None, None, None))) == Defaults
  {
  }

  /** Stored values are not clamped on load: a stored width outside [20, 80] comes back as it is. */
  lemma LoadDoesNotClamp()
    ensures !InRange(Load(Some(StoredSettings(None, Some(5), None, None, None, None, None))))
    ensures InRange(Load(None))
  {
  }
}
