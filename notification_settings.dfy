/**
 * The notification-settings panel: a typed settings record with defaults, a
 * dotted-key update that handles one- and two-segment keys and ignores longer
 * ones, add-or-remove toggles on the muted contacts and the Do-Not-Disturb
 * days, and the "unsaved changes" flag every edit sets.
 */
module NotificationSettings {

  datatype Sounds = Sounds(
    enabled: bool, messageSound: string, loginSound: string, logoutSound: string,
    volume: int, customSounds: bool)

  datatype DoNotDisturb = DoNotDisturb(
    enabled: bool, scheduled: bool, startTime: string, endTime: string, days: seq<string>)

  datatype Settings = Settings(
    enableNotifications: bool, sounds: Sounds, desktopNotifications: bool,
    browserNotifications: bool, previewMessages: bool, showSenderInfo: bool,
    doNotDisturb: DoNotDisturb, mutedContacts: seq<string>)

  const AllDays: seq<string> := ["mon", "tue", "wed", "thu", "fri", "sat", "sun"]

  /** The initial settings; desktop and browser notifications follow whether the app runs on the desktop. */
  function Defaults(isDesktop: bool): Settings
  {
    Settings(
      true,
      Sounds(true, "msn-message", "msn-login", "msn-logout", 75, false),
      isDesktop, !isDesktop, true, true,
      DoNotDisturb(false, false, "22:00", "08:00", AllDays),
      [])
  }

  /** No element occurs twice. */
  predicate Distinct<T(==)>(xs: seq<T>)
  {
    forall i, j | 0 <= i < j < |xs| :: xs[i] != xs[j]
  }

  /** Notifications on, volume 75, Do-Not-Disturb off on all seven distinct days, nobody muted. */
  lemma DefaultsFacts(isDesktop: bool)
    ensures var d := Defaults(isDesktop);
            d.enableNotifications && d.sounds.volume == 75 &&
            !d.doNotDisturb.enabled && !d.doNotDisturb.scheduled &&
            |d.doNotDisturb.days| == 7 && Distinct(d.doNotDisturb.days) &&
            d.mutedContacts == [] &&
            d.desktopNotifications == isDesktop && d.browserNotifications == !isDesktop
  {
  }

  // ---------------------------------------------------------------------
  // Keys and values
  // ---------------------------------------------------------------------

  /** The top-level fields, named by one-segment keys. */
  datatype Field =
    | EnableNotifications | SoundsGroup | DesktopNotifications | BrowserNotifications
    | PreviewMessages | ShowSenderInfo | DoNotDisturbGroup | MutedContacts

  /** The children of `sounds`, named by `sounds.<child>` keys. */
  datatype SoundsField = SoundsEnabled | MessageSound | LoginSound | LogoutSound | Volume | CustomSounds

  /** The children of `doNotDisturb`, named by `doNotDisturb.<child>` keys. */
  datatype DndField = DndEnabled | Scheduled | StartTime | EndTime | Days

  /** The segments of a key with three or more segments. */
  type LongPath = p: seq<string> | |p| >= 3 witness ["", "", ""]

  /** A dotted key: one segment, two segments (group and child), or more. */
  datatype Key =
    | One(field: Field)
    | InSounds(soundsChild: SoundsField)
    | InDoNotDisturb(dndChild: DndField)
    | Longer(path: LongPath)

  /** A value written by an update or read from a field. */
  datatype Value =
    | Flag(b: bool)
    | Number(n: int)
    | Text(s: string)
    | TextList(items: seq<string>)
    | SoundsRecord(sounds: Sounds)
    | DndRecord(dnd: DoNotDisturb)

  datatype Kind = FlagKind | NumberKind | TextKind | ListKind | SoundsKind | DndKind

  function KindOf(v: Value): Kind
  {
    match v
    case Flag(_) => FlagKind
    case Number(_) => NumberKind
    case Text(_) => TextKind
    case TextList(_) => ListKind
    case SoundsRecord(_) => SoundsKind
    case DndRecord(_) => DndKind
  }

  function FieldKind(f: Field): Kind
  {
    match f
    case SoundsGroup => SoundsKind
    case DoNotDisturbGroup => DndKind
    case MutedContacts => ListKind
    case _ => FlagKind
  }

  function SoundsKindOf(c: SoundsField): Kind
  {
    match c
    case SoundsEnabled => FlagKind
    case CustomSounds => FlagKind
    case Volume => NumberKind
    case _ => TextKind
  }

  function DndKindOf(c: DndField): Kind
  {
    match c
    case DndEnabled => FlagKind
    case Scheduled => FlagKind
    case Days => ListKind
    case _ => TextKind
  }

  /** Every caller passes a value of the named field's type; a longer key takes anything. */
  predicate Fits(k: Key, v: Value)
  {
    match k
    case One(f) => KindOf(v) == FieldKind(f)
    case InSounds(c) => KindOf(v) == SoundsKindOf(c)
    case InDoNotDisturb(c) => KindOf(v) == DndKindOf(c)
    case Longer(_) => true
  }

  /** Reading a top-level field. */
  function TopValue(s: Settings, f: Field): (v: Value)
    ensures KindOf(v) == FieldKind(f)
  {
    match f
    case EnableNotifications => Flag(s.enableNotifications)
    case SoundsGroup => SoundsRecord(s.sounds)
    case DesktopNotifications => Flag(s.desktopNotifications)
    case BrowserNotifications => Flag(s.browserNotifications)
    case PreviewMessages => Flag(s.previewMessages)
    case ShowSenderInfo => Flag(s.showSenderInfo)
    case DoNotDisturbGroup => DndRecord(s.doNotDisturb)
    case MutedContacts => TextList(s.mutedContacts)
  }

  /** Reading a child of `sounds`. */
  function SoundsValue(x: Sounds, c: SoundsField): (v: Value)
    ensures KindOf(v) == SoundsKindOf(c)
  {
    match c
    case SoundsEnabled => Flag(x.enabled)
    case MessageSound => Text(x.messageSound)
    case LoginSound => Text(x.loginSound)
    case LogoutSound => Text(x.logoutSound)
    case Volume => Number(x.volume)
    case CustomSounds => Flag(x.customSounds)
  }

  /** Reading a child of `doNotDisturb`. */
  function DndValue(x: DoNotDisturb, c: DndField): (v: Value)
    ensures KindOf(v) == DndKindOf(c)
  {
    match c
    case DndEnabled => Flag(x.enabled)
    case Scheduled => Flag(x.scheduled)
    case StartTime => Text(x.startTime)
    case EndTime => Text(x.endTime)
    case Days => TextList(x.days)
  }

  /** `{ ...prev, [key]: value }`. */
  function SetTop(s: Settings, f: Field, v: Value): Settings
    requires KindOf(v) == FieldKind(f)
  {
    match f
    case EnableNotifications => s.(enableNotifications := v.b)
    case SoundsGroup => s.(sounds := v.sounds)
    case DesktopNotifications => s.(desktopNotifications := v.b)
    case BrowserNotifications => s.(browserNotifications := v.b)
    case PreviewMessages => s.(previewMessages := v.b)
    case ShowSenderInfo => s.(showSenderInfo := v.b)
    case DoNotDisturbGroup => s.(doNotDisturb := v.dnd)
    case MutedContacts => s.(mutedContacts := v.items)
  }

  /** `{ ...prev.sounds, [child]: value }`. */
  function SetSounds(x: Sounds, c: SoundsField, v: Value): Sounds
    requires KindOf(v) == SoundsKindOf(c)
  {
    match c
    case SoundsEnabled => x.(enabled := v.b)
    case MessageSound => x.(messageSound := v.s)
    case LoginSound => x.(loginSound := v.s)
    case LogoutSound => x.(logoutSound := v.s)
    case Volume => x.(volume := v.n)
    case CustomSounds => x.(customSounds := v.b)
  }

  /** `{ ...prev.doNotDisturb, [child]: value }`. */
  function SetDnd(x: DoNotDisturb, c: DndField, v: Value): DoNotDisturb
    requires KindOf(v) == DndKindOf(c)
  {
    match c
    case DndEnabled => x.(enabled := v.b)
    case Scheduled => x.(scheduled := v.b)
    case StartTime => x.(startTime := v.s)
    case EndTime => x.(endTime := v.s)
    case Days => x.(days := v.items)
  }

  /** The settings after `handleSettingChange(key, value)`. */
  function Apply(s: Settings, k: Key, v: Value): Settings
    requires Fits(k, v)
  {
    match k
    case One(f) => SetTop(s, f, v)
    case InSounds(c) => s.(sounds := SetSounds(s.sounds, c, v))
    case InDoNotDisturb(c) => s.(doNotDisturb := SetDnd(s.doNotDisturb, c, v))
    case Longer(_) => s
  }

  // ---------------------------------------------------------------------
  // Properties of the update
  // ---------------------------------------------------------------------

  /** The top-level fields determine the record: `TopValue` misses nothing. */
  lemma TopValuesDetermineSettings(a: Settings, b: Settings)
    requires forall f: Field :: TopValue(a, f) == TopValue(b, f)
    ensures a == b
  {
    assert TopValue(a, EnableNotifications) == TopValue(b, EnableNotifications);
    assert TopValue(a, SoundsGroup) == TopValue(b, SoundsGroup);
    assert TopValue(a, DesktopNotifications) == TopValue(b, DesktopNotifications);
    assert TopValue(a, BrowserNotifications) == TopValue(b, BrowserNotifications);
    assert TopValue(a, PreviewMessages) == TopValue(b, PreviewMessages);
    assert TopValue(a, ShowSenderInfo) == TopValue(b, ShowSenderInfo);
    assert TopValue(a, DoNotDisturbGroup) == TopValue(b, DoNotDisturbGroup);
    assert TopValue(a, MutedContacts) == TopValue(b, MutedContacts);
  }

  /** A one-segment key replaces that top-level field and no other. */
  lemma OneSegmentReplacesField(s: Settings, f: Field, v: Value)
    requires KindOf(v) == FieldKind(f)
    ensures TopValue(Apply(s, One(f), v), f) == v
    ensures forall g: Field | g != f :: TopValue(Apply(s, One(f), v), g) == TopValue(s, g)
  {
  }

  /** A `sounds.<child>` key replaces that child, keeps its siblings and every other top-level field. */
  lemma SoundsKeyKeepsSiblings(s: Settings, c: SoundsField, v: Value)
    requires KindOf(v) == SoundsKindOf(c)
    ensures SoundsValue(Apply(s, InSounds(c), v).sounds, c) == v
    ensures forall d: SoundsField | d != c :: SoundsValue(Apply(s, InSounds(c), v).sounds, d) == SoundsValue(s.sounds, d)
    ensures forall g: Field | g != SoundsGroup :: TopValue(Apply(s, InSounds(c), v), g) == TopValue(s, g)
  {
  }

  /** A `doNotDisturb.<child>` key replaces that child, keeps its siblings and every other top-level field. */
  lemma DndKeyKeepsSiblings(s: Settings, c: DndField, v: Value)
    requires KindOf(v) == DndKindOf(c)
    ensures DndValue(Apply(s, InDoNotDisturb(c), v).doNotDisturb, c) == v
    ensures forall d: DndField | d != c ::
              DndValue(Apply(s, InDoNotDisturb(c), v).doNotDisturb, d) == DndValue(s.doNotDisturb, d)
    ensures forall g: Field | g != DoNotDisturbGroup :: TopValue(Apply(s, InDoNotDisturb(c), v), g) == TopValue(s, g)
  {
  }

  /** A key of three or more segments changes nothing. */
  lemma LongerKeyIgnored(s: Settings, path: LongPath, v: Value)
    ensures Apply(s, Longer(path), v) == s
  {
  }

  // ---------------------------------------------------------------------
  // Add-or-remove toggles
  // ---------------------------------------------------------------------

  /** `xs.filter(y => y !== x)`: every occurrence of `x` removed, the rest in order. */
  function Without(xs: seq<string>, x: string): (r: seq<string>)
    ensures x !in r
    ensures forall y :: y in r <==> y in xs && y != x
    ensures |r| <= |xs|
  {
    if xs == [] then []
    else if xs[0] == x then Without(xs[1..], x)
    else [xs[0]] + Without(xs[1..], x)
  }

  /** Remove `x` when present (every occurrence), else append it at the end. */
  function Toggle(xs: seq<string>, x: string): (r: seq<string>)
    ensures x in r <==> x !in xs
    ensures forall y | y != x :: y in r <==> y in xs
  {
    if x in xs then Without(xs, x) else xs + [x]
  }

  lemma {:induction false} WithoutAbsent(xs: seq<string>, x: string)
    requires x !in xs
    ensures Without(xs, x) == xs
  {
    if xs != [] {
      WithoutAbsent(xs[1..], x);
    }
  }

  lemma {:induction false} WithoutAppend(xs: seq<string>, ys: seq<string>, x: string)
    ensures Without(xs + ys, x) == Without(xs, x) + Without(ys, x)
  {
    if xs == [] {
      assert xs + ys == ys;
    } else {
      assert (xs + ys)[1..] == xs[1..] + ys;
      WithoutAppend(xs[1..], ys, x);
    }
  }

  lemma {:induction false} WithoutIdempotent(xs: seq<string>, x: string)
    ensures Without(Without(xs, x), x) == Without(xs, x)
  {
    WithoutAbsent(Without(xs, x), x);
  }

  lemma {:induction false} WithoutKeepsDistinct(xs: seq<string>, x: string)
    requires Distinct(xs)
    ensures Distinct(Without(xs, x))
  {
    if xs != [] {
      assert Distinct(xs[1..]) by {
        forall i, j | 0 <= i < j < |xs[1..]| ensures xs[1..][i] != xs[1..][j] {
          assert xs[1..][i] == xs[i + 1] && xs[1..][j] == xs[j + 1];
        }
      }
      WithoutKeepsDistinct(xs[1..], x);
      if xs[0] != x {
        var rest := Without(xs[1..], x);
        assert xs[0] !in xs[1..];
        assert xs[0] !in rest;
        forall i, j | 0 <= i < j < |[xs[0]] + rest| ensures ([xs[0]] + rest)[i] != ([xs[0]] + rest)[j] {
          if i == 0 {
            assert ([xs[0]] + rest)[j] == rest[j - 1];
          } else {
            assert ([xs[0]] + rest)[i] == rest[i - 1] && ([xs[0]] + rest)[j] == rest[j - 1];
          }
        }
      }
    }
  }

  /** Toggling an absent element twice restores the list exactly. */
  lemma ToggleTwiceRestores(xs: seq<string>, x: string)
    requires x !in xs
    ensures Toggle(Toggle(xs, x), x) == xs
  {
    assert x in xs + [x];
    WithoutAppend(xs, [x], x);
    WithoutAbsent(xs, x);
    assert Without([x], x) == [];
  }

  /** Toggling a present element twice moves it, once, to the end. */
  lemma ToggleTwiceMovesToEnd(xs: seq<string>, x: string)
    requires x in xs
    ensures Toggle(Toggle(xs, x), x) == Without(xs, x) + [x]
  {
  }

  /** A toggle keeps the other elements in their relative order. */
  lemma ToggleKeepsOthersInOrder(xs: seq<string>, x: string)
    ensures Without(Toggle(xs, x), x) == Without(xs, x)
  {
    if x in xs {
      WithoutIdempotent(xs, x);
    } else {
      WithoutAppend(xs, [x], x);
      assert Without([x], x) == [];
    }
  }

  /** A toggle keeps a duplicate-free list duplicate-free. */
  lemma ToggleKeepsDistinct(xs: seq<string>, x: string)
    requires Distinct(xs)
    ensures Distinct(Toggle(xs, x))
  {
    if x in xs {
      WithoutKeepsDistinct(xs, x);
    } else {
      var r := xs + [x];
      forall i, j | 0 <= i < j < |r| ensures r[i] != r[j] {
        if j == |xs| {
          assert r[i] == xs[i];
        } else {
          assert r[i] == xs[i] && r[j] == xs[j];
        }
      }
    }
  }

  // ---------------------------------------------------------------------
  // The panel
  // ---------------------------------------------------------------------

  class SettingsPanel {
    var settings: Settings
    var hasUnsavedChanges: bool

    constructor (isDesktop: bool)
      ensures settings == Defaults(isDesktop) && !hasUnsavedChanges
    {
      settings := Defaults(isDesktop);
      hasUnsavedChanges := false;
    }

    /** `handleSettingChange(key, value)`; the flag is set even when a long key changes nothing. */
    method HandleSettingChange(key: Key, value: Value)
      requires Fits(key, value)
      modifies this
      ensures settings == Apply(old(settings), key, value)
      ensures hasUnsavedChanges
    {
      match key {
        case One(f) =>
          settings := SetTop(settings, f, value);
        case InSounds(c) =>
          settings := settings.(sounds := SetSounds(settings.sounds, c, value));
        case InDoNotDisturb(c) =>
          settings := settings.(doNotDisturb := SetDnd(settings.doNotDisturb, c, value));
        case Longer(_) =>
      }
      hasUnsavedChanges := true;
    }

    /** Mute or unmute a contact. */
    method ToggleMuteContact(contactId: string)
      modifies this
      ensures settings == old(settings).(mutedContacts := Toggle(old(settings).mutedContacts, contactId))
      ensures hasUnsavedChanges
    {
      if contactId in settings.mutedContacts {
        settings := settings.(mutedContacts := Without(settings.mutedContacts, contactId));
      } else {
        settings := settings.(mutedContacts := settings.mutedContacts + [contactId]);
      }
      hasUnsavedChanges := true;
    }

    /** Select or deselect a Do-Not-Disturb day, through a `doNotDisturb.days` update. */
    method HandleDayToggle(day: string)
      modifies this
      ensures settings ==
                old(settings).(doNotDisturb := old(settings).doNotDisturb.(days := Toggle(old(settings).doNotDisturb.days, day)))
      ensures hasUnsavedChanges
    {
      var days := settings.doNotDisturb.days;
      if day in days {
        HandleSettingChange(InDoNotDisturb(Days), TextList(Without(days, day)));
      } else {
        HandleSettingChange(InDoNotDisturb(Days), TextList(days + [day]));
      }
    }
  }
}
