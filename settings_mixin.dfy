/**
 * The settings mixin base of common/src/settings-mixin.ts: a wrapper around a
 * device that shows the device's own settings next to the mixin's settings,
 * namespaces the mixin's keys with `<groupKey>:`, and routes writes back to
 * whichever side owns the key.
 *
 * The two settings fetches are modelled by their settled outcomes, the host's
 * device names and the random placeholder keys are parameters, and the host's
 * settings-changed notifications are a counter on the mixin object.
 */
module SettingsMixin {
  import opened Wrappers

  /** The value of a setting or of a write: the SDK's string | number | boolean. */
  datatype Value = Text(text: string) | Number(number: int) | Flag(flag: bool)

  /** One user-configurable field as the host's settings UI renders it; an absent field is None. */
  datatype Setting = Setting(
    key: Option<string>,
    title: Option<string>,
    value: Option<Value>,
    group: Option<string>,
    description: Option<string>,
    readonly: Option<bool>)

  /** How one settings promise settled: resolved (to a list, or to null/undefined) or rejected. */
  datatype Fetch = Resolved(settings: Option<seq<Setting>>) | Rejected

  /** Where putSetting sends a write. */
  datatype Write =
    | ToMixin(mixinKey: string, mixinValue: Value)
    | ToDevice(deviceKey: Option<string>, deviceValue: Value)

  /** The interface name a device advertises when it has settings of its own. */
  const SettingsInterface: string := "Settings"
  const ErrorsGroup: string := "Errors"
  const SettingsErrorValue: string := "Settings Error"
  const FailedToLoad: string := " Extension settings failed to load."

  /** JavaScript truthiness of an optional string: absent and empty are falsy. */
  predicate Truthy(s: Option<string>) {
    s.Some? && s.value != ""
  }

  /** What JavaScript's string `+` makes of an optional key: an absent key reads "undefined". */
  function KeyText(key: Option<string>): string {
    if key.Some? then key.value else "undefined"
  }

  /** The namespace prefix of the mixin's keys. */
  function Prefix(groupKey: string): string {
    groupKey + ":"
  }

  /** The read-only entry that stands in for a settings source that failed to load. */
  function ErrorPlaceholder(key: string, name: string): Setting {
    Setting(
      Some(key), Some(name), Some(Text(SettingsErrorValue)),
      Some(ErrorsGroup), Some(name + FailedToLoad), Some(true))
  }

  predicate IsErrorPlaceholder(s: Setting, name: string) {
    s.title == Some(name) && s.value == Some(Text(SettingsErrorValue)) &&
    s.group == Some(ErrorsGroup) && s.description == Some(name + FailedToLoad) &&
    s.readonly == Some(true)
  }

  /** One mixin setting after the loop body of getSettings: group defaulted, key namespaced. */
  function Namespaced(s: Setting, group: string, groupKey: string): Setting {
    s.(group := if Truthy(s.group) then s.group else Some(group),
       key := Some(Prefix(groupKey) + KeyText(s.key)))
  }

  /** The mixin's settings list after the loop of getSettings. */
  function NamespaceAll(xs: seq<Setting>, group: string, groupKey: string): (r: seq<Setting>)
    ensures |r| == |xs|
    ensures forall i :: 0 <= i < |xs| ==> r[i] == Namespaced(xs[i], group, groupKey)
  {
    if xs == [] then []
    else [Namespaced(xs[0], group, groupKey)] + NamespaceAll(xs[1..], group, groupKey)
  }

  /** What the first try/catch of getSettings contributes. */
  function DelegatePart(hasSettings: bool, fetch: Fetch, name: string, errorKey: string): seq<Setting> {
    if !hasSettings then []
    else match fetch
      case Resolved(None) => []
      case Resolved(Some(xs)) => xs
      case Rejected => [ErrorPlaceholder(errorKey, name)]
  }

  /** What the second try/catch of getSettings contributes. */
  function MixinPart(fetch: Fetch, group: string, groupKey: string, providerName: string, errorKey: string): seq<Setting> {
    match fetch
    case Resolved(None) => []
    case Resolved(Some(xs)) => NamespaceAll(xs, group, groupKey)
    case Rejected => [ErrorPlaceholder(errorKey, providerName)]
  }

  /** The list getSettings returns. */
  function Merged(
    hasSettings: bool, delegate: Fetch, mixin: Fetch,
    name: string, providerName: string, group: string, groupKey: string,
    delegateErrorKey: string, mixinErrorKey: string): seq<Setting>
  {
    DelegatePart(hasSettings, delegate, name, delegateErrorKey) +
    MixinPart(mixin, group, groupKey, providerName, mixinErrorKey)
  }

  /** How many entries one source contributes: its list, nothing, or one placeholder. */
  function Contribution(fetch: Fetch): nat {
    match fetch
    case Resolved(None) => 0
    case Resolved(Some(xs)) => |xs|
    case Rejected => 1
  }

  /**
   * The routing decision of putSetting: the prefix alone decides. A mixin
   * write carries the key without its prefix; a device write carries the key
   * and the value unchanged.
   */
  function Route(groupKey: string, key: Option<string>, value: Value): (w: Write)
    ensures w.ToMixin? <==> key.Some? && Prefix(groupKey) <= key.value
    ensures w.ToMixin? ==> Prefix(groupKey) + w.mixinKey == key.value && w.mixinValue == value
    ensures w.ToDevice? ==> w == ToDevice(key, value)
  {
    if key.Some? && Prefix(groupKey) <= key.value
    then ToMixin(key.value[|Prefix(groupKey)|..], value)
    else ToDevice(key, value)
  }

  // ---------------------------------------------------------------------
  // Properties of the merge

  lemma MergedLength(
    hasSettings: bool, delegate: Fetch, mixin: Fetch,
    name: string, providerName: string, group: string, groupKey: string,
    delegateErrorKey: string, mixinErrorKey: string)
    ensures |Merged(hasSettings, delegate, mixin, name, providerName, group, groupKey, delegateErrorKey, mixinErrorKey)|
         == (if hasSettings then Contribution(delegate) else 0) + Contribution(mixin)
  {
  }

  /** The delegate's settings come first and unchanged, then the mixin's part. */
  lemma DelegateSettingsComeFirst(
    ds: seq<Setting>, mixin: Fetch,
    name: string, providerName: string, group: string, groupKey: string,
    delegateErrorKey: string, mixinErrorKey: string)
    ensures var r := Merged(true, Resolved(Some(ds)), mixin, name, providerName, group, groupKey, delegateErrorKey, mixinErrorKey);
      |r| >= |ds| && r[..|ds|] == ds &&
      r[|ds|..] == MixinPart(mixin, group, groupKey, providerName, mixinErrorKey)
  {
  }

  /** A device without the Settings interface, or one whose settings resolve to nothing, contributes nothing. */
  lemma NoDelegateSettings(
    hasSettings: bool, delegate: Fetch, mixin: Fetch,
    name: string, providerName: string, group: string, groupKey: string,
    delegateErrorKey: string, mixinErrorKey: string)
    requires !hasSettings || delegate == Resolved(None)
    ensures Merged(hasSettings, delegate, mixin, name, providerName, group, groupKey, delegateErrorKey, mixinErrorKey)
         == MixinPart(mixin, group, groupKey, providerName, mixinErrorKey)
  {
  }

  /** A failing delegate leaves exactly one placeholder, and every mixin entry still follows. */
  lemma DelegateFailure(
    mixin: Fetch,
    name: string, providerName: string, group: string, groupKey: string,
    delegateErrorKey: string, mixinErrorKey: string)
    ensures var r := Merged(true, Rejected, mixin, name, providerName, group, groupKey, delegateErrorKey, mixinErrorKey);
      |r| == 1 + Contribution(mixin) &&
      r[0].key == Some(delegateErrorKey) && IsErrorPlaceholder(r[0], name) &&
      r[1..] == MixinPart(mixin, group, groupKey, providerName, mixinErrorKey)
  {
    MergedLength(true, Rejected, mixin, name, providerName, group, groupKey, delegateErrorKey, mixinErrorKey);
  }

  /** A failing mixin source keeps every delegate entry and appends exactly one placeholder. */
  lemma MixinFailure(
    hasSettings: bool, delegate: Fetch,
    name: string, providerName: string, group: string, groupKey: string,
    delegateErrorKey: string, mixinErrorKey: string)
    ensures var r := Merged(hasSettings, delegate, Rejected, name, providerName, group, groupKey, delegateErrorKey, mixinErrorKey);
      var d := DelegatePart(hasSettings, delegate, name, delegateErrorKey);
      |r| == |d| + 1 && r[..|d|] == d &&
      r[|d|].key == Some(mixinErrorKey) && IsErrorPlaceholder(r[|d|], providerName)
  {
  }

  /** Every mixin entry is namespaced, gets its group defaulted, and keeps every other field. */
  lemma MixinSettingsNamespaced(
    hasSettings: bool, delegate: Fetch, ms: seq<Setting>,
    name: string, providerName: string, group: string, groupKey: string,
    delegateErrorKey: string, mixinErrorKey: string, i: nat)
    requires i < |ms|
    ensures var r := Merged(hasSettings, delegate, Resolved(Some(ms)), name, providerName, group, groupKey, delegateErrorKey, mixinErrorKey);
      var d := |DelegatePart(hasSettings, delegate, name, delegateErrorKey)|;
      d + i < |r| &&
      r[d + i].key == Some(groupKey + ":" + KeyText(ms[i].key)) &&
      r[d + i].group == (if Truthy(ms[i].group) then ms[i].group else Some(group)) &&
      r[d + i].title == ms[i].title && r[d + i].value == ms[i].value &&
      r[d + i].description == ms[i].description && r[d + i].readonly == ms[i].readonly
  {
  }

  // ---------------------------------------------------------------------
  // Properties of the routing

  /** Routing a namespaced key gives back the mixin's own key. */
  lemma {:induction false} RouteRoundTrip(groupKey: string, k: string, value: Value)
    ensures Route(groupKey, Some(groupKey + ":" + k), value) == ToMixin(k, value)
  {
    var full := groupKey + ":" + k;
    assert full == Prefix(groupKey) + k;
    assert full[..|Prefix(groupKey)|] == Prefix(groupKey);
    assert full[|Prefix(groupKey)|..] == k;
  }

  /** Writing back any mixin entry of the merged list reaches the mixin handler with its original key. */
  lemma {:induction false} MergedMixinKeysRouteBack(
    hasSettings: bool, delegate: Fetch, ms: seq<Setting>,
    name: string, providerName: string, group: string, groupKey: string,
    delegateErrorKey: string, mixinErrorKey: string, i: nat, value: Value)
    requires i < |ms|
    ensures var r := Merged(hasSettings, delegate, Resolved(Some(ms)), name, providerName, group, groupKey, delegateErrorKey, mixinErrorKey);
      var d := |DelegatePart(hasSettings, delegate, name, delegateErrorKey)|;
      d + i < |r| && Route(groupKey, r[d + i].key, value) == ToMixin(KeyText(ms[i].key), value)
  {
    MixinSettingsNamespaced(hasSettings, delegate, ms, name, providerName, group, groupKey, delegateErrorKey, mixinErrorKey, i);
    RouteRoundTrip(groupKey, KeyText(ms[i].key), value);
  }

  /** The flip side: a device setting whose key already starts with the prefix is routed to the mixin too. */
  lemma {:induction false} DelegateKeyWithPrefixGoesToMixin(
    ds: seq<Setting>, mixin: Fetch,
    name: string, providerName: string, group: string, groupKey: string,
    delegateErrorKey: string, mixinErrorKey: string, i: nat, value: Value)
    requires i < |ds| && ds[i].key.Some? && Prefix(groupKey) <= ds[i].key.value
    ensures var r := Merged(true, Resolved(Some(ds)), mixin, name, providerName, group, groupKey, delegateErrorKey, mixinErrorKey);
      i < |r| && r[i] == ds[i] && Route(groupKey, r[i].key, value).ToMixin?
  {
    DelegateSettingsComeFirst(ds, mixin, name, providerName, group, groupKey, delegateErrorKey, mixinErrorKey);
    var r := Merged(true, Resolved(Some(ds)), mixin, name, providerName, group, groupKey, delegateErrorKey, mixinErrorKey);
    assert r[i] == r[..|ds|][i];
  }

  /** Distinct mixin keys stay distinct once namespaced, so no two mixin entries share a key. */
  lemma {:induction false} NamespacedKeysDistinct(ms: seq<Setting>, group: string, groupKey: string)
    requires forall i, j :: 0 <= i < j < |ms| ==> KeyText(ms[i].key) != KeyText(ms[j].key)
    ensures var r := NamespaceAll(ms, group, groupKey);
      forall i, j :: 0 <= i < j < |r| ==> r[i].key != r[j].key
  {
    var r := NamespaceAll(ms, group, groupKey);
    forall i, j | 0 <= i < j < |r| ensures r[i].key != r[j].key {
      var p := Prefix(groupKey);
      var a, b := KeyText(ms[i].key), KeyText(ms[j].key);
      assert (p + a)[|p|..] == a;
      assert (p + b)[|p|..] == b;
    }
  }

  /**
   * When no delegate key carries the prefix, the prefix splits the merged
   * list exactly: every delegate entry is written back to the device and
   * every mixin entry to the mixin.
   */
  lemma {:induction false} RoutingSplitsMerged(
    ds: seq<Setting>, ms: seq<Setting>,
    name: string, providerName: string, group: string, groupKey: string,
    delegateErrorKey: string, mixinErrorKey: string, value: Value)
    requires forall j :: 0 <= j < |ds| ==> ds[j].key.None? || !(Prefix(groupKey) <= ds[j].key.value)
    ensures var r := Merged(true, Resolved(Some(ds)), Resolved(Some(ms)), name, providerName, group, groupKey, delegateErrorKey, mixinErrorKey);
      |r| == |ds| + |ms| &&
      forall i :: 0 <= i < |r| ==> (Route(groupKey, r[i].key, value).ToMixin? <==> |ds| <= i)
  {
    var r := Merged(true, Resolved(Some(ds)), Resolved(Some(ms)), name, providerName, group, groupKey, delegateErrorKey, mixinErrorKey);
    forall i | 0 <= i < |r| ensures Route(groupKey, r[i].key, value).ToMixin? <==> |ds| <= i {
      if i < |ds| {
        assert r[i] == ds[i];
      } else {
        MergedMixinKeysRouteBack(true, Resolved(Some(ds)), ms, name, providerName, group, groupKey, delegateErrorKey, mixinErrorKey, i - |ds|, value);
      }
    }
  }

  // ---------------------------------------------------------------------
  // The mixin object

  /** A settings mixin attached to one device; `notifications` counts the host's settings-changed events. */
  class SettingsMixinDevice {
    const mixinDeviceInterfaces: seq<string>
    var settingsGroup: string
    var settingsGroupKey: string
    var notifications: nat

    /** Construction stores the group options and raises one (deferred) notification. */
    constructor (mixinDeviceInterfaces: seq<string>, group: string, groupKey: string)
      ensures this.mixinDeviceInterfaces == mixinDeviceInterfaces
      ensures settingsGroup == group && settingsGroupKey == groupKey
      ensures notifications == 1
    {
      this.mixinDeviceInterfaces := mixinDeviceInterfaces;
      settingsGroup := group;
      settingsGroupKey := groupKey;
      notifications := 1;
    }

    /**
     * getSettings, given how the two fetches settled, the names the host
     * reports for the device and for the mixin provider, and the two
     * placeholder keys the random generator would draw.
     */
    method GetSettings(
      delegate: Fetch, mixin: Fetch, name: string, providerName: string,
      delegateErrorKey: string, mixinErrorKey: string)
      returns (allSettings: seq<Setting>)
      ensures allSettings == Merged(
        SettingsInterface in mixinDeviceInterfaces, delegate, mixin, name, providerName,
        settingsGroup, settingsGroupKey, delegateErrorKey, mixinErrorKey)
    {
      var hasSettings := SettingsInterface in mixinDeviceInterfaces;
      allSettings := [];

      if hasSettings && delegate.Rejected? {
        allSettings := allSettings + [ErrorPlaceholder(delegateErrorKey, name)];
      } else {
        var settings := if hasSettings && delegate.settings.Some? then delegate.settings.value else [];
        allSettings := allSettings + settings;
      }
      assert allSettings == DelegatePart(hasSettings, delegate, name, delegateErrorKey);

      if mixin.Rejected? {
        allSettings := allSettings + [ErrorPlaceholder(mixinErrorKey, providerName)];
      } else {
        var loaded := if mixin.settings.Some? then mixin.settings.value else [];
        var mixinSettings := loaded;
        var i := 0;
        while i < |mixinSettings|
          invariant |mixinSettings| == |loaded|
          invariant 0 <= i <= |mixinSettings|
          invariant forall j :: 0 <= j < i ==> mixinSettings[j] == Namespaced(loaded[j], settingsGroup, settingsGroupKey)
          invariant forall j :: i <= j < |mixinSettings| ==> mixinSettings[j] == loaded[j]
        {
          var setting := mixinSettings[i];
          setting := setting.(group := if Truthy(setting.group) then setting.group else Some(settingsGroup));
          setting := setting.(key := Some(settingsGroupKey + ":" + KeyText(setting.key)));
          assert setting == Namespaced(loaded[i], settingsGroup, settingsGroupKey);
          mixinSettings := mixinSettings[i := setting];
          i := i + 1;
        }
        assert mixinSettings == NamespaceAll(loaded, settingsGroup, settingsGroupKey);
        allSettings := allSettings + mixinSettings;
      }
    }

    /**
     * putSetting: a key with the mixin's prefix goes, stripped, to the mixin
     * handler, and a notification follows once the handler has succeeded;
     * any other key (absent ones too) goes unchanged to the device.
     */
    method PutSetting(key: Option<string>, value: Value, mixinHandlerFails: bool) returns (w: Write)
      modifies this`notifications
      ensures w == Route(settingsGroupKey, key, value)
      ensures notifications == old(notifications) + (if w.ToMixin? && !mixinHandlerFails then 1 else 0)
    {
      var prefix := settingsGroupKey + ":";
      if !(key.Some? && prefix <= key.value) {
        w := ToDevice(key, value);
        return;
      }
      w := ToMixin(key.value[|prefix|..], value);
      if !mixinHandlerFails {
        notifications := notifications + 1;
      }
    }

    /** release: one more notification. */
    method Release()
      modifies this`notifications
      ensures notifications == old(notifications) + 1
    {
      notifications := notifications + 1;
    }
  }

  /** A lifetime: construction, one mixin write, one device write, release. */
  method NotificationLifetime(groupKey: string, value: Value)
  {
    var m := new SettingsMixinDevice([SettingsInterface], "Motion", groupKey);
    var w1 := m.PutSetting(Some(groupKey + ":sensitivity"), value, false);
    RouteRoundTrip(groupKey, "sensitivity", value);
    assert w1 == ToMixin("sensitivity", value);
    var w2 := m.PutSetting(None, value, false);
    assert w2 == ToDevice(None, value);
    m.Release();
    assert m.notifications == 3;
  }
}
