# Settings mixin: merged settings and write routing

A Dafny model of `SettingsMixinDeviceBase` from `common/src/settings-mixin.ts`, the
base class a plugin uses to wrap an existing device (the *delegate*) and show
one settings list made of the device's own settings followed by the mixin's
settings.

- **Merge** (`getSettings`). Each source's fetch is modelled by how its promise
  settled: `Resolved(Some(list))`, `Resolved(None)` (resolved to null or
  undefined, treated as an empty list) or `Rejected`. The delegate is asked only
  when its interfaces include `"Settings"`. The result is the delegate's part
  followed by the mixin's part. Delegate settings are passed through unchanged.
  Each mixin setting gets its group defaulted to the configured group when the
  group is absent or empty, and its key rewritten to `<groupKey>:<key>`. A
  rejected source is replaced by one read-only placeholder in the `Errors`
  group with value `Settings Error`. The specification is the function
  `Merged`, built from `DelegatePart`, `MixinPart` and the per-setting rewrite
  `Namespaced` / `NamespaceAll`. The method `SettingsMixinDevice.GetSettings`
  builds the list the way the source does: it appends, then rewrites the mixin
  list entry by entry in a loop. It is proved to return `Merged`.
- **Write routing** (`putSetting`). `Route` decides where a write goes. A key
  that starts with `<groupKey>:` goes to the mixin handler with the prefix
  stripped. Every other key goes to the device unchanged, including an absent
  (null or undefined) key.
- **Notifications.** The mixin object counts the host's settings-changed
  notifications. Construction adds one. A mixin-routed write adds one once the
  handler has succeeded. `Release` adds one. A device-routed write adds none.

Inputs from the host are parameters of `GetSettings` and `PutSetting`: how the
fetches settled, the device's name (`this.name`), the provider's name (from
`deviceManager.getDeviceState`), the placeholder keys (drawn from
`Math.random()` in the source), and whether the mixin write handler rejects.

An absent key is rewritten as JavaScript's `+` does it: the key becomes
`<groupKey>:undefined`. Group truthiness follows JavaScript `||`, so an empty
group is replaced as well.

## Model

| member | source | states |
|---|---|---|
| `SettingsMixin.NamespaceAll` | common/src/settings-mixin.ts:54-57 | the loop's rewrite keeps the list's length and rewrites each entry exactly as `Namespaced` does, in place and in order |
| `SettingsMixin.MergedLength` | common/src/settings-mixin.ts:29-75 | the output has (delegate count, 0 without the Settings interface or on a null result, 1 on failure) + (mixin count, 0 on a null result, 1 on failure) entries |
| `SettingsMixin.DelegateSettingsComeFirst` | common/src/settings-mixin.ts:34-36 | the delegate's settings open the output unchanged and in order, and the mixin's part follows them |
| `SettingsMixin.NoDelegateSettings` | common/src/settings-mixin.ts:30-35 | a device without the Settings interface, or whose settings resolve to null, contributes nothing: the output is the mixin's part alone |
| `SettingsMixin.DelegateFailure` | common/src/settings-mixin.ts:38-50 | a rejected delegate fetch yields exactly one leading placeholder: the given key, the device name as title, value `Settings Error`, group `Errors`, description `<name> Extension settings failed to load.`, readonly. All mixin entries still follow it |
| `SettingsMixin.MixinFailure` | common/src/settings-mixin.ts:60-72 | a rejected mixin fetch keeps the whole delegate part and appends exactly one placeholder titled with the provider's name |
| `SettingsMixin.MixinSettingsNamespaced` | common/src/settings-mixin.ts:54-58 | each mixin setting appears after the delegate part with key `groupKey + ":" + key`, group kept when truthy and otherwise the configured group, and title, value, description and readonly unchanged |
| `SettingsMixin.Route` | common/src/settings-mixin.ts:77-83 | a write goes to the mixin if and only if its key is present and starts with `groupKey:`. A mixin write carries the stripped key (prefix + stripped key = key) and the same value. A device write carries the key and value unchanged, absent keys included |
| `SettingsMixin.RouteRoundTrip` | common/src/settings-mixin.ts:78-83 | routing `groupKey + ":" + k` gives back exactly `k` and the value, for every `k` |
| `SettingsMixin.MergedMixinKeysRouteBack` | common/src/settings-mixin.ts:54-83 | writing back the key of any mixin entry of the merged list reaches the mixin handler with that setting's original key |
| `SettingsMixin.DelegateKeyWithPrefixGoesToMixin` | common/src/settings-mixin.ts:36-83 | routing goes by prefix alone: a delegate setting whose own key starts with `groupKey:` is shown unchanged, yet a write to it goes to the mixin |
| `SettingsMixin.NamespacedKeysDistinct` | common/src/settings-mixin.ts:54-57 | the rewrite `groupKey + ":" + key` is injective: mixin settings with distinct keys keep distinct keys after namespacing |
| `SettingsMixin.RoutingSplitsMerged` | common/src/settings-mixin.ts:29-83 | when no delegate key starts with `groupKey:`, writing back entry i of the merged list goes to the mixin exactly when i is past the delegate's settings |
| `SettingsMixin.SettingsMixinDevice.constructor` | common/src/settings-mixin.ts:18-24 | stores the group and group key and raises exactly one notification |
| `SettingsMixin.SettingsMixinDevice.GetSettings` | common/src/settings-mixin.ts:29-75 | the append-and-rewrite loop returns exactly `Merged` of the settled fetches, the object's group options and the host-supplied names and keys |
| `SettingsMixin.SettingsMixinDevice.PutSetting` | common/src/settings-mixin.ts:77-85 | the write goes where `Route` says. The count goes up by one only for a mixin-routed write whose handler succeeds, and by zero for a device-routed write |
| `SettingsMixin.SettingsMixinDevice.Release` | common/src/settings-mixin.ts:87-89 | raises exactly one more notification |

## Left out

- The host SDK calls (`deviceManager.onMixinEvent`, `deviceManager.getDeviceState`, `this.name`) are not modelled. Notifications are a counter. The names are parameters.
- `process.nextTick`: the construction notification is counted when the constructor returns, not on a later tick.
- The concurrency of the two fetches is not modelled. Each fetch is an already-settled outcome. A synchronous throw from `mixinDevice.getSettings()` or `getMixinSettings()` (outside the try blocks) is not modelled either.
- The placeholder keys come from `Math.random()` and are parameters here. Nothing is claimed about their uniqueness.
- `console.error` logging and the `MixinDeviceBase` superclass constructor are library code and are not part of this model.
- The loop updates the mixin's own `Setting` objects in place. The model treats settings as values, so it assumes the list holds distinct objects. With aliasing, the same object could appear twice and be prefixed twice. A later call that returns the same objects again would also be prefixed again.
- Errors thrown by the device's or the mixin's write handler propagate to the caller. The model keeps only their effect on notifications: none when the mixin handler rejects.
- Settings are modelled by key, title, value, group, description and readonly. The SDK's other fields are not modelled. Numbers are modelled as integers, not floating point.
- A key that is `null` rather than `undefined` would concatenate as `null`. The model has a single absent key, which reads as `undefined`.
