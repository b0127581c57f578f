# UI-style option loader

A Dafny model of `UiStyleOptionsProvider`, the theme picker's loader of UI-style options.
The provider is built with four lists of overlay package names: the primary (android)
UI-style overlays, the theme overlays, the SysUI style overlays and the Settings style
overlays. It keeps the first theme overlay as its default theme package. `loadOptions` then
runs as follows:

1. It appends a default option. The colours come from the default theme package, or from
   the system when that lookup fails. It has no style package, and its SysUI and Settings
   associations are null.
2. It walks the primary overlays. Each one is grouped under its prefix: the package name
   up to its last `.`. The loader then looks up both background colours and the label. When
   all three load, it attaches the style info to the grouped option and appends that option.
   When a lookup fails, it does not append the overlay. The overlay has already been grouped,
   though, so its package is still its group's android association.
3. It walks the SysUI overlays and then the Settings overlays. These only record
   associations on the grouped options.

The project has three modules:

- `UiStyleModel` (`ui_style_model.dfy`) is the value-level model. It covers key derivation,
  one grouping step (`AddOrUpdate`), the platform lookups (`OverlayColor`, `LoadStyle`,
  `DefaultColors`), the default option, and the passes as functions. `Load` is the whole
  pass and `Visible` is what it appends.
- `UiStyleProvider` (`ui_style_provider.dfy`) follows the source's own shape.
  `UiStyleOption` is a class whose methods update it in place. `UiStyleOptionsProvider`
  holds a result list `options`, and its `LoadOptions` fills a map from keys to option
  objects in three loops. Every method is proved against the model functions. The central
  contract is `LoadOptions`: the values of the options it appends are
  `Visible(Load(...))`. The appended objects are shared exactly along equal keys, and none
  of them is the default option.
- `UiStyleProperties` (`ui_style_properties.dfy`) proves what one pass guarantees, on the
  model:
  - which primary overlays are shown, and in which order;
  - that a failed overlay changes neither which keys are shown nor their order, but still
    becomes its group's android association;
  - what the secondary loops may and may not change;
  - that the default option comes first;
  - a worked example pass.

The Android collaborators are one `Platform` value, frozen for the pass:

- `installed` maps each installed overlay package to the colours its resources resolve and
  the label its application info loads.
- A name outside `installed` stands for `NameNotFoundException`.
- A colour missing from an overlay's colours stands for `NotFoundException`.
- The value also holds the system fallback colours, the resolved accent colour and the
  default title string.

The overlay manager's answers are the constructor's parameters.

Appending happens once per primary overlay that loads, not once per group. Suppose two
primary overlays share a prefix and both load. The loader attaches style info to the shared
option twice, and appends the same object twice. The model does the same (`SiblingsShownTwice`, and `SharedByKey` in `LoadOptions`).

## Model

| member | source | states |
|---|---|---|
| UiStyleModel.LastIndexOf | src/com/android/customization/model/theme/custom/UiStyleOptionsProvider.java:120 | the result is -1 exactly when the character is absent; otherwise it is an index holding the character, with no later occurrence |
| UiStyleModel.GroupingKey | src/com/android/customization/model/theme/custom/UiStyleOptionsProvider.java:120 | for a name containing a dot, the key is a proper prefix of the name, followed by a '.', and no '.' comes after it |
| UiStyleProperties.GroupingKeyDropsLastSegment | src/com/android/customization/model/theme/custom/UiStyleOptionsProvider.java:120 | the key of `prefix + "." + segment` is `prefix` whenever the segment has no dot, so the key is the name without its last segment |
| UiStyleProperties.SiblingsShareKey | src/com/android/customization/model/theme/custom/UiStyleOptionsProvider.java:120-127 | two packages that differ only in their last segment have the same key, so they are grouped onto one option |
| UiStyleModel.OptionValue.WithPackage | src/com/android/customization/model/theme/custom/UiStyleOptionsProvider.java:128 | recording an association sets that category's package and adds the category; every other category and the style info are unchanged |
| UiStyleModel.AddOrUpdate | src/com/android/customization/model/theme/custom/UiStyleOptionsProvider.java:118-130 | the table gains the package's key and no other key; every other entry is unchanged; an existing option keeps its style and its associations for every other category; a new key gets a fresh option with only this association; the key's option records category -> package |
| UiStyleProvider.UiStyleOption.constructor | src/com/android/customization/model/theme/custom/UiStyleOptionsProvider.java:123 | a new option has no associations and no style info |
| UiStyleProvider.UiStyleOption.AddOverlayPackage | src/com/android/customization/model/theme/custom/UiStyleOptionsProvider.java:128 | the option's new value is its old value with the association recorded |
| UiStyleProvider.UiStyleOption.AddStyleInfo | src/com/android/customization/model/theme/custom/UiStyleOptionsProvider.java:95 | sets the style info to exactly the given package, label, colours and accent colour; the associations are unchanged |
| UiStyleProvider.UiStyleOptionsProvider.AddOrUpdateOption | src/com/android/customization/model/theme/custom/UiStyleOptionsProvider.java:118-130 | for a registered key, returns the registered object and leaves the map unchanged; otherwise it creates a fresh option and registers it under the key; only that object changes; the map afterwards stands for `AddOrUpdate` of the table |
| UiStyleModel.OverlayColor | src/com/android/customization/model/theme/custom/UiStyleOptionsProvider.java:86-92 | a colour resolves exactly when the package is non-null and installed and has that colour resource; the colour returned is that package's resource value |
| UiStyleModel.ApplicationLabel | src/com/android/customization/model/theme/custom/UiStyleOptionsProvider.java:93-94 | a label loads exactly when the package is installed; the label returned is that package's label |
| UiStyleModel.LoadStyle | src/com/android/customization/model/theme/custom/UiStyleOptionsProvider.java:85-97 | style info loads exactly when both colours resolve; it then carries the overlay package, the installed label, the overlay's resolved light and dark colours, and the accent colour |
| UiStyleModel.DefaultThemePackage | src/com/android/customization/model/theme/custom/UiStyleOptionsProvider.java:70 | null exactly when the theme list is empty, and otherwise the list's first entry |
| UiStyleProvider.UiStyleOptionsProvider.constructor | src/com/android/customization/model/theme/custom/UiStyleOptionsProvider.java:59-71 | keeps the three overlay lists as given and picks the default theme package by `DefaultThemePackage` |
| UiStyleModel.DefaultColors | src/com/android/customization/model/theme/custom/UiStyleOptionsProvider.java:137-153 | the default theme package's colours when both resolve; the system colours when either lookup fails |
| UiStyleModel.DefaultOption | src/com/android/customization/model/theme/custom/UiStyleOptionsProvider.java:132-157 | the default option has style info with a null package, the default title, the accent colour and `DefaultColors`; its only associations are null SysUI and Settings packages |
| UiStyleProvider.UiStyleOptionsProvider.AddDefault | src/com/android/customization/model/theme/custom/UiStyleOptionsProvider.java:132-159 | appends exactly one fresh option, whose value is `DefaultOption`; the earlier entries are unchanged |
| UiStyleModel.PrimaryStep | src/com/android/customization/model/theme/custom/UiStyleOptionsProvider.java:83-100 | one primary iteration groups the overlay whether or not it loads: the table gains its key and no other, every other entry is unchanged, and the key's option records android -> the overlay; the key is appended exactly when its style loads, and the option then holds that loaded style |
| UiStyleModel.PrimaryPass | src/com/android/customization/model/theme/custom/UiStyleOptionsProvider.java:82-101 | the primary loop, one `PrimaryStep` per overlay in list order; specified by `PrimaryShownAreLoadedKeys` (the appended keys are the loading overlays' keys in order), `PrimaryGroupsEveryOverlay` (every overlay is grouped), `PrimaryStylesLoaded` and `PrimaryShownAreStyled` (the styles attached), and `PrimaryAssociationsAreGrouping` (the android associations are those a grouping-only loop records) |
| UiStyleModel.SecondaryPass | src/com/android/customization/model/theme/custom/UiStyleOptionsProvider.java:103-109 | a secondary loop never drops a key; specified by `SecondaryTouchesOnlyItsCategory`, `SecondaryAssociatesEveryOverlay` and `SecondaryAssociatesLast` |
| UiStyleModel.Load | src/com/android/customization/model/theme/custom/UiStyleOptionsProvider.java:74-109 | the whole pass keeps `DefaultOption` as its default; its table and shown keys are specified by `LoadStylesLoaded`, `LoadShownStyled` and the primary and secondary lemmas |
| UiStyleModel.Visible | src/com/android/customization/model/theme/custom/UiStyleOptionsProvider.java:80-96 | the options the pass appends: the default option first, then one per shown key; specified by `LoadAppendsDefaultThenLoaded` and `LoadAppendsStyledOptions` |
| UiStyleProvider.UiStyleOptionsProvider.TryAddStyledOption | src/com/android/customization/model/theme/custom/UiStyleOptionsProvider.java:85-100 | when the style loads, it is attached to the grouped option and that option is appended; when a lookup fails, the list and the table are unchanged |
| UiStyleProvider.UiStyleOptionsProvider.AddPrimaryOption | src/com/android/customization/model/theme/custom/UiStyleOptionsProvider.java:83-100 | one iteration of the primary loop performs `PrimaryStep` on the table and on the appended keys, and only extends the map and the list |
| UiStyleProvider.UiStyleOptionsProvider.AddPrimaryOptions | src/com/android/customization/model/theme/custom/UiStyleOptionsProvider.java:82-101 | the loop leaves the map standing for `PrimaryPass` of the overlay list; the options appended are the grouped objects of its shown keys, in order |
| UiStyleProvider.UiStyleOptionsProvider.AttachOverlays | src/com/android/customization/model/theme/custom/UiStyleOptionsProvider.java:103-109 | a secondary loop changes only option objects, never the result list; afterwards the map stands for `SecondaryPass`, and keeps every earlier entry |
| UiStyleProvider.UiStyleOptionsProvider.LoadOptions | src/com/android/customization/model/theme/custom/UiStyleOptionsProvider.java:74-116 | the list only grows, by fresh objects whose values are `Visible(Load(...))`: the default option, then the option of each shown key; two appended objects are the same exactly when their keys are equal, and none is the default option |
| UiStyleProvider.ShowsAliasing | src/com/android/customization/model/theme/custom/UiStyleOptionsProvider.java:121-127 | since each grouped object belongs to one key, the appended objects alias exactly along equal keys |
| UiStyleProperties.Loaded | src/com/android/customization/model/theme/custom/UiStyleOptionsProvider.java:85-97 | an independent description of the primary overlays that load: a member of the list is in the result exactly when it loads, and nothing else is |
| UiStyleProperties.LoadedAppend | src/com/android/customization/model/theme/custom/UiStyleOptionsProvider.java:82-101 | the filter distributes over concatenation, so the loading overlays keep their list order |
| UiStyleProperties.PrimaryShownAreLoadedKeys | src/com/android/customization/model/theme/custom/UiStyleOptionsProvider.java:82-101 | the keys the primary loop appends are exactly the keys of the overlays that load, in list order |
| UiStyleProperties.LoadedWithout | src/com/android/customization/model/theme/custom/UiStyleOptionsProvider.java:97-100 | removing a failing overlay from the list does not change which overlays load |
| UiStyleProperties.FailedOverlayIsSkipped | src/com/android/customization/model/theme/custom/UiStyleOptionsProvider.java:97-100 | with or without a failing overlay, the primary loop shows the same keys in the same order |
| UiStyleProperties.FailingSiblingOverwrites | src/com/android/customization/model/theme/custom/UiStyleOptionsProvider.java:83-100 | a failing overlay after a loading sibling leaves the sibling's key shown once with the sibling's style, but the shown option's android association becomes the failing overlay |
| UiStyleProperties.PrimaryAssociationsAreGrouping | src/com/android/customization/model/theme/custom/UiStyleOptionsProvider.java:82-84 | the primary loop leaves the same keys and the same associations under each key as a grouping-only loop over the same list under the android category |
| UiStyleProperties.PrimaryAssociatesLast | src/com/android/customization/model/theme/custom/UiStyleOptionsProvider.java:82-84 | after the primary loop, an overlay's group is associated with it under the android category when no later overlay shares its key, whether or not it loads |
| UiStyleProperties.SiblingsShownTwice | src/com/android/customization/model/theme/custom/UiStyleOptionsProvider.java:83-96 | two loading overlays with the same prefix append their shared option twice |
| UiStyleProperties.PrimaryGroupsEveryOverlay | src/com/android/customization/model/theme/custom/UiStyleOptionsProvider.java:82-84 | every primary overlay is grouped, whether or not it loads: the table's keys become the old keys plus the keys of all the overlays |
| UiStyleProperties.AddOrUpdateKeepsStyled | src/com/android/customization/model/theme/custom/UiStyleOptionsProvider.java:118-130 | a grouping step keeps every key and leaves its style info exactly as it was, so a key styled from its own group stays so |
| UiStyleProperties.PrimaryShownAreStyled | src/com/android/customization/model/theme/custom/UiStyleOptionsProvider.java:95-96 | every key the primary loop appends holds style info from a package of its own group |
| UiStyleProperties.PrimaryStylesLoaded | src/com/android/customization/model/theme/custom/UiStyleOptionsProvider.java:87-95 | every style info the primary loop attaches is what the lookups give for one of its overlays: its package, label and both colours |
| UiStyleProperties.SecondaryKeepsLoadedStyles | src/com/android/customization/model/theme/custom/UiStyleOptionsProvider.java:103-109 | a secondary loop keeps every style info as it is and attaches none |
| UiStyleProperties.LoadStylesLoaded | src/com/android/customization/model/theme/custom/UiStyleOptionsProvider.java:74-109 | after the whole pass, every style info in the table was loaded for a primary overlay |
| UiStyleProperties.AccentColorKept | src/com/android/customization/model/theme/custom/UiStyleOptionsProvider.java:95 | all style info attached in the primary loop carries the resolved accent colour |
| UiStyleProperties.SecondaryTouchesOnlyItsCategory | src/com/android/customization/model/theme/custom/UiStyleOptionsProvider.java:103-109 | a secondary loop adds only its overlays' keys and leaves every other option unchanged; it never adds or changes style info, and never touches another category's associations |
| UiStyleProperties.SecondaryAssociatesEveryOverlay | src/com/android/customization/model/theme/custom/UiStyleOptionsProvider.java:103-109 | after a secondary loop, every key it touched holds an association for its category, to a package of the list with that key |
| UiStyleProperties.SecondaryAssociatesLast | src/com/android/customization/model/theme/custom/UiStyleOptionsProvider.java:118-130 | after a secondary loop, a key's association for the loop's category is the last package of the list with that key: later groupings overwrite earlier ones |
| UiStyleProperties.LoadShownStyled | src/com/android/customization/model/theme/custom/UiStyleOptionsProvider.java:74-109 | after the whole pass, every shown key still holds the style info from its own group, with the accent colour |
| UiStyleProperties.LoadAppendsDefaultThenLoaded | src/com/android/customization/model/theme/custom/UiStyleOptionsProvider.java:80-96 | the pass appends the default option first, then one option per loading primary overlay: 1 + the number that load |
| UiStyleProperties.LoadAppendsStyledOptions | src/com/android/customization/model/theme/custom/UiStyleOptionsProvider.java:95-96 | every option appended after the default one carries exactly the style info loaded for a primary overlay: that overlay's package, label, light and dark colours, and the accent colour |
| UiStyleProperties.SamplePrimaryPass | src/com/android/customization/model/theme/custom/UiStyleOptionsProvider.java:82-101 | in the worked example, of three primary overlays the one that is not installed is grouped but not shown |
| UiStyleProperties.SampleSecondaryPasses | src/com/android/customization/model/theme/custom/UiStyleOptionsProvider.java:103-109 | in the worked example, the SysUI association lands on a shown option; the Settings one lands on the option of the overlay that failed |
| UiStyleProperties.SampleLoad | src/com/android/customization/model/theme/custom/UiStyleOptionsProvider.java:74-109 | the worked pass appends three options: the default, then the first loaded option with its SysUI association, then the second loaded option |

## Left out

- The Android calls are not modelled: `getOverlayResources`, `getColor`/`getIdentifier`,
  `getApplicationInfo`/`loadLabel`, `Resources.getSystem()` and
  `getOverlayPackagesForCategory`. They become the `Platform` value and the constructor's
  parameters. `getPackagesToOverlay` only filters the overlay manager's answers, so it is
  left out too.
- `resolveAccentColor` is external policy, so the accent colour is an input. The source
  resolves it twice (lines 75 and 136); the model assumes both calls give the same value.
- The night-mode computation (lines 77-79) is left out; its result is never used.
- The commented-out relabelling loop (lines 111-115) is left out; it is dead code.
- Logging is left out.
- `R.string.default_theme_title` is a constant of the platform value.
- The system fallback colours are assumed to resolve: the source does not guard those
  lookups.
- UiStyleModel.GroupingKey: a package name without a dot is a precondition. In the source,
  `substring(0, -1)` throws for it and nothing catches the exception, so the model does not
  cover that crash.
- `UiStyleOption` and `ThemeComponentOptionProvider` are not part of this model. The option
  is modelled as a category -> package map plus its style info. Recording an association
  for a category the option already has overwrites it. A second `addStyleInfo` on the same
  option (two loading primary overlays with one prefix) replaces the first style info.
- The base class owns `mOverlayPackages` and `mOptions`; here they are fields of the
  provider class.
- A null default theme package counts as a failed lookup, which falls back to the system
  colours.
- The category strings of `ResourceConstants` are not part of this model. They are an
  enumeration whose members are distinct.
- The model writes each loop body as its own method:
  `AddPrimaryOption` and `TryAddStyledOption` for the primary loop, and `AttachOverlays` for
  the secondary loops. The steps and their order are the source's.
