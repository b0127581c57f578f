/** Value-level model of the UI-style option loader: how an overlay package name is turned
    into a grouping key, what one grouping step does to the prefix table, what the platform
    lookups return, and what a whole load pass produces. The class-based provider in
    ui_style_provider.dfy is proved against these functions. */
module UiStyleModel {

  datatype Option<T> = None | Some(value: T)

  /** A colour as returned by Resources.getColor (an ARGB int; never computed with here). */
  type Color = int

  /** The three overlay categories the loader deals with. Their string values live in
      ResourceConstants, which is not part of this model; only their distinctness matters. */
  datatype Category = UiStyleAndroid | UiStyleSysUi | UiStyleSettings

  /** The two colour resources looked up in every style overlay. */
  datatype ColorName = BackgroundLight | BackgroundDark

  /** What the platform knows about one installed overlay package: the colour resources its
      Resources resolve, and the label its ApplicationInfo loads. */
  datatype OverlayPackage = OverlayPackage(colors: map<ColorName, Color>, displayLabel: string)

  /** The Android collaborators, frozen for one load pass. `installed` stands for the
      PackageManager and the per-package Resources: a name outside it raises
      NameNotFoundException, a colour outside `colors` raises NotFoundException. The system
      colours are what Resources.getSystem() resolves in the android package. */
  datatype Platform = Platform(
    installed: map<string, OverlayPackage>,
    systemLight: Color,
    systemDark: Color,
    accentColor: Color,
    defaultThemeTitle: string)

  /** The style metadata attached by addStyleInfo. */
  datatype StyleInfo = StyleInfo(
    stylePackage: Option<string>,
    displayLabel: string,
    lightColor: Color,
    darkColor: Color,
    accentColor: Color)

  /** The observable state of one UiStyleOption: its category -> package associations
      (None is a recorded null) and its style info, None until addStyleInfo is called. */
  datatype OptionValue = OptionValue(packagesByCategory: map<Category, Option<string>>, style: Option<StyleInfo>)
  {
    /** addOverlayPackage: record (or overwrite) the package for one category. */
    function WithPackage(category: Category, pkg: Option<string>): (r: OptionValue)
      ensures r.style == style
      ensures r.packagesByCategory.Keys == packagesByCategory.Keys + {category}
      ensures r.packagesByCategory[category] == pkg
      ensures forall c :: c in packagesByCategory && c != category ==>
                r.packagesByCategory[c] == packagesByCategory[c]
    {
      OptionValue(packagesByCategory[category := pkg], style)
    }
  }

  /** A freshly constructed UiStyleOption. */
  const EmptyOption := OptionValue(map[], None)

  /** String.lastIndexOf for a single character: the greatest index holding `c`, or -1. */
  function LastIndexOf(s: string, c: char): (r: int)
    ensures -1 <= r < |s|
    ensures r == -1 <==> c !in s
    ensures 0 <= r ==> s[r] == c
    ensures forall j :: r < j < |s| ==> s[j] != c
  {
    if |s| == 0 then -1
    else if s[|s| - 1] == c then |s| - 1
    else LastIndexOf(s[..|s| - 1], c)
  }

  /** A package name the grouping helper accepts: one without a '.' makes substring(0, -1)
      throw, and nothing in the loader catches that. */
  predicate Dotted(pkg: string) {
    '.' in pkg
  }

  /** The grouping key of an overlay package: its name up to, not including, the last '.'. */
  function GroupingKey(pkg: string): (key: string)
    requires Dotted(pkg)
    ensures |key| < |pkg| && key == pkg[..|key|]
    ensures pkg[|key|] == '.'
    ensures '.' !in pkg[|key| + 1..]
  {
    var dot := LastIndexOf(pkg, '.');
    pkg[..dot]
  }

  /** Map.get with a fresh option standing in for an absent key. */
  function Lookup(groups: map<string, OptionValue>, key: string): OptionValue {
    if key in groups then groups[key] else EmptyOption
  }

  /** addOrUpdateOption on values: find or create the option of the package's key and record
      category -> package on it. */
  function AddOrUpdate(groups: map<string, OptionValue>, pkg: string, category: Category): (r: map<string, OptionValue>)
    requires Dotted(pkg)
    ensures r.Keys == groups.Keys + {GroupingKey(pkg)}
    ensures forall k :: k in groups && k != GroupingKey(pkg) ==> r[k] == groups[k]
    ensures GroupingKey(pkg) in groups ==> r[GroupingKey(pkg)].style == groups[GroupingKey(pkg)].style
    ensures GroupingKey(pkg) !in groups ==> r[GroupingKey(pkg)] == OptionValue(map[category := Some(pkg)], None)
    ensures category in r[GroupingKey(pkg)].packagesByCategory
    ensures r[GroupingKey(pkg)].packagesByCategory[category] == Some(pkg)
    ensures GroupingKey(pkg) in groups ==>
              r[GroupingKey(pkg)].packagesByCategory.Keys == groups[GroupingKey(pkg)].packagesByCategory.Keys + {category}
    ensures GroupingKey(pkg) in groups ==>
              forall c :: c in groups[GroupingKey(pkg)].packagesByCategory && c != category ==>
                r[GroupingKey(pkg)].packagesByCategory[c] == groups[GroupingKey(pkg)].packagesByCategory[c]
  {
    var key := GroupingKey(pkg);
    groups[key := Lookup(groups, key).WithPackage(category, Some(pkg))]
  }

  /** getOverlayResources(pkg) followed by getColor(getIdentifier(name, "color", pkg)). */
  function OverlayColor(platform: Platform, pkg: Option<string>, name: ColorName): (r: Option<Color>)
    ensures r.Some? <==> pkg.Some? && pkg.value in platform.installed && name in platform.installed[pkg.value].colors
    ensures r.Some? ==> r.value == platform.installed[pkg.value].colors[name]
  {
    if pkg.Some? && pkg.value in platform.installed && name in platform.installed[pkg.value].colors
    then Some(platform.installed[pkg.value].colors[name])
    else None
  }

  /** getApplicationInfo(pkg, 0).loadLabel(pm). */
  function ApplicationLabel(platform: Platform, pkg: string): (r: Option<string>)
    ensures r.Some? <==> pkg in platform.installed
    ensures r.Some? ==> r.value == platform.installed[pkg].displayLabel
  {
    if pkg in platform.installed then Some(platform.installed[pkg].displayLabel) else None
  }

  /** The try block of the primary loop: both colours and the label, or the failure that the
      catch clause swallows. */
  function LoadStyle(platform: Platform, pkg: string): (r: Option<StyleInfo>)
    ensures r.Some? <==> OverlayColor(platform, Some(pkg), BackgroundLight).Some?
                          && OverlayColor(platform, Some(pkg), BackgroundDark).Some?
    ensures r.Some? ==> r.value.stylePackage == Some(pkg) && r.value.accentColor == platform.accentColor
    ensures r.Some? ==> r.value.displayLabel == platform.installed[pkg].displayLabel
    ensures r.Some? ==> r.value.lightColor == platform.installed[pkg].colors[BackgroundLight]
                        && r.value.darkColor == platform.installed[pkg].colors[BackgroundDark]
  {
    var light := OverlayColor(platform, Some(pkg), BackgroundLight);
    var dark := OverlayColor(platform, Some(pkg), BackgroundDark);
    var appLabel := ApplicationLabel(platform, pkg);
    if light.Some? && dark.Some? && appLabel.Some?
    then Some(StyleInfo(Some(pkg), appLabel.value, light.value, dark.value, platform.accentColor))
    else None
  }

  /** The colours of the default option: from the default theme package when both resolve,
      otherwise the system fallback. */
  function DefaultColors(platform: Platform, defaultPkg: Option<string>): (r: (Color, Color))
    ensures OverlayColor(platform, defaultPkg, BackgroundLight).None?
            || OverlayColor(platform, defaultPkg, BackgroundDark).None?
            ==> r == (platform.systemLight, platform.systemDark)
    ensures OverlayColor(platform, defaultPkg, BackgroundLight).Some?
            && OverlayColor(platform, defaultPkg, BackgroundDark).Some?
            ==> r == (platform.installed[defaultPkg.value].colors[BackgroundLight],
                      platform.installed[defaultPkg.value].colors[BackgroundDark])
  {
    var light := OverlayColor(platform, defaultPkg, BackgroundLight);
    var dark := OverlayColor(platform, defaultPkg, BackgroundDark);
    if light.Some? && dark.Some? then (light.value, dark.value)
    else (platform.systemLight, platform.systemDark)
  }

  /** The option addDefault appends: no style package, the default title, and explicit null
      packages for the SysUI and Settings categories. */
  function DefaultOption(platform: Platform, defaultPkg: Option<string>): (r: OptionValue)
    ensures r.style.Some? && r.style.value.stylePackage == None
    ensures r.style.value.displayLabel == platform.defaultThemeTitle
    ensures r.style.value.accentColor == platform.accentColor
    ensures (r.style.value.lightColor, r.style.value.darkColor) == DefaultColors(platform, defaultPkg)
    ensures r.packagesByCategory == map[UiStyleSysUi := None, UiStyleSettings := None]
  {
    var (light, dark) := DefaultColors(platform, defaultPkg);
    EmptyOption
      .(style := Some(StyleInfo(None, platform.defaultThemeTitle, light, dark, platform.accentColor)))
      .WithPackage(UiStyleSysUi, None)
      .WithPackage(UiStyleSettings, None)
  }

  /** The grouping table and, in order, the keys of the options appended to the result. */
  datatype PassState = PassState(groups: map<string, OptionValue>, shown: seq<string>)

  predicate AllDotted(pkgs: seq<string>) {
    forall i :: 0 <= i < |pkgs| ==> Dotted(pkgs[i])
  }

  /** One iteration of the primary loop. */
  function PrimaryStep(platform: Platform, s: PassState, pkg: string): (r: PassState)
    requires Dotted(pkg)
    ensures LoadStyle(platform, pkg).Some? ==>
              r.shown == s.shown + [GroupingKey(pkg)]
              && GroupingKey(pkg) in r.groups && r.groups[GroupingKey(pkg)].style == LoadStyle(platform, pkg)
    ensures LoadStyle(platform, pkg).None? ==> r.shown == s.shown
    ensures r.groups.Keys == s.groups.Keys + {GroupingKey(pkg)}
    ensures forall k :: k in s.groups && k != GroupingKey(pkg) ==> r.groups[k] == s.groups[k]
    ensures UiStyleAndroid in r.groups[GroupingKey(pkg)].packagesByCategory
            && r.groups[GroupingKey(pkg)].packagesByCategory[UiStyleAndroid] == Some(pkg)
  {
    var groups := AddOrUpdate(s.groups, pkg, UiStyleAndroid);
    var key := GroupingKey(pkg);
    match LoadStyle(platform, pkg)
    case None => PassState(groups, s.shown)
    case Some(info) => PassState(groups[key := groups[key].(style := Some(info))], s.shown + [key])
  }

  /** The primary loop over `pkgs`, starting from `s`. */
  function PrimaryPass(platform: Platform, s: PassState, pkgs: seq<string>): (r: PassState)
    requires AllDotted(pkgs)
  {
    if pkgs == [] then s
    else PrimaryStep(platform, PrimaryPass(platform, s, pkgs[..|pkgs| - 1]), pkgs[|pkgs| - 1])
  }

  /** A secondary loop: grouping only, under `category`. */
  function SecondaryPass(groups: map<string, OptionValue>, pkgs: seq<string>, category: Category): (r: map<string, OptionValue>)
    requires AllDotted(pkgs)
    ensures groups.Keys <= r.Keys
  {
    if pkgs == [] then groups
    else AddOrUpdate(SecondaryPass(groups, pkgs[..|pkgs| - 1], category), pkgs[|pkgs| - 1], category)
  }

  /** Every prefix of a list of dotted names is one. */
  lemma AllDottedPrefix(pkgs: seq<string>, i: nat)
    requires AllDotted(pkgs) && i <= |pkgs|
    ensures AllDotted(pkgs[..i])
  {
  }

  /** The primary loop over the first `i` overlays of `pkgs`. */
  ghost function PrimaryPrefix(platform: Platform, s: PassState, pkgs: seq<string>, i: nat): PassState
    requires AllDotted(pkgs) && i <= |pkgs|
  {
    AllDottedPrefix(pkgs, i);
    PrimaryPass(platform, s, pkgs[..i])
  }

  /** The primary loop, one more overlay at a time. */
  lemma PrimaryPrefixSnoc(platform: Platform, s: PassState, pkgs: seq<string>, i: nat)
    requires AllDotted(pkgs) && i < |pkgs|
    ensures Dotted(pkgs[i])
    ensures PrimaryPrefix(platform, s, pkgs, i + 1) == PrimaryStep(platform, PrimaryPrefix(platform, s, pkgs, i), pkgs[i])
  {
    AllDottedPrefix(pkgs, i);
    AllDottedPrefix(pkgs, i + 1);
    assert pkgs[..i + 1][..i] == pkgs[..i];
  }

  lemma PrimaryPrefixAll(platform: Platform, s: PassState, pkgs: seq<string>)
    requires AllDotted(pkgs)
    ensures PrimaryPrefix(platform, s, pkgs, |pkgs|) == PrimaryPass(platform, s, pkgs)
  {
    assert pkgs[..|pkgs|] == pkgs;
  }

  /** A secondary loop over the first `i` overlays of `pkgs`. */
  ghost function SecondaryPrefix(groups: map<string, OptionValue>, pkgs: seq<string>, category: Category, i: nat): map<string, OptionValue>
    requires AllDotted(pkgs) && i <= |pkgs|
  {
    AllDottedPrefix(pkgs, i);
    SecondaryPass(groups, pkgs[..i], category)
  }

  /** A secondary loop, one more overlay at a time. */
  lemma SecondaryPrefixSnoc(groups: map<string, OptionValue>, pkgs: seq<string>, category: Category, i: nat)
    requires AllDotted(pkgs) && i < |pkgs|
    ensures Dotted(pkgs[i])
    ensures SecondaryPrefix(groups, pkgs, category, i + 1) ==
              AddOrUpdate(SecondaryPrefix(groups, pkgs, category, i), pkgs[i], category)
  {
    AllDottedPrefix(pkgs, i);
    AllDottedPrefix(pkgs, i + 1);
    assert pkgs[..i + 1][..i] == pkgs[..i];
  }

  lemma SecondaryPrefixAll(groups: map<string, OptionValue>, pkgs: seq<string>, category: Category)
    requires AllDotted(pkgs)
    ensures SecondaryPrefix(groups, pkgs, category, |pkgs|) == SecondaryPass(groups, pkgs, category)
  {
    assert pkgs[..|pkgs|] == pkgs;
  }

  /** The whole of loadOptions after addDefault: the final grouping table and the keys of the
      primary options that were appended. */
  datatype LoadResult = LoadResult(groups: map<string, OptionValue>, shown: seq<string>, defaultOption: OptionValue)

  function Load(platform: Platform, defaultPkg: Option<string>, primary: seq<string>,
                sysUi: seq<string>, settings: seq<string>): (r: LoadResult)
    requires AllDotted(primary) && AllDotted(sysUi) && AllDotted(settings)
    ensures r.defaultOption == DefaultOption(platform, defaultPkg)
  {
    var s := PrimaryPass(platform, PassState(map[], []), primary);
    var groups := SecondaryPass(SecondaryPass(s.groups, sysUi, UiStyleSysUi), settings, UiStyleSettings);
    LoadResult(groups, s.shown, DefaultOption(platform, defaultPkg))
  }

  /** The options the pass appends to mOptions, in order, as they stand when it returns. */
  function Visible(res: LoadResult): (r: seq<OptionValue>)
    ensures |r| == |res.shown| + 1 && r[0] == res.defaultOption
  {
    [res.defaultOption] + seq(|res.shown|, j requires 0 <= j < |res.shown| => Lookup(res.groups, res.shown[j]))
  }

  /** The constructor's choice of default theme package: the first overlay of the theme
      category, or null when there is none. */
  function DefaultThemePackage(themePackages: seq<string>): (r: Option<string>)
    ensures r == None <==> themePackages == []
    ensures r.Some? ==> r.value == themePackages[0]
  {
    if |themePackages| == 0 then None else Some(themePackages[0])
  }
}
