/** The loader as the source has it: a UiStyleOption object updated in place, and a provider
    whose loadOptions fills a grouping map and appends to its option list in three loops.
    Every method is proved against the value-level functions of UiStyleModel. */
module UiStyleProvider {
  import opened UiStyleModel

  /** One selectable UI style. The same object is shared by the grouping map and the result
      list, so later grouping steps update options that are already visible. */
  class UiStyleOption {
    var packagesByCategory: map<Category, Option<string>>
    var style: Option<StyleInfo>
    /** The grouping key this option was registered under, if any (proof bookkeeping). */
    ghost var groupKey: Option<string>

    constructor ()
      ensures Value() == EmptyOption && groupKey == None
    {
      packagesByCategory := map[];
      style := None;
      groupKey := None;
    }

    /** The observable state of this option. */
    function Value(): OptionValue
      reads this
    {
      OptionValue(packagesByCategory, style)
    }

    method AddOverlayPackage(category: Category, pkg: Option<string>)
      modifies this
      ensures Value() == old(Value()).WithPackage(category, pkg)
      ensures groupKey == old(groupKey)
    {
      packagesByCategory := packagesByCategory[category := pkg];
    }

    method AddStyleInfo(stylePackage: Option<string>, displayLabel: string,
                        lightColor: Color, darkColor: Color, accentColor: Color)
      modifies this
      ensures packagesByCategory == old(packagesByCategory)
      ensures style == Some(StyleInfo(stylePackage, displayLabel, lightColor, darkColor, accentColor))
      ensures groupKey == old(groupKey)
    {
      style := Some(StyleInfo(stylePackage, displayLabel, lightColor, darkColor, accentColor));
    }
  }

  /** The values of a list of options, as they stand now. */
  ghost function Views(os: seq<UiStyleOption>): (vs: seq<OptionValue>)
    reads os
    ensures |vs| == |os|
    ensures forall i :: 0 <= i < |os| ==> vs[i] == os[i].Value()
  {
    seq(|os|, i reads os requires 0 <= i < |os| => os[i].Value())
  }

  /** A grouping map of option objects stands for a table of option values: same keys, and
      under each key the object registered for that key, holding the key's value. Since an
      object is registered under one key only, distinct keys have distinct objects. */
  ghost predicate Agrees(byPrefix: map<string, UiStyleOption>, groups: map<string, OptionValue>)
    reads byPrefix.Values
  {
    && byPrefix.Keys == groups.Keys
    && (forall k :: k in byPrefix ==> byPrefix[k].groupKey == Some(k) && byPrefix[k].Value() == groups[k])
  }

  /** No key of the map is grouped under `o`. */
  ghost predicate Excludes(byPrefix: map<string, UiStyleOption>, o: UiStyleOption) {
    forall k :: k in byPrefix ==> byPrefix[k] != o
  }

  /** From index `n` on, a result list holds the grouped objects of the shown keys. */
  ghost predicate Shows(opts: seq<UiStyleOption>, n: nat, byPrefix: map<string, UiStyleOption>, shown: seq<string>) {
    && |opts| == n + |shown|
    && (forall j :: 0 <= j < |shown| ==> shown[j] in byPrefix && opts[n + j] == byPrefix[shown[j]])
  }

  /** `m'` keeps every entry of `m`. */
  ghost predicate Extends(m: map<string, UiStyleOption>, m': map<string, UiStyleOption>) {
    forall k :: k in m ==> k in m' && m'[k] == m[k]
  }

  lemma ExtendsTrans(m1: map<string, UiStyleOption>, m2: map<string, UiStyleOption>, m3: map<string, UiStyleOption>)
    requires Extends(m1, m2) && Extends(m2, m3)
    ensures Extends(m1, m3)
  {
  }

  /** Growing the grouping map keeps the shown options where they are. */
  lemma ShowsGrown(opts: seq<UiStyleOption>, n: nat, byPrefix: map<string, UiStyleOption>,
                   byPrefix': map<string, UiStyleOption>, shown: seq<string>)
    requires Shows(opts, n, byPrefix, shown)
    requires Extends(byPrefix, byPrefix')
    ensures Shows(opts, n, byPrefix', shown)
  {
  }

  /** Appending the option of a grouped key shows that key next. */
  lemma ShowsAppended(opts: seq<UiStyleOption>, n: nat, byPrefix: map<string, UiStyleOption>,
                      shown: seq<string>, key: string)
    requires Shows(opts, n, byPrefix, shown) && key in byPrefix
    ensures Shows(opts + [byPrefix[key]], n, byPrefix, shown + [key])
  {
  }

  /** What the three loops leave behind is what LoadOptions promises: the values of the
      appended options are the visible values of the pass. */
  lemma ShowsVisible(opts: seq<UiStyleOption>, n0: nat, byPrefix: map<string, UiStyleOption>, res: LoadResult)
    requires n0 < |opts| && Shows(opts, n0 + 1, byPrefix, res.shown)
    requires Agrees(byPrefix, res.groups)
    requires opts[n0].Value() == res.defaultOption
    ensures Views(opts[n0..]) == Visible(res)
  {
    forall k | 1 <= k < |opts[n0..]|
      ensures Views(opts[n0..])[k] == Visible(res)[k]
    {
      assert opts[n0..][k] == opts[n0 + 1 + (k - 1)];
    }
  }

  /** The options after index `n` are those of the keys in `shown`: two of them are the same
      object exactly when their keys are equal, and none is the option at `n`. */
  ghost predicate SharedByKey(opts: seq<UiStyleOption>, n: nat, shown: seq<string>) {
    && |opts| == n + 1 + |shown|
    && (forall i, j :: n < i < |opts| && n < j < |opts| ==>
          (opts[i] == opts[j] <==> shown[i - n - 1] == shown[j - n - 1]))
    && (forall i :: n < i < |opts| ==> opts[i] != opts[n])
  }

  /** Since every grouped object carries its own key, the shown options alias exactly along
      equal keys. */
  lemma ShowsAliasing(opts: seq<UiStyleOption>, n0: nat, byPrefix: map<string, UiStyleOption>, shown: seq<string>)
    requires n0 < |opts| && Shows(opts, n0 + 1, byPrefix, shown)
    requires forall k :: k in byPrefix ==> byPrefix[k].groupKey == Some(k)
    requires Excludes(byPrefix, opts[n0])
    ensures SharedByKey(opts, n0, shown)
  {
    forall i | n0 < i < |opts|
      ensures opts[i] == byPrefix[shown[i - n0 - 1]]
    {
      assert opts[n0 + 1 + (i - n0 - 1)] == byPrefix[shown[i - n0 - 1]];
    }
  }

  class UiStyleOptionsProvider {
    /** The primary (android) UI-style overlays; owned by the base provider. */
    const overlayPackages: seq<string>
    const defaultThemePackage: Option<string>
    const sysUiStylesOverlayPackages: seq<string>
    const settingsStylesOverlayPackages: seq<string>
    /** The result list; owned by the base provider, which starts it empty. */
    var options: seq<UiStyleOption>

    /** The overlay manager's answers for the four categories are the parameters. */
    constructor (overlayPackages: seq<string>, themePackages: seq<string>,
                 sysUiPackages: seq<string>, settingsPackages: seq<string>)
      ensures this.overlayPackages == overlayPackages
      ensures sysUiStylesOverlayPackages == sysUiPackages
      ensures settingsStylesOverlayPackages == settingsPackages
      ensures defaultThemePackage == DefaultThemePackage(themePackages)
      ensures options == []
    {
      this.overlayPackages := overlayPackages;
      sysUiStylesOverlayPackages := sysUiPackages;
      settingsStylesOverlayPackages := settingsPackages;
      defaultThemePackage := DefaultThemePackage(themePackages);
      options := [];
    }

    /** Find or create the option grouped under the package's key, and record
        category -> package on it. Only that one option changes; `groups` is the abstract
        table the map stands for. */
    method AddOrUpdateOption(byPrefix: map<string, UiStyleOption>, overlayPackage: string, category: Category,
                             ghost groups: map<string, OptionValue>)
        returns (option: UiStyleOption, byPrefix': map<string, UiStyleOption>)
      requires Dotted(overlayPackage)
      requires Agrees(byPrefix, groups)
      modifies if GroupingKey(overlayPackage) in byPrefix then {byPrefix[GroupingKey(overlayPackage)]} else {}
      ensures GroupingKey(overlayPackage) in byPrefix ==>
                option == byPrefix[GroupingKey(overlayPackage)] && byPrefix' == byPrefix
      ensures GroupingKey(overlayPackage) !in byPrefix ==>
                fresh(option) && byPrefix' == byPrefix[GroupingKey(overlayPackage) := option]
      ensures Extends(byPrefix, byPrefix')
      ensures Agrees(byPrefix', AddOrUpdate(groups, overlayPackage, category))
    {
      var prefix := overlayPackage[..LastIndexOf(overlayPackage, '.')];
      if prefix !in byPrefix {
        option := new UiStyleOption();
        option.groupKey := Some(prefix);
        byPrefix' := byPrefix[prefix := option];
      } else {
        option := byPrefix[prefix];
        byPrefix' := byPrefix;
      }
      option.AddOverlayPackage(category, Some(overlayPackage));
    }

    /** Append the default option: colours of the default theme package, or the system ones
        when that lookup fails; no style package; null SysUI and Settings packages. */
    method AddDefault(platform: Platform)
      modifies this
      ensures |options| == |old(options)| + 1 && options[..|old(options)|] == old(options)
      ensures fresh(options[|old(options)|])
      ensures options[|old(options)|].Value() == DefaultOption(platform, defaultThemePackage)
    {
      var lightColor, darkColor;
      var option := new UiStyleOption();
      var accentColor := platform.accentColor;
      var light := OverlayColor(platform, defaultThemePackage, BackgroundLight);
      var dark := OverlayColor(platform, defaultThemePackage, BackgroundDark);
      if light.Some? && dark.Some? {
        lightColor, darkColor := light.value, dark.value;
      } else {
        lightColor, darkColor := platform.systemLight, platform.systemDark;
      }
      option.AddStyleInfo(None, platform.defaultThemeTitle, lightColor, darkColor, accentColor);
      option.AddOverlayPackage(UiStyleSysUi, None);
      option.AddOverlayPackage(UiStyleSettings, None);
      options := options + [option];
    }

    /** The try block of the primary loop: look up both colours and the label of the
        overlay; when all three load, attach the style info to `option` and append it to the
        result list, otherwise (the swallowed exception) change nothing. `option` is the one
        grouped under `key` in the map that stands for `groups`. */
    method TryAddStyledOption(platform: Platform, accentColor: Color, option: UiStyleOption, overlayPackage: string,
                              ghost byPrefix: map<string, UiStyleOption>, ghost groups: map<string, OptionValue>,
                              ghost key: string)
      requires accentColor == platform.accentColor
      requires Agrees(byPrefix, groups) && key in byPrefix && byPrefix[key] == option
      modifies this, option
      ensures LoadStyle(platform, overlayPackage).Some? ==>
                options == old(options) + [option]
                && Agrees(byPrefix, groups[key := groups[key].(style := LoadStyle(platform, overlayPackage))])
      ensures LoadStyle(platform, overlayPackage).None? ==> options == old(options) && Agrees(byPrefix, groups)
    {
      var lightColor := OverlayColor(platform, Some(overlayPackage), BackgroundLight);
      var darkColor := OverlayColor(platform, Some(overlayPackage), BackgroundDark);
      var appLabel := ApplicationLabel(platform, overlayPackage);
      if lightColor.Some? && darkColor.Some? && appLabel.Some? {
        option.AddStyleInfo(Some(overlayPackage), appLabel.value, lightColor.value, darkColor.value, accentColor);
        options := options + [option];
        ghost var restyled := groups[key := groups[key].(style := option.style)];
        forall k | k in byPrefix
          ensures byPrefix[k].groupKey == Some(k) && byPrefix[k].Value() == restyled[k]
        {
          assert old(byPrefix[k].groupKey) == Some(k);
        }
      }
    }

    /** One iteration of the primary loop of loadOptions: group the overlay under the
        android category, then try to style and append its option; a failed overlay is
        skipped but stays grouped. */
    method AddPrimaryOption(platform: Platform, accentColor: Color, byPrefix: map<string, UiStyleOption>,
                            overlayPackage: string, ghost n: nat, ghost st: PassState)
        returns (byPrefix': map<string, UiStyleOption>, ghost st': PassState)
      requires Dotted(overlayPackage) && accentColor == platform.accentColor
      requires Agrees(byPrefix, st.groups)
      requires Shows(options, n, byPrefix, st.shown)
      modifies this
      modifies if GroupingKey(overlayPackage) in byPrefix then {byPrefix[GroupingKey(overlayPackage)]} else {}
      ensures st' == PrimaryStep(platform, st, overlayPackage)
      ensures Agrees(byPrefix', st'.groups)
      ensures Extends(byPrefix, byPrefix')
      ensures forall k :: k in byPrefix' && k !in byPrefix ==> fresh(byPrefix'[k])
      ensures old(options) <= options
      ensures Shows(options, n, byPrefix', st'.shown)
    {
      var option;
      option, byPrefix' := AddOrUpdateOption(byPrefix, overlayPackage, UiStyleAndroid, st.groups);
      ShowsGrown(options, n, byPrefix, byPrefix', st.shown);
      ghost var key := GroupingKey(overlayPackage);
      ghost var opts := options;
      TryAddStyledOption(platform, accentColor, option, overlayPackage, byPrefix',
                         AddOrUpdate(st.groups, overlayPackage, UiStyleAndroid), key);
      if LoadStyle(platform, overlayPackage).Some? {
        ShowsAppended(opts, n, byPrefix', st.shown, key);
      }
      st' := PrimaryStep(platform, st, overlayPackage);
    }

    /** The primary loop of loadOptions, over the android overlays in list order. */
    method AddPrimaryOptions(platform: Platform, accentColor: Color)
        returns (byPrefix: map<string, UiStyleOption>, ghost st: PassState)
      requires AllDotted(overlayPackages)
      requires accentColor == platform.accentColor
      modifies this
      ensures st == PrimaryPass(platform, PassState(map[], []), overlayPackages)
      ensures Agrees(byPrefix, st.groups)
      ensures forall k :: k in byPrefix ==> fresh(byPrefix[k])
      ensures old(options) <= options
      ensures Shows(options, |old(options)|, byPrefix, st.shown)
    {
      byPrefix := map[];
      st := PassState(map[], []);
      for i := 0 to |overlayPackages|
        invariant st == PrimaryPrefix(platform, PassState(map[], []), overlayPackages, i)
        invariant Agrees(byPrefix, st.groups)
        invariant forall k :: k in byPrefix ==> fresh(byPrefix[k])
        invariant old(options) <= options
        invariant Shows(options, |old(options)|, byPrefix, st.shown)
      {
        PrimaryPrefixSnoc(platform, PassState(map[], []), overlayPackages, i);
        var next;
        next, st := AddPrimaryOption(platform, accentColor, byPrefix, overlayPackages[i], |old(options)|, st);
        byPrefix := next;
      }
      PrimaryPrefixAll(platform, PassState(map[], []), overlayPackages);
    }

    /** A secondary loop of loadOptions: group every overlay of `pkgs` under `category`;
        nothing is loaded and nothing is appended. */
    method AttachOverlays(byPrefix: map<string, UiStyleOption>, pkgs: seq<string>, category: Category,
                          ghost groups: map<string, OptionValue>)
        returns (byPrefix': map<string, UiStyleOption>)
      requires AllDotted(pkgs)
      requires Agrees(byPrefix, groups)
      modifies byPrefix.Values
      ensures Agrees(byPrefix', SecondaryPass(groups, pkgs, category))
      ensures Extends(byPrefix, byPrefix')
      ensures forall k :: k in byPrefix' && k !in byPrefix ==> fresh(byPrefix'[k])
    {
      byPrefix' := byPrefix;
      ghost var g := groups;
      for i := 0 to |pkgs|
        invariant g == SecondaryPrefix(groups, pkgs, category, i)
        invariant Agrees(byPrefix', g)
        invariant Extends(byPrefix, byPrefix')
        invariant forall k :: k in byPrefix' && k !in byPrefix ==> fresh(byPrefix'[k])
      {
        SecondaryPrefixSnoc(groups, pkgs, category, i);
        var _, next := AddOrUpdateOption(byPrefix', pkgs[i], category, g);
        ExtendsTrans(byPrefix, byPrefix', next);
        byPrefix' := next;
        g := AddOrUpdate(g, pkgs[i], category);
      }
      SecondaryPrefixAll(groups, pkgs, category);
    }

    /** loadOptions: the default option, then every primary overlay whose colours and label
        load, each once per success and in list order; the SysUI and Settings overlays only
        add associations to the grouped options. */
    method LoadOptions(platform: Platform)
      requires AllDotted(overlayPackages)
      requires AllDotted(sysUiStylesOverlayPackages) && AllDotted(settingsStylesOverlayPackages)
      modifies this
      ensures old(options) <= options
      ensures forall i :: |old(options)| <= i < |options| ==> fresh(options[i])
      ensures Views(options[|old(options)|..]) ==
                Visible(Load(platform, defaultThemePackage, overlayPackages,
                             sysUiStylesOverlayPackages, settingsStylesOverlayPackages))
      ensures SharedByKey(options, |old(options)|,
                          Load(platform, defaultThemePackage, overlayPackages,
                               sysUiStylesOverlayPackages, settingsStylesOverlayPackages).shown)
    {
      var accentColor := platform.accentColor;
      AddDefault(platform);
      ghost var def := options[|old(options)|];
      assert options == old(options) + [def];
      var byPrefix, st := AddPrimaryOptions(platform, accentColor);
      forall i | |old(options)| < i < |options|
        ensures fresh(options[i])
      {
        assert options[|old(options)| + 1 + (i - |old(options)| - 1)] == byPrefix[st.shown[i - |old(options)| - 1]];
      }
      assert Excludes(byPrefix, def);
      ghost var primary := byPrefix;
      byPrefix := AttachOverlays(byPrefix, sysUiStylesOverlayPackages, UiStyleSysUi, st.groups);
      assert Excludes(byPrefix, def);
      ghost var afterSysUi := SecondaryPass(st.groups, sysUiStylesOverlayPackages, UiStyleSysUi);
      ghost var afterPrimary := byPrefix;
      byPrefix := AttachOverlays(byPrefix, settingsStylesOverlayPackages, UiStyleSettings, afterSysUi);
      assert Excludes(byPrefix, def);
      ExtendsTrans(primary, afterPrimary, byPrefix);
      ShowsGrown(options, |old(options)| + 1, primary, byPrefix, st.shown);
      ghost var res := Load(platform, defaultThemePackage, overlayPackages,
                            sysUiStylesOverlayPackages, settingsStylesOverlayPackages);
      assert res == LoadResult(SecondaryPass(afterSysUi, settingsStylesOverlayPackages, UiStyleSettings),
                               st.shown, DefaultOption(platform, defaultThemePackage));
      ShowsVisible(options, |old(options)|, byPrefix, res);
      ShowsAliasing(options, |old(options)|, byPrefix, res.shown);
    }
  }
}
