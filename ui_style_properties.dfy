/** What one load pass guarantees, stated over the value-level model: the grouping key of a
    package, which primary overlays end up visible and in which order, what happens to an
    overlay that fails to load, and what the secondary categories may and may not change. */
module UiStyleProperties {
  import opened UiStyleModel

  // ---------------------------------------------------------------------------------------
  // Grouping key

  /** The grouping key is exactly the name with its last dot-segment removed. */
  lemma GroupingKeyDropsLastSegment(prefix: string, segment: string)
    requires '.' !in segment
    ensures Dotted(prefix + "." + segment)
    ensures GroupingKey(prefix + "." + segment) == prefix
  {
    var pkg := prefix + "." + segment;
    assert pkg[|prefix|] == '.';
    var key := GroupingKey(pkg);
    assert |key| == |prefix| by {
      // The key's dot is the last one, and the segment after `prefix` holds none.
      assert pkg[|prefix| + 1..] == segment;
    }
    assert key == pkg[..|prefix|] == prefix;
  }

  /** Two packages that differ only in their last segment share their grouping key, and so
      their option. */
  lemma SiblingsShareKey(prefix: string, a: string, b: string)
    requires '.' !in a && '.' !in b
    ensures Dotted(prefix + "." + a) && Dotted(prefix + "." + b)
    ensures GroupingKey(prefix + "." + a) == GroupingKey(prefix + "." + b) == prefix
  {
    GroupingKeyDropsLastSegment(prefix, a);
    GroupingKeyDropsLastSegment(prefix, b);
  }

  /** The keys of a list of packages, in order. */
  function KeysOf(pkgs: seq<string>): (keys: seq<string>)
    requires AllDotted(pkgs)
    ensures |keys| == |pkgs|
  {
    seq(|pkgs|, i requires 0 <= i < |pkgs| && AllDotted(pkgs) => GroupingKey(pkgs[i]))
  }

  /** The set of keys of a list of packages. */
  ghost function KeySet(pkgs: seq<string>): set<string>
    requires AllDotted(pkgs)
  {
    set i | 0 <= i < |pkgs| :: GroupingKey(pkgs[i])
  }

  lemma KeySetSnoc(pkgs: seq<string>)
    requires AllDotted(pkgs) && |pkgs| > 0
    ensures AllDotted(pkgs[..|pkgs| - 1])
    ensures KeySet(pkgs) == KeySet(pkgs[..|pkgs| - 1]) + {GroupingKey(pkgs[|pkgs| - 1])}
  {
    var init := pkgs[..|pkgs| - 1];
    forall k | k in KeySet(pkgs)
      ensures k in KeySet(init) + {GroupingKey(pkgs[|pkgs| - 1])}
    {
      var i :| 0 <= i < |pkgs| && GroupingKey(pkgs[i]) == k;
      if i < |pkgs| - 1 {
        assert init[i] == pkgs[i];
      }
    }
    forall k | k in KeySet(init)
      ensures k in KeySet(pkgs)
    {
      var i :| 0 <= i < |init| && GroupingKey(init[i]) == k;
      assert pkgs[i] == init[i];
    }
  }

  // ---------------------------------------------------------------------------------------
  // The primary loop

  /** The primary overlays whose colours and label load, in list order: an independent
      description of which overlays the loop appends. */
  function Loaded(platform: Platform, pkgs: seq<string>): (r: seq<string>)
    ensures |r| <= |pkgs|
    ensures forall p :: p in r ==> p in pkgs && LoadStyle(platform, p).Some?
    ensures forall p :: p in pkgs && LoadStyle(platform, p).Some? ==> p in r
  {
    if pkgs == [] then []
    else
      var last := pkgs[|pkgs| - 1];
      assert pkgs == pkgs[..|pkgs| - 1] + [last];
      Loaded(platform, pkgs[..|pkgs| - 1]) + (if LoadStyle(platform, last).Some? then [last] else [])
  }

  lemma LoadedDotted(platform: Platform, pkgs: seq<string>)
    requires AllDotted(pkgs)
    ensures AllDotted(Loaded(platform, pkgs))
  {
    var r := Loaded(platform, pkgs);
    forall i | 0 <= i < |r|
      ensures Dotted(r[i])
    {
      assert r[i] in r;
    }
  }

  /** Filtering distributes over concatenation. */
  lemma {:induction false} LoadedAppend(platform: Platform, a: seq<string>, b: seq<string>)
    ensures Loaded(platform, a + b) == Loaded(platform, a) + Loaded(platform, b)
    decreases |b|
  {
    if b == [] {
      assert a + b == a;
    } else {
      var init := b[..|b| - 1];
      var last := b[|b| - 1];
      assert (a + b)[..|a + b| - 1] == a + init;
      assert (a + b)[|a + b| - 1] == last;
      LoadedAppend(platform, a, init);
      assert Loaded(platform, b) == Loaded(platform, init) + (if LoadStyle(platform, last).Some? then [last] else []);
    }
  }

  /** The appended keys are those of the overlays that load, in list order: the loop appends
      once per successful overlay and never for a failed one. */
  lemma {:induction false} PrimaryShownAreLoadedKeys(platform: Platform, s: PassState, pkgs: seq<string>)
    requires AllDotted(pkgs)
    ensures AllDotted(Loaded(platform, pkgs))
    ensures PrimaryPass(platform, s, pkgs).shown == s.shown + KeysOf(Loaded(platform, pkgs))
  {
    LoadedDotted(platform, pkgs);
    if pkgs != [] {
      var init := pkgs[..|pkgs| - 1];
      var last := pkgs[|pkgs| - 1];
      assert AllDotted(init);
      PrimaryShownAreLoadedKeys(platform, s, init);
      LoadedDotted(platform, init);
      if LoadStyle(platform, last).Some? {
        assert KeysOf(Loaded(platform, pkgs)) == KeysOf(Loaded(platform, init)) + [GroupingKey(last)];
      } else {
        assert Loaded(platform, pkgs) == Loaded(platform, init);
      }
    }
  }

  lemma AllDottedWithout(before: seq<string>, failed: string, after: seq<string>)
    requires AllDotted(before + [failed] + after)
    ensures AllDotted(before + after)
  {
    var all := before + [failed] + after;
    forall i | 0 <= i < |before + after|
      ensures Dotted((before + after)[i])
    {
      if i < |before| {
        assert (before + after)[i] == all[i];
      } else {
        assert (before + after)[i] == all[i + 1];
      }
    }
  }

  lemma LoadedOneFailed(platform: Platform, failed: string)
    requires LoadStyle(platform, failed).None?
    ensures Loaded(platform, [failed]) == []
  {
    assert [failed][..0] == [];
  }

  /** The filter drops a failing overlay wherever it stands. */
  lemma LoadedWithout(platform: Platform, before: seq<string>, failed: string, after: seq<string>)
    requires LoadStyle(platform, failed).None?
    ensures Loaded(platform, before + [failed] + after) == Loaded(platform, before + after)
  {
    LoadedOneFailed(platform, failed);
    LoadedAppend(platform, before, [failed]);
    assert Loaded(platform, before + [failed]) == Loaded(platform, before);
    LoadedAppend(platform, before + [failed], after);
    LoadedAppend(platform, before, after);
  }

  /** Removing a failing overlay from the list changes nothing about which keys are shown, or
      in which order (though it may change an association: see FailingSiblingOverwrites). */
  lemma FailedOverlayIsSkipped(platform: Platform, s: PassState, before: seq<string>, failed: string, after: seq<string>)
    requires AllDotted(before + [failed] + after) && LoadStyle(platform, failed).None?
    ensures AllDotted(before + after)
    ensures PrimaryPass(platform, s, before + [failed] + after).shown == PrimaryPass(platform, s, before + after).shown
  {
    AllDottedWithout(before, failed, after);
    LoadedWithout(platform, before, failed, after);
    PrimaryShownAreLoadedKeys(platform, s, before + [failed] + after);
    PrimaryShownAreLoadedKeys(platform, s, before + after);
  }

  /** Appending is per loaded overlay, not per group: two loadable overlays with the same
      prefix put their shared option into the result twice. */
  lemma SiblingsShownTwice(platform: Platform, s: PassState, prefix: string, a: string, b: string)
    requires '.' !in a && '.' !in b
    requires LoadStyle(platform, prefix + "." + a).Some? && LoadStyle(platform, prefix + "." + b).Some?
    ensures AllDotted([prefix + "." + a, prefix + "." + b])
    ensures PrimaryPass(platform, s, [prefix + "." + a, prefix + "." + b]).shown == s.shown + [prefix, prefix]
  {
    var pa, pb := prefix + "." + a, prefix + "." + b;
    SiblingsShareKey(prefix, a, b);
    assert AllDotted([pa, pb]);
    PrimaryShownAreLoadedKeys(platform, s, [pa, pb]);
    assert Loaded(platform, [pa, pb]) == [pa, pb] by {
      assert [pa, pb][..1] == [pa];
      assert [pa][..0] == [];
    }
    assert KeysOf([pa, pb]) == [prefix, prefix];
  }

  /** Every primary overlay is grouped, whether or not it loads, and nothing else is: the keys
      of the table after the loop are the old ones plus the keys of all the overlays. */
  lemma {:induction false} PrimaryGroupsEveryOverlay(platform: Platform, s: PassState, pkgs: seq<string>)
    requires AllDotted(pkgs)
    ensures PrimaryPass(platform, s, pkgs).groups.Keys == s.groups.Keys + KeySet(pkgs)
  {
    if pkgs != [] {
      var init := pkgs[..|pkgs| - 1];
      assert AllDotted(init);
      PrimaryGroupsEveryOverlay(platform, s, init);
      KeySetSnoc(pkgs);
    }
  }

  /** A key carries style info set from a package of its own group. */
  ghost predicate StyledByOwnGroup(groups: map<string, OptionValue>, key: string) {
    && key in groups
    && groups[key].style.Some?
    && groups[key].style.value.stylePackage.Some?
    && Dotted(groups[key].style.value.stylePackage.value)
    && GroupingKey(groups[key].style.value.stylePackage.value) == key
  }

  /** Grouping a package never removes or changes style info. */
  lemma AddOrUpdateKeepsStyled(groups: map<string, OptionValue>, pkg: string, category: Category, key: string)
    requires Dotted(pkg) && StyledByOwnGroup(groups, key)
    ensures key in AddOrUpdate(groups, pkg, category) && AddOrUpdate(groups, pkg, category)[key].style == groups[key].style
    ensures StyledByOwnGroup(AddOrUpdate(groups, pkg, category), key)
  {
  }

  /** Every appended option has had its style info attached, from a package of its own group,
      with the resolved accent colour. */
  lemma {:induction false} PrimaryShownAreStyled(platform: Platform, s: PassState, pkgs: seq<string>)
    requires AllDotted(pkgs)
    requires forall j :: 0 <= j < |s.shown| ==> StyledByOwnGroup(s.groups, s.shown[j])
    ensures forall j :: 0 <= j < |PrimaryPass(platform, s, pkgs).shown| ==>
              StyledByOwnGroup(PrimaryPass(platform, s, pkgs).groups, PrimaryPass(platform, s, pkgs).shown[j])
  {
    if pkgs != [] {
      var init := pkgs[..|pkgs| - 1];
      var pkg := pkgs[|pkgs| - 1];
      assert AllDotted(init);
      PrimaryShownAreStyled(platform, s, init);
      var mid := PrimaryPass(platform, s, init);
      var grouped := AddOrUpdate(mid.groups, pkg, UiStyleAndroid);
      var key := GroupingKey(pkg);
      var r := PrimaryPass(platform, s, pkgs);
      forall j | 0 <= j < |r.shown|
        ensures StyledByOwnGroup(r.groups, r.shown[j])
      {
        if j < |mid.shown| {
          AddOrUpdateKeepsStyled(mid.groups, pkg, UiStyleAndroid, mid.shown[j]);
        }
      }
    }
  }

  // ---------------------------------------------------------------------------------------
  // The secondary loops

  /** A secondary loop only records associations of its own category on the options of the
      keys it touches: every other option is left as it was, no style info is added or
      changed, and the other categories' associations are untouched. */
  lemma {:induction false} SecondaryTouchesOnlyItsCategory(groups: map<string, OptionValue>, pkgs: seq<string>, category: Category)
    requires AllDotted(pkgs)
    ensures SecondaryPass(groups, pkgs, category).Keys == groups.Keys + KeySet(pkgs)
    ensures forall k :: k in groups && k !in KeySet(pkgs) ==> SecondaryPass(groups, pkgs, category)[k] == groups[k]
    ensures forall k :: k in groups ==> SecondaryPass(groups, pkgs, category)[k].style == groups[k].style
    ensures forall k :: k in KeySet(pkgs) && k !in groups ==> SecondaryPass(groups, pkgs, category)[k].style == None
    ensures forall k, c :: k in groups && c != category ==>
              (c in SecondaryPass(groups, pkgs, category)[k].packagesByCategory <==> c in groups[k].packagesByCategory)
    ensures forall k, c :: k in groups && c != category && c in groups[k].packagesByCategory ==>
              SecondaryPass(groups, pkgs, category)[k].packagesByCategory[c] == groups[k].packagesByCategory[c]
  {
    if pkgs != [] {
      var init := pkgs[..|pkgs| - 1];
      assert AllDotted(init);
      SecondaryTouchesOnlyItsCategory(groups, init, category);
      KeySetSnoc(pkgs);
    }
  }

  /** After a secondary loop every key it touched holds an association for its category, to a
      package of the list with that very key. */
  lemma {:induction false} SecondaryAssociatesEveryOverlay(groups: map<string, OptionValue>, pkgs: seq<string>, category: Category)
    requires AllDotted(pkgs)
    ensures forall i :: 0 <= i < |pkgs| ==>
              var key := GroupingKey(pkgs[i]);
              var r := SecondaryPass(groups, pkgs, category);
              && key in r && category in r[key].packagesByCategory
              && r[key].packagesByCategory[category].Some?
              && r[key].packagesByCategory[category].value in pkgs
              && GroupingKey(r[key].packagesByCategory[category].value) == key
  {
    if pkgs != [] {
      var init := pkgs[..|pkgs| - 1];
      var last := pkgs[|pkgs| - 1];
      assert AllDotted(init);
      SecondaryAssociatesEveryOverlay(groups, init, category);
      var mid := SecondaryPass(groups, init, category);
      var r := SecondaryPass(groups, pkgs, category);
      forall i | 0 <= i < |pkgs|
        ensures GroupingKey(pkgs[i]) in r && category in r[GroupingKey(pkgs[i])].packagesByCategory
        ensures r[GroupingKey(pkgs[i])].packagesByCategory[category].Some?
        ensures r[GroupingKey(pkgs[i])].packagesByCategory[category].value in pkgs
        ensures GroupingKey(r[GroupingKey(pkgs[i])].packagesByCategory[category].value) == GroupingKey(pkgs[i])
      {
        if i < |pkgs| - 1 && GroupingKey(pkgs[i]) != GroupingKey(last) {
          assert init[i] == pkgs[i];
          var q := mid[GroupingKey(pkgs[i])].packagesByCategory[category].value;
          assert q in init;
        }
      }
    }
  }

  /** After a secondary loop, a key holds, for the loop's category, the last package of the
      list with that key: each later grouping overwrites the association of an earlier one. */
  lemma {:induction false} SecondaryAssociatesLast(groups: map<string, OptionValue>, pkgs: seq<string>, category: Category, i: nat)
    requires AllDotted(pkgs) && i < |pkgs|
    requires forall j :: i < j < |pkgs| ==> GroupingKey(pkgs[j]) != GroupingKey(pkgs[i])
    ensures GroupingKey(pkgs[i]) in SecondaryPass(groups, pkgs, category)
    ensures category in SecondaryPass(groups, pkgs, category)[GroupingKey(pkgs[i])].packagesByCategory
    ensures SecondaryPass(groups, pkgs, category)[GroupingKey(pkgs[i])].packagesByCategory[category] == Some(pkgs[i])
  {
    var init := pkgs[..|pkgs| - 1];
    assert AllDotted(init);
    if i < |pkgs| - 1 {
      assert init[i] == pkgs[i];
      SecondaryAssociatesLast(groups, init, category, i);
    }
  }

  /** The primary loop records the android associations exactly as a secondary loop over the
      same list would: the same keys, and the same associations under each of them. Only the
      style info differs. */
  lemma {:induction false} PrimaryAssociationsAreGrouping(platform: Platform, s: PassState, pkgs: seq<string>)
    requires AllDotted(pkgs)
    ensures PrimaryPass(platform, s, pkgs).groups.Keys == SecondaryPass(s.groups, pkgs, UiStyleAndroid).Keys
    ensures forall k :: k in PrimaryPass(platform, s, pkgs).groups ==>
              PrimaryPass(platform, s, pkgs).groups[k].packagesByCategory
              == SecondaryPass(s.groups, pkgs, UiStyleAndroid)[k].packagesByCategory
  {
    if pkgs != [] {
      var init := pkgs[..|pkgs| - 1];
      var pkg := pkgs[|pkgs| - 1];
      assert AllDotted(init);
      PrimaryAssociationsAreGrouping(platform, s, init);
      var mid := PrimaryPass(platform, s, init);
      var mid2 := SecondaryPass(s.groups, init, UiStyleAndroid);
      var key := GroupingKey(pkg);
      assert Lookup(mid.groups, key).packagesByCategory == Lookup(mid2, key).packagesByCategory;
    }
  }

  /** Every primary overlay is associated with its group under the android category, and
      the association a group ends with is its last overlay, whether or not that one loads. */
  lemma PrimaryAssociatesLast(platform: Platform, s: PassState, pkgs: seq<string>, i: nat)
    requires AllDotted(pkgs) && i < |pkgs|
    requires forall j :: i < j < |pkgs| ==> GroupingKey(pkgs[j]) != GroupingKey(pkgs[i])
    ensures GroupingKey(pkgs[i]) in PrimaryPass(platform, s, pkgs).groups
    ensures UiStyleAndroid in PrimaryPass(platform, s, pkgs).groups[GroupingKey(pkgs[i])].packagesByCategory
    ensures PrimaryPass(platform, s, pkgs).groups[GroupingKey(pkgs[i])].packagesByCategory[UiStyleAndroid] == Some(pkgs[i])
  {
    SecondaryAssociatesLast(s.groups, pkgs, UiStyleAndroid, i);
    PrimaryAssociationsAreGrouping(platform, s, pkgs);
  }

  /** A failing overlay is not isolated from its group: it is grouped before its lookups, so
      when it comes after a sibling that loads, the shown option keeps the sibling's style but
      its android association is the failing overlay. */
  lemma FailingSiblingOverwrites(platform: Platform, s: PassState, prefix: string, a: string, b: string)
    requires '.' !in a && '.' !in b
    requires LoadStyle(platform, prefix + "." + a).Some? && LoadStyle(platform, prefix + "." + b).None?
    ensures AllDotted([prefix + "." + a, prefix + "." + b])
    ensures var r := PrimaryPass(platform, s, [prefix + "." + a, prefix + "." + b]);
            && r.shown == s.shown + [prefix]
            && prefix in r.groups
            && r.groups[prefix].style == LoadStyle(platform, prefix + "." + a)
            && UiStyleAndroid in r.groups[prefix].packagesByCategory
            && r.groups[prefix].packagesByCategory[UiStyleAndroid] == Some(prefix + "." + b)
  {
    var pa, pb := prefix + "." + a, prefix + "." + b;
    SiblingsShareKey(prefix, a, b);
    GroupingKeyDropsLastSegment(prefix, a);
    assert AllDotted([pa, pb]);
    assert [pa, pb][..0] == [];
    PrimaryPrefixSnoc(platform, s, [pa, pb], 0);
    PrimaryPrefixSnoc(platform, s, [pa, pb], 1);
    PrimaryPrefixAll(platform, s, [pa, pb]);
  }

  // ---------------------------------------------------------------------------------------
  // The whole pass

  /** After the whole pass every shown key still holds the style info the primary loop
      attached, from a package of its own group and with the resolved accent colour: the
      secondary loops never touch style info. */
  lemma LoadShownStyled(platform: Platform, defaultPkg: Option<string>, primary: seq<string>,
                        sysUi: seq<string>, settings: seq<string>)
    requires AllDotted(primary) && AllDotted(sysUi) && AllDotted(settings)
    ensures var res := Load(platform, defaultPkg, primary, sysUi, settings);
            forall j :: 0 <= j < |res.shown| ==>
              StyledByOwnGroup(res.groups, res.shown[j])
              && res.groups[res.shown[j]].style.value.accentColor == platform.accentColor
  {
    var s0 := PassState(map[], []);
    var s := PrimaryPass(platform, s0, primary);
    PrimaryShownAreStyled(platform, s0, primary);
    AccentColorKept(platform, s0, primary);
    var afterSysUi := SecondaryPass(s.groups, sysUi, UiStyleSysUi);
    SecondaryTouchesOnlyItsCategory(s.groups, sysUi, UiStyleSysUi);
    SecondaryTouchesOnlyItsCategory(afterSysUi, settings, UiStyleSettings);
  }

  /** loadOptions appends the default option first and then one option per primary overlay
      that loads: one more than the number of overlays that load. */
  lemma LoadAppendsDefaultThenLoaded(platform: Platform, defaultPkg: Option<string>, primary: seq<string>,
                                     sysUi: seq<string>, settings: seq<string>)
    requires AllDotted(primary) && AllDotted(sysUi) && AllDotted(settings)
    ensures var vis := Visible(Load(platform, defaultPkg, primary, sysUi, settings));
            |vis| == 1 + |Loaded(platform, primary)| && vis[0] == DefaultOption(platform, defaultPkg)
  {
    PrimaryShownAreLoadedKeys(platform, PassState(map[], []), primary);
  }

  /** Every option appended after the default one carries the style info loaded for one of
      the primary overlays: that overlay's package, label and two colours, and the resolved
      accent colour. */
  lemma LoadAppendsStyledOptions(platform: Platform, defaultPkg: Option<string>, primary: seq<string>,
                                 sysUi: seq<string>, settings: seq<string>)
    requires AllDotted(primary) && AllDotted(sysUi) && AllDotted(settings)
    ensures var vis := Visible(Load(platform, defaultPkg, primary, sysUi, settings));
            forall j :: 1 <= j < |vis| ==>
              vis[j].style.Some? && vis[j].style.value.stylePackage.Some?
              && vis[j].style.value.stylePackage.value in primary
              && vis[j].style == LoadStyle(platform, vis[j].style.value.stylePackage.value)
              && vis[j].style.value.accentColor == platform.accentColor
  {
    LoadShownStyled(platform, defaultPkg, primary, sysUi, settings);
    LoadStylesLoaded(platform, defaultPkg, primary, sysUi, settings);
    var res := Load(platform, defaultPkg, primary, sysUi, settings);
    var vis := Visible(res);
    forall j | 1 <= j < |vis|
      ensures vis[j] == Lookup(res.groups, res.shown[j - 1])
    {
    }
  }

  /** Every style attached by the primary loop carries the resolved accent colour. */
  lemma {:induction false} AccentColorKept(platform: Platform, s: PassState, pkgs: seq<string>)
    requires AllDotted(pkgs)
    requires forall k :: k in s.groups && s.groups[k].style.Some? ==> s.groups[k].style.value.accentColor == platform.accentColor
    ensures forall k :: k in PrimaryPass(platform, s, pkgs).groups && PrimaryPass(platform, s, pkgs).groups[k].style.Some? ==>
              PrimaryPass(platform, s, pkgs).groups[k].style.value.accentColor == platform.accentColor
  {
    if pkgs != [] {
      assert AllDotted(pkgs[..|pkgs| - 1]);
      AccentColorKept(platform, s, pkgs[..|pkgs| - 1]);
    }
  }

  /** An option's style info, if any, is exactly what the lookups give for one of `pkgs`:
      its package, that package's label, both of its colours and the accent colour. */
  ghost predicate LoadedStyle(platform: Platform, o: OptionValue, pkgs: seq<string>) {
    o.style.Some? ==>
      && o.style.value.stylePackage.Some?
      && o.style.value.stylePackage.value in pkgs
      && o.style == LoadStyle(platform, o.style.value.stylePackage.value)
  }

  ghost predicate StylesLoadedFrom(platform: Platform, groups: map<string, OptionValue>, pkgs: seq<string>) {
    forall k :: k in groups ==> LoadedStyle(platform, groups[k], pkgs)
  }

  /** The primary loop only ever attaches the style info loaded for one of its overlays. */
  lemma {:induction false} PrimaryStylesLoaded(platform: Platform, s: PassState, prior: seq<string>, pkgs: seq<string>)
    requires AllDotted(pkgs) && StylesLoadedFrom(platform, s.groups, prior)
    ensures StylesLoadedFrom(platform, PrimaryPass(platform, s, pkgs).groups, prior + pkgs)
  {
    if pkgs == [] {
      assert prior + pkgs == prior;
    } else {
      var init := pkgs[..|pkgs| - 1];
      var last := pkgs[|pkgs| - 1];
      assert AllDotted(init);
      PrimaryStylesLoaded(platform, s, prior, init);
      assert prior + pkgs == (prior + init) + [last];
      var mid := PrimaryPass(platform, s, init).groups;
      var r := PrimaryPass(platform, s, pkgs).groups;
      forall k | k in r
        ensures LoadedStyle(platform, r[k], prior + pkgs)
      {
        if k != GroupingKey(last) {
          assert r[k] == mid[k];
          assert LoadedStyle(platform, mid[k], prior + init);
        } else if LoadStyle(platform, last).None? && k in mid {
          assert r[k].style == mid[k].style;
          assert LoadedStyle(platform, mid[k], prior + init);
        }
      }
    }
  }

  /** A secondary loop keeps every style info as it is and attaches none. */
  lemma SecondaryKeepsLoadedStyles(platform: Platform, groups: map<string, OptionValue>, pkgs: seq<string>,
                                   category: Category, prior: seq<string>)
    requires AllDotted(pkgs) && StylesLoadedFrom(platform, groups, prior)
    ensures StylesLoadedFrom(platform, SecondaryPass(groups, pkgs, category), prior)
  {
    SecondaryTouchesOnlyItsCategory(groups, pkgs, category);
    var r := SecondaryPass(groups, pkgs, category);
    forall k | k in r
      ensures LoadedStyle(platform, r[k], prior)
    {
      if k in groups {
        assert r[k].style == groups[k].style;
        assert LoadedStyle(platform, groups[k], prior);
      } else {
        assert k in KeySet(pkgs);
      }
    }
  }

  /** After the whole pass every style info in the table was loaded for a primary overlay. */
  lemma LoadStylesLoaded(platform: Platform, defaultPkg: Option<string>, primary: seq<string>,
                         sysUi: seq<string>, settings: seq<string>)
    requires AllDotted(primary) && AllDotted(sysUi) && AllDotted(settings)
    ensures StylesLoadedFrom(platform, Load(platform, defaultPkg, primary, sysUi, settings).groups, primary)
  {
    var s0 := PassState(map[], []);
    PrimaryStylesLoaded(platform, s0, [], primary);
    assert [] + primary == primary;
    var s := PrimaryPass(platform, s0, primary);
    SecondaryKeepsLoadedStyles(platform, s.groups, sysUi, UiStyleSysUi, primary);
    SecondaryKeepsLoadedStyles(platform, SecondaryPass(s.groups, sysUi, UiStyleSysUi), settings, UiStyleSettings, primary);
  }

  // ---------------------------------------------------------------------------------------
  // A worked pass

  /** One primary step on a key not grouped yet: a new option holding only the android
      association, styled and shown when the overlay loads. */
  lemma PrimaryStepNewKey(platform: Platform, s: PassState, pkg: string)
    requires Dotted(pkg) && GroupingKey(pkg) !in s.groups
    ensures PrimaryStep(platform, s, pkg) ==
              if LoadStyle(platform, pkg).Some?
              then PassState(s.groups[GroupingKey(pkg) := OptionValue(map[UiStyleAndroid := Some(pkg)], LoadStyle(platform, pkg))],
                             s.shown + [GroupingKey(pkg)])
              else PassState(s.groups[GroupingKey(pkg) := OptionValue(map[UiStyleAndroid := Some(pkg)], None)], s.shown)
  {
    var key := GroupingKey(pkg);
    var grouped := AddOrUpdate(s.groups, pkg, UiStyleAndroid);
    assert grouped == s.groups[key := OptionValue(map[UiStyleAndroid := Some(pkg)], None)];
  }

  /** One secondary step on a key grouped already: only that option gains the association. */
  lemma AddOrUpdateExisting(groups: map<string, OptionValue>, pkg: string, category: Category)
    requires Dotted(pkg) && GroupingKey(pkg) in groups
    ensures AddOrUpdate(groups, pkg, category) ==
              groups[GroupingKey(pkg) := groups[GroupingKey(pkg)].WithPackage(category, Some(pkg))]
  {
  }

  /** Two installed style overlays and nothing else. */
  function SamplePlatform(): (p: Platform)
    ensures "com.a.x" in p.installed && "com.bb.y" in p.installed && "com.ccc.w" !in p.installed
  {
    Platform(
      map["com.a.x" := OverlayPackage(map[BackgroundLight := 1, BackgroundDark := 2], "A"),
          "com.bb.y" := OverlayPackage(map[BackgroundLight := 3, BackgroundDark := 4], "B")],
      10, 20, 7, "Default")
  }

  const InfoA := StyleInfo(Some("com.a.x"), "A", 1, 2, 7)
  const InfoB := StyleInfo(Some("com.bb.y"), "B", 3, 4, 7)

  /** The grouping keys of the worked pass's packages. */
  lemma SampleKeys()
    ensures Dotted("com.a.x") && GroupingKey("com.a.x") == "com.a"
    ensures Dotted("com.bb.y") && GroupingKey("com.bb.y") == "com.bb"
    ensures Dotted("com.ccc.w") && GroupingKey("com.ccc.w") == "com.ccc"
    ensures Dotted("com.a.z") && GroupingKey("com.a.z") == "com.a"
    ensures Dotted("com.ccc.v") && GroupingKey("com.ccc.v") == "com.ccc"
  {
    GroupingKeyDropsLastSegment("com.a", "x");
    assert "com.a" + "." + "x" == "com.a.x";
    GroupingKeyDropsLastSegment("com.bb", "y");
    assert "com.bb" + "." + "y" == "com.bb.y";
    GroupingKeyDropsLastSegment("com.ccc", "w");
    assert "com.ccc" + "." + "w" == "com.ccc.w";
    GroupingKeyDropsLastSegment("com.a", "z");
    assert "com.a" + "." + "z" == "com.a.z";
    GroupingKeyDropsLastSegment("com.ccc", "v");
    assert "com.ccc" + "." + "v" == "com.ccc.v";
  }

  /** The android options of the worked pass, one per loaded overlay. */
  const OptionA := OptionValue(map[UiStyleAndroid := Some("com.a.x")], Some(InfoA))
  const OptionB := OptionValue(map[UiStyleAndroid := Some("com.bb.y")], Some(InfoB))
  const OptionC := OptionValue(map[UiStyleAndroid := Some("com.ccc.w")], None)

  const SamplePrimary := ["com.a.x", "com.bb.y", "com.ccc.w"]

  lemma SamplePrimarySteps()
    ensures AllDotted(SamplePrimary)
    ensures PrimaryStep(SamplePlatform(), PassState(map[], []), "com.a.x") == PassState(map["com.a" := OptionA], ["com.a"])
    ensures PrimaryStep(SamplePlatform(), PassState(map["com.a" := OptionA], ["com.a"]), "com.bb.y")
              == PassState(map["com.a" := OptionA, "com.bb" := OptionB], ["com.a", "com.bb"])
    ensures PrimaryStep(SamplePlatform(), PassState(map["com.a" := OptionA, "com.bb" := OptionB], ["com.a", "com.bb"]), "com.ccc.w")
              == PassState(map["com.a" := OptionA, "com.bb" := OptionB, "com.ccc" := OptionC], ["com.a", "com.bb"])
  {
    SampleKeys();
    assert AllDotted(SamplePrimary);
    var platform := SamplePlatform();
    assert LoadStyle(platform, "com.a.x") == Some(InfoA);
    assert LoadStyle(platform, "com.bb.y") == Some(InfoB);
    assert LoadStyle(platform, "com.ccc.w") == None;
    PrimaryStepNewKey(platform, PassState(map[], []), "com.a.x");
    PrimaryStepNewKey(platform, PassState(map["com.a" := OptionA], ["com.a"]), "com.bb.y");
    PrimaryStepNewKey(platform, PassState(map["com.a" := OptionA, "com.bb" := OptionB], ["com.a", "com.bb"]), "com.ccc.w");
  }

  /** The primary loop of the worked pass: the missing overlay is grouped but not shown. */
  lemma SamplePrimaryPass()
    ensures AllDotted(SamplePrimary)
    ensures PrimaryPass(SamplePlatform(), PassState(map[], []), SamplePrimary) ==
              PassState(SamplePrimaryGroups, ["com.a", "com.bb"])
  {
    SamplePrimarySteps();
    assert SamplePrimary[..2] == ["com.a.x", "com.bb.y"];
    assert SamplePrimary[..2][..1] == ["com.a.x"];
    assert ["com.a.x"][..0] == [];
  }

  /** The secondary loops of the worked pass. */
  const OptionAWithSysUi := OptionValue(map[UiStyleAndroid := Some("com.a.x"), UiStyleSysUi := Some("com.a.z")], Some(InfoA))
  const OptionCWithSettings := OptionValue(map[UiStyleAndroid := Some("com.ccc.w"), UiStyleSettings := Some("com.ccc.v")], None)

  const SamplePrimaryGroups := map["com.a" := OptionA, "com.bb" := OptionB, "com.ccc" := OptionC]
  const SampleAfterSysUi := SamplePrimaryGroups["com.a" := OptionAWithSysUi]

  lemma SampleSysUiPass()
    ensures AllDotted(["com.a.z"])
    ensures SecondaryPass(SamplePrimaryGroups, ["com.a.z"], UiStyleSysUi) == SampleAfterSysUi
  {
    SampleKeys();
    assert AllDotted(["com.a.z"]);
    assert ["com.a.z"][..0] == [];
    AddOrUpdateExisting(SamplePrimaryGroups, "com.a.z", UiStyleSysUi);
  }

  lemma SampleSettingsPass()
    ensures AllDotted(["com.ccc.v"])
    ensures SecondaryPass(SampleAfterSysUi, ["com.ccc.v"], UiStyleSettings) == SampleAfterSysUi["com.ccc" := OptionCWithSettings]
  {
    SampleKeys();
    assert AllDotted(["com.ccc.v"]);
    assert ["com.ccc.v"][..0] == [];
    assert "com.ccc" in SampleAfterSysUi && SampleAfterSysUi["com.ccc"] == OptionC;
    AddOrUpdateExisting(SampleAfterSysUi, "com.ccc.v", UiStyleSettings);
  }

  /** The secondary loops of the worked pass: each association lands on the option of its
      overlay's group, including the group whose android overlay failed to load. */
  lemma SampleSecondaryPasses()
    ensures AllDotted(["com.a.z"]) && AllDotted(["com.ccc.v"])
    ensures SecondaryPass(SecondaryPass(SamplePrimaryGroups, ["com.a.z"], UiStyleSysUi), ["com.ccc.v"], UiStyleSettings)
              == SampleGroups
  {
    SampleSysUiPass();
    SampleSettingsPass();
    assert SampleAfterSysUi["com.ccc" := OptionCWithSettings] == SampleGroups;
  }

  /** Position j + 1 of what the pass appends is the option of the j-th shown key. */
  lemma VisibleAt(res: LoadResult, j: nat)
    requires j < |res.shown|
    ensures |Visible(res)| == |res.shown| + 1
    ensures Visible(res)[j + 1] == Lookup(res.groups, res.shown[j])
  {
  }

  const SampleGroups := map["com.a" := OptionAWithSysUi, "com.bb" := OptionB, "com.ccc" := OptionCWithSettings]

  lemma SampleGroupsLookup()
    ensures Lookup(SampleGroups, "com.a") == OptionAWithSysUi
    ensures Lookup(SampleGroups, "com.bb") == OptionB
    ensures "com.ccc" in SampleGroups && SampleGroups["com.ccc"] == OptionCWithSettings
  {
    assert "com.a" in SampleGroups;
    assert "com.bb" in SampleGroups;
  }

  lemma SampleLoadResult()
    ensures AllDotted(SamplePrimary) && AllDotted(["com.a.z"]) && AllDotted(["com.ccc.v"])
    ensures Load(SamplePlatform(), None, SamplePrimary, ["com.a.z"], ["com.ccc.v"])
              == LoadResult(SampleGroups, ["com.a", "com.bb"], DefaultOption(SamplePlatform(), None))
  {
    SamplePrimaryPass();
    SampleSecondaryPasses();
  }

  /** The worked pass as a whole: the default and the two loaded options are shown, the SysUI
      overlay's association lands on the first of them, and the missing overlay's group
      collects the Settings association without being shown. */
  lemma SampleLoad()
    ensures AllDotted(SamplePrimary) && AllDotted(["com.a.z"]) && AllDotted(["com.ccc.v"])
    ensures var res := Load(SamplePlatform(), None, SamplePrimary, ["com.a.z"], ["com.ccc.v"]);
            && |Visible(res)| == 3 && Visible(res)[0] == DefaultOption(SamplePlatform(), None)
            && Visible(res)[1] == OptionAWithSysUi && Visible(res)[2] == OptionB
            && "com.ccc" in res.groups && res.groups["com.ccc"] == OptionCWithSettings
  {
    SampleLoadResult();
    var res := Load(SamplePlatform(), None, SamplePrimary, ["com.a.z"], ["com.ccc.v"]);
    VisibleAt(res, 0);
    VisibleAt(res, 1);
    SampleGroupsLookup();
  }
}
