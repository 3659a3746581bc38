/**
 * The settings screen. Its sections are derived from the settings metadata:
 * an `all` section, then one section per category, the known categories in
 * a fixed priority order and the others where they are first seen. Edits
 * are staged in a local copy of `settings`; a few audio-related keys are
 * saved as soon as they change, Apply saves the whole copy and Reset saves
 * the default settings.
 */
module SettingsPage {
  import opened Base
  import opened Json
  import opened Config
  import opened Seqs

  datatype Kind = Toggle | Select | ButtonKind | Range | Number

  /** One entry of the settings metadata; labels and descriptions are left out. */
  datatype SettingMeta = SettingMeta(
    id: string,
    category: Option<string>,
    kind: Kind,
    implemented: Option<bool>,
    options: Option<seq<string>>)

  /** `s.category || 'general'`. */
  function CategoryOf(s: SettingMeta): (c: string)
    ensures s.category.Some? && s.category.value != "" ==> c == s.category.value
    ensures s.category.None? || s.category.value == "" ==> c == "general"
  {
    if s.category.Some? && s.category.value != "" then s.category.value else "general"
  }

  const CategoryOrder: seq<string> := ["audio", "controls", "gameplay", "accessibility", "online", "general"]

  /** `SETTINGS.map(s => s.category || 'general')`. */
  function Categories(settings: seq<SettingMeta>): (r: seq<string>)
    ensures |r| == |settings|
    ensures forall i :: 0 <= i < |settings| ==> r[i] == CategoryOf(settings[i])
  {
    seq(|settings|, i requires 0 <= i < |settings| => CategoryOf(settings[i]))
  }

  /** `SETTINGS.map(s => s.id)`. */
  function Ids(settings: seq<SettingMeta>): (r: seq<string>)
    ensures |r| == |settings|
    ensures forall i :: 0 <= i < |settings| ==> r[i] == settings[i].id
  {
    seq(|settings|, i requires 0 <= i < |settings| => settings[i].id)
  }

  /** `Array.from(new Set(categories))`. */
  function FoundCategories(settings: seq<SettingMeta>): seq<string>
  {
    Dedupe(Categories(settings))
  }

  /**
   * `order.filter(c => found.includes(c)).concat(found.filter(c => !order.includes(c)))`.
   */
  function OrderBy(order: seq<string>, found: seq<string>): seq<string>
  {
    Filter(order, c => c in found) + Filter(found, c => c !in order)
  }

  /** `orderedCategories`. */
  function OrderedCategories(settings: seq<SettingMeta>): seq<string>
  {
    OrderBy(CategoryOrder, FoundCategories(settings))
  }

  lemma OrderByNoDup(order: seq<string>, found: seq<string>)
    requires NoDup(order) && NoDup(found)
    ensures NoDup(OrderBy(order, found))
  {
    var known, unknown := Filter(order, c => c in found), Filter(found, c => c !in order);
    var r := known + unknown;
    FilterNoDup(order, c => c in found);
    FilterNoDup(found, c => c !in order);
    forall a, b | 0 <= a < b < |r|
      ensures r[a] != r[b]
    {
      if b < |known| {
        assert r[a] == known[a] && r[b] == known[b];
      } else if a >= |known| {
        assert r[a] == unknown[a - |known|] && r[b] == unknown[b - |known|];
      } else {
        assert r[a] == known[a] && r[b] == unknown[b - |known|];
      }
    }
  }

  lemma OrderByMembers(order: seq<string>, found: seq<string>, c: string)
    ensures c in OrderBy(order, found) <==> c in found
  {
    var known, unknown := Filter(order, c => c in found), Filter(found, c => c !in order);
    var r := known + unknown;
    if c in found {
      if c in order {
        var k :| 0 <= k < |order| && order[k] == c;
        assert c in known;
      } else {
        var k :| 0 <= k < |found| && found[k] == c;
        assert c in unknown;
      }
    }
    if c in r {
      var k :| 0 <= k < |r| && r[k] == c;
      if k < |known| {
        assert known[k] == c;
      } else {
        assert unknown[k - |known|] == c;
      }
    }
  }

  /** The categories of the priority list come first, in its order. */
  lemma OrderByKnownFirst(order: seq<string>, found: seq<string>)
    requires NoDup(order)
    ensures var r := OrderBy(order, found);
      && (forall a, b :: 0 <= a < b < |r| && r[b] in order ==> r[a] in order)
      && (forall a, b :: 0 <= a < b < |r| && r[a] in order && r[b] in order ==>
            FirstIndex(order, r[a]) < FirstIndex(order, r[b]))
  {
    var known, unknown := Filter(order, c => c in found), Filter(found, c => c !in order);
    var r := known + unknown;
    FilterKeepsOrder(order, c => c in found);
    forall a, b | 0 <= a < b < |r| && r[b] in order
      ensures r[a] in order && FirstIndex(order, r[a]) < FirstIndex(order, r[b])
    {
      assert r[a] == known[a] && r[b] == known[b];
    }
  }

  /** The other categories follow in the order `found` lists them. */
  lemma OrderByUnknownKeepOrder(order: seq<string>, found: seq<string>)
    requires NoDup(found)
    ensures var r := OrderBy(order, found);
      forall a, b :: 0 <= a < b < |r| && r[a] !in order && r[b] !in order ==>
        FirstIndex(found, r[a]) < FirstIndex(found, r[b])
  {
    var known, unknown := Filter(order, c => c in found), Filter(found, c => c !in order);
    var r := known + unknown;
    FilterKeepsOrder(found, c => c !in order);
    forall a, b | 0 <= a < b < |r| && r[a] !in order && r[b] !in order
      ensures FirstIndex(found, r[a]) < FirstIndex(found, r[b])
    {
      assert r[a] == unknown[a - |known|] && r[b] == unknown[b - |known|];
    }
  }

  /**
   * Ordering the de-duplicated `cats`: each category that occurs, once; the
   * ones of `order` first, in its order, then the others in the order they
   * first occur in `cats`.
   */
  lemma OrderByDedupe(order: seq<string>, cats: seq<string>)
    requires NoDup(order)
    ensures var r := OrderBy(order, Dedupe(cats));
      && NoDup(r)
      && (forall c :: c in r <==> c in cats)
      && (forall a, b :: 0 <= a < b < |r| && r[b] in order ==> r[a] in order)
      && (forall a, b :: 0 <= a < b < |r| && r[a] in order && r[b] in order ==>
            FirstIndex(order, r[a]) < FirstIndex(order, r[b]))
      && (forall a, b :: 0 <= a < b < |r| && r[a] !in order && r[b] !in order ==>
            FirstIndex(cats, r[a]) < FirstIndex(cats, r[b]))
  {
    var found := Dedupe(cats);
    var r := OrderBy(order, found);
    OrderByNoDup(order, found);
    OrderByKnownFirst(order, found);
    OrderByUnknownKeepOrder(order, found);
    DedupeFirstSeen(cats);
    forall c
      ensures c in r <==> c in cats
    {
      OrderByMembers(order, found, c);
      if c in found {
        var j :| 0 <= j < |found| && found[j] == c;
      }
      if c in cats {
        var j :| 0 <= j < |cats| && cats[j] == c;
      }
    }
    forall a, b | 0 <= a < b < |r| && r[a] !in order && r[b] !in order
      ensures FirstIndex(cats, r[a]) < FirstIndex(cats, r[b])
    {
      OrderByMembers(order, found, r[a]);
      OrderByMembers(order, found, r[b]);
      var ia, ib := FirstIndex(found, r[a]), FirstIndex(found, r[b]);
      assert found[ia] == r[a] && found[ib] == r[b];
    }
  }

  /**
   * The ordered categories are exactly the categories that occur, each
   * once; the known ones come first, in priority order, and the others
   * follow in the order they first occur in the metadata.
   */
  lemma OrderedCategoriesSpec(settings: seq<SettingMeta>)
    ensures var r := OrderedCategories(settings);
      && NoDup(r)
      && (forall c :: c in r <==> c in Categories(settings))
      && (forall a, b :: 0 <= a < b < |r| && r[b] in CategoryOrder ==> r[a] in CategoryOrder)
      && (forall a, b :: 0 <= a < b < |r| && r[a] in CategoryOrder && r[b] in CategoryOrder ==>
            FirstIndex(CategoryOrder, r[a]) < FirstIndex(CategoryOrder, r[b]))
      && (forall a, b :: 0 <= a < b < |r| && r[a] !in CategoryOrder && r[b] !in CategoryOrder ==>
            FirstIndex(Categories(settings), r[a]) < FirstIndex(Categories(settings), r[b]))
  {
    assert NoDup(CategoryOrder);
    OrderByDedupe(CategoryOrder, Categories(settings));
  }

  /** `SETTINGS.filter(s => (s.category || 'general') === cat)`. */
  function InCategory(settings: seq<SettingMeta>, cat: string): seq<SettingMeta>
  {
    Filter(settings, s => CategoryOf(s) == cat)
  }

  datatype Section = Section(id: string, items: seq<string>)

  /** The section of one category: the ids of its settings, in order. */
  function CategorySection(settings: seq<SettingMeta>, cat: string): (r: Section)
    ensures r.id == cat
  {
    Section(cat, Ids(InCategory(settings, cat)))
  }

  /** `all` with every id, then one section per category of `cats`, in that order. */
  function SectionsOf(settings: seq<SettingMeta>, cats: seq<string>): (r: seq<Section>)
    ensures |r| == 1 + |cats|
    ensures r[0] == Section("all", Ids(settings))
    ensures forall k :: 1 <= k < |r| ==> r[k] == CategorySection(settings, cats[k - 1])
  {
    seq(1 + |cats|, k requires 0 <= k <= |cats| =>
      if k == 0 then Section("all", Ids(settings)) else CategorySection(settings, cats[k - 1]))
  }

  /** `SECTIONS`: `all` with every id, then one section per ordered category. */
  function Sections(settings: seq<SettingMeta>): seq<Section>
  {
    SectionsOf(settings, OrderedCategories(settings))
  }

  /**
   * Two settings of one category and a third of another: the category's
   * section lists the first two ids, in order.
   */
  lemma {:induction false} TwoOfOneCategory(a: SettingMeta, b: SettingMeta, c: SettingMeta)
    requires CategoryOf(a) == CategoryOf(b) != CategoryOf(c)
    ensures CategorySection([a, b, c], CategoryOf(a)).items == [a.id, b.id]
  {
    var xs := [a, b, c];
    var cat := CategoryOf(a);
    assert xs[..2] == [a, b] && xs[..2][..1] == [a] && xs[..2][..1][..0] == [];
    assert InCategory([a], cat) == [a];
    assert InCategory([a, b], cat) == [a, b];
    assert InCategory(xs, cat) == [a, b];
  }

  /** A setting's id is among the items of its own category's section. */
  lemma IdInOwnCategory(settings: seq<SettingMeta>, i: nat)
    requires i < |settings|
    ensures settings[i].id in CategorySection(settings, CategoryOf(settings[i])).items
  {
    var sel := InCategory(settings, CategoryOf(settings[i]));
    assert settings[i] in sel;
    var j :| 0 <= j < |sel| && sel[j] == settings[i];
    assert Ids(sel)[j] == settings[i].id;
  }

  /** A member of a category's selection is a setting of that category. */
  lemma InCategoryMember(settings: seq<SettingMeta>, cat: string, j: nat)
    requires j < |InCategory(settings, cat)|
    ensures InCategory(settings, cat)[j] in settings
    ensures CategoryOf(InCategory(settings, cat)[j]) == cat
  {
  }

  /** With distinct ids, a setting's id is in no other category's section. */
  lemma IdOnlyInOwnCategory(settings: seq<SettingMeta>, i: nat, cat: string)
    requires NoDup(Ids(settings)) && i < |settings|
    requires settings[i].id in CategorySection(settings, cat).items
    ensures cat == CategoryOf(settings[i])
  {
    var sel := InCategory(settings, cat);
    var ids := Ids(sel);
    assert ids == CategorySection(settings, cat).items;
    var j :| 0 <= j < |ids| && ids[j] == settings[i].id;
    InCategoryMember(settings, cat, j);
    var m :| 0 <= m < |settings| && settings[m] == sel[j];
    SameIdSameIndex(settings, m, i);
  }

  /** With distinct ids, two positions holding the same id are one position. */
  lemma SameIdSameIndex(settings: seq<SettingMeta>, a: nat, b: nat)
    requires NoDup(Ids(settings)) && a < |settings| && b < |settings|
    requires settings[a].id == settings[b].id
    ensures a == b
  {
    var ids := Ids(settings);
    assert ids[a] == ids[b];
  }

  /**
   * With distinct ids, every setting's id lies in exactly one category
   * section: the one of its own category.
   */
  lemma EachIdInOneCategorySection(settings: seq<SettingMeta>, i: nat)
    requires NoDup(Ids(settings)) && i < |settings|
    ensures var secs := Sections(settings);
      && (exists k :: 1 <= k < |secs| && secs[k].id == CategoryOf(settings[i]) && settings[i].id in secs[k].items)
      && (forall k :: 1 <= k < |secs| && settings[i].id in secs[k].items ==> secs[k].id == CategoryOf(settings[i]))
      && (forall k, k' ::
            (1 <= k < |secs| && 1 <= k' < |secs| &&
             settings[i].id in secs[k].items && settings[i].id in secs[k'].items) ==> k == k')
  {
    var secs := Sections(settings);
    var cats := OrderedCategories(settings);
    var c := CategoryOf(settings[i]);
    OrderedCategoriesSpec(settings);
    assert Categories(settings)[i] == c;
    var k0 :| 0 <= k0 < |cats| && cats[k0] == c;
    IdInOwnCategory(settings, i);
    assert secs[k0 + 1] == CategorySection(settings, c);
    forall k | 1 <= k < |secs| && settings[i].id in secs[k].items
      ensures secs[k].id == c
    {
      IdOnlyInOwnCategory(settings, i, cats[k - 1]);
    }
  }

  /** `withLabels.find(s => s.id === section)`: the first section with that id. */
  function FindSection(secs: seq<Section>, id: string): (r: Option<nat>)
    ensures r.Some? ==>
      (r.value < |secs| && secs[r.value].id == id && forall k :: 0 <= k < r.value ==> secs[k].id != id)
    ensures r.None? ==> forall k :: 0 <= k < |secs| ==> secs[k].id != id
  {
    if secs == [] then None
    else
      var init := secs[..|secs| - 1];
      var f := FindSection(init, id);
      if f.Some? then f
      else if secs[|secs| - 1].id == id then Some(|secs| - 1)
      else None
  }

  /** `activeSection`: the chosen section, or the first (`all`) if none has that id. */
  function ActiveSection(settings: seq<SettingMeta>, section: string): (r: Section)
    ensures var secs := Sections(settings);
      (exists k :: 0 <= k < |secs| && secs[k].id == section) ==> r.id == section
    ensures (forall k :: 0 <= k < |Sections(settings)| ==> Sections(settings)[k].id != section) ==>
      r == Section("all", Ids(settings))
    ensures var secs := Sections(settings); var f := FindSection(secs, section);
      f.Some? ==> r == secs[f.value]
  {
    var secs := Sections(settings);
    var f := FindSection(secs, section);
    if f.Some? then secs[f.value] else secs[0]
  }

  /** `SETTINGS.filter(s => sec.items.includes(s.id))`. */
  function Members(settings: seq<SettingMeta>, sec: Section): seq<SettingMeta>
  {
    Filter(settings, (s: SettingMeta) => s.id in sec.items)
  }

  /** `visibleSettings`. */
  function VisibleSettings(settings: seq<SettingMeta>, section: string): seq<SettingMeta>
  {
    Members(settings, ActiveSection(settings, section))
  }

  /**
   * With distinct ids, choosing a category other than `all` shows exactly
   * the settings of that category, in the metadata's order.
   */
  lemma CategoryShowsItsSettings(settings: seq<SettingMeta>, c: string)
    requires NoDup(Ids(settings)) && c in Categories(settings) && c != "all"
    ensures VisibleSettings(settings, c) == InCategory(settings, c)
  {
    var secs := Sections(settings);
    var cats := OrderedCategories(settings);
    OrderedCategoriesSpec(settings);
    var k0 :| 0 <= k0 < |cats| && cats[k0] == c;
    var f := FindSection(secs, c);
    assert secs[k0 + 1].id == c;
    assert secs[0].id == "all";
    assert f.Some? && f.value == k0 + 1;
    var active := ActiveSection(settings, c);
    assert active == CategorySection(settings, c);
    forall i | 0 <= i < |settings|
      ensures (settings[i].id in active.items) == (CategoryOf(settings[i]) == c)
    {
      if CategoryOf(settings[i]) == c {
        IdInOwnCategory(settings, i);
      }
      if settings[i].id in active.items {
        IdOnlyInOwnCategory(settings, i, c);
      }
    }
    FilterExt(settings, (s: SettingMeta) => s.id in active.items, (s: SettingMeta) => CategoryOf(s) == c);
  }

  /**
   * The `all` section and any unknown section id show every setting, in
   * the metadata's order.
   */
  lemma UnknownSectionShowsAll(settings: seq<SettingMeta>, section: string)
    requires section == "all" || forall k :: 0 <= k < |Sections(settings)| ==> Sections(settings)[k].id != section
    ensures VisibleSettings(settings, section) == settings
  {
    var active := ActiveSection(settings, section);
    if section == "all" {
      assert Sections(settings)[0].id == "all";
    }
    assert active.items == Ids(settings);
    forall i | 0 <= i < |settings|
      ensures settings[i].id in active.items
    {
      assert Ids(settings)[i] == settings[i].id;
    }
    FilterKeepsAll(settings, (s: SettingMeta) => s.id in active.items);
  }

  /** The badge of a section: how many settings it holds. */
  function SectionCount(settings: seq<SettingMeta>, sec: Section): (n: nat)
    ensures n <= |settings|
  {
    |Members(settings, sec)|
  }

  /** The muted badge: how many of them are marked not implemented. */
  function OffCount(settings: seq<SettingMeta>, sec: Section): (n: nat)
    ensures n <= SectionCount(settings, sec)
    ensures n == 0 <==> forall j :: 0 <= j < |Members(settings, sec)| ==>
      Members(settings, sec)[j].implemented != Some(false)
  {
    var off := Filter(Members(settings, sec), (s: SettingMeta) => s.implemented == Some(false));
    if off != [] then assert off[0] in off; |off| else |off|
  }

  /** The control a setting is drawn with and the value it shows. */
  datatype Control =
    | ToggleControl(checked: bool)
    | SelectControl(selected: Option<Json>, options: seq<string>)
    | RangeControl(level: int)
    | NumberControl(count: Json)
    | LocaleControl(current: Json, options: seq<string>)
    | NoControl

  datatype Rendered = Rendered(control: Control, disabled: bool, saved: bool)

  /** `renderControl(s)` given the staged settings and the key last autosaved. */
  function RenderControl(s: SettingMeta, local: map<string, Json>, savedKey: Option<string>): (r: Rendered)
    ensures r.disabled <==> s.implemented == Some(false)
    ensures r.saved <==> savedKey == Some(s.id)
    ensures s.kind == Toggle ==> r.control == ToggleControl(s.id in local && Truthy(local[s.id]))
    ensures s.kind == Select ==>
      var opts := if s.options.Some? then s.options.value else [];
      r.control.SelectControl? && r.control.options == opts
      && (s.id in local && Truthy(local[s.id]) ==> r.control.selected == Some(local[s.id]))
      && (!(s.id in local && Truthy(local[s.id])) && opts != [] ==> r.control.selected == Some(JStr(opts[0])))
      && (!(s.id in local && Truthy(local[s.id])) && opts == [] ==> r.control.selected.None?)
    ensures s.kind == Range ==>
      r.control == RangeControl(if s.id in local && local[s.id].JNum? then local[s.id].n else 70)
    ensures s.kind == Number ==>
      r.control == NumberControl(if s.id in local && local[s.id] != JNull then local[s.id] else JNum(3))
    ensures s.kind == ButtonKind ==> (r.control.LocaleControl? <==> s.id == "locale")
    ensures r.control.LocaleControl? ==>
      r.control.current == (if "locale" in local && Truthy(local["locale"]) then local["locale"] else JStr("en"))
  {
    var val := if s.id in local then Some(local[s.id]) else None;
    var disabled := s.implemented == Some(false);
    var saved := savedKey == Some(s.id);
    var control :=
      match s.kind
      case Toggle => ToggleControl(TruthyOpt(val))
      case Select =>
        var opts := if s.options.Some? then s.options.value else [];
        SelectControl(if TruthyOpt(val) then val else if opts != [] then Some(JStr(opts[0])) else None, opts)
      case Range => RangeControl(if val.Some? && val.value.JNum? then val.value.n else 70)
      case Number => NumberControl(if val.Some? && val.value != JNull then val.value else JNum(3))
      case ButtonKind =>
        if s.id == "locale" then
          var cur := if "locale" in local && Truthy(local["locale"]) then local["locale"] else JStr("en");
          LocaleControl(cur, if s.options.Some? then s.options.value else [])
        else NoControl;
    Rendered(control, disabled, saved)
  }

  /** The keys `update` saves at once. */
  const AutosaveKeys: set<string> := {"sound", "music", "volume", "maxLives"}

  /** The default settings, once saved by Reset, are what every setting reads. */
  lemma ResetRestoresDefaults(c: Config, key: string)
    requires key in DefaultSettings
    ensures Setting(c + map["settings" := JObj(DefaultSettings)], key) == Some(DefaultSettings[key])
    ensures forall k :: k in c && k != "settings" ==> (c + map["settings" := JObj(DefaultSettings)])[k] == c[k]
  {
  }

  /**
   * The 1.5 s timer of `update` as written: it compares `key` with the
   * `savedKey` captured when `update` ran, not with the current one.
   */
  function SavedKeyAfterTimerAsWritten(captured: Option<string>, current: Option<string>, key: string): (r: Option<string>)
    ensures captured == Some(key) ==> r.None?
    ensures captured != Some(key) ==> r == current
  {
    if captured == Some(key) then None else current
  }

  /**
   * The first autosave of `sound` captures no saved key, so its timer
   * never clears the "Saved" badge that autosave just put up.
   */
  lemma StaleTimerKeepsBadge()
    ensures SavedKeyAfterTimerAsWritten(None, Some("sound"), "sound") == Some("sound")
  {
  }

  /** The timer as intended: clear the badge if it still shows `key`. */
  function SavedKeyAfterTimer(current: Option<string>, key: string): (r: Option<string>)
    ensures current == Some(key) ==> r.None?
    ensures current != Some(key) ==> r == current
  {
    if current == Some(key) then None else current
  }

  /**
   * With the intended timer, the badge an autosave puts up is cleared by
   * that autosave's timer unless a later autosave replaced it.
   */
  lemma TimerClearsOwnBadge(key: string, later: Option<string>)
    ensures SavedKeyAfterTimer(Some(key), key).None?
    ensures later != Some(key) ==> SavedKeyAfterTimer(later, key) == later
  {
  }

  /** A pending "Saved" timer: the badge value its closure captured and the key it was started for. */
  datatype Timer = Timer(captured: Option<string>, key: string)

  /** The settings screen: its staged copy, section, last autosaved key and the config store. */
  class SettingsScreen {
    var local: map<string, Json>
    var section: string
    var savedKey: Option<string>
    /** The values handed to `setLocale`, in order. */
    var localeRequests: seq<Json>
    /** The "Saved" timers started and not yet fired, oldest first. */
    var timers: seq<Timer>
    const store: ConfigStore

    constructor (store: ConfigStore)
      ensures this.store == store && local == map[] && section == "all"
      ensures savedKey.None? && localeRequests == [] && timers == []
    {
      this.store := store;
      local := map[];
      section := "all";
      savedKey := None;
      localeRequests := [];
      timers := [];
    }

    /** The mount effect: stage a copy of the loaded settings. */
    method Mount()
      modifies this`local
      ensures local == Props(Member(Some(JObj(store.LoadConfig())), "settings"))
      ensures forall k :: Setting(store.LoadConfig(), k).Some? ==> k in local && Some(local[k]) == Setting(store.LoadConfig(), k)
    {
      local := Props(Member(Some(JObj(store.LoadConfig())), "settings"));
    }

    /** `update(key, value)`: stage the value; save at once only for the autosave keys. */
    method Update(key: string, value: Json)
      modifies this`local, this`savedKey, this`timers, store
      ensures local == old(local)[key := value]
      ensures key in AutosaveKeys ==> savedKey == Some(key) && timers == old(timers) + [Timer(old(savedKey), key)]
      ensures key in AutosaveKeys && !store.setThrows ==>
        && store.slot == Some(store.serialize(old(store.LoadConfig()) + map["settings" := JObj(local)]))
        && store.notifications == old(store.notifications) + [old(store.LoadConfig()) + map["settings" := JObj(local)]]
      ensures key !in AutosaveKeys ==>
        && savedKey == old(savedKey) && timers == old(timers)
        && store.slot == old(store.slot) && store.notifications == old(store.notifications)
      ensures store.getThrows == old(store.getThrows) && store.setThrows == old(store.setThrows)
      ensures store.setThrows ==> store.slot == old(store.slot) && store.notifications == old(store.notifications)
    {
      local := local[key := value];
      if key in AutosaveKeys {
        var _ := store.SaveConfig(map["settings" := JObj(local)]);
        timers := timers + [Timer(savedKey, key)];
        savedKey := Some(key);
      }
    }

    /** `handleApply`: save the whole staged copy; switch language if a locale is set. */
    method Apply()
      modifies this`localeRequests, store
      ensures !store.setThrows ==>
        && store.slot == Some(store.serialize(old(store.LoadConfig()) + map["settings" := JObj(local)]))
        && store.notifications == old(store.notifications) + [old(store.LoadConfig()) + map["settings" := JObj(local)]]
      ensures store.setThrows ==> store.slot == old(store.slot) && store.notifications == old(store.notifications)
      ensures localeRequests == old(localeRequests) +
        (if "locale" in local && Truthy(local["locale"]) then [local["locale"]] else [])
      ensures store.getThrows == old(store.getThrows) && store.setThrows == old(store.setThrows)
    {
      var _ := store.SaveConfig(map["settings" := JObj(local)]);
      if "locale" in local && Truthy(local["locale"]) {
        localeRequests := localeRequests + [local["locale"]];
      }
    }

    /** `handleReset`: save the default settings and stage a copy of them. */
    method Reset()
      modifies this`local, store
      ensures local == DefaultSettings
      ensures !store.setThrows ==>
        && store.slot == Some(store.serialize(old(store.LoadConfig()) + map["settings" := JObj(DefaultSettings)]))
        && store.notifications == old(store.notifications) + [old(store.LoadConfig()) + map["settings" := JObj(DefaultSettings)]]
      ensures store.setThrows ==> store.slot == old(store.slot) && store.notifications == old(store.notifications)
      ensures (!store.setThrows && !store.getThrows &&
               store.RoundTrips(old(store.LoadConfig()) + map["settings" := JObj(DefaultSettings)])) ==>
        forall k :: k in DefaultSettings ==> Setting(store.LoadConfig(), k) == Some(DefaultSettings[k])
      ensures store.getThrows == old(store.getThrows) && store.setThrows == old(store.setThrows)
    {
      var saved := store.SaveConfig(map["settings" := JObj(DefaultSettings)]);
      local := DefaultSettings;
    }

    /** Pending timer `i` fires as written, testing the badge value its closure captured. */
    method TimerFiresAsWritten(i: nat)
      requires i < |timers|
      modifies this`savedKey, this`timers
      ensures savedKey == SavedKeyAfterTimerAsWritten(old(timers)[i].captured, old(savedKey), old(timers)[i].key)
      ensures timers == old(timers)[..i] + old(timers)[i + 1..]
    {
      savedKey := SavedKeyAfterTimerAsWritten(timers[i].captured, savedKey, timers[i].key);
      timers := timers[..i] + timers[i + 1..];
    }

    /** Pending timer `i` fires as intended, testing the badge value it finds. */
    method TimerFires(i: nat)
      requires i < |timers|
      modifies this`savedKey, this`timers
      ensures savedKey == SavedKeyAfterTimer(old(savedKey), old(timers)[i].key)
      ensures timers == old(timers)[..i] + old(timers)[i + 1..]
    {
      savedKey := SavedKeyAfterTimer(savedKey, timers[i].key);
      timers := timers[..i] + timers[i + 1..];
    }

    method SelectSection(id: string)
      modifies this`section
      ensures section == id
    {
      section := id;
    }
  }
}
