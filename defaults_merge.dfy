/**
 * Merging the built-in default settings into a loaded configuration
 * (`ConfigManager._merge_default_config`) and creating a configuration from
 * them (`_create_default_config`), with what the merge promises: existing
 * options keep their values except `version`, every default becomes visible,
 * nothing outside the defaults changes, a missing section arrives whole, and a
 * second merge changes nothing.
 *
 * The defaults are an ordered list of sections, each an ordered list of
 * options, because the merge visits them in the dictionary's order.
 */
module DefaultsMerge {
  import opened Wrappers
  import opened ConfigParser

  type Options = seq<(string, string)>
  type Defaults = seq<(string, Options)>

  /** The one option the merge always overwrites. */
  const VersionKey: string := "version"

  lemma VersionKeyIsLower()
    ensures Lower(VersionKey) == VersionKey
  {
    LowerOfLower(VersionKey);
  }

  /**
   * c' keeps every section and every option name of c, and the value of
   * every option other than `version`.
   */
  predicate Preserves(c: Config, c': Config) {
    forall s | s in c ::
      s in c' && c[s].Keys <= c'[s].Keys &&
      forall k | k in c[s] && k != VersionKey :: c'[s][k] == c[s][k]
  }

  /** The names of the default sections. */
  function SectionNames(d: Defaults): set<string> {
    set i | 0 <= i < |d| :: d[i].0
  }

  /** The lower-cased option names the defaults give for section s. */
  function DefaultKeys(d: Defaults, s: string): set<string> {
    set i, k | 0 <= i < |d| && d[i].0 == s && k in KeySet(d[i].1) :: k
  }

  /** Sections are named once and no two options of a section collide. */
  predicate WellFormedDefaults(d: Defaults) {
    && (forall a, b | 0 <= a < b < |d| :: d[a].0 != d[b].0)
    && (forall i | 0 <= i < |d| :: DistinctKeys(d[i].1))
  }

  /** A default option is visible in the section, and `version` holds exactly the default value. */
  predicate OptionMerged(cfg: Config, section: string, key: string, value: string) {
    && HasOption(cfg, section, key)
    && (key == VersionKey ==>
          VersionKey in SectionOf(cfg, section) && SectionOf(cfg, section)[VersionKey] == value)
  }

  predicate SectionMerged(cfg: Config, section: string, opts: Options) {
    && HasSection(cfg, section)
    && forall j | 0 <= j < |opts| :: OptionMerged(cfg, section, opts[j].0, opts[j].1)
  }

  /** Every default section exists and every default option is merged into it. */
  predicate Merged(cfg: Config, d: Defaults) {
    forall i | 0 <= i < |d| :: SectionMerged(cfg, d[i].0, d[i].1)
  }

  /** Every section not named in except is present in c' exactly when in c, with the same options. */
  ghost predicate SectionsUnchanged(c: Config, c': Config, except: set<string>) {
    forall s | s !in except :: (s in c' <==> s in c) && SectionOf(c', s) == SectionOf(c, s)
  }

  lemma SectionsUnchangedTrans(a: Config, b: Config, c: Config, e1: set<string>, e2: set<string>, e: set<string>)
    requires SectionsUnchanged(a, b, e1) && SectionsUnchanged(b, c, e2) && e1 + e2 <= e
    ensures SectionsUnchanged(a, c, e)
  {
  }

  /** Section s holds the same options with the same values in c and c', apart from those named in keys. */
  ghost predicate KeysUnchanged(c: Config, c': Config, s: string, keys: set<string>) {
    forall k | k !in keys ::
      (k in SectionOf(c', s) <==> k in SectionOf(c, s)) &&
      (k in SectionOf(c, s) ==> SectionOf(c', s)[k] == SectionOf(c, s)[k])
  }

  lemma KeysUnchangedTrans(a: Config, b: Config, c: Config, s: string, k1: set<string>, k2: set<string>, k: set<string>)
    requires KeysUnchanged(a, b, s, k1) && KeysUnchanged(b, c, s, k2) && k1 + k2 <= k
    ensures KeysUnchanged(a, c, s, k)
  {
  }

  /**
   * One step of the inner loop: `version` is always written, any other
   * option only when the section does not already show it.
   */
  function MergeOption(cfg: Config, section: string, key: string, value: string): (r: Config)
    requires HasSection(cfg, section)
    ensures HasSection(r, section)
    ensures Preserves(cfg, r)
    ensures WellFormed(cfg) ==> WellFormed(r)
    ensures SectionsUnchanged(cfg, r, {section})
    ensures KeysUnchanged(cfg, r, section, {Lower(key)})
    ensures OptionMerged(r, section, key, value)
  {
    VersionKeyIsLower();
    LowerIsLower(key);
    if key == VersionKey || !HasOption(cfg, section, key) then Set(cfg, section, key, value) else cfg
  }

  /** The inner loop over the options of a section that already exists. */
  function MergeOptions(cfg: Config, section: string, opts: Options): (r: Config)
    requires HasSection(cfg, section)
    ensures HasSection(r, section)
    ensures Preserves(cfg, r)
    ensures WellFormed(cfg) ==> WellFormed(r)
    ensures SectionsUnchanged(cfg, r, {section})
    ensures KeysUnchanged(cfg, r, section, KeySet(opts))
    decreases |opts|
  {
    if opts == [] then cfg
    else
      var init := opts[..|opts| - 1];
      var last := opts[|opts| - 1];
      assert forall j | 0 <= j < |init| :: init[j] == opts[j];
      assert KeySet(init) + {Lower(last.0)} <= KeySet(opts);
      var mid := MergeOptions(cfg, section, init);
      var r := MergeOption(mid, section, last.0, last.1);
      SectionsUnchangedTrans(cfg, mid, r, {section}, {section}, {section});
      KeysUnchangedTrans(cfg, mid, r, section, KeySet(init), {Lower(last.0)}, KeySet(opts));
      r
  }

  /** Merging one more option of the list is one more step of the inner loop. */
  lemma MergeOptionsSnoc(cfg: Config, section: string, opts: Options, i: nat)
    requires HasSection(cfg, section) && i < |opts|
    ensures MergeOptions(cfg, section, opts[..i + 1]) ==
              MergeOption(MergeOptions(cfg, section, opts[..i]), section, opts[i].0, opts[i].1)
  {
    assert opts[..i + 1][..i] == opts[..i];
  }

  /** One step of the outer loop: a missing section is copied whole, an existing one is merged option by option. */
  function MergeSection(cfg: Config, entry: (string, Options)): (r: Config)
    ensures HasSection(r, entry.0)
    ensures Preserves(cfg, r)
    ensures WellFormed(cfg) ==> WellFormed(r)
    ensures SectionsUnchanged(cfg, r, {entry.0})
    ensures KeysUnchanged(cfg, r, entry.0, KeySet(entry.1))
    ensures !HasSection(cfg, entry.0) ==> entry.0 in r && r[entry.0] == SectionFromOptions(entry.1)
  {
    if !HasSection(cfg, entry.0) then
      cfg[entry.0 := SectionFromOptions(entry.1)]
    else MergeOptions(cfg, entry.0, entry.1)
  }

  /**
   * `_merge_default_config` (main.py:44-57): the outer loop over the default
   * sections, in order. Existing options keep their values except `version`;
   * sections and options the defaults do not name are left as they were.
   */
  function MergeSections(cfg: Config, d: Defaults): (r: Config)
    ensures Preserves(cfg, r)
    ensures WellFormed(cfg) ==> WellFormed(r)
    ensures forall i | 0 <= i < |d| :: HasSection(r, d[i].0)
    ensures SectionsUnchanged(cfg, r, SectionNames(d))
    ensures forall s :: KeysUnchanged(cfg, r, s, DefaultKeys(d, s))
    decreases |d|
  {
    if d == [] then cfg
    else
      var init := d[..|d| - 1];
      var last := d[|d| - 1];
      PrefixNames(d);
      var mid := MergeSections(cfg, init);
      var r := MergeSection(mid, last);
      forall i | 0 <= i < |d|
        ensures HasSection(r, d[i].0)
      {
        if i < |init| {
          assert init[i] == d[i];
        }
      }
      SectionsUnchangedTrans(cfg, mid, r, SectionNames(init), {last.0}, SectionNames(d));
      forall s ensures KeysUnchanged(cfg, r, s, DefaultKeys(d, s)) {
        KeysUnchangedSection(mid, r, last, s);
        KeysUnchangedTrans(cfg, mid, r, s, DefaultKeys(init, s),
          if s == last.0 then KeySet(last.1) else {}, DefaultKeys(d, s));
      }
      r
  }

  /** One step of the outer loop touches only its own section and, there, the keys it names. */
  lemma KeysUnchangedSection(cfg: Config, r: Config, entry: (string, Options), s: string)
    requires r == MergeSection(cfg, entry)
    ensures KeysUnchanged(cfg, r, s, if s == entry.0 then KeySet(entry.1) else {})
  {
  }

  /** The names of all but the last default section, and of its options, are names of the whole. */
  lemma PrefixNames(d: Defaults)
    requires d != []
    ensures SectionNames(d[..|d| - 1]) + {d[|d| - 1].0} <= SectionNames(d)
    ensures forall s :: DefaultKeys(d[..|d| - 1], s) <= DefaultKeys(d, s)
    ensures KeySet(d[|d| - 1].1) <= DefaultKeys(d, d[|d| - 1].0)
  {
    var init := d[..|d| - 1];
    assert forall i | 0 <= i < |init| :: init[i] == d[i];
  }

  /** A merged option stays merged while its section's entries stay and DEFAULT only grows. */
  lemma OptionMergedStable(c: Config, c': Config, section: string, key: string, value: string)
    requires OptionMerged(c, section, key, value) && Preserves(c, c')
    requires section in c ==> section in c'
    requires key == VersionKey ==>
               VersionKey in SectionOf(c', section) &&
               SectionOf(c', section)[VersionKey] == SectionOf(c, section)[VersionKey]
    ensures OptionMerged(c', section, key, value)
  {
  }

  /** The inner loop leaves every option of its list merged into the section. */
  lemma {:induction false} MergeOptionsComplete(cfg: Config, section: string, opts: Options)
    requires HasSection(cfg, section) && DistinctKeys(opts)
    ensures SectionMerged(MergeOptions(cfg, section, opts), section, opts)
    decreases |opts|
  {
    if opts != [] {
      var init := opts[..|opts| - 1];
      var last := opts[|opts| - 1];
      assert opts == init + [last];
      DistinctPrefix(opts);
      MergeOptionsComplete(cfg, section, init);
      MergeOptionsStep(MergeOptions(cfg, section, init), section, init, last);
    }
  }

  /** All but the last option have distinct names, none of them the last one's. */
  lemma DistinctPrefix(opts: Options)
    requires opts != [] && DistinctKeys(opts)
    ensures DistinctKeys(opts[..|opts| - 1])
    ensures Lower(opts[|opts| - 1].0) !in KeySet(opts[..|opts| - 1])
  {
    var init := opts[..|opts| - 1];
    assert forall j | 0 <= j < |init| :: init[j] == opts[j];
  }

  /** Merging one more option, of a new name, keeps the earlier ones merged. */
  lemma MergeOptionsStep(mid: Config, section: string, init: Options, last: (string, string))
    requires SectionMerged(mid, section, init)
    requires Lower(last.0) !in KeySet(init)
    ensures SectionMerged(MergeOption(mid, section, last.0, last.1), section, init + [last])
  {
    var opts := init + [last];
    forall j | 0 <= j < |opts|
      ensures OptionMerged(MergeOption(mid, section, last.0, last.1), section, opts[j].0, opts[j].1)
    {
      if j < |init| {
        assert opts[j] == init[j] && Lower(init[j].0) in KeySet(init);
        MergeOptionKeepsMerged(mid, section, last.0, last.1, init[j].0, init[j].1);
      }
    }
  }

  /** One step of the inner loop keeps an option of another name merged. */
  lemma MergeOptionKeepsMerged(cfg: Config, section: string, key: string, value: string, key': string, value': string)
    requires HasSection(cfg, section) && OptionMerged(cfg, section, key', value')
    requires Lower(key') != Lower(key)
    ensures OptionMerged(MergeOption(cfg, section, key, value), section, key', value')
  {
    VersionKeyIsLower();
    OptionMergedStable(cfg, MergeOption(cfg, section, key, value), section, key', value');
  }

  /** One step of the outer loop leaves its own section merged. */
  lemma MergeSectionComplete(cfg: Config, entry: (string, Options))
    requires DistinctKeys(entry.1)
    ensures SectionMerged(MergeSection(cfg, entry), entry.0, entry.1)
  {
    if !HasSection(cfg, entry.0) {
      var r := MergeSection(cfg, entry);
      VersionKeyIsLower();
      forall j | 0 <= j < |entry.1|
        ensures OptionMerged(r, entry.0, entry.1[j].0, entry.1[j].1)
      {
        SectionFromOptionsAt(entry.1, j);
      }
    } else {
      MergeOptionsComplete(cfg, entry.0, entry.1);
    }
  }

  /** A merged section stays merged when later steps leave its entries alone. */
  lemma SectionMergedStable(c: Config, c': Config, section: string, opts: Options)
    requires SectionMerged(c, section, opts) && Preserves(c, c')
    requires SectionOf(c', section) == SectionOf(c, section)
    requires (section in c') <==> (section in c)
    ensures SectionMerged(c', section, opts)
  {
    forall j | 0 <= j < |opts|
      ensures OptionMerged(c', section, opts[j].0, opts[j].1)
    {
      OptionMergedStable(c, c', section, opts[j].0, opts[j].1);
    }
  }

  /** One step of the outer loop leaves the other merged sections merged. */
  lemma MergeSectionKeepsOthers(cfg: Config, entry: (string, Options), section: string, opts: Options)
    requires SectionMerged(cfg, section, opts) && section != entry.0
    ensures SectionMerged(MergeSection(cfg, entry), section, opts)
  {
    SectionMergedStable(cfg, MergeSection(cfg, entry), section, opts);
  }

  /**
   * Completeness of the merge: afterwards every default section exists, every
   * default option is visible in it, and `version` holds the built-in value.
   */
  lemma {:induction false} MergeSectionsComplete(cfg: Config, d: Defaults)
    requires WellFormedDefaults(d)
    ensures Merged(MergeSections(cfg, d), d)
    decreases |d|
  {
    if d != [] {
      var init := d[..|d| - 1];
      var last := d[|d| - 1];
      assert forall i | 0 <= i < |init| :: init[i] == d[i];
      MergeSectionsComplete(cfg, init);
      var mid := MergeSections(cfg, init);
      var r := MergeSection(mid, last);
      assert r == MergeSections(cfg, d);
      MergeSectionComplete(mid, last);
      forall i | 0 <= i < |init|
        ensures SectionMerged(r, d[i].0, d[i].1)
      {
        assert SectionMerged(mid, init[i].0, init[i].1);
        MergeSectionKeepsOthers(mid, last, d[i].0, d[i].1);
      }
    }
  }

  /** On a section that already shows all its options, the inner loop changes nothing. */
  lemma {:induction false} MergeOptionsNoOp(cfg: Config, section: string, opts: Options)
    requires HasSection(cfg, section) && SectionMerged(cfg, section, opts)
    ensures MergeOptions(cfg, section, opts) == cfg
    decreases |opts|
  {
    if opts != [] {
      var init := opts[..|opts| - 1];
      var last := opts[|opts| - 1];
      SectionMergedPrefix(cfg, section, opts);
      MergeOptionsNoOp(cfg, section, init);
      MergeOptionNoOp(cfg, section, last.0, last.1);
    }
  }

  /** All but the last option of a merged list are merged, and so is the last. */
  lemma SectionMergedPrefix(cfg: Config, section: string, opts: Options)
    requires SectionMerged(cfg, section, opts) && opts != []
    ensures SectionMerged(cfg, section, opts[..|opts| - 1])
    ensures OptionMerged(cfg, section, opts[|opts| - 1].0, opts[|opts| - 1].1)
  {
    var init := opts[..|opts| - 1];
    assert forall j | 0 <= j < |init| :: init[j] == opts[j];
  }

  /** One step of the inner loop changes nothing when its option is already merged. */
  lemma MergeOptionNoOp(cfg: Config, section: string, key: string, value: string)
    requires HasSection(cfg, section) && OptionMerged(cfg, section, key, value)
    ensures MergeOption(cfg, section, key, value) == cfg
  {
    VersionKeyIsLower();
    if key == VersionKey {
      assert SectionOf(cfg, section)[VersionKey := value] == SectionOf(cfg, section);
    }
  }

  /** Merging into a configuration that is already merged changes nothing. */
  lemma {:induction false} MergeSectionsNoOp(cfg: Config, d: Defaults)
    requires Merged(cfg, d)
    ensures MergeSections(cfg, d) == cfg
    decreases |d|
  {
    if d != [] {
      var init := d[..|d| - 1];
      var last := d[|d| - 1];
      assert forall i | 0 <= i < |init| :: init[i] == d[i];
      MergeSectionsNoOp(cfg, init);
      assert SectionMerged(cfg, last.0, last.1);
      MergeOptionsNoOp(cfg, last.0, last.1);
    }
  }

  /** Merging twice gives the same configuration as merging once. */
  lemma MergeIdempotent(cfg: Config, d: Defaults)
    requires WellFormedDefaults(d)
    ensures MergeSections(MergeSections(cfg, d), d) == MergeSections(cfg, d)
  {
    MergeSectionsComplete(cfg, d);
    MergeSectionsNoOp(MergeSections(cfg, d), d);
  }

  /** A default section the configuration lacked arrives with exactly the default options. */
  lemma {:induction false} MissingSectionCopied(cfg: Config, d: Defaults, i: nat)
    requires WellFormedDefaults(d) && i < |d| && !HasSection(cfg, d[i].0)
    ensures SectionOf(MergeSections(cfg, d), d[i].0) == SectionFromOptions(d[i].1)
    decreases |d|
  {
    var init := d[..|d| - 1];
    var last := d[|d| - 1];
    assert forall j | 0 <= j < |init| :: init[j] == d[j];
    var mid := MergeSections(cfg, init);
    if i == |d| - 1 {
      assert d[i].0 !in SectionNames(init);
    } else {
      MissingSectionCopied(cfg, init, i);
      assert d[i].0 != last.0;
    }
  }

  /**
   * `_create_default_config` (main.py:34-42) on the empty parser of a first
   * run: each default section is assigned whole, in order.
   */
  function CreateDefault(d: Defaults): (r: Config)
    ensures forall s | s in r :: s in SectionNames(d)
    ensures WellFormed(r)
    decreases |d|
  {
    if d == [] then map[]
    else
      var init := d[..|d| - 1];
      assert forall i | 0 <= i < |init| :: init[i] == d[i];
      assert SectionNames(init) <= SectionNames(d);
      CreateDefault(init)[d[|d| - 1].0 := SectionFromOptions(d[|d| - 1].1)]
  }

  lemma {:induction false} CreateDefaultAt(d: Defaults, i: nat)
    requires WellFormedDefaults(d) && i < |d|
    ensures d[i].0 in CreateDefault(d) && CreateDefault(d)[d[i].0] == SectionFromOptions(d[i].1)
    decreases |d|
  {
    if i < |d| - 1 {
      var init := d[..|d| - 1];
      assert forall j | 0 <= j < |init| :: init[j] == d[j];
      CreateDefaultAt(init, i);
    }
  }

  /**
   * A freshly created configuration is already merged, so the merge that
   * follows creation on a first run leaves it exactly as created.
   */
  lemma CreateThenMergeUnchanged(d: Defaults)
    requires WellFormedDefaults(d)
    ensures Merged(CreateDefault(d), d)
    ensures MergeSections(CreateDefault(d), d) == CreateDefault(d)
  {
    var c := CreateDefault(d);
    VersionKeyIsLower();
    forall i | 0 <= i < |d|
      ensures SectionMerged(c, d[i].0, d[i].1)
    {
      CreateDefaultAt(d, i);
      forall j | 0 <= j < |d[i].1|
        ensures OptionMerged(c, d[i].0, d[i].1[j].0, d[i].1[j].1)
      {
        SectionFromOptionsAt(d[i].1, j);
      }
    }
    MergeSectionsNoOp(c, d);
  }

  /** Inside the inner loop, an option the section did not show receives its default value. */
  lemma {:induction false} MergeOptionsFillsAbsent(cfg: Config, section: string, opts: Options, j: nat)
    requires HasSection(cfg, section) && DistinctKeys(opts) && j < |opts|
    requires !HasOption(cfg, section, opts[j].0)
    ensures Lower(opts[j].0) in SectionOf(MergeOptions(cfg, section, opts), section)
    ensures SectionOf(MergeOptions(cfg, section, opts), section)[Lower(opts[j].0)] == opts[j].1
    decreases |opts|
  {
    var init := opts[..|opts| - 1];
    var last := opts[|opts| - 1];
    DistinctPrefix(opts);
    var mid := MergeOptions(cfg, section, init);
    if j == |opts| - 1 {
      StillAbsent(cfg, mid, section, last.0, KeySet(init));
    } else {
      assert init[j] == opts[j];
      MergeOptionsFillsAbsent(cfg, section, init, j);
    }
  }

  /** An option stays invisible through steps that touch neither its name nor another section. */
  lemma StillAbsent(cfg: Config, mid: Config, section: string, key: string, keys: set<string>)
    requires HasSection(cfg, section) && !HasOption(cfg, section, key)
    requires SectionsUnchanged(cfg, mid, {section}) && KeysUnchanged(cfg, mid, section, keys)
    requires Lower(key) !in keys
    ensures !HasOption(mid, section, key)
  {
    assert SectionOf(mid, DefaultSection) == SectionOf(cfg, DefaultSection) || section == DefaultSection;
  }

  /**
   * An option the configuration did not show before the merge holds its
   * built-in value afterwards, provided DEFAULT cannot supply it first: the
   * option belongs to DEFAULT itself, or DEFAULT's defaults do not name it.
   */
  lemma {:induction false} AbsentOptionGetsDefault(cfg: Config, d: Defaults, i: nat, j: nat)
    requires WellFormedDefaults(d) && i < |d| && j < |d[i].1|
    requires !HasOption(cfg, d[i].0, d[i].1[j].0)
    requires d[i].0 == DefaultSection || Lower(d[i].1[j].0) !in DefaultKeys(d, DefaultSection)
    ensures Lower(d[i].1[j].0) in SectionOf(MergeSections(cfg, d), d[i].0)
    ensures SectionOf(MergeSections(cfg, d), d[i].0)[Lower(d[i].1[j].0)] == d[i].1[j].1
    decreases |d|
  {
    var init := d[..|d| - 1];
    var last := d[|d| - 1];
    LastSectionFresh(d);
    var mid := MergeSections(cfg, init);
    assert MergeSections(cfg, d) == MergeSection(mid, last);
    if i == |d| - 1 {
      StillAbsentSections(cfg, mid, init, last.0, last.1[j].0);
      LastSectionFilled(mid, last, j);
    } else {
      assert init[i] == d[i];
      AbsentOptionGetsDefault(cfg, init, i, j);
      OtherSectionKept(mid, last, d[i].0, Lower(d[i].1[j].0));
    }
  }

  /** One step of the outer loop gives an absent option of its own section the default value. */
  lemma LastSectionFilled(cfg: Config, entry: (string, Options), j: nat)
    requires DistinctKeys(entry.1) && j < |entry.1|
    requires !HasOption(cfg, entry.0, entry.1[j].0)
    ensures Lower(entry.1[j].0) in SectionOf(MergeSection(cfg, entry), entry.0)
    ensures SectionOf(MergeSection(cfg, entry), entry.0)[Lower(entry.1[j].0)] == entry.1[j].1
  {
    if HasSection(cfg, entry.0) {
      MergeOptionsFillsAbsent(cfg, entry.0, entry.1, j);
    } else {
      SectionFromOptionsAt(entry.1, j);
    }
  }

  /** One step of the outer loop leaves the options of every other section as they were. */
  lemma OtherSectionKept(cfg: Config, entry: (string, Options), section: string, key: string)
    requires section != entry.0 && key in SectionOf(cfg, section)
    ensures key in SectionOf(MergeSection(cfg, entry), section)
    ensures SectionOf(MergeSection(cfg, entry), section)[key] == SectionOf(cfg, section)[key]
  {
    assert SectionsUnchanged(cfg, MergeSection(cfg, entry), {entry.0});
  }

  /** The last default section is named for the first time, and what comes before it is well formed. */
  lemma LastSectionFresh(d: Defaults)
    requires WellFormedDefaults(d) && d != []
    ensures WellFormedDefaults(d[..|d| - 1])
    ensures d[|d| - 1].0 !in SectionNames(d[..|d| - 1])
    ensures DefaultKeys(d[..|d| - 1], d[|d| - 1].0) == {}
    ensures forall s :: DefaultKeys(d[..|d| - 1], s) <= DefaultKeys(d, s)
  {
    var init := d[..|d| - 1];
    assert forall a | 0 <= a < |init| :: init[a] == d[a];
  }

  /** An option stays invisible through sections merged before, which name neither its section nor it in DEFAULT. */
  lemma StillAbsentSections(cfg: Config, mid: Config, init: Defaults, section: string, key: string)
    requires !HasOption(cfg, section, key)
    requires SectionsUnchanged(cfg, mid, SectionNames(init))
    requires forall s :: KeysUnchanged(cfg, mid, s, DefaultKeys(init, s))
    requires section !in SectionNames(init) && DefaultKeys(init, section) == {}
    requires Lower(key) !in DefaultKeys(init, DefaultSection)
    ensures !HasOption(mid, section, key)
  {
    assert KeysUnchanged(cfg, mid, DefaultSection, DefaultKeys(init, DefaultSection));
  }

  /**
   * After the merge, an option of a leading DEFAULT section of the defaults
   * reads as the configuration's own value when it had one, other than
   * `version`, and as the default otherwise. (An option name that only
   * lower-cases to `version` is left out: the merge compares names as
   * written, so it would neither be overwritten nor count as `version`.)
   */
  lemma DefaultOptionMerged(cfg: Config, d: Defaults, j: nat)
    requires WellFormedDefaults(d) && d != [] && d[0].0 == DefaultSection && j < |d[0].1|
    requires d[0].1[j].0 == VersionKey || Lower(d[0].1[j].0) != VersionKey
    ensures var (key, value) := d[0].1[j];
            Get(MergeSections(cfg, d), DefaultSection, key) ==
              if HasOption(cfg, DefaultSection, key) && key != VersionKey then Get(cfg, DefaultSection, key)
              else Some(value)
  {
    var (key, value) := d[0].1[j];
    var r := MergeSections(cfg, d);
    MergeSectionsComplete(cfg, d);
    assert SectionMerged(r, d[0].0, d[0].1);
    assert OptionMerged(r, DefaultSection, key, value);
    if key == VersionKey {
      VersionKeyIsLower();
    } else if HasOption(cfg, DefaultSection, key) {
      assert Lower(key) in cfg[DefaultSection] && Lower(key) != VersionKey;
    } else {
      AbsentOptionGetsDefault(cfg, d, 0, j);
    }
  }
}
