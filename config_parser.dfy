/**
 * The part of Python's `configparser.ConfigParser` that the settings store
 * relies on, over an in-memory value: a map from section name to a map from
 * option name to string. The `DEFAULT` section is kept under its own name.
 *
 * Two behaviours of the library are modelled explicitly because the program
 * depends on them: option names are lower-cased on every store and lookup
 * (`optionxform`), and an option of `DEFAULT` is visible through every other
 * existing section.
 */
module ConfigParser {
  import opened Wrappers
  import opened Numerals

  type Section = map<string, string>
  type Config = map<string, Section>

  const DefaultSection: string := "DEFAULT"

  function LowerChar(c: char): char {
    if 'A' <= c <= 'Z' then (c as int + 32) as char else c
  }

  /** `str.lower` on the ASCII letters; every other character is kept. */
  function Lower(s: string): (r: string)
    ensures |r| == |s|
  {
    seq(|s|, i requires 0 <= i < |s| => LowerChar(s[i]))
  }

  predicate IsLower(s: string) {
    forall i :: 0 <= i < |s| ==> !('A' <= s[i] <= 'Z')
  }

  lemma LowerIsLower(s: string)
    ensures IsLower(Lower(s))
  {
  }

  lemma LowerOfLower(s: string)
    requires IsLower(s)
    ensures Lower(s) == s
  {
  }

  lemma LowerIdempotent(s: string)
    ensures Lower(Lower(s)) == Lower(s)
  {
    LowerIsLower(s);
    LowerOfLower(Lower(s));
  }

  /** A configuration as configparser holds it: every stored option name is lower-case. */
  predicate WellFormed(cfg: Config) {
    forall s, k | s in cfg && k in cfg[s] :: IsLower(k)
  }

  /** The options stored in one section, empty when the section is absent. */
  function SectionOf(cfg: Config, name: string): Section {
    if name in cfg then cfg[name] else map[]
  }

  /** `name in parser`: the DEFAULT section is always there. */
  predicate HasSection(cfg: Config, name: string) {
    name == DefaultSection || name in cfg
  }

  /**
   * `parser.has_option(section, option)`: the lower-cased option is stored in
   * the section, or in DEFAULT when the section exists.
   */
  predicate HasOption(cfg: Config, section: string, option: string) {
    var o := Lower(option);
    if section == DefaultSection then o in SectionOf(cfg, DefaultSection)
    else section in cfg && (o in cfg[section] || o in SectionOf(cfg, DefaultSection))
  }

  /**
   * `parser.get(section, option, fallback=None)`: the section's own value
   * first, then DEFAULT's, None when the option is not visible.
   */
  function Get(cfg: Config, section: string, option: string): (r: Option<string>)
    ensures r.Some? <==> HasOption(cfg, section, option)
    ensures section in cfg && Lower(option) in cfg[section] ==> r == Some(cfg[section][Lower(option)])
    ensures r.Some? && (section == DefaultSection || Lower(option) !in SectionOf(cfg, section)) ==>
              r.value == SectionOf(cfg, DefaultSection)[Lower(option)]
  {
    var o := Lower(option);
    if section != DefaultSection && section !in cfg then None
    else if o in SectionOf(cfg, section) then Some(SectionOf(cfg, section)[o])
    else if o in SectionOf(cfg, DefaultSection) then Some(SectionOf(cfg, DefaultSection)[o])
    else None
  }

  /**
   * `parser[section][option] = value` on an existing section: stores the value
   * under the lower-cased option name and changes nothing else.
   */
  function Set(cfg: Config, section: string, option: string, value: string): (r: Config)
    requires HasSection(cfg, section)
    ensures section in r && r[section] == SectionOf(cfg, section)[Lower(option) := value]
    ensures forall s | s != section :: (s in r <==> s in cfg) && SectionOf(r, s) == SectionOf(cfg, s)
    ensures Get(r, section, option) == Some(value)
  {
    cfg[section := SectionOf(cfg, section)[Lower(option) := value]]
  }

  /** The lower-cased names of a list of options. */
  function KeySet(opts: seq<(string, string)>): set<string> {
    set j | 0 <= j < |opts| :: Lower(opts[j].0)
  }

  /** No two options of the list collide once their names are lower-cased. */
  predicate DistinctKeys(opts: seq<(string, string)>) {
    forall a, b | 0 <= a < b < |opts| :: Lower(opts[a].0) != Lower(opts[b].0)
  }

  /** The section `parser[name] = options` creates: the options under lower-cased names. */
  function SectionFromOptions(opts: seq<(string, string)>): (r: Section)
    ensures r.Keys == KeySet(opts)
    ensures forall k | k in r :: IsLower(k)
    decreases |opts|
  {
    if opts == [] then map[]
    else
      var init := opts[..|opts| - 1];
      assert forall j | 0 <= j < |init| :: init[j] == opts[j];
      SectionFromOptions(init)[Lower(opts[|opts| - 1].0) := opts[|opts| - 1].1]
  }

  /** Without name collisions every option keeps its own value in the new section. */
  lemma {:induction false} SectionFromOptionsAt(opts: seq<(string, string)>, j: nat)
    requires DistinctKeys(opts) && j < |opts|
    ensures Lower(opts[j].0) in SectionFromOptions(opts)
    ensures SectionFromOptions(opts)[Lower(opts[j].0)] == opts[j].1
    decreases |opts|
  {
    if j < |opts| - 1 {
      var init := opts[..|opts| - 1];
      assert init[j] == opts[j];
      SectionFromOptionsAt(init, j);
    }
  }

  /**
   * `parser.getint(section, option, fallback=fallback)`: the fallback when the
   * option is not visible, the parsed value when it is, None for the
   * ValueError of a value that is not an integer.
   */
  function GetInt(cfg: Config, section: string, option: string, fallback: int): (r: Option<int>)
    ensures !HasOption(cfg, section, option) ==> r == Some(fallback)
    ensures HasOption(cfg, section, option) ==> r == ParseInt(Get(cfg, section, option).value)
  {
    match Get(cfg, section, option)
    case None => Some(fallback)
    case Some(v) => ParseInt(v)
  }
}
