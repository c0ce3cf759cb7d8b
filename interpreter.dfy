/**
 * The shortcut interpreter (`InputProcessor`): what one line typed into the
 * launcher window asks for. A configured shortcut (APP, then WEB) wins;
 * otherwise the input is cut by its length into language, system and client
 * for the SAP GUI shortcut; any other length does nothing.
 */
module Interpreter {
  import opened Wrappers
  import opened ConfigParser
  import opened Settings
  import opened Launcher
  import opened DefaultsMerge

  /** The decision `InputProcessor.__init__` reaches for one input. */
  datatype Launch = App(path: string) | Web(url: string) | Sap(params: SapParams) | NoAction

  /** Python's `s[:n]` for a non-negative n. */
  function Take(s: string, n: nat): string {
    if n <= |s| then s[..n] else s
  }

  /** Python's `s[n:]` for a non-negative n. */
  function Drop(s: string, n: nat): string {
    if n <= |s| then s[n..] else ""
  }

  /** The lengths `process_unconfigured` has a handler for. */
  predicate Dispatched(n: nat) {
    n == 3 || n == 5 || n == 6 || n == 8
  }

  /** Whether an input of length n spells out the language (its first two characters). */
  predicate SpellsLanguage(n: nat) {
    n == 5 || n == 8
  }

  /** Whether an input of length n spells out the client (its last three characters). */
  predicate SpellsClient(n: nat) {
    n == 6 || n == 8
  }

  /** `run_defaulted` (main.py:295-296): the input is the system. */
  function RunDefaulted(cfg: Config, defaultLang: string, s: string): SapParams
    requires ClientSection in cfg
  {
    SapParams(GetDefClient(cfg, s), Some(defaultLang), Some(s), None)
  }

  /** `run_with_language` (main.py:298-301): language, then system. */
  function RunWithLanguage(cfg: Config, s: string): SapParams
    requires ClientSection in cfg
  {
    var language, system := Take(s, 2), Drop(s, 2);
    SapParams(GetDefClient(cfg, system), Some(language), Some(system), None)
  }

  /** `run_with_system_client` (main.py:303-306): system, then client. */
  function RunWithSystemClient(defaultLang: string, s: string): SapParams {
    var system, client := Take(s, 3), Drop(s, 3);
    SapParams(Some(client), Some(defaultLang), Some(system), None)
  }

  /** `run_with_language_client` (main.py:308-312): language, system, client. */
  function RunWithLanguageClient(s: string): SapParams {
    var language, system, client := Take(s, 2), Drop(Take(s, 5), 2), Drop(s, 5);
    SapParams(Some(client), Some(language), Some(system), None)
  }

  /**
   * `process_unconfigured` (main.py:258-268): the handler table on the
   * length of the (lower-cased) input; None when there is no handler.
   * Every handler names a three-character system and no transaction; the
   * parts it spells out, in the order language, system, client, make up the
   * input exactly; a language it does not spell out is the default one, and
   * a client it does not spell out is the system's default client.
   */
  function ProcessUnconfigured(cfg: Config, defaultLang: string, s: string): (r: Option<SapParams>)
    requires ClientSection in cfg
    ensures r.Some? <==> Dispatched(|s|)
    ensures r.Some? ==> r.value.transaction.None? && r.value.system.Some?
                        && r.value.language.Some? && r.value.client.Some? == (SpellsClient(|s|) || GetDefClient(cfg, r.value.system.value).Some?)
    ensures r.Some? ==> |r.value.system.value| == 3
    ensures r.Some? && SpellsLanguage(|s|) ==> |r.value.language.value| == 2
    ensures r.Some? && SpellsClient(|s|) ==> |r.value.client.value| == 3
    ensures r.Some? ==>
              (if SpellsLanguage(|s|) then r.value.language.value else "")
              + r.value.system.value
              + (if SpellsClient(|s|) then r.value.client.value else "") == s
    ensures r.Some? && !SpellsLanguage(|s|) ==> r.value.language == Some(defaultLang)
    ensures r.Some? && !SpellsClient(|s|) ==> r.value.client == GetDefClient(cfg, r.value.system.value)
  {
    if |s| == 3 then Some(RunDefaulted(cfg, defaultLang, s))
    else if |s| == 5 then
      assert s[..2] + s[2..] == s;
      Some(RunWithLanguage(cfg, s))
    else if |s| == 6 then
      assert s[..3] + s[3..] == s;
      Some(RunWithSystemClient(defaultLang, s))
    else if |s| == 8 then
      assert s[..2] + s[..5][2..] + s[5..] == s;
      Some(RunWithLanguageClient(s))
    else None
  }

  /**
   * `InputProcessor.__init__` with `process_configured`'s dispatch
   * (main.py:250-256, 270-281): the input is lower-cased, a configured shortcut is
   * looked up first, and only when there is none is the length dispatch
   * consulted.
   */
  function ProcessInput(cfg: Config, defaultLang: string, input: string): (r: Launch)
    requires ClientSection in cfg
    ensures (r.App? || r.Web?) <==> GetPath(cfg, Lower(input)).Some?
    ensures r.NoAction? <==> GetPath(cfg, Lower(input)).None? && !Dispatched(|input|)
    ensures r.Sap? ==> r.params.transaction.None?
  {
    var s := Lower(input);
    match GetPath(cfg, s)
    case Some((link, AppKind)) => App(link)
    case Some((link, WebKind)) => Web(link)
    case None =>
      match ProcessUnconfigured(cfg, defaultLang, s)
      case Some(p) => Sap(p)
      case None => NoAction
  }

  /**
   * What would be started for a decision (main.py:270-293, 330-331): the
   * application path itself, the platform's opener for a URL, or the SAP GUI
   * shortcut command; nothing for no action or a missing launcher.
   */
  function Started(launch: Launch, sapPath: string, platform: string): (r: Option<Process>)
    ensures launch.NoAction? ==> r.None?
    ensures launch.App? ==> r == Some(Process([launch.path], false))
    ensures launch.Web? ==> r == Some(OpenCommand(platform, launch.url))
    ensures launch.Web? ==> |r.value.argv| == 2 && r.value.argv[1] == launch.url
    ensures launch.Sap? ==> (r.None? <==> sapPath == NotFound)
    ensures launch.Sap? && r.Some? ==> r.value.argv == [sapPath] + Flags(launch.params) && !r.value.shell
  {
    match launch
    case App(path) => Some(Process([path], false))
    case Web(url) => Some(OpenCommand(platform, url))
    case Sap(p) =>
      (match SapCommand(sapPath, p)
       case Some(argv) => Some(Process(argv, false))
       case None => None)
    case NoAction => None
  }

  /** The decision depends on the input only up to case. */
  lemma CaseInsensitive(cfg: Config, defaultLang: string, a: string, b: string)
    requires ClientSection in cfg
    requires Lower(a) == Lower(b)
    ensures ProcessInput(cfg, defaultLang, a) == ProcessInput(cfg, defaultLang, b)
  {
  }

  /** Lower-casing the input first changes nothing, since it is lower-cased anyway. */
  lemma LowerCasedFirst(cfg: Config, defaultLang: string, input: string)
    requires ClientSection in cfg
    ensures ProcessInput(cfg, defaultLang, Lower(input)) == ProcessInput(cfg, defaultLang, input)
  {
    LowerIdempotent(input);
  }

  /**
   * A configured shortcut wins over the length dispatch, whatever its length:
   * an APP entry opens that application, and a WEB entry opens that URL
   * only when APP has no entry of that name.
   */
  lemma ShortcutWins(cfg: Config, defaultLang: string, input: string)
    requires ClientSection in cfg
    ensures var s := Lower(input);
            HasOption(cfg, AppSection, s) ==> ProcessInput(cfg, defaultLang, input) == App(Get(cfg, AppSection, s).value)
    ensures var s := Lower(input);
            !HasOption(cfg, AppSection, s) && HasOption(cfg, WebSection, s) ==>
              ProcessInput(cfg, defaultLang, input) == Web(Get(cfg, WebSection, s).value)
  {
  }

  /**
   * What a configured shortcut starts: an APP entry is started as its own
   * argument list, without the shell; a WEB entry is handed to the
   * platform's opener.
   */
  lemma ShortcutStarted(cfg: Config, defaultLang: string, input: string, sapPath: string, platform: string)
    requires ClientSection in cfg
    ensures var s := Lower(input);
            HasOption(cfg, AppSection, s) ==>
              Started(ProcessInput(cfg, defaultLang, input), sapPath, platform) ==
                Some(Process([Get(cfg, AppSection, s).value], false))
    ensures var s := Lower(input);
            !HasOption(cfg, AppSection, s) && HasOption(cfg, WebSection, s) ==>
              Started(ProcessInput(cfg, defaultLang, input), sapPath, platform) ==
                Some(OpenCommand(platform, Get(cfg, WebSection, s).value))
  {
    ShortcutWins(cfg, defaultLang, input);
  }

  /** Without a shortcut, the length decides, and the input reappears in the parts it spells out. */
  lemma UnconfiguredDispatch(cfg: Config, defaultLang: string, input: string)
    requires ClientSection in cfg
    requires GetPath(cfg, Lower(input)).None?
    ensures ProcessInput(cfg, defaultLang, input).Sap? <==> Dispatched(|input|)
    ensures ProcessInput(cfg, defaultLang, input).Sap? ==>
              Some(ProcessInput(cfg, defaultLang, input).params) == ProcessUnconfigured(cfg, defaultLang, Lower(input))
  {
  }

  /** Language, system and client typed together come back as the three parts. */
  lemma LanguageSystemClient(cfg: Config, defaultLang: string, language: string, system: string, client: string)
    requires ClientSection in cfg
    requires |language| == 2 && |system| == 3 && |client| == 3
    ensures var s := language + system + client;
            ProcessUnconfigured(cfg, defaultLang, s) == Some(SapParams(Some(client), Some(language), Some(system), None))
  {
    var s := language + system + client;
    assert s[..2] == language && s[..5][2..] == system && s[5..] == client;
  }

  /** Language and system typed together: the client is the system's default. */
  lemma LanguageSystem(cfg: Config, defaultLang: string, language: string, system: string)
    requires ClientSection in cfg
    requires |language| == 2 && |system| == 3
    ensures ProcessUnconfigured(cfg, defaultLang, language + system) ==
              Some(SapParams(GetDefClient(cfg, system), Some(language), Some(system), None))
  {
    var s := language + system;
    assert s[..2] == language && s[2..] == system;
  }

  /** System and client typed together: the language is the default one. */
  lemma SystemClient(cfg: Config, defaultLang: string, system: string, client: string)
    requires ClientSection in cfg
    requires |system| == 3 && |client| == 3
    ensures ProcessUnconfigured(cfg, defaultLang, system + client) ==
              Some(SapParams(Some(client), Some(defaultLang), Some(system), None))
  {
    var s := system + client;
    assert s[..3] == system && s[3..] == client;
  }

  /**
   * A SAP launch from the interpreter never carries a transaction: no
   * argument after the launcher path is a `-transaction=` flag.
   */
  lemma NeverTransaction(cfg: Config, defaultLang: string, input: string, sapPath: string, platform: string)
    requires ClientSection in cfg
    requires ProcessInput(cfg, defaultLang, input).Sap?
    ensures var r := Started(ProcessInput(cfg, defaultLang, input), sapPath, platform);
            r.Some? ==> forall i | 1 <= i < |r.value.argv| :: FlagRank(r.value.argv[i]) != 3
    ensures FlagValue(Flags(ProcessInput(cfg, defaultLang, input).params), TransactionFlag) == None
  {
    var p := ProcessInput(cfg, defaultLang, input).params;
    FlagsDecode(p, TransactionFlag);
    NoTransactionFlag(p);
    var r := Started(ProcessInput(cfg, defaultLang, input), sapPath, platform);
    if r.Some? {
      assert r.value.argv == [sapPath] + Flags(p);
      forall i | 1 <= i < |r.value.argv|
        ensures FlagRank(r.value.argv[i]) != 3
      {
        assert r.value.argv[i] == Flags(p)[i - 1];
      }
    }
  }

  /**
   * Through configparser an option of DEFAULT is also an option of APP: an
   * input naming a DEFAULT option that APP does not override is taken for an
   * APP shortcut, and the option's value for the application to start.
   */
  lemma DefaultSeenThroughApp(cfg: Config, defaultLang: string, input: string)
    requires ClientSection in cfg && AppSection in cfg
    requires Lower(input) !in cfg[AppSection] && Lower(input) in SectionOf(cfg, DefaultSection)
    ensures ProcessInput(cfg, defaultLang, input) == App(SectionOf(cfg, DefaultSection)[Lower(input)])
  {
    LowerIdempotent(input);
  }

  /**
   * On the configuration written on a first run, `EXCEL`, five characters
   * long, still opens the APP entry rather than being cut into language and
   * system.
   */
  lemma FirstRunAppShortcut(searchResult: string, lang: string)
    ensures var cfg := CreateDefault(DefaultConfig(searchResult));
            ClientSection in cfg && ProcessInput(cfg, lang, "EXCEL") == App(ExcelPath)
  {
    var d := DefaultConfig(searchResult);
    DefaultConfigWellFormed(searchResult);
    CreateDefaultAt(d, 1);
    CreateDefaultAt(d, 2);
    SectionFromOptionsAt(d[2].1, 0);
    ExcelLowered();
  }

  lemma ExcelLowered()
    ensures Lower("EXCEL") == "excel"
  {
    var s := Lower("EXCEL");
    assert s[0] == 'e' && s[1] == 'x' && s[2] == 'c' && s[3] == 'e' && s[4] == 'l';
  }
}
