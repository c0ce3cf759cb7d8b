/**
 * The argument lists the launcher hands to the operating system: the SAP GUI
 * shortcut command built by `run_sap_gui`, and the command `open_webpage`
 * picks for a web shortcut. Spawning the process is not modelled; these
 * functions describe only what would be passed to it.
 */
module Launcher {
  import opened Wrappers

  /** What `find_sapshcut_exe` yields when no launcher executable was found. */
  const NotFound: string := "None"

  const ClientFlag: string := "-client="
  const LanguageFlag: string := "-language="
  const SystemFlag: string := "-system="
  const TransactionFlag: string := "-transaction="

  /** The optional arguments of `run_sap_gui`; None is Python's None. */
  datatype SapParams = SapParams(
    client: Option<string>,
    language: Option<string>,
    system: Option<string>,
    transaction: Option<string>)

  /** Python truthiness of an optional string: present and not empty. */
  predicate Truthy(o: Option<string>) {
    o.Some? && o.value != ""
  }

  predicate StartsWith(s: string, prefix: string) {
    |prefix| <= |s| && s[..|prefix|] == prefix
  }

  /** The one-element argument list for a flag whose value is truthy, else nothing. */
  function Flag(prefix: string, o: Option<string>): (r: seq<string>)
    ensures |r| == if Truthy(o) then 1 else 0
  {
    if Truthy(o) then [prefix + o.value] else []
  }

  /** The flags `run_sap_gui` appends after the launcher path (main.py:321-328). */
  function Flags(p: SapParams): seq<string> {
    Flag(ClientFlag, p.client) + Flag(LanguageFlag, p.language)
      + Flag(SystemFlag, p.system) + Flag(TransactionFlag, p.transaction)
  }

  /**
   * The command `run_sap_gui` runs (main.py:314-328): None when the launcher
   * path is the "None" sentinel, otherwise the path followed by the flags.
   */
  function SapCommand(sapPath: string, p: SapParams): (r: Option<seq<string>>)
    ensures r.None? <==> sapPath == NotFound
    ensures r.Some? ==> |r.value| > 0 && r.value[0] == sapPath
    ensures r.Some? ==> r.value == [sapPath] + Flags(p)
  {
    if [sapPath] == [NotFound] then None else Some([sapPath] + Flags(p))
  }

  /**
   * `run_sap_gui`'s construction of `command` (main.py:315-328): a list
   * holding the launcher path, the early return on the sentinel, then one
   * `append` per truthy argument.
   */
  method BuildSapCommand(sapPath: string, p: SapParams) returns (command: Option<seq<string>>)
    ensures command == SapCommand(sapPath, p)
  {
    var args := [sapPath];
    if args == [NotFound] {
      return None;
    }
    if Truthy(p.client) {
      args := args + [ClientFlag + p.client.value];
    }
    assert args == [sapPath] + Flag(ClientFlag, p.client);
    if Truthy(p.language) {
      args := args + [LanguageFlag + p.language.value];
    }
    assert args == [sapPath] + Flag(ClientFlag, p.client) + Flag(LanguageFlag, p.language);
    if Truthy(p.system) {
      args := args + [SystemFlag + p.system.value];
    }
    assert args == [sapPath] + Flag(ClientFlag, p.client) + Flag(LanguageFlag, p.language)
      + Flag(SystemFlag, p.system);
    if Truthy(p.transaction) {
      args := args + [TransactionFlag + p.transaction.value];
    }
    assert args == [sapPath] + Flags(p);
    command := Some(args);
  }

  /** The number of truthy arguments. */
  function TruthyCount(p: SapParams): nat {
    (if Truthy(p.client) then 1 else 0) + (if Truthy(p.language) then 1 else 0)
      + (if Truthy(p.system) then 1 else 0) + (if Truthy(p.transaction) then 1 else 0)
  }

  /** Which flag an argument is: 0 to 3 in the order they are appended, 4 for none. */
  function FlagRank(arg: string): (n: nat)
    ensures n <= 4
  {
    if StartsWith(arg, ClientFlag) then 0
    else if StartsWith(arg, LanguageFlag) then 1
    else if StartsWith(arg, SystemFlag) then 2
    else if StartsWith(arg, TransactionFlag) then 3
    else 4
  }

  /**
   * The value carried by the first argument that starts with `prefix`, as a
   * program reading the command line would find it.
   */
  function FlagValue(args: seq<string>, prefix: string): (r: Option<string>)
    ensures r.Some? ==> exists i | 0 <= i < |args| :: args[i] == prefix + r.value
  {
    if args == [] then None
    else if StartsWith(args[0], prefix) then
      assert args[0] == prefix + args[0][|prefix|..];
      Some(args[0][|prefix|..])
    else FlagValue(args[1..], prefix)
  }

  /** The four flags are told apart by their second character. */
  lemma FlagRanks(v: string)
    ensures FlagRank(ClientFlag + v) == 0
    ensures FlagRank(LanguageFlag + v) == 1
    ensures FlagRank(SystemFlag + v) == 2
    ensures FlagRank(TransactionFlag + v) == 3
  {
    assert (ClientFlag + v)[..|ClientFlag|] == ClientFlag;
    assert (LanguageFlag + v)[..|LanguageFlag|] == LanguageFlag;
    assert (LanguageFlag + v)[1] == 'l';
    assert (SystemFlag + v)[..|SystemFlag|] == SystemFlag;
    assert (SystemFlag + v)[1] == 's';
    assert (TransactionFlag + v)[..|TransactionFlag|] == TransactionFlag;
    assert (TransactionFlag + v)[1] == 't';
  }

  /** One argument per truthy value, and no other. */
  lemma FlagsCount(p: SapParams)
    ensures |Flags(p)| == TruthyCount(p) <= 4
  {
  }

  /**
   * The flags appear in the fixed order client, language, system,
   * transaction: their ranks strictly increase along the list, and every
   * one is a flag.
   */
  lemma FlagsInOrder(p: SapParams)
    ensures forall i | 0 <= i < |Flags(p)| :: FlagRank(Flags(p)[i]) < 4
    ensures forall i, j | 0 <= i < j < |Flags(p)| :: FlagRank(Flags(p)[i]) < FlagRank(Flags(p)[j])
  {
    var ranks := RankList(p);
    forall i | 0 <= i < |Flags(p)|
      ensures FlagRank(Flags(p)[i]) == ranks[i]
    {
      RankListAt(p, i);
    }
  }

  /** The ranks of the truthy values, in order. */
  function RankList(p: SapParams): (r: seq<nat>)
    ensures forall i, j | 0 <= i < j < |r| :: r[i] < r[j] < 4
    ensures |r| == |Flags(p)|
  {
    (if Truthy(p.client) then [0] else []) + (if Truthy(p.language) then [1] else [])
      + (if Truthy(p.system) then [2] else []) + (if Truthy(p.transaction) then [3] else [])
  }

  lemma RankListAt(p: SapParams, i: nat)
    requires i < |Flags(p)|
    ensures FlagRank(Flags(p)[i]) == RankList(p)[i]
  {
    FlagRanks(p.client.GetOr(""));
    FlagRanks(p.language.GetOr(""));
    FlagRanks(p.system.GetOr(""));
    FlagRanks(p.transaction.GetOr(""));
  }

  /** Without a truthy transaction, every flag is one of the first three. */
  lemma NoTransactionFlag(p: SapParams)
    requires !Truthy(p.transaction)
    ensures forall i | 0 <= i < |Flags(p)| :: FlagRank(Flags(p)[i]) < 3
  {
    forall i | 0 <= i < |Flags(p)|
      ensures FlagRank(Flags(p)[i]) < 3
    {
      RankListAt(p, i);
    }
  }

  /** A lookup in a concatenation finds the first part's flag when it has one. */
  lemma {:induction false} FlagValueAppend(a: seq<string>, b: seq<string>, prefix: string)
    ensures FlagValue(a + b, prefix) ==
              if FlagValue(a, prefix).Some? then FlagValue(a, prefix) else FlagValue(b, prefix)
  {
    if a != [] {
      assert (a + b)[0] == a[0];
      assert (a + b)[1..] == a[1..] + b;
      FlagValueAppend(a[1..], b, prefix);
    } else {
      assert a + b == b;
    }
  }

  /** The four flags. */
  predicate IsFlag(prefix: string) {
    prefix == ClientFlag || prefix == LanguageFlag || prefix == SystemFlag || prefix == TransactionFlag
  }

  /** An argument built from one flag does not start with another: their second characters differ. */
  lemma FlagValueOfFlag(flag: string, o: Option<string>, prefix: string)
    requires IsFlag(flag) && IsFlag(prefix)
    ensures FlagValue(Flag(flag, o), prefix) == if Truthy(o) && flag == prefix then o else None
  {
    if Truthy(o) {
      var arg := flag + o.value;
      assert arg[..|flag|] == flag;
      assert arg[1] == flag[1];
      if flag == prefix {
        assert arg[|flag|..] == o.value;
      } else {
        assert flag[1] != prefix[1];
        assert !StartsWith(arg, prefix) by {
          if |prefix| <= |arg| {
            assert arg[..|prefix|][1] == flag[1];
          }
        }
        var single: seq<string> := [arg];
        assert single[1..] == [];
      }
    }
  }

  /** Reading a flag back from the command gives the argument when it was truthy. */
  lemma FlagsDecode(p: SapParams, prefix: string)
    requires IsFlag(prefix)
    ensures FlagValue(Flags(p), prefix) ==
              if prefix == ClientFlag then (if Truthy(p.client) then p.client else None)
              else if prefix == LanguageFlag then (if Truthy(p.language) then p.language else None)
              else if prefix == SystemFlag then (if Truthy(p.system) then p.system else None)
              else if Truthy(p.transaction) then p.transaction else None
  {
    var c, l, s, t := Flag(ClientFlag, p.client), Flag(LanguageFlag, p.language),
      Flag(SystemFlag, p.system), Flag(TransactionFlag, p.transaction);
    FlagValueOfFlag(ClientFlag, p.client, prefix);
    FlagValueOfFlag(LanguageFlag, p.language, prefix);
    FlagValueOfFlag(SystemFlag, p.system, prefix);
    FlagValueOfFlag(TransactionFlag, p.transaction, prefix);
    FlagValueAppend(c + l + s, t, prefix);
    FlagValueAppend(c + l, s, prefix);
    FlagValueAppend(c, l, prefix);
  }

  /** A process to start: its argument list, and whether it goes through the shell. */
  datatype Process = Process(argv: seq<string>, shell: bool)

  /**
   * `open_webpage` (main.py:283-293): `start` through the shell on Windows,
   * `open` on macOS, `xdg-open` elsewhere, each given the URL.
   */
  function OpenCommand(platform: string, url: string): (r: Process)
    ensures |r.argv| == 2 && r.argv[1] == url
    ensures r.shell <==> StartsWith(platform, "win")
    ensures r.argv[0] == (if StartsWith(platform, "win") then "start"
                          else if StartsWith(platform, "darwin") then "open" else "xdg-open")
    ensures r.shell <==> r.argv[0] == "start"
  {
    if StartsWith(platform, "win") then Process(["start", url], true)
    else if StartsWith(platform, "darwin") then Process(["open", url], false)
    else Process(["xdg-open", url], false)
  }
}
