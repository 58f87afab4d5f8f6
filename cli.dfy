/**
 * The command-line entry point: `AliasGroup`, a click group that keeps two alias
 * tables beside click's own command table, and `run_alias`, which rewrites the
 * argument vector of the `lcc`/`lpython` shortcuts into a `run` command line.
 * click itself (decorators, contexts, the help formatter) is not part of this
 * model: a command is reduced to what these tables and the help listing read of it.
 */
module Cli {
  import opened Common
  import Strings

  // ---------------------------------------------------------------------------
  // AliasGroup
  // ---------------------------------------------------------------------------

  /** A registered click command (or group), as far as the alias tables see it. */
  datatype ClickCommand = ClickCommand(name: string, hidden: bool, isGroup: bool)

  /** The alias table after pointing each of `names`, in order, at `target`. */
  function WithAliases(table: map<string, string>, names: seq<string>, target: string): (r: map<string, string>)
    ensures r.Keys == table.Keys + set a | a in names
    ensures forall a :: a in names ==> r[a] == target
    ensures forall a :: a in table && a !in names ==> r[a] == table[a]
  {
    if names == [] then table
    else
      var init := names[..|names| - 1];
      assert forall a :: a in init ==> a in names;
      assert forall a :: a in names ==> a in init || a == names[|names| - 1];
      WithAliases(table, init, target)[names[|names| - 1] := target]
  }

  class AliasGroup {
    /** click's own table (`Group.commands`): command name to command. */
    var registry: map<string, ClickCommand>
    /** `_commands`: command name to the aliases it was registered with. */
    var commands: map<string, seq<string>>
    /** `_aliases`: alias to command name. */
    var aliases: map<string, string>

    /** Every alias and every aliased name refers to a registered command. */
    predicate Valid()
      reads this
    {
      (forall a :: a in aliases ==> aliases[a] in registry) &&
      (forall n :: n in commands ==> n in registry)
    }

    constructor()
      ensures Valid()
      ensures registry == map[] && commands == map[] && aliases == map[]
    {
      registry := map[];
      commands := map[];
      aliases := map[];
    }

    /**
     * Applying the decorator `command(..., aliases=...)`/`group(...)` returns: click
     * registers the command under its name; with a non-empty alias list the command's
     * aliases are recorded and each alias is pointed at it (a re-used alias moves to
     * the newest command); with none both alias tables stay as they were.
     */
    method Register(cmd: ClickCommand, aliasList: seq<string>)
      requires Valid()
      modifies this
      ensures Valid()
      ensures registry == old(registry)[cmd.name := cmd]
      ensures aliasList == [] ==> commands == old(commands) && aliases == old(aliases)
      ensures aliasList != [] ==> commands == old(commands)[cmd.name := aliasList]
      ensures aliasList != [] ==> aliases == WithAliases(old(aliases), aliasList, cmd.name)
    {
      registry := registry[cmd.name := cmd];
      if aliasList != [] {
        commands := commands[cmd.name := aliasList];
        var i := 0;
        while i < |aliasList|
          invariant 0 <= i <= |aliasList|
          invariant registry == old(registry)[cmd.name := cmd]
          invariant commands == old(commands)[cmd.name := aliasList]
          invariant aliases == WithAliases(old(aliases), aliasList[..i], cmd.name)
          invariant forall a :: a in aliases ==> aliases[a] in registry
        {
          aliases := aliases[aliasList[i] := cmd.name];
          assert aliasList[..i + 1] == aliasList[..i] + [aliasList[i]];
          i := i + 1;
        }
        assert aliasList[..i] == aliasList;
      }
    }

    /** `@group.command(aliases=...)`: registers a plain command. */
    method Command(name: string, hidden: bool, aliasList: seq<string>) returns (cmd: ClickCommand)
      requires Valid()
      modifies this
      ensures Valid()
      ensures cmd == ClickCommand(name, hidden, false)
      ensures registry == old(registry)[name := cmd]
      ensures aliasList == [] ==> commands == old(commands) && aliases == old(aliases)
      ensures aliasList != [] ==> commands == old(commands)[name := aliasList]
      ensures aliasList != [] ==> aliases == WithAliases(old(aliases), aliasList, name)
      ensures forall a :: a in aliasList ==> GetCommand(a) == Some(cmd)
    {
      cmd := ClickCommand(name, hidden, false);
      Register(cmd, aliasList);
    }

    /** `@group.group(aliases=...)`: registers a sub-group, with the same alias bookkeeping. */
    method Group(name: string, hidden: bool, aliasList: seq<string>) returns (cmd: ClickCommand)
      requires Valid()
      modifies this
      ensures Valid()
      ensures cmd == ClickCommand(name, hidden, true)
      ensures registry == old(registry)[name := cmd]
      ensures aliasList == [] ==> commands == old(commands) && aliases == old(aliases)
      ensures aliasList != [] ==> commands == old(commands)[name := aliasList]
      ensures aliasList != [] ==> aliases == WithAliases(old(aliases), aliasList, name)
      ensures forall a :: a in aliasList ==> GetCommand(a) == Some(cmd)
    {
      cmd := ClickCommand(name, hidden, true);
      Register(cmd, aliasList);
    }

    /** The name `get_command` looks up: an alias is replaced by its command's name. */
    function Resolve(cmdName: string): (n: string)
      reads this
      ensures cmdName in aliases ==> n == aliases[cmdName]
      ensures cmdName !in aliases ==> n == cmdName
    {
      if cmdName in aliases then aliases[cmdName] else cmdName
    }

    /** `get_command(ctx, cmd_name)`: the registered command under the resolved name, or None. */
    function GetCommand(cmdName: string): (r: Option<ClickCommand>)
      reads this
      ensures r.Some? <==> Resolve(cmdName) in registry
      ensures r.Some? ==> r.value == registry[Resolve(cmdName)]
    {
      var n := Resolve(cmdName);
      if n in registry then Some(registry[n]) else None
    }

    /** The name shown in the help: "name (a1,a2)" with the aliases sorted, for an aliased command. */
    function DisplayName(sub: string): (d: string)
      reads this
      ensures sub !in commands ==> d == sub
      ensures sub in commands ==> exists shown ::
        Strings.Sorted(shown) && multiset(shown) == multiset(commands[sub]) &&
        d == sub + " (" + Strings.Join(shown, ",") + ")"
    {
      if sub in commands then sub + " (" + Strings.Join(Strings.SortStrings(commands[sub]), ",") + ")"
      else sub
    }

    /** What `format_commands` keeps of one listed name: nothing for an unknown or hidden command. */
    function Entry(sub: string): seq<(string, ClickCommand)>
      reads this
    {
      match GetCommand(sub)
      case None => []
      case Some(c) => if c.hidden then [] else [(DisplayName(sub), c)]
    }

    /** The `commands` list `format_commands` builds from the names click lists. */
    function Listed(subs: seq<string>): (r: seq<(string, ClickCommand)>)
      reads this
      ensures |r| <= |subs|
      ensures forall k :: 0 <= k < |r| ==> !r[k].1.hidden
    {
      if subs == [] then [] else Listed(subs[..|subs| - 1]) + Entry(subs[|subs| - 1])
    }

    /**
     * `format_commands`: the rows handed to the help formatter, each a shown name and the
     * command's short help cut to `limit`, where `limit` is the formatter width less 6
     * less the longest shown name, computed only when something is listed. The short
     * help text is click's and is a parameter here.
     */
    method FormatCommands(subs: seq<string>, width: int, shortHelp: (ClickCommand, int) -> string)
      returns (rows: seq<(string, string)>, limit: Option<int>)
      ensures var listed := Listed(subs);
        && (limit.Some? <==> |listed| > 0)
        && (limit.Some? ==> limit.value == width - 6 - MaxNameLength(listed))
        && |rows| == |listed|
        && (forall k :: 0 <= k < |rows| ==>
              rows[k] == (listed[k].0, shortHelp(listed[k].1, limit.value)))
    {
      var listed: seq<(string, ClickCommand)> := [];
      var i := 0;
      while i < |subs|
        invariant 0 <= i <= |subs|
        invariant listed == Listed(subs[..i])
      {
        var sub := subs[i];
        var cmd := GetCommand(sub);
        assert subs[..i + 1][..i] == subs[..i];
        if cmd.Some? && !cmd.value.hidden {
          listed := listed + [(DisplayName(sub), cmd.value)];
        }
        i := i + 1;
      }
      assert subs[..i] == subs;
      rows := [];
      limit := None;
      if |listed| > 0 {
        limit := Some(width - 6 - MaxNameLength(listed));
        rows := HelpRows(listed, limit.value, shortHelp);
      }
    }
  }

  /** The second loop of `format_commands`: one (shown name, short help) row per listed command. */
  method HelpRows(listed: seq<(string, ClickCommand)>, limit: int, shortHelp: (ClickCommand, int) -> string)
    returns (rows: seq<(string, string)>)
    ensures |rows| == |listed|
    ensures forall k :: 0 <= k < |rows| ==> rows[k] == (listed[k].0, shortHelp(listed[k].1, limit))
  {
    rows := [];
    var j := 0;
    while j < |listed|
      invariant 0 <= j <= |listed|
      invariant |rows| == j
      invariant forall k :: 0 <= k < j ==> rows[k] == (listed[k].0, shortHelp(listed[k].1, limit))
    {
      rows := rows + [(listed[j].0, shortHelp(listed[j].1, limit))];
      j := j + 1;
    }
  }

  /** `max(len(cmd[0]) for cmd in commands)`. */
  function MaxNameLength(listed: seq<(string, ClickCommand)>): (m: nat)
    requires |listed| > 0
    ensures forall k :: 0 <= k < |listed| ==> |listed[k].0| <= m
    ensures exists k :: 0 <= k < |listed| && |listed[k].0| == m
  {
    if |listed| == 1 then |listed[0].0|
    else
      var rest := MaxNameLength(listed[1..]);
      assert forall k :: 1 <= k < |listed| ==> listed[k] == listed[1..][k - 1];
      if |listed[0].0| >= rest then |listed[0].0| else rest
  }

  // ---------------------------------------------------------------------------
  // Properties of the alias tables
  // ---------------------------------------------------------------------------

  /** An alias always leads to a registered command: `get_command` never fails on an alias. */
  lemma AliasesResolve(g: AliasGroup, a: string)
    requires g.Valid() && a in g.aliases
    ensures g.GetCommand(a).Some?
    ensures g.GetCommand(a).value == g.registry[g.aliases[a]]
  {
  }

  /**
   * A name that is also somebody's alias is looked up as that alias: the command
   * registered under the name itself is not reached.
   */
  lemma AliasShadowsName(g: AliasGroup, n: string)
    requires g.Valid() && n in g.aliases && n in g.registry && g.aliases[n] != n
    ensures g.GetCommand(n) == Some(g.registry[g.aliases[n]])
  {
  }

  /**
   * The help listing keeps exactly the listed names whose command exists and is not
   * hidden, each under its shown name, and never has more rows than click listed names.
   */
  lemma {:induction false} ListedExactly(g: AliasGroup, subs: seq<string>)
    ensures forall k :: 0 <= k < |g.Listed(subs)| ==>
      !g.Listed(subs)[k].1.hidden &&
      exists i :: 0 <= i < |subs| && g.GetCommand(subs[i]) == Some(g.Listed(subs)[k].1) &&
                  g.Listed(subs)[k].0 == g.DisplayName(subs[i])
    ensures forall i :: 0 <= i < |subs| && g.GetCommand(subs[i]).Some? && !g.GetCommand(subs[i]).value.hidden ==>
      (g.DisplayName(subs[i]), g.GetCommand(subs[i]).value) in g.Listed(subs)
    ensures |g.Listed(subs)| <= |subs|
  {
    if subs != [] {
      var init := subs[..|subs| - 1];
      ListedExactly(g, init);
      assert forall i :: 0 <= i < |init| ==> init[i] == subs[i];
    }
  }

  /** A listed name that `format_commands` keeps: its command exists and is not hidden. */
  predicate Shown(g: AliasGroup, sub: string)
    reads g
  {
    g.GetCommand(sub).Some? && !g.GetCommand(sub).value.hidden
  }

  /** The positions, in `subs`, of the names the help listing keeps. */
  ghost function ShownIndices(g: AliasGroup, subs: seq<string>): seq<nat>
    reads g
  {
    if subs == [] then []
    else ShownIndices(g, subs[..|subs| - 1]) + (if Shown(g, subs[|subs| - 1]) then [|subs| - 1] else [])
  }

  /**
   * The help listing follows click's order: its k-th row is the k-th kept name, the
   * kept names come from strictly increasing positions, and no kept name is skipped.
   */
  lemma {:induction false} ListedInOrder(g: AliasGroup, subs: seq<string>)
    ensures var idx := ShownIndices(g, subs);
      && |idx| == |g.Listed(subs)|
      && (forall k :: 0 <= k < |idx| ==>
            idx[k] < |subs| && Shown(g, subs[idx[k]]) &&
            g.Listed(subs)[k] == (g.DisplayName(subs[idx[k]]), g.GetCommand(subs[idx[k]]).value))
      && (forall k, m :: 0 <= k < m < |idx| ==> idx[k] < idx[m])
      && (forall i :: 0 <= i < |subs| && Shown(g, subs[i]) ==> i in idx)
  {
    if subs != [] {
      var init := subs[..|subs| - 1];
      var last := subs[|subs| - 1];
      ListedInOrder(g, init);
      assert forall i :: 0 <= i < |init| ==> init[i] == subs[i];
      assert g.Listed(subs) == g.Listed(init) + g.Entry(last);
      assert Shown(g, last) ==> g.Entry(last) == [(g.DisplayName(last), g.GetCommand(last).value)];
      assert !Shown(g, last) ==> g.Entry(last) == [];
    }
  }

  /** The limit leaves room for every shown name plus the spacing, and no more than the longest needs. */
  lemma LimitFitsNames(listed: seq<(string, ClickCommand)>, width: int)
    requires |listed| > 0
    ensures var limit := width - 6 - MaxNameLength(listed);
      && (forall k :: 0 <= k < |listed| ==> |listed[k].0| + 6 + limit <= width)
      && (exists k :: 0 <= k < |listed| && |listed[k].0| + 6 + limit == width)
  {
    var k :| 0 <= k < |listed| && |listed[k].0| == MaxNameLength(listed);
    assert |listed[k].0| + 6 + (width - 6 - MaxNameLength(listed)) == width;
  }

  // ---------------------------------------------------------------------------
  // run_alias
  // ---------------------------------------------------------------------------

  /** The last component of a path (`Path(p).name`): the text after the last '/'. */
  function BaseName(p: string): (r: string)
    ensures '/' !in r
    ensures |r| <= |p| && r == p[|p| - |r|..]
    decreases |p|
  {
    if p == [] then ""
    else if p[|p| - 1] == '/' then ""
    else BaseName(p[..|p| - 1]) + [p[|p| - 1]]
  }

  /** The index of the last '.' in `s` (`str.rfind('.')`), -1 when there is none. */
  function LastDot(s: string): (i: int)
    ensures -1 <= i < |s|
    ensures i >= 0 ==> s[i] == '.' && forall k :: i < k < |s| ==> s[k] != '.'
    ensures i == -1 ==> '.' !in s
  {
    if s == [] then -1
    else if s[|s| - 1] == '.' then |s| - 1
    else LastDot(s[..|s| - 1])
  }

  /** `Path(p).stem`: the last component without its final suffix (a leading or trailing dot is kept). */
  function Stem(p: string): (r: string)
    ensures '/' !in r && |r| <= |BaseName(p)| && r == BaseName(p)[..|r|]
    ensures r == BaseName(p) || BaseName(p)[|r|] == '.'
  {
    var name := BaseName(p);
    var i := LastDot(name);
    if 0 < i < |name| - 1 then name[..i] else name
  }

  /** `list.insert(1, x)` on a non-empty list. */
  function InsertSecond(argv: seq<string>, x: string): (r: seq<string>)
    requires |argv| >= 1
    ensures |r| == |argv| + 1 && r[0] == argv[0] && r[1] == x && r[2..] == argv[1..]
  {
    [argv[0], x] + argv[1..]
  }

  /**
   * The argument vector `run_alias` leaves behind, step by step as the source edits
   * `sys.argv`; an empty vector makes `sys.argv[0]` raise IndexError.
   */
  function AliasArgv(argv: seq<string>): (r: Outcome<seq<string>>)
    ensures r.Raised? <==> argv == []
    ensures r.Raised? ==> r.error == IndexError
    ensures r.Done? ==> |r.value| >= |argv| + 1 && r.value[0] == argv[0] && r.value[1] == "run"
    ensures r.Done? ==> r.value[|r.value| - 1] == if |argv| <= 1 then "--help" else argv[|argv| - 1]
  {
    if argv == [] then Raised(IndexError)
    else
      var mode := Stem(argv[0]);
      var help := |argv| <= 1;
      var a1 := if mode == "lcc" then InsertSecond(argv, "c")
                else if mode == "lpython" then InsertSecond(argv, "python")
                else argv;
      var a2 := InsertSecond(a1, "run");
      Done(if help then a2 + ["--help"] else a2)
  }

  /**
   * `run_alias` produces the program name, 'run', the language for `lcc`/`lpython`,
   * the original arguments, and '--help' exactly when no argument was given.
   */
  lemma AliasArgvShape(argv: seq<string>)
    requires |argv| >= 1
    ensures var lang := if Stem(argv[0]) == "lcc" then ["c"]
                        else if Stem(argv[0]) == "lpython" then ["python"] else [];
      AliasArgv(argv) == Done([argv[0], "run"] + lang + argv[1..] + (if |argv| <= 1 then ["--help"] else []))
  {
    var mode := Stem(argv[0]);
    if mode == "lcc" {
      RunInserted(InsertSecond(argv, "c"), argv, ["c"]);
    } else if mode == "lpython" {
      RunInserted(InsertSecond(argv, "python"), argv, ["python"]);
    } else {
      RunInserted(argv, argv, []);
    }
  }

  lemma RunInserted(a1: seq<string>, argv: seq<string>, lang: seq<string>)
    requires |argv| >= 1 && a1 == [argv[0]] + lang + argv[1..]
    ensures InsertSecond(a1, "run") == [argv[0], "run"] + lang + argv[1..]
    ensures InsertSecond(a1, "run") + [] == InsertSecond(a1, "run")
  {
  }

  /** A path without '/' is its own last component. */
  lemma {:induction false} BaseNameOfName(n: string)
    requires '/' !in n
    ensures BaseName(n) == n
  {
    if n != [] {
      var init := n[..|n| - 1];
      assert n == init + [n[|n| - 1]];
      assert '/' !in init;
      BaseNameOfName(init);
    }
  }

  /** The last component is what follows the last '/'. */
  lemma {:induction false} BaseNameAfterSlash(dir: string, n: string)
    requires '/' !in n
    ensures BaseName(dir + "/" + n) == n
  {
    if n == [] {
      assert (dir + "/" + n)[|dir + "/" + n| - 1] == '/';
    } else {
      var p := dir + "/" + n;
      var init := n[..|n| - 1];
      var last := n[|n| - 1];
      assert n == init + [last];
      assert '/' !in init && last != '/';
      assert p == (dir + "/" + init) + [last];
      BaseNameAfterSlash(dir, init);
    }
  }

  /** The shortcut's name is taken from the file name alone, without its directory... */
  lemma StemDropsDirectory()
    ensures Stem("/usr/local/bin" + "/" + "lcc") == "lcc"
  {
    BaseNameAfterSlash("/usr/local/bin", "lcc");
    assert '.' !in "lcc";
  }

  /** ...and without its suffix... */
  lemma StemDropsSuffix()
    ensures Stem("lpython" + "." + "py") == "lpython"
  {
    var n := "lpython" + "." + "py";
    BaseNameOfName(n);
    assert LastDot(n) == 7;
    assert n[..7] == "lpython";
  }

  /** ...but a name that only starts with a dot is kept whole. */
  lemma StemKeepsLeadingDot()
    ensures Stem("." + "lcc") == ".lcc"
  {
    var n := "." + "lcc";
    BaseNameOfName(n);
    assert '.' !in n[1..];
    assert LastDot(n) == 0;
  }

  /** The process whose `sys.argv` `run_alias` edits in place. */
  class Process {
    var argv: seq<string>

    constructor(argv: seq<string>)
      ensures this.argv == argv
    {
      this.argv := argv;
    }

    /**
     * `run_alias()` up to the hand-over to `main.main`: the inserts and the append on
     * `sys.argv`, in the source's order.
     */
    method RunAlias() returns (error: Option<PyError>)
      modifies this
      ensures old(argv) == [] ==> error == Some(IndexError) && argv == old(argv)
      ensures old(argv) != [] ==> error.None? && AliasArgv(old(argv)) == Done(argv)
    {
      if argv == [] {
        return Some(IndexError);
      }
      var mode := Stem(argv[0]);
      var help := |argv| <= 1;
      if mode == "lcc" {
        argv := InsertSecond(argv, "c");
      } else if mode == "lpython" {
        argv := InsertSecond(argv, "python");
      }
      argv := InsertSecond(argv, "run");
      if help {
        argv := argv + ["--help"];
      }
      return None;
    }
  }
}
