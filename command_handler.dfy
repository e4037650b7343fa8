/** src/handlers/CommandHandler.ts: the prefix, the command registry and the
    dispatch of one chat message to a command. */
module CommandHandling {
  import opened Wrappers
  import opened JsText

  /** The descriptive part of the `Command` interface of src/types/Command.ts;
      `execute` is the action the dispatcher triggers. */
  datatype Command = Command(name: string, description: string, usage: string)

  /** The parts of a chat message the handler reads. */
  datatype Message = Message(authorIsBot: bool, content: string)

  /** A command name and its arguments, as read from a message. */
  datatype Invocation = Invocation(name: string, args: seq<string>)

  /** What `handleMessage` does with a message: nothing, run a command, or
      run a command that throws and answer with `reply`. */
  datatype Handled =
    | Ignored
    | Executed(command: Command, args: seq<string>)
    | Failed(command: Command, args: seq<string>, reply: string)

  const FallbackPrefix := "!"
  const ErrorReply := "\U{274C} Terjadi error saat menjalankan command!"

  /** `process.env.PREFIX || "!"`: an unset or empty variable means "!". */
  function DefaultPrefix(env: Option<string>): (p: string)
    ensures p != []
    ensures env.Some? && env.value != [] ==> p == env.value
    ensures env.None? || env.value == [] ==> p == FallbackPrefix
  {
    if env.Some? && env.value != [] then env.value else FallbackPrefix
  }

  /** The text after the prefix with surrounding whitespace removed. */
  function Remainder(content: string, prefix: string): (r: string)
    requires StartsWith(content, prefix)
    ensures r == [] <==> AllWhitespace(content[|prefix|..])
    ensures r == [] || (!IsJsWhitespace(r[0]) && !IsJsWhitespace(r[|r| - 1]))
    ensures |prefix| + |r| <= |content|
  {
    Trim(content[|prefix|..])
  }

  /** Reading a message's text: it must start with the prefix, the rest is
      trimmed and split on runs of spaces, the first word lower-cased is the
      command name and the other words are the arguments. No name means no
      invocation. */
  function Parse(content: string, prefix: string): (r: Option<Invocation>)
    ensures r.None? <==> !StartsWith(content, prefix) || AllWhitespace(content[|prefix|..])
    ensures r.Some? ==> r.value.name != []
    ensures r.Some? ==> forall k :: 0 <= k < |r.value.name| ==> !('A' <= r.value.name[k] <= 'Z')
    ensures r.Some? ==> forall k :: 0 <= k < |r.value.args| ==> r.value.args[k] != [] && ' ' !in r.value.args[k]
  {
    if !StartsWith(content, prefix) then None
    else
      var rest := Remainder(content, prefix);
      var words := SplitOnSpaces(rest);
      var name := ToLower(words[0]);
      if name == [] then None
      else
        SplitPiecesNonEmpty(rest);
        Some(Invocation(name, words[1..]))
  }

  /** Parsing drops only whitespace: the name (before lower-casing) followed
      by the arguments spells the trimmed remainder without its spaces. */
  lemma ParseLosesOnlySpaces(content: string, prefix: string)
    requires Parse(content, prefix).Some?
    ensures StartsWith(content, prefix)
    ensures exists first :: ToLower(first) == Parse(content, prefix).value.name
                            && first + Concat(Parse(content, prefix).value.args)
                               == WithoutSpaces(Remainder(content, prefix))
  {
    var words := SplitOnSpaces(Remainder(content, prefix));
    SplitLosesOnlySpaces(Remainder(content, prefix));
    assert Concat(words) == words[0] + Concat(words[1..]);
    assert ToLower(words[0]) == Parse(content, prefix).value.name;
  }

  /** Names are looked up lower-cased, so a command registered under a name
      with an upper-case letter can never be invoked. */
  lemma UppercaseNameUnreachable(content: string, prefix: string, name: string, k: nat)
    requires k < |name| && 'A' <= name[k] <= 'Z'
    ensures Parse(content, prefix).Some? ==> Parse(content, prefix).value.name != name
  {
  }

  /** Registering `cmds` one after another into `m`, later ones overwriting
      earlier ones with the same name. */
  function Registry(m: map<string, Command>, cmds: seq<Command>): map<string, Command>
    decreases |cmds|
  {
    if cmds == [] then m
    else
      var last := cmds[|cmds| - 1];
      Registry(m, cmds[..|cmds| - 1])[last.name := last]
  }

  /** Every entry is stored under its own name. */
  predicate KeyedByName(m: map<string, Command>) {
    forall n :: n in m ==> m[n].name == n
  }

  /** A name is registered exactly when it was before or some command has
      it. */
  lemma {:induction false} RegistryDomain(m: map<string, Command>, cmds: seq<Command>, name: string)
    ensures name in Registry(m, cmds) <==> name in m || exists k :: 0 <= k < |cmds| && cmds[k].name == name
    decreases |cmds|
  {
    if cmds != [] {
      var init := cmds[..|cmds| - 1];
      RegistryDomain(m, init, name);
      if name != cmds[|cmds| - 1].name && name !in m {
        if exists k :: 0 <= k < |cmds| && cmds[k].name == name {
          var k :| 0 <= k < |cmds| && cmds[k].name == name;
          assert init[k].name == name;
        }
      }
    }
  }

  /** The command stored under a name is the last one registered with it. */
  lemma {:induction false} RegistryLastWins(m: map<string, Command>, cmds: seq<Command>, k: nat)
    requires k < |cmds|
    requires forall j :: k < j < |cmds| ==> cmds[j].name != cmds[k].name
    ensures cmds[k].name in Registry(m, cmds) && Registry(m, cmds)[cmds[k].name] == cmds[k]
    decreases |cmds|
  {
    if k < |cmds| - 1 {
      var init := cmds[..|cmds| - 1];
      assert init[k] == cmds[k];
      assert forall j :: k < j < |init| ==> init[j] == cmds[j];
      RegistryLastWins(m, init, k);
    }
  }

  /** Names no command has keep their old entry. */
  lemma {:induction false} RegistryKeepsOthers(m: map<string, Command>, cmds: seq<Command>, name: string)
    requires forall k :: 0 <= k < |cmds| ==> cmds[k].name != name
    requires name in m
    ensures name in Registry(m, cmds) && Registry(m, cmds)[name] == m[name]
    decreases |cmds|
  {
    if cmds != [] {
      var init := cmds[..|cmds| - 1];
      assert forall k :: 0 <= k < |init| ==> init[k] == cmds[k];
      RegistryKeepsOthers(m, init, name);
    }
  }

  /** Registering keeps every entry under its own name. */
  lemma {:induction false} RegistryKeyedByName(m: map<string, Command>, cmds: seq<Command>)
    requires KeyedByName(m)
    ensures KeyedByName(Registry(m, cmds))
    decreases |cmds|
  {
    if cmds != [] {
      RegistryKeyedByName(m, cmds[..|cmds| - 1]);
    }
  }

  class CommandHandler {
    const prefix: string
    /** The bot's name-to-command map that `loadCommands` fills. */
    var commands: map<string, Command>

    ghost predicate Valid()
      reads this
    {
      prefix != [] && KeyedByName(commands)
    }

    /** Picks the prefix and registers `cmds`. */
    constructor(prefixEnv: Option<string>, cmds: seq<Command>)
      ensures prefix == DefaultPrefix(prefixEnv)
      ensures commands == Registry(map[], cmds)
      ensures Valid()
    {
      prefix := DefaultPrefix(prefixEnv);
      commands := map[];
      new;
      LoadCommands(cmds);
      RegistryKeyedByName(map[], cmds);
    }

    /** Stores each command under its name, in order. */
    method LoadCommands(cmds: seq<Command>)
      modifies this`commands
      ensures commands == Registry(old(commands), cmds)
    {
      ghost var start := commands;
      for i := 0 to |cmds|
        invariant commands == Registry(start, cmds[..i])
      {
        assert cmds[..i + 1][..i] == cmds[..i];
        commands := commands[cmds[i].name := cmds[i]];
      }
      assert cmds[..|cmds|] == cmds;
    }

    /** Dispatches one message. `executeThrows` says whether the command's
        `execute` throws; then the message is answered with `ErrorReply`. */
    method HandleMessage(msg: Message, executeThrows: bool) returns (h: Handled)
      requires Valid()
      ensures msg.authorIsBot ==> h == Ignored
      ensures !msg.authorIsBot ==>
        match Parse(msg.content, prefix)
        case None => h == Ignored
        case Some(inv) =>
          if inv.name !in commands then h == Ignored
          else if executeThrows then h == Failed(commands[inv.name], inv.args, ErrorReply)
          else h == Executed(commands[inv.name], inv.args)
      ensures !h.Ignored? ==> h.command.name != [] && h.command.name in commands
    {
      if msg.authorIsBot {
        return Ignored;
      }
      var inv := Parse(msg.content, prefix);
      if inv.None? || inv.value.name !in commands {
        return Ignored;
      }
      var command := commands[inv.value.name];
      if executeThrows {
        h := Failed(command, inv.value.args, ErrorReply);
      } else {
        h := Executed(command, inv.value.args);
      }
    }
  }

  // ---------------------------------------------------------------- examples

  /** The name is lower-cased, the arguments keep their case, and a double
      space separates no empty argument. */
  lemma ParseCommandLine()
    ensures Parse("!Go x  Y", "!") == Some(Invocation("go", ["x", "Y"]))
  {
    var words := ["Go", "x", "Y"];
    RemainderOfCommandLine();
    WordsOfCommandLine();
    LowerGo();
    ParseOfWords("!Go x  Y", "!", words);
    assert words[1..] == ["x", "Y"];
  }

  lemma LowerGo()
    ensures ToLower("Go") == "go"
  {
  }

  /** Parse in terms of the words of the remainder. */
  lemma ParseOfWords(content: string, prefix: string, words: seq<string>)
    requires StartsWith(content, prefix) && SplitOnSpaces(Remainder(content, prefix)) == words
    requires ToLower(words[0]) != []
    ensures Parse(content, prefix) == Some(Invocation(ToLower(words[0]), words[1..]))
  {
  }

  lemma RemainderOfCommandLine()
    ensures StartsWith("!Go x  Y", "!")
    ensures Remainder("!Go x  Y", "!") == "Go x  Y"
  {
    var rest := "Go x  Y";
    assert "!Go x  Y"[..1] == "!" && "!Go x  Y"[1..] == rest;
    TrimOfUnpadded(rest);
  }

  lemma WordsOfCommandLine()
    ensures SplitOnSpaces("Go x  Y") == ["Go", "x", "Y"]
  {
    assert "Go x  Y" == "Go" + " " + "x  Y";
    SplitAtGap("Go", " ", "x  Y");
    WordsOfArguments();
  }

  lemma WordsOfArguments()
    ensures SplitOnSpaces("x  Y") == ["x", "Y"]
  {
    assert "x  Y" == "x" + "  " + "Y";
    SplitAtGap("x", "  ", "Y");
    SplitWord("Y");
  }

  lemma TrimOfUnpadded(s: string)
    requires s != [] && !IsJsWhitespace(s[0]) && !IsJsWhitespace(s[|s| - 1])
    ensures Trim(s) == s
  {
    assert LeadingWhitespace(s) == 0;
    assert TrailingWhitespace(s) == 0;
  }

  /** Text without the prefix, and a prefix followed only by blanks, are
      ignored. */
  lemma ParseRejects()
    ensures Parse("play", "!") == None
    ensures Parse("!   ", "!") == None
  {
    assert !StartsWith("play", "!") by {
      assert "play"[..1] == "p";
    }
    assert "!   "[..1] == "!" && "!   "[1..] == "   ";
    assert AllWhitespace("   ") by {
      assert forall k :: 0 <= k < 3 ==> "   "[k] == ' ';
    }
  }
}
