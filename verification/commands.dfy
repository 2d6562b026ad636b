/** The `:`-commands of the Grok chat: a registry from names to commands, with `cd` and `ls` built in. */
module Commands {
  import opened Text
  import opened Services

  /** What a command does: the two built-ins, or a registered command whose effect is its own. */
  datatype CommandKind = Cd | Ls | Custom(id: nat)

  datatype Command = Command(name: string, description: string, kind: CommandKind)

  const CdCommand := Command("cd", "Change working directory", Cd)
  const LsCommand := Command("ls", "List directory contents", Ls)

  /** The name and the arguments of an input line. */
  datatype Invocation = Invocation(name: string, args: seq<string>)

  /** `input.slice(1).split(' ')`: the first piece names the command, the others (empty ones included) are its arguments. */
  function ParseCommand(input: string): (inv: Invocation)
    ensures ' ' !in inv.name && forall k :: 0 <= k < |inv.args| ==> ' ' !in inv.args[k]
    ensures [inv.name] + inv.args == Split(if input == [] then [] else input[1..], ' ')
  {
    var parts := Split(if input == [] then [] else input[1..], ' ');
    assert parts == [parts[0]] + parts[1..];
    Invocation(parts[0], parts[1..])
  }

  /** The name and the arguments joined by single spaces give back the input after its first character. */
  lemma ParseCommandRoundTrip(input: string)
    requires input != []
    ensures var inv := ParseCommand(input); Join([inv.name] + inv.args, " ") == input[1..]
  {
    JoinSplit(input[1..], ' ');
  }

  /** What running an input line did. */
  datatype Outcome =
    | Unknown(name: string)              // no command of that name: nothing changes
    | Usage                              // `cd` without arguments: nothing changes
    | ChangedDir(dir: string)            // the process moved there; the controller adopts it as cwd
    | ChdirFailed(dir: string)           // the change failed: nothing changes
    | Listed(dir: string)                // the directory's entries were printed
    | RanCustom(id: nat, args: seq<string>)

  class CommandRegistry {
    var commands: map<string, Command>

    constructor()
      ensures commands == map["cd" := CdCommand, "ls" := LsCommand]
      ensures commands.Keys == {"cd", "ls"}
    {
      commands := map[];
      new;
      Register(CdCommand);
      Register(LsCommand);
    }

    /** Maps the command's name to it, replacing any command of that name. */
    method Register(command: Command)
      modifies this
      ensures commands == old(commands)[command.name := command]
    {
      commands := commands[command.name := command];
    }

    /** `execute`: look the name up and run the command with the arguments against the current directory. */
    function Execute(input: string, cwd: string, host: Host): (o: Outcome)
      reads this
      ensures ParseCommand(input).name !in commands ==> o == Unknown(ParseCommand(input).name)
      ensures o.Usage? <==> ParseCommand(input).name in commands && commands[ParseCommand(input).name].kind.Cd? && ParseCommand(input).args == []
      ensures o.ChangedDir? || o.ChdirFailed? ==>
                var inv := ParseCommand(input);
                && inv.name in commands && commands[inv.name].kind.Cd? && inv.args != []
                && o.dir == host.resolve([cwd, Join(inv.args, " ")])
                && (o.ChangedDir? <==> host.chdir(o.dir))
      ensures o.Listed? ==> o.dir == cwd
      ensures var inv := ParseCommand(input);
              inv.name in commands && commands[inv.name].kind.Ls? ==> o == Listed(cwd)
      ensures var inv := ParseCommand(input);
              var dir := host.resolve([cwd, Join(inv.args, " ")]);
              inv.name in commands && commands[inv.name].kind.Cd? && inv.args != [] ==>
                o == (if host.chdir(dir) then ChangedDir(dir) else ChdirFailed(dir))
      ensures var inv := ParseCommand(input);
              inv.name in commands && commands[inv.name].kind.Custom? ==> o == RanCustom(commands[inv.name].kind.id, inv.args)
    {
      var inv := ParseCommand(input);
      if inv.name !in commands then Unknown(inv.name)
      else
        match commands[inv.name].kind
        case Cd =>
          if |inv.args| == 0 then Usage
          else
            var newDir := host.resolve([cwd, Join(inv.args, " ")]);
            if host.chdir(newDir) then ChangedDir(newDir) else ChdirFailed(newDir)
        case Ls => Listed(cwd)
        case Custom(id) => RanCustom(id, inv.args)
    }
  }

  /** The working directory after a command: only a successful `cd` moves it. */
  function CwdAfter(cwd: string, o: Outcome): (next: string)
    ensures next != cwd ==> o.ChangedDir? && next == o.dir
    ensures o.ChangedDir? ==> next == o.dir
  {
    if o.ChangedDir? then o.dir else cwd
  }
}
