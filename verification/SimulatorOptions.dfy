/** The simulator's command line: the device waits that parse_options can leave
    (xsm/simulator.c:39-115). */
module SimulatorOptions {
  import opened Words
  import Devices

  type Options = Devices.Options

  const Default := Devices.Options(20, 20, 20)

  datatype Parsed = Parsed(o: Options) | Refused

  /** The value of an option, when it lies in the option's range. */
  function Valued(name: string, n: int, o: Options): Parsed {
    if name == "--timer" && 0 <= n <= 1024 then Parsed(o.(timer := if n == 0 then 0 else n + 1))
    else if name == "--console" && 20 <= n <= 1024 then Parsed(o.(console := n + 1))
    else if name == "--disk" && 20 <= n <= 1024 then Parsed(o.(disk := n + 1))
    else Refused
  }

  /** The arguments from the first one on; a later option overrides an earlier one. */
  function Parse(args: seq<string>, o: Options): Parsed {
    if args == [] then Parsed(o)
    else if args[0] == "--debug" then Parse(args[1..], o)
    else if |args| < 2 then Refused
    else
      var r := Valued(args[0], Atoi(args[1]), o);
      if r.Refused? then Refused else Parse(args[2..], r.o)
  }

  lemma {:induction false} ParseKeeps(args: seq<string>, o: Options)
    requires Devices.Allowed(o)
    ensures Parse(args, o).Parsed? ==> Devices.Allowed(Parse(args, o).o)
    decreases |args|
  {
    if args != [] {
      if args[0] == "--debug" {
        ParseKeeps(args[1..], o);
      } else if |args| >= 2 && Valued(args[0], Atoi(args[1]), o).Parsed? {
        ParseKeeps(args[2..], Valued(args[0], Atoi(args[1]), o).o);
      }
    }
  }

  /** An option and its value in front of other arguments. */
  lemma FirstOption(name: string, n: int, rest: seq<string>, o: Options)
    requires name in {"--timer", "--console", "--disk"} && Valued(name, n, o).Parsed?
    ensures Parse([name, IntText(n)] + rest, o) == Parse(rest, Valued(name, n, o).o)
  {
    IntTextRoundTrip(n);
    var args := [name, IntText(n)] + rest;
    assert args[0] == name && args[1] == IntText(n) && args[2..] == rest;
  }

  /** The allowed option sets are those, and only those, that some command line gives. */
  lemma AllowedIffParsed(o: Options)
    ensures Devices.Allowed(o) <==> exists args: seq<string> :: Parse(args, Default) == Parsed(o)
  {
    hide Parse, Valued;
    if args: seq<string> :| Parse(args, Default) == Parsed(o) {
      ParseKeeps(args, Default);
    }
    if Devices.Allowed(o) {
      var args := CommandLine(o);
      assert Parse(args, Default) == Parsed(o);
    }
  }

  lemma CommandLine(o: Options) returns (args: seq<string>)
    requires Devices.Allowed(o)
    ensures Parse(args, Default) == Parsed(o)
  {
    hide Parse;
    args := [];
    NoArguments(o);
    var o1 := o.(disk := 20);
    if o.disk > 20 {
      FirstOption("--disk", o.disk - 1, args, o1);
      args := ["--disk", IntText(o.disk - 1)] + args;
    }
    var o2 := o1.(console := 20);
    if o.console > 20 {
      FirstOption("--console", o.console - 1, args, o2);
      args := ["--console", IntText(o.console - 1)] + args;
    }
    var t := if o.timer == 0 then 0 else o.timer - 1;
    FirstOption("--timer", t, args, Default);
    args := ["--timer", IntText(t)] + args;
  }

  lemma NoArguments(o: Options)
    ensures Parse([], o) == Parsed(o)
  {
  }

  /** simulator_parse_args */
  method ParseArgs(args: seq<string>) returns (r: Parsed)
    ensures r == Parse(args, Default)
  {
    var timer, console, disk := 20, 20, 20;
    var i := 0;
    assert args[0..] == args;
    while i < |args|
      invariant 0 <= i <= |args| && Parse(args[i..], Devices.Options(timer, disk, console)) == Parse(args, Default)
      decreases |args| - i
    {
      ghost var rest := args[i..];
      assert rest[0] == args[i] && rest[1..] == args[i + 1..];
      if args[i] == "--debug" {
        i := i + 1;
      } else {
        if i + 1 == |args| {
          return Refused;
        }
        assert rest[1] == args[i + 1] && rest[2..] == args[i + 2..];
        var val := Atoi(args[i + 1]);
        if args[i] == "--timer" && !(val < 0 || val > 1024) {
          timer := val + 1;
          if val == 0 {
            timer := 0;
          }
        } else if args[i] == "--console" && !(val < 20 || val > 1024) {
          console := val + 1;
        } else if args[i] == "--disk" && !(val < 20 || val > 1024) {
          disk := val + 1;
        } else {
          return Refused;
        }
        i := i + 2;
      }
    }
    assert args[i..] == [];
    return Parsed(Devices.Options(timer, disk, console));
  }
}
