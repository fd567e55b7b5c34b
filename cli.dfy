/** The front end of `s cli`: how the process arguments are split between the
    option parser and the free-form method parameters that are handed on
    through the environment variable `temp_params`. */
module CliArgs {
  import opened Wrappers

  /** The option name commander is given in place of a help flag that
      follows the component name. */
  const HelpOption: string := "cli-help-options"

  predicate IsHelpFlag(s: string) {
    s == "-h" || s == "--help"
  }

  /** The options of `s cli` that take a value: `-a/--aliasName` and
      `-p/--props`. */
  predicate IsOptionFlag(s: string) {
    s == "-a" || s == "--aliasName" || s == "-p" || s == "--props"
  }

  /** The subcommand registered before parsing: one named after `argv[2]`,
      unless that argument is missing, empty (falsy) or a help flag. */
  function SubcommandName(argv: seq<string>): (r: Option<string>)
    ensures r.Some? <==> |argv| > 2 && argv[2] != "" && !IsHelpFlag(argv[2])
    ensures r.Some? ==> r.value == argv[2]
  {
    if |argv| > 2 && argv[2] != "" && !IsHelpFlag(argv[2]) then Some(argv[2]) else None
  }

  /** The help short-circuit: no arguments after the script, or only a help
      flag. */
  predicate WantsHelp(argv: seq<string>) {
    |argv| == 2 || (|argv| == 3 && IsHelpFlag(argv[2]))
  }

  /** `argv[3]`, the argument whose first occurrence starts the method
      parameters; `undefined` (equal to no string) when there is none. */
  function StartMarker(argv: seq<string>): (r: Option<string>) {
    if |argv| > 3 then Some(argv[3]) else None
  }

  // ---------------------------------------------------------------------
  // The splitting loop as a fold over the arguments

  /** The loop variables after some prefix of the arguments: the `start`
      flag, `lastArgs`, and the two arrays being filled. */
  datatype Split = Split(started: bool, last: Option<string>, options: seq<string>, params: seq<string>)

  const Initial: Split := Split(false, None, [], [])

  /** `Array.prototype.pop` for its effect: an empty array stays empty. */
  function Pop(s: seq<string>): (r: seq<string>) {
    if |s| == 0 then [] else s[..|s| - 1]
  }

  /** The loop's condition for handing argument `a` to the option parser. */
  predicate ToOptions(st: Split, a: string) {
    !st.started || (st.last.Some? && IsOptionFlag(st.last.value)) || IsOptionFlag(a)
  }

  /** One iteration of the loop, as written: every occurrence of a help-flag
      marker replaces the LAST option, wherever the occurrence itself went. */
  function Step(marker: Option<string>, st: Split, a: string): (r: Split) {
    var toOptions := ToOptions(st, a);
    var options := if toOptions then st.options + [a] else st.options;
    var params := if toOptions then st.params else st.params + [a];
    var hit := marker == Some(a);
    Split(st.started || hit, Some(a),
          if hit && IsHelpFlag(a) then Pop(options) + [HelpOption] else options,
          params)
  }

  /** The loop run over `args` with the given start marker. */
  function Scan(marker: Option<string>, args: seq<string>): (r: Split)
    decreases |args|
  {
    if |args| == 0 then Initial
    else Step(marker, Scan(marker, args[..|args| - 1]), args[|args| - 1])
  }

  /** The split of the whole process argument list. */
  function SplitArgv(argv: seq<string>): (r: Split) {
    Scan(StartMarker(argv), argv)
  }

  /** The loop itself: the arguments for the option parser and the method
      parameters, every argument accounted for by length. */
  method PartitionArgv(argv: seq<string>) returns (processArgv: seq<string>, params: seq<string>)
    ensures processArgv == SplitArgv(argv).options && params == SplitArgv(argv).params
    ensures |processArgv| + |params| == |argv|
  {
    var tempCommand := StartMarker(argv);
    var start := false;
    processArgv, params := [], [];
    var lastArgs: Option<string> := None;
    for i := 0 to |argv|
      invariant Scan(tempCommand, argv[..i]) == Split(start, lastArgs, processArgv, params)
      invariant |processArgv| + |params| == i
      invariant start ==> processArgv != []
    {
      var arg := argv[i];
      if !start || (lastArgs.Some? && IsOptionFlag(lastArgs.value)) || IsOptionFlag(arg) {
        processArgv := processArgv + [arg];
      } else {
        params := params + [arg];
      }
      if tempCommand == Some(arg) {
        start := true;
        if IsHelpFlag(tempCommand.value) {
          processArgv := Pop(processArgv) + [HelpOption];
        }
      }
      lastArgs := Some(arg);
      assert argv[..i + 1][..i] == argv[..i];
    }
    assert argv[..|argv|] == argv;
  }

  /** Scanning one more argument is one more step. */
  lemma ScanSnoc(marker: Option<string>, args: seq<string>, a: string)
    ensures Scan(marker, args + [a]) == Step(marker, Scan(marker, args), a)
  {
    assert (args + [a])[..|args|] == args;
  }

  /** What the loop variables mean after a prefix: `start` records whether
      the marker has been seen, `lastArgs` is the previous argument, and no
      argument is gained or lost in number (the help rewrite pops and pushes
      on an array that is never empty once the marker is seen). */
  lemma {:induction false} ScanFacts(marker: Option<string>, args: seq<string>)
    ensures Scan(marker, args).started == (marker.Some? && marker.value in args)
    ensures Scan(marker, args).last == if |args| == 0 then None else Some(args[|args| - 1])
    ensures |Scan(marker, args).options| + |Scan(marker, args).params| == |args|
    ensures Scan(marker, args).started ==> |Scan(marker, args).options| > 0
  {
    if |args| > 0 {
      var n := |args| - 1;
      ScanFacts(marker, args[..n]);
      assert args == args[..n] + [args[n]];
    }
  }

  /** Until the start marker appears, every argument goes to the option
      parser unchanged and there are no method parameters. */
  lemma {:induction false} ScanBeforeStart(marker: Option<string>, args: seq<string>)
    requires !(marker.Some? && marker.value in args)
    ensures Scan(marker, args).options == args
    ensures Scan(marker, args).params == []
    ensures !Scan(marker, args).started
  {
    if |args| > 0 {
      var n := |args| - 1;
      assert args == args[..n] + [args[n]];
      ScanBeforeStart(marker, args[..n]);
    }
  }

  /** With fewer than four arguments there is no start marker: everything is
      handed to the option parser and no parameters are collected. */
  lemma SplitShortArgv(argv: seq<string>)
    requires |argv| < 4
    ensures SplitArgv(argv).options == argv
    ensures SplitArgv(argv).params == []
  {
    ScanBeforeStart(None, argv);
  }

  // ---------------------------------------------------------------------
  // An index-based reference for the split

  /** Whether `args[i]` is meant for the option parser: every argument up to
      and including the first occurrence of the marker is, and after it only
      a flag that takes a value and the argument right after such a flag. */
  predicate Routed(marker: Option<string>, args: seq<string>, i: nat)
    requires i < |args|
  {
    !(marker.Some? && marker.value in args[..i])
    || (i > 0 && IsOptionFlag(args[i - 1]))
    || IsOptionFlag(args[i])
  }

  /** An occurrence of a help-flag marker is shown to the option parser as
      `cli-help-options`; every other argument as itself. */
  function Rename(marker: Option<string>, a: string): (r: string) {
    if marker == Some(a) && IsHelpFlag(a) then HelpOption else a
  }

  /** The arguments meant for the option parser, in order, renamed. */
  function Kept(marker: Option<string>, args: seq<string>): (r: seq<string>)
    decreases |args|
  {
    if |args| == 0 then []
    else
      var n := |args| - 1;
      Kept(marker, args[..n]) + (if Routed(marker, args, n) then [Rename(marker, args[n])] else [])
  }

  /** The arguments meant as method parameters, in order. */
  function Passed(marker: Option<string>, args: seq<string>): (r: seq<string>)
    decreases |args|
  {
    if |args| == 0 then []
    else
      var n := |args| - 1;
      Passed(marker, args[..n]) + (if Routed(marker, args, n) then [] else [args[n]])
  }

  /** Every occurrence of a help-flag marker is routed to the option parser,
      so the help rewrite only ever replaces the occurrence itself. */
  predicate RewriteSafe(marker: Option<string>, args: seq<string>) {
    forall i :: 0 <= i < |args| && marker == Some(args[i]) && IsHelpFlag(args[i]) ==> Routed(marker, args, i)
  }

  /** Routing an argument depends only on the arguments up to it. */
  lemma RoutedPrefix(marker: Option<string>, args: seq<string>, m: nat, i: nat)
    requires i < m <= |args|
    ensures Routed(marker, args[..m], i) == Routed(marker, args, i)
  {
    assert args[..m][..i] == args[..i];
  }

  /** The arguments whose count renaming cannot change: anything but a
      help-flag marker itself and, when such a marker is renamed, the literal
      `cli-help-options` it is renamed to. */
  predicate Counted(marker: Option<string>, a: string) {
    Rename(marker, a) == a && (a != HelpOption || !(marker.Some? && IsHelpFlag(marker.value)))
  }

  /** Renaming merges no counted argument with another. */
  lemma RenameCounts(marker: Option<string>, x: string, a: string)
    requires Counted(marker, a)
    ensures multiset{Rename(marker, x)}[a] == multiset{x}[a]
  {
  }

  /** The multiset of a non-empty sequence splits off its last element. */
  lemma MultisetSnoc<T>(s: seq<T>)
    requires |s| > 0
    ensures multiset(s) == multiset(s[..|s| - 1]) + multiset{s[|s| - 1]}
  {
    assert s == s[..|s| - 1] + [s[|s| - 1]];
  }

  /** The reference's lists together are as long as the input. */
  lemma {:induction false} ReferenceLength(marker: Option<string>, args: seq<string>)
    ensures |Kept(marker, args)| + |Passed(marker, args)| == |args|
  {
    if |args| > 0 {
      ReferenceLength(marker, args[..|args| - 1]);
    }
  }

  /** The last argument adds exactly its own occurrence to the reference's
      lists, unless it is the renamed help marker. */
  lemma ReferenceStepCounts(marker: Option<string>, args: seq<string>, a: string)
    requires |args| > 0 && Counted(marker, a)
    ensures var pre := args[..|args| - 1];
      multiset(Kept(marker, args))[a] + multiset(Passed(marker, args))[a] + multiset(pre)[a]
        == multiset(Kept(marker, pre))[a] + multiset(Passed(marker, pre))[a] + multiset(args)[a]
  {
    var n := |args| - 1;
    var pre, x := args[..n], args[n];
    var kept: seq<string> := if Routed(marker, args, n) then [Rename(marker, x)] else [];
    var passed: seq<string> := if Routed(marker, args, n) then [] else [x];
    assert Kept(marker, args) == Kept(marker, pre) + kept;
    assert Passed(marker, args) == Passed(marker, pre) + passed;
    RenameCounts(marker, x, a);
    MultisetSnoc(args);
  }

  /** The reference accounts for every argument: each counted argument
      occurs in the two lists together exactly as often as in the input. */
  lemma {:induction false} ReferenceAccountsForEveryArgument(marker: Option<string>, args: seq<string>, a: string)
    requires Counted(marker, a)
    ensures multiset(Kept(marker, args))[a] + multiset(Passed(marker, args))[a] == multiset(args)[a]
  {
    if |args| > 0 {
      ReferenceAccountsForEveryArgument(marker, args[..|args| - 1], a);
      ReferenceStepCounts(marker, args, a);
    }
  }

  /** The method parameters are the reference's on every input: the help
      rewrite only ever pops and pushes on the option list. */
  lemma {:induction false} ScanParamsMatchReference(marker: Option<string>, args: seq<string>)
    ensures Scan(marker, args).params == Passed(marker, args)
  {
    if |args| > 0 {
      var n := |args| - 1;
      var pre := args[..n];
      ScanParamsMatchReference(marker, pre);
      ScanFacts(marker, pre);
      assert ToOptions(Scan(marker, pre), args[n]) == Routed(marker, args, n);
    }
  }

  /** The option list as written agrees with the reference whenever no
      occurrence of a help-flag marker lands among the method parameters; in
      particular whenever the marker is not a help flag. */
  lemma {:induction false} ScanMatchesReference(marker: Option<string>, args: seq<string>)
    requires RewriteSafe(marker, args)
    ensures Scan(marker, args).options == Kept(marker, args)
    ensures Scan(marker, args).params == Passed(marker, args)
  {
    ScanParamsMatchReference(marker, args);
    if |args| > 0 {
      var n := |args| - 1;
      var pre := args[..n];
      forall i | 0 <= i < n && marker == Some(pre[i]) && IsHelpFlag(pre[i])
        ensures Routed(marker, pre, i)
      {
        RoutedPrefix(marker, args, n, i);
      }
      ScanMatchesReference(marker, pre);
      ScanFacts(marker, pre);
      assert ToOptions(Scan(marker, pre), args[n]) == Routed(marker, args, n);
    }
  }

  /** Every argument up to and including the first occurrence of the marker
      reaches the option parser in its original order (a help-flag marker as
      `cli-help-options`), whatever follows it. */
  lemma {:induction false} ScanKeepsPrefix(marker: Option<string>, args: seq<string>, k: nat)
    requires k < |args| && marker == Some(args[k]) && args[k] !in args[..k]
    ensures |Scan(marker, args).options| > k
    ensures Scan(marker, args).options[..k + 1] == args[..k] + [Rename(marker, args[k])]
  {
    var n := |args| - 1;
    var pre, a := args[..n], args[n];
    var st := Scan(marker, pre);
    var prefix := args[..k] + [Rename(marker, args[k])];
    assert Scan(marker, args) == Step(marker, st, a);
    if n == k {
      ScanBeforeStart(marker, pre);
      assert ToOptions(st, a) && st.options + [a] == pre + [a];
      assert Pop(pre + [a]) == pre;
    } else {
      assert pre[..k] == args[..k] && pre[k] == args[k];
      ScanKeepsPrefix(marker, pre, k);
      var grown := if ToOptions(st, a) then st.options + [a] else st.options;
      assert grown[..k + 1] == st.options[..k + 1] == prefix;
      if marker == Some(a) && IsHelpFlag(a) {
        if |grown| == k + 1 {
          assert grown == prefix && Rename(marker, args[k]) == HelpOption;
          assert Pop(grown) + [HelpOption] == grown;
        } else {
          assert Pop(grown)[..k + 1] == prefix;
        }
      }
    }
  }

  // ---------------------------------------------------------------------
  // The help rewrite as evidently intended

  /** One iteration with the help rewrite applied only to the argument just
      pushed to the option list. */
  function IntendedStep(marker: Option<string>, st: Split, a: string): (r: Split) {
    var toOptions := ToOptions(st, a);
    var options := if toOptions then st.options + [a] else st.options;
    var params := if toOptions then st.params else st.params + [a];
    var hit := marker == Some(a);
    Split(st.started || hit, Some(a),
          if hit && IsHelpFlag(a) && toOptions then Pop(options) + [HelpOption] else options,
          params)
  }

  function IntendedScan(marker: Option<string>, args: seq<string>): (r: Split)
    decreases |args|
  {
    if |args| == 0 then Initial
    else IntendedStep(marker, IntendedScan(marker, args[..|args| - 1]), args[|args| - 1])
  }

  /** The corrected loop is the reference on every input. */
  lemma {:induction false} IntendedScanMatchesReference(marker: Option<string>, args: seq<string>)
    ensures IntendedScan(marker, args).started == (marker.Some? && marker.value in args)
    ensures IntendedScan(marker, args).last == if |args| == 0 then None else Some(args[|args| - 1])
    ensures IntendedScan(marker, args).options == Kept(marker, args)
    ensures IntendedScan(marker, args).params == Passed(marker, args)
  {
    if |args| > 0 {
      var n := |args| - 1;
      var pre := args[..n];
      IntendedScanMatchesReference(marker, pre);
      assert args == pre + [args[n]];
      assert ToOptions(IntendedScan(marker, pre), args[n]) == Routed(marker, args, n);
    }
  }

  /** The corrected loop loses no argument: the lists together are as long
      as the input, and each counted argument occurs in them exactly as often
      as in the input. */
  lemma IntendedScanKeepsEveryArgument(marker: Option<string>, args: seq<string>, a: string)
    requires Counted(marker, a)
    ensures |IntendedScan(marker, args).options| + |IntendedScan(marker, args).params| == |args|
    ensures multiset(IntendedScan(marker, args).options)[a] + multiset(IntendedScan(marker, args).params)[a]
              == multiset(args)[a]
  {
    IntendedScanMatchesReference(marker, args);
    ReferenceLength(marker, args);
    ReferenceAccountsForEveryArgument(marker, args, a);
  }

  /** The loop state of the counterexample below just before its last
      argument. */
  lemma StrayHelpPrefix()
    ensures Scan(Some("-h"), ["node", "s", "fc-api", "-h", "-a", "x"])
         == Split(true, Some("x"), ["node", "s", "fc-api", HelpOption, "-a", "x"], [])
  {
    var m := Some("-h");
    var a3: seq<string> := ["node", "s", "fc-api"];
    var a4, a5, a6 := a3 + ["-h"], a3 + ["-h", "-a"], a3 + ["-h", "-a", "x"];
    assert Scan(m, a4) == Split(true, Some("-h"), a3 + [HelpOption], []) by {
      ScanBeforeStart(m, a3);
      ScanSnoc(m, a3, "-h");
      assert Pop(a3 + ["-h"]) == a3;
    }
    assert Scan(m, a5) == Split(true, Some("-a"), a3 + [HelpOption, "-a"], []) by {
      assert a5 == a4 + ["-a"];
      ScanSnoc(m, a4, "-a");
    }
    assert a6 == a5 + ["x"];
    ScanSnoc(m, a5, "x");
    assert a6 == ["node", "s", "fc-api", "-h", "-a", "x"];
    assert a3 + [HelpOption, "-a", "x"] == ["node", "s", "fc-api", HelpOption, "-a", "x"];
  }

  /** As written, the argument list `node s fc-api -h -a x -h` (whose
      `argv[3]` is `-h`) loses `x`: the second `-h` goes to the parameters,
      and the rewrite then pops `x` off the option list. */
  lemma StrayHelpRewriteLosesArgument()
    ensures var argv := ["node", "s", "fc-api", "-h", "-a", "x", "-h"];
      && SplitArgv(argv).options == ["node", "s", "fc-api", HelpOption, "-a", HelpOption]
      && SplitArgv(argv).params == ["-h"]
      && "x" in argv && "x" !in SplitArgv(argv).options && "x" !in SplitArgv(argv).params
  {
    var a6: seq<string> := ["node", "s", "fc-api", "-h", "-a", "x"];
    var argv := ["node", "s", "fc-api", "-h", "-a", "x", "-h"];
    StrayHelpPrefix();
    assert argv == a6 + ["-h"] && StartMarker(argv) == Some("-h");
    ScanSnoc(Some("-h"), a6, "-h");
    assert Pop(["node", "s", "fc-api", HelpOption, "-a", "x"]) == ["node", "s", "fc-api", HelpOption, "-a"];
    assert argv[5] == "x";
  }

  // ---------------------------------------------------------------------
  // Handing the parameters on

  /** `xs.join(sep)`. */
  function Join(xs: seq<string>, sep: char): (r: string)
    decreases |xs|
  {
    if |xs| == 0 then ""
    else if |xs| == 1 then xs[0]
    else xs[0] + [sep] + Join(xs[1..], sep)
  }

  /** `s.split(sep)` for a one-character separator: the pieces between the
      separators, never fewer than one. */
  function SplitOn(s: string, sep: char): (r: seq<string>)
    ensures |r| > 0
    decreases |s|
  {
    if |s| == 0 then [""]
    else
      var rest := SplitOn(s[1..], sep);
      if s[0] == sep then [""] + rest else [[s[0]] + rest[0]] + rest[1..]
  }

  /** A piece without separators glues onto the first piece of what follows. */
  lemma {:induction false} SplitOnPrefix(a: string, s: string, sep: char)
    requires sep !in a
    ensures SplitOn(a + s, sep) == [a + SplitOn(s, sep)[0]] + SplitOn(s, sep)[1..]
  {
    if |a| > 0 {
      assert (a + s)[1..] == a[1..] + s;
      SplitOnPrefix(a[1..], s, sep);
      assert [a[0]] + (a[1..] + SplitOn(s, sep)[0]) == a + SplitOn(s, sep)[0];
    } else {
      var r := SplitOn(s, sep);
      assert a + s == s && a + r[0] == r[0];
      assert r == [r[0]] + r[1..];
    }
  }

  /** Splitting the joined parameters gives them back, provided none of them
      contains the separator. */
  lemma {:induction false} JoinSplitRoundTrip(xs: seq<string>, sep: char)
    requires |xs| > 0
    requires forall i :: 0 <= i < |xs| ==> sep !in xs[i]
    ensures SplitOn(Join(xs, sep), sep) == xs
  {
    if |xs| == 1 {
      SplitOnPrefix(xs[0], "", sep);
      assert xs[0] + "" == xs[0];
    } else {
      var rest := Join(xs[1..], sep);
      JoinSplitRoundTrip(xs[1..], sep);
      assert xs[0] + [sep] + rest == xs[0] + ([sep] + rest);
      SplitOnPrefix(xs[0], [sep] + rest, sep);
      assert ([sep] + rest)[0] == sep && ([sep] + rest)[1..] == rest;
      assert SplitOn([sep] + rest, sep) == [""] + SplitOn(rest, sep);
      assert xs[0] + "" == xs[0];
      assert xs == [xs[0]] + xs[1..];
    }
  }

  /** The new value of `process.env.temp_params`: the parameters joined by
      single spaces when there are any, otherwise the previous value. */
  function TempParams(params: seq<string>, prior: Option<string>): (r: Option<string>) {
    if |params| != 0 then Some(Join(params, ' ')) else prior
  }

  /** No parameter contains a space. */
  predicate SpaceFree(params: seq<string>) {
    forall i :: 0 <= i < |params| ==> ' ' !in params[i]
  }

  /** `temp_params` is written exactly when there are parameters, and then
      the parameters can be read back from it when none contains a space. */
  lemma TempParamsRecoverParams(params: seq<string>, prior: Option<string>)
    ensures params == [] ==> TempParams(params, prior) == prior
    ensures params != [] ==> TempParams(params, prior) == Some(Join(params, ' '))
    ensures params != [] && SpaceFree(params) ==> SplitOn(TempParams(params, prior).value, ' ') == params
  {
    if params != [] && SpaceFree(params) {
      JoinSplitRoundTrip(params, ' ');
    }
  }

  // ---------------------------------------------------------------------
  // The process the front end runs in

  /** The parts of the Node.js process the front end reads and writes. */
  class Process {
    var argv: seq<string>
    var tempParams: Option<string>

    constructor(argv: seq<string>, tempParams: Option<string>)
      ensures this.argv == argv && this.tempParams == tempParams
    {
      this.argv := argv;
      this.tempParams := tempParams;
    }
  }

  /** What the front end hands to commander: its help, or the argument list
      to parse. */
  datatype CliOutcome = ShowHelp | ParseOptions(argv: seq<string>)

  /** The front end up to the call of the option parser: register the
      subcommand, short-circuit to help, otherwise split the arguments, store
      the parameters in `temp_params` and replace `process.argv`. */
  method Launch(proc: Process) returns (subcommand: Option<string>, outcome: CliOutcome)
    modifies proc
    ensures subcommand == SubcommandName(old(proc.argv))
    ensures WantsHelp(old(proc.argv)) ==>
      outcome == ShowHelp && proc.argv == old(proc.argv) && proc.tempParams == old(proc.tempParams)
    ensures !WantsHelp(old(proc.argv)) ==>
      && outcome == ParseOptions(SplitArgv(old(proc.argv)).options)
      && proc.argv == SplitArgv(old(proc.argv)).options
      && proc.tempParams == TempParams(SplitArgv(old(proc.argv)).params, old(proc.tempParams))
  {
    subcommand := SubcommandName(proc.argv);
    if WantsHelp(proc.argv) {
      outcome := ShowHelp;
    } else {
      var processArgv, params := PartitionArgv(proc.argv);
      if |params| != 0 {
        proc.tempParams := Some(Join(params, ' '));
      }
      proc.argv := processArgv;
      outcome := ParseOptions(processArgv);
    }
  }
}
