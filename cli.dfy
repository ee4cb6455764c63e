/**
  Command-line parsing: the process arguments after the runtime and script
  paths are scanned left to right for `--help`/`-h`, `--api-key <key>` and
  `--api-key=<key>`; other words without a leading '-' are ignored and any
  other flag is fatal. Writing the error lines and exiting with status 1 is
  modelled by returning the error.
 */
module Cli {
  import opened Wrappers

  /** What a successful parse yields. */
  datatype Options = Options(apiKey: string, showHelp: bool)

  /** Why parsing stopped the process. */
  datatype CliError = MissingValue | UnknownArgument(arg: string)

  const Initial: Options := Options("", false)

  /** The lines written to standard error before exiting with status 1. */
  function Message(e: CliError): (lines: seq<string>)
    ensures |lines| >= 1
    ensures e.MissingValue? ==> lines == ["Error: --api-key requires a value"]
    ensures e.UnknownArgument? ==>
      lines == ["Error: Unknown argument: " + e.arg, "Use --help for usage information"]
  {
    match e
    case MissingValue => ["Error: --api-key requires a value"]
    case UnknownArgument(arg) => ["Error: Unknown argument: " + arg, "Use --help for usage information"]
  }

  predicate StartsWith(s: string, prefix: string) {
    |prefix| <= |s| && s[..|prefix|] == prefix
  }

  const KeyFlag: string := "--api-key"
  const KeyAssign: string := "--api-key="

  /** `s.split(c)[0]`: the text before the first `c`, or all of `s`. */
  function UpTo(s: string, c: char): (r: string)
    ensures |r| <= |s| && r == s[..|r|]
    ensures c !in r
    ensures |r| < |s| ==> s[|r|] == c
  {
    if s == [] || s[0] == c then [] else [s[0]] + UpTo(s[1..], c)
  }

  /** The key `--api-key=<text>` assigns: `arg.split("=")[1]`, that is the text
      after the first '=' up to the next '='. */
  function AssignedKey(arg: string): string
    requires StartsWith(arg, KeyAssign)
  {
    UpTo(arg[|KeyAssign|..], '=')
  }

  /** The options after scanning `args` from the state `st`, or the error that
      stops the scan. This is the specification of `ParseArgs`. */
  function Scan(args: seq<string>, st: Options): Result<Options, CliError>
    decreases |args|
  {
    if args == [] then Ok(st)
    else
      var arg := args[0];
      if arg == "--help" || arg == "-h" then Scan(args[1..], st.(showHelp := true))
      else if arg == KeyFlag then
        if 1 < |args| then Scan(args[2..], st.(apiKey := args[1])) else Err(MissingValue)
      else if StartsWith(arg, KeyAssign) then Scan(args[1..], st.(apiKey := AssignedKey(arg)))
      else if !StartsWith(arg, "-") then Scan(args[1..], st)
      else Err(UnknownArgument(arg))
  }

  /** `process.argv.slice(2)`. */
  function UserArgs(argv: seq<string>): (args: seq<string>)
    ensures |argv| <= 2 ==> args == []
    ensures |argv| > 2 ==> |args| == |argv| - 2 && forall i :: 0 <= i < |args| ==> args[i] == argv[i + 2]
  {
    if |argv| <= 2 then [] else argv[2..]
  }

  /** `parseArgs()`: one pass over the arguments with an index that a
      `--api-key <key>` pair advances twice. */
  method ParseArgs(argv: seq<string>) returns (r: Result<Options, CliError>)
    ensures r == Scan(UserArgs(argv), Initial)
    ensures |argv| <= 2 ==> r == Ok(Initial)
  {
    var args := UserArgs(argv);
    var apiKey := "";
    var showHelp := false;
    var i := 0;
    while i < |args|
      invariant 0 <= i <= |args|
      invariant Scan(args[i..], Options(apiKey, showHelp)) == Scan(args, Initial)
      decreases |args| - i
    {
      var arg := args[i];
      if arg == "--help" || arg == "-h" {
        showHelp := true;
      } else if arg == KeyFlag {
        if i + 1 < |args| {
          assert args[i..][2..] == args[i + 2..];
          apiKey := args[i + 1];
          i := i + 1;
        } else {
          return Err(MissingValue);
        }
      } else if StartsWith(arg, KeyAssign) {
        apiKey := AssignedKey(arg);
      } else if !StartsWith(arg, "-") {
        // a positional word: ignored
      } else {
        return Err(UnknownArgument(arg));
      }
      assert args[i..][1..] == args[i + 1..];
      i := i + 1;
    }
    assert args[i..] == [];
    return Ok(Options(apiKey, showHelp));
  }

  // ---------------------------------------------------------------------------
  // Properties of the scan

  /** Scanning is compositional: a prefix that scans cleanly hands its state
      on to the rest. */
  lemma {:induction false} ScanAppend(xs: seq<string>, ys: seq<string>, st: Options, o: Options)
    requires Scan(xs, st) == Ok(o)
    ensures Scan(xs + ys, st) == Scan(ys, o)
    decreases |xs|
  {
    if xs != [] {
      var arg := xs[0];
      if arg == "--help" || arg == "-h" {
        assert (xs + ys)[1..] == xs[1..] + ys;
        ScanAppend(xs[1..], ys, st.(showHelp := true), o);
      } else if arg == KeyFlag {
        assert (xs + ys)[2..] == xs[2..] + ys;
        ScanAppend(xs[2..], ys, st.(apiKey := xs[1]), o);
      } else if StartsWith(arg, KeyAssign) {
        assert (xs + ys)[1..] == xs[1..] + ys;
        ScanAppend(xs[1..], ys, st.(apiKey := AssignedKey(arg)), o);
      } else {
        assert (xs + ys)[1..] == xs[1..] + ys;
        ScanAppend(xs[1..], ys, st, o);
      }
    } else {
      assert xs + ys == ys;
    }
  }

  /** Once requested, help stays requested, and only a `--help` or `-h` word
      among the arguments requests it. */
  lemma {:induction false} HelpIsSticky(xs: seq<string>, st: Options, o: Options)
    requires Scan(xs, st) == Ok(o)
    ensures st.showHelp ==> o.showHelp
    ensures o.showHelp ==> st.showHelp || exists i :: 0 <= i < |xs| && (xs[i] == "--help" || xs[i] == "-h")
    decreases |xs|
  {
    if xs != [] {
      var arg := xs[0];
      if arg == "--help" || arg == "-h" {
        HelpIsSticky(xs[1..], st.(showHelp := true), o);
      } else if arg == KeyFlag {
        HelpIsSticky(xs[2..], st.(apiKey := xs[1]), o);
        if o.showHelp && !st.showHelp {
          var i :| 0 <= i < |xs[2..]| && (xs[2..][i] == "--help" || xs[2..][i] == "-h");
          assert xs[i + 2] == xs[2..][i];
        }
      } else if StartsWith(arg, KeyAssign) {
        HelpIsSticky(xs[1..], st.(apiKey := AssignedKey(arg)), o);
        if o.showHelp && !st.showHelp {
          var i :| 0 <= i < |xs[1..]| && (xs[1..][i] == "--help" || xs[1..][i] == "-h");
          assert xs[i + 1] == xs[1..][i];
        }
      } else {
        HelpIsSticky(xs[1..], st, o);
        if o.showHelp && !st.showHelp {
          var i :| 0 <= i < |xs[1..]| && (xs[1..][i] == "--help" || xs[1..][i] == "-h");
          assert xs[i + 1] == xs[1..][i];
        }
      }
    }
  }

  /** The last key given wins, in either form. */
  lemma LastKeyWins(xs: seq<string>, st: Options, o: Options, key: string)
    requires Scan(xs, st) == Ok(o)
    ensures Scan(xs + [KeyFlag, key], st) == Ok(o.(apiKey := key))
    ensures '=' !in key ==> Scan(xs + [KeyAssign + key], st) == Ok(o.(apiKey := key))
  {
    ScanAppend(xs, [KeyFlag, key], st, o);
    ScanAppend(xs, [KeyAssign + key], st, o);
    if '=' !in key {
      var arg := KeyAssign + key;
      assert arg[..|KeyAssign|] == KeyAssign;
      assert arg[|KeyAssign|..] == key;
      UpToWhole(key, '=');
    }
  }

  /** A scanned `--help` or `-h` requests help and the scan goes on with
      the next word. */
  lemma HelpRequested(xs: seq<string>, h: string, ys: seq<string>, st: Options, o: Options)
    requires Scan(xs, st) == Ok(o)
    requires h == "--help" || h == "-h"
    ensures Scan(xs + [h] + ys, st) == Scan(ys, o.(showHelp := true))
  {
    assert xs + [h] + ys == xs + ([h] + ys);
    ScanAppend(xs, [h] + ys, st, o);
    assert ([h] + ys)[1..] == ys;
  }

  /** Only the two key forms change the key: words that are neither leave
      it as it was. */
  lemma {:induction false} KeyKept(ys: seq<string>, st: Options, o: Options)
    requires Scan(ys, st) == Ok(o)
    requires forall i :: 0 <= i < |ys| ==> ys[i] != KeyFlag && !StartsWith(ys[i], KeyAssign)
    ensures o.apiKey == st.apiKey
    decreases |ys|
  {
    if ys != [] {
      if ys[0] == "--help" || ys[0] == "-h" {
        KeyKept(ys[1..], st.(showHelp := true), o);
      } else {
        KeyKept(ys[1..], st, o);
      }
    }
  }

  /** The last key wins wherever it stands, in either form: a key followed
      only by words that are not key forms is the key the scan ends with. */
  lemma LastKeyWinsOverall(xs: seq<string>, key: string, zs: seq<string>, st: Options, o: Options, o2: Options)
    requires Scan(xs, st) == Ok(o)
    requires Scan(zs, o.(apiKey := key)) == Ok(o2)
    requires forall i :: 0 <= i < |zs| ==> zs[i] != KeyFlag && !StartsWith(zs[i], KeyAssign)
    ensures Scan(xs + [KeyFlag, key] + zs, st) == Ok(o2)
    ensures '=' !in key ==> Scan(xs + [KeyAssign + key] + zs, st) == Ok(o2)
    ensures o2.apiKey == key
  {
    assert xs + [KeyFlag, key] + zs == xs + ([KeyFlag, key] + zs);
    if '=' !in key {
      LastKeyWins(xs, st, o, key);
      ScanAppend(xs + [KeyAssign + key], zs, st, o.(apiKey := key));
    }
    ScanAppend(xs, [KeyFlag, key] + zs, st, o);
    assert ([KeyFlag, key] + zs)[2..] == zs;
    KeyKept(zs, o.(apiKey := key), o2);
  }

  /** Text without `c` is kept whole. */
  lemma {:induction false} UpToWhole(s: string, c: char)
    requires c !in s
    ensures UpTo(s, c) == s
  {
    if s != [] {
      UpToWhole(s[1..], c);
    }
  }

  /** The word after `--api-key` is taken as the key whatever it is, even a
      flag: `--api-key --help` sets the key to "--help" and does not request
      help. */
  lemma KeyValueTakenVerbatim(value: string, ys: seq<string>, st: Options)
    ensures Scan([KeyFlag, value] + ys, st) == Scan(ys, st.(apiKey := value))
  {
  }

  /** `--api-key=` followed by text with a further '=' keeps only the text up
      to that '=': `--api-key=a=b` sets the key to "a". */
  lemma AssignedKeyStopsAtEquals(before: string, after: string, st: Options)
    requires '=' !in before
    ensures Scan([KeyAssign + before + "=" + after], st) == Ok(st.(apiKey := before))
  {
    var arg := KeyAssign + before + "=" + after;
    assert arg[..|KeyAssign|] == KeyAssign;
    assert arg[|KeyAssign|..] == before + "=" + after;
    UpToPrefix(before, after, '=');
  }

  lemma {:induction false} UpToPrefix(before: string, after: string, c: char)
    requires c !in before
    ensures UpTo(before + [c] + after, c) == before
  {
    if before != [] {
      assert (before + [c] + after)[1..] == before[1..] + [c] + after;
      UpToPrefix(before[1..], after, c);
    }
  }

  /** A dangling `--api-key` is fatal. */
  lemma DanglingKeyFlag(xs: seq<string>, st: Options, o: Options)
    requires Scan(xs, st) == Ok(o)
    ensures Scan(xs + [KeyFlag], st) == Err(MissingValue)
  {
    ScanAppend(xs, [KeyFlag], st, o);
  }

  /** Words without a leading '-' are skipped wherever they appear. */
  lemma PositionalIgnored(xs: seq<string>, word: string, ys: seq<string>, st: Options, o: Options)
    requires Scan(xs, st) == Ok(o)
    requires !StartsWith(word, "-")
    ensures Scan(xs + [word] + ys, st) == Scan(xs + ys, st)
  {
    assert xs + [word] + ys == xs + ([word] + ys);
    ScanAppend(xs, [word] + ys, st, o);
    ScanAppend(xs, ys, st, o);
    assert ([word] + ys)[1..] == ys;
  }

  /** Any other flag stops the scan with its own text in the error, whatever
      follows it. */
  lemma UnknownFlagFatal(xs: seq<string>, flag: string, ys: seq<string>, st: Options, o: Options)
    requires Scan(xs, st) == Ok(o)
    requires StartsWith(flag, "-")
    requires flag != "--help" && flag != "-h" && flag != KeyFlag && !StartsWith(flag, KeyAssign)
    ensures Scan(xs + [flag] + ys, st) == Err(UnknownArgument(flag))
  {
    assert xs + [flag] + ys == xs + ([flag] + ys);
    ScanAppend(xs, [flag] + ys, st, o);
  }
}
