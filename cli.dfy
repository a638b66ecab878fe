/**
 * `wxa-cli` start-up: a version flag anywhere in the arguments is turned into
 * the `version` sub-command by putting "version" in front of the arguments.
 */
module Cli {

  /** The flags that ask for the version. */
  predicate IsVersionFlag(arg: string) {
    arg == "-v" || arg == "-version" || arg == "--version"
  }

  predicate HasVersionFlag(args: seq<string>) {
    exists i :: 0 <= i < |args| && IsVersionFlag(args[i])
  }

  /**
   * The loop in `main` over the arguments: at the first version flag it
   * allocates a slice one longer, writes "version" at index 0, copies the
   * arguments behind it, replaces the arguments with it and stops.
   */
  method RewriteVersionFlag(args: seq<string>) returns (newArgs: seq<string>)
    ensures HasVersionFlag(args) ==> newArgs == ["version"] + args
    ensures !HasVersionFlag(args) ==> newArgs == args
    ensures |newArgs| == |args| + (if HasVersionFlag(args) then 1 else 0)
  {
    newArgs := args;
    for k := 0 to |args|
      invariant newArgs == args
      invariant forall j :: 0 <= j < k ==> !IsVersionFlag(args[j])
    {
      if IsVersionFlag(args[k]) {
        var buffer := new string[|newArgs| + 1];
        buffer[0] := "version";
        forall j | 0 <= j < |newArgs| {
          buffer[j + 1] := newArgs[j];
        }
        assert buffer[..] == ["version"] + args;
        newArgs := buffer[..];
        break;
      }
    }
  }
}
