// Command-line flag scanning and the request the execute command builds
// (src/cli.ts). Reading the process arguments, printing and exiting are not
// part of the model; JSON parsing is a parameter.

module Cli {
  import opened JsValue
  import opened Types

  /** The token is the long flag, or the short one when a non-empty short flag is given. */
  predicate IsFlag(token: string, long: string, short: Option<string>)
  {
    token == long || (Present(short) && token == short.value)
  }

  /** `token.startsWith(long + "=")`: only the long flag has an inline form. */
  predicate HasInlineValue(token: string, long: string)
  {
    |long| + 1 <= |token| && token[..|long| + 1] == long + "="
  }

  predicate Matches(token: string, long: string, short: Option<string>)
  {
    IsFlag(token, long, short) || HasInlineValue(token, long)
  }

  /**
   * What a matching token at `i` yields: the next token verbatim (absent when
   * the flag is last), or the text after `long=` (possibly empty).
   */
  function ValueAt(args: seq<string>, i: nat, long: string, short: Option<string>): (r: Option<string>)
    requires i < |args| && Matches(args[i], long, short)
    ensures IsFlag(args[i], long, short) ==> (r.Some? <==> i + 1 < |args|)
    ensures IsFlag(args[i], long, short) && i + 1 < |args| ==> r == Some(args[i + 1])
    ensures !IsFlag(args[i], long, short) ==> r.Some? && args[i] == long + "=" + r.value
  {
    if IsFlag(args[i], long, short) then
      if i + 1 < |args| then Some(args[i + 1]) else None
    else
      assert args[i] == args[i][..|long| + 1] + args[i][|long| + 1..];
      Some(args[i][|long| + 1..])
  }

  /** The scan of `getArg` from position `i` on. */
  function ScanFrom(args: seq<string>, long: string, short: Option<string>, i: nat): Option<string>
    decreases |args| - i
  {
    if i >= |args| then None
    else if Matches(args[i], long, short) then ValueAt(args, i, long, short)
    else ScanFrom(args, long, short, i + 1)
  }

  /** The value `getArg(args, long, short)` returns. */
  function ArgValue(args: seq<string>, long: string, short: Option<string>): Option<string>
  {
    ScanFrom(args, long, short, 0)
  }

  /** getArg: scan the tokens in order and return at the first one that matches. */
  method GetArg(args: seq<string>, long: string, short: Option<string>) returns (r: Option<string>)
    ensures r == ArgValue(args, long, short)
  {
    for i := 0 to |args|
      invariant ScanFrom(args, long, short, i) == ArgValue(args, long, short)
    {
      if args[i] == long || (short.Some? && short.value != "" && args[i] == short.value) {
        if i + 1 < |args| {
          return Some(args[i + 1]);
        }
        return None;
      }
      if |long| + 1 <= |args[i]| && args[i][..|long| + 1] == long + "=" {
        return Some(args[i][|long| + 1..]);
      }
    }
    return None;
  }

  lemma {:induction false} ScanSkipsTo(args: seq<string>, long: string, short: Option<string>, i: nat, k: nat)
    requires i <= k < |args| && Matches(args[k], long, short)
    requires forall j :: i <= j < k ==> !Matches(args[j], long, short)
    ensures ScanFrom(args, long, short, i) == ValueAt(args, k, long, short)
    decreases k - i
  {
    if i < k {
      ScanSkipsTo(args, long, short, i + 1, k);
    }
  }

  lemma {:induction false} ScanFindsNothing(args: seq<string>, long: string, short: Option<string>, i: nat)
    requires forall j :: i <= j < |args| ==> !Matches(args[j], long, short)
    ensures ScanFrom(args, long, short, i) == None
    decreases |args| - i
  {
    if i < |args| {
      ScanFindsNothing(args, long, short, i + 1);
    }
  }

  /** The first matching token decides; later occurrences are ignored. */
  lemma FirstMatchWins(args: seq<string>, long: string, short: Option<string>, k: nat)
    requires k < |args| && Matches(args[k], long, short)
    requires forall j :: 0 <= j < k ==> !Matches(args[j], long, short)
    ensures ArgValue(args, long, short) == ValueAt(args, k, long, short)
  {
    ScanSkipsTo(args, long, short, 0, k);
  }

  /** With no matching token the flag is undefined. */
  lemma NoMatchIsAbsent(args: seq<string>, long: string, short: Option<string>)
    requires forall j :: 0 <= j < |args| ==> !Matches(args[j], long, short)
    ensures ArgValue(args, long, short) == None
  {
    ScanFindsNothing(args, long, short, 0);
  }

  lemma {:induction false} ScanFoundAt(args: seq<string>, long: string, short: Option<string>, i: nat)
    requires ScanFrom(args, long, short, i).Some?
    ensures exists k :: i <= k < |args| && Matches(args[k], long, short)
                        && (forall j :: i <= j < k ==> !Matches(args[j], long, short))
                        && ScanFrom(args, long, short, i) == ValueAt(args, k, long, short)
    decreases |args| - i
  {
    if !Matches(args[i], long, short) {
      ScanFoundAt(args, long, short, i + 1);
      var k :| i + 1 <= k < |args| && Matches(args[k], long, short)
               && (forall j :: i + 1 <= j < k ==> !Matches(args[j], long, short))
               && ScanFrom(args, long, short, i + 1) == ValueAt(args, k, long, short);
      assert forall j :: i <= j < k ==> !Matches(args[j], long, short);
    }
  }

  /** A value is found only at the first matching token. */
  lemma FoundOnlyAtFirstMatch(args: seq<string>, long: string, short: Option<string>)
    requires ArgValue(args, long, short).Some?
    ensures exists k :: 0 <= k < |args| && Matches(args[k], long, short)
                        && (forall j :: 0 <= j < k ==> !Matches(args[j], long, short))
                        && ArgValue(args, long, short) == ValueAt(args, k, long, short)
  {
    ScanFoundAt(args, long, short, 0);
  }

  /** The short flag has no `-p=value` form; a flag's value is taken verbatim, even a flag. */
  lemma FlagForms()
    ensures ArgValue(["-p=x"], "--pipeline", Some("-p")) == None
    ensures ArgValue(["--pipeline=x"], "--pipeline", Some("-p")) == Some("x")
    ensures ArgValue(["--pipeline="], "--pipeline", Some("-p")) == Some("")
    ensures ArgValue(["-p", "--input"], "--pipeline", Some("-p")) == Some("--input")
    ensures ArgValue(["--input", "a", "--pipeline"], "--pipeline", Some("-p")) == None
    ensures ArgValue(["-p", "a", "--pipeline", "b"], "--pipeline", Some("-p")) == Some("a")
  {
  }

  /** The text the execute command parses as its input: `--input`/`-i`, else "{}". */
  function InputJson(args: seq<string>): string
  {
    ArgValue(args, "--input", Some("-i")).GetOr("{}")
  }

  /**
   * The request the execute command builds. `parseJson` stands for
   * `JSON.parse` (None when it throws, which ends the command). The hints are
   * always sent and the tier is whatever string was given.
   */
  method ExecuteCommandRequest(args: seq<string>, parseJson: string -> Option<Value>) returns (r: Result<AutomationRequest>)
    ensures parseJson(InputJson(args)).None? ==> r == Err(Error("Invalid JSON input"))
    ensures parseJson(InputJson(args)).Some? ==>
              && r.Ok?
              && r.value.input == parseJson(InputJson(args)).value
              && r.value.pipelineId == ArgValue(args, "--pipeline", Some("-p"))
              && r.value.workflowId.None? && r.value.options.None?
              && r.value.routingHints
                 == Some(RoutingHints(ArgValue(args, "--provider", None), ArgValue(args, "--tier", None), None, None))
  {
    var pipelineId := GetArg(args, "--pipeline", Some("-p"));
    var inputArg := GetArg(args, "--input", Some("-i"));
    var inputJson := if inputArg.Some? then inputArg.value else "{}";
    var provider := GetArg(args, "--provider", None);
    var tier := GetArg(args, "--tier", None);
    var input := parseJson(inputJson);
    if input.None? {
      return Err(Error("Invalid JSON input"));
    }
    r := Ok(AutomationRequest(pipelineId, None, input.value, Some(RoutingHints(provider, tier, None, None)), None));
  }

  /** Without `--input`/`-i` the command parses "{}". */
  lemma InputDefaultsToEmptyObject(args: seq<string>)
    requires forall j :: 0 <= j < |args| ==> !Matches(args[j], "--input", Some("-i"))
    ensures InputJson(args) == "{}"
  {
    NoMatchIsAbsent(args, "--input", Some("-i"));
  }

  /** `--tier` is not checked: an undeclared tier reaches the request as given. */
  lemma TierIsUnchecked()
    ensures ArgValue(["--tier", "turbo"], "--tier", None) == Some("turbo")
    ensures !DeclaredTier(RoutingHints(None, Some("turbo"), None, None))
  {
  }
}
