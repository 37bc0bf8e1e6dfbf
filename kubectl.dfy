/** The kubectl argument vectors that the drenv helpers hand to the command
    runner. Only the argv is modelled; running it is not.

    Optional Python arguments (None or a string) are Option<string>, and a
    Python `if x:` on them is Truthy(x): present and not empty. */
module Kubectl {
  import opened Optional

  /** The jsonpath template that prints a newline: the six characters
      open brace, quote, backslash, n, quote, close brace. */
  const JsonpathNewline: string := "{\"\\n\"}"

  /** Python truth of an optional string. */
  predicate Truthy(s: Option<string>)
  {
    s.Some? && s.value != ""
  }

  /** The arguments xs when the flag condition holds, none otherwise. */
  function When(condition: bool, xs: seq<string>): seq<string>
  {
    if condition then xs else []
  }

  /** A two-token flag, `name value`, when the value is truthy. */
  function OptArg(name: string, value: Option<string>): seq<string>
  {
    if Truthy(value) then [name, value.value] else []
  }

  /** A one-token flag, `prefix + value`, when the value is truthy. */
  function OptFlag(prefix: string, value: Option<string>): seq<string>
  {
    if Truthy(value) then [prefix + value.value] else []
  }

  predicate EndsWith(s: string, suffix: string)
  {
    |suffix| <= |s| && s[|s| - |suffix|..] == suffix
  }

  // ---------------------------------------------------------------------
  // _run and _watch

  /** The argv of `_run` and `_watch`: kubectl, the verb, the context flag
      when a context is given, then the arguments. */
  function CommandLine(cmd: string, args: seq<string>, context: Option<string>): (argv: seq<string>)
    ensures |argv| == 2 + (if Truthy(context) then 2 else 0) + |args|
    ensures argv[..2] == ["kubectl", cmd]
    ensures Truthy(context) ==> argv[2..4] == ["--context", context.value] && argv[4..] == args
    ensures !Truthy(context) ==> argv[2..] == args
  {
    ["kubectl", cmd] + OptArg("--context", context) + args
  }

  /** Builds the argv of `_run` and `_watch` step by step, as both do. */
  method BuildCommand(cmd: string, args: seq<string>, context: Option<string>) returns (argv: seq<string>)
    ensures argv == CommandLine(cmd, args, context)
  {
    argv := ["kubectl", cmd];
    if Truthy(context) {
      argv := argv + ["--context", context.value];
    }
    argv := argv + args;
  }

  /** How kubectl reads the context back from such an argv: a `--context`
      flag right after the verb. */
  function ContextOf(argv: seq<string>): Option<string>
  {
    if |argv| >= 4 && argv[2] == "--context" then Some(argv[3]) else None
  }

  /** The arguments after the verb and the context flag. */
  function ArgsOf(argv: seq<string>): seq<string>
  {
    if ContextOf(argv).Some? then argv[4..] else if |argv| >= 2 then argv[2..] else []
  }

  /** The context and the arguments can be read back from the argv: the
      context is there exactly when it is truthy, so an empty context string
      means no context. The arguments must not themselves start with a
      `--context` flag. */
  lemma CommandLineRoundTrip(cmd: string, args: seq<string>, context: Option<string>)
    requires |args| >= 2 ==> args[0] != "--context"
    ensures ContextOf(CommandLine(cmd, args, context)) == (if Truthy(context) then context else None)
    ensures ArgsOf(CommandLine(cmd, args, context)) == args
  {
    var argv := CommandLine(cmd, args, context);
    if Truthy(context) {
      assert argv[2] == "--context" && argv[3] == context.value;
      assert argv[4..] == args;
    } else {
      assert argv[2..] == args;
    }
  }

  // ---------------------------------------------------------------------
  // version

  /** The error the command runner raises: the output kubectl printed, if
      any, and the error text. */
  datatype CommandError = CommandError(output: Option<string>, error: string)

  /** What running the command did: completed with output, or raised. */
  datatype CommandOutcome = Completed(output: string) | Failed(err: CommandError)

  /** What `version` gives its caller: an output, or the re-raised error. */
  datatype VersionResult = Returned(output: string) | Raised(err: CommandError)

  /** `version`: asks kubectl for its version, with `--output` when an
      output format is given. A failed command whose error carries output is
      not an error: that output is returned. Only an error without output is
      raised again, unchanged. */
  method Version(context: Option<string>, output: Option<string>, outcome: CommandOutcome)
    returns (argv: seq<string>, result: VersionResult)
    ensures argv == CommandLine("version", OptArg("--output", output), context)
    ensures result.Raised? <==> outcome.Failed? && !Truthy(outcome.err.output)
    ensures result.Raised? ==> result.err == outcome.err
    ensures outcome.Completed? ==> result == Returned(outcome.output)
    ensures outcome.Failed? && Truthy(outcome.err.output) ==> result == Returned(outcome.err.output.value)
  {
    var args: seq<string> := [];
    if Truthy(output) {
      args := ["--output", output.value];
    }
    argv := BuildCommand("version", args, context);
    match outcome
    case Completed(out) =>
      result := Returned(out);
    case Failed(e) =>
      if Truthy(e.output) {
        result := Returned(e.output.value);
      } else {
        result := Raised(e);
      }
  }

  // ---------------------------------------------------------------------
  // kustomize and label

  /** `kustomize`: the load restrictor flag comes before the source, and only
      when a restrictor is given; the source is always last. No context. */
  method Kustomize(src: string, loadRestrictor: Option<string>) returns (argv: seq<string>)
    ensures argv == CommandLine("kustomize", OptFlag("--load-restrictor=", loadRestrictor) + [src], None)
    ensures argv[|argv| - 1] == src
    ensures |argv| == (if Truthy(loadRestrictor) then 4 else 3)
  {
    var args: seq<string> := [];
    if Truthy(loadRestrictor) {
      args := args + ["--load-restrictor=" + loadRestrictor.value];
    }
    args := args + [src];
    argv := BuildCommand("kustomize", args, None);
  }

  /** `label`: resource and label after the verb, then `--overwrite` only
      when asked; the context, as for every `_watch` call, comes right after
      the verb. */
  method Label(resource: string, labelArg: string, overwrite: bool, context: Option<string>)
    returns (argv: seq<string>)
    ensures argv == CommandLine("label", [resource, labelArg] + When(overwrite, ["--overwrite"]), context)
    ensures argv[|argv| - (if overwrite then 3 else 2)..] == [resource, labelArg] + When(overwrite, ["--overwrite"])
  {
    var args := ["label", resource, labelArg];
    if overwrite {
      args := args + ["--overwrite"];
    }
    argv := BuildCommand(args[0], args[1..], context);
  }

  // ---------------------------------------------------------------------
  // annotate

  /** One entry of the annotations dict; a None value asks for removal. */
  datatype Annotation = Annotation(key: string, value: Option<string>)

  /** No character of `key` is `=`, as for every annotation key kubectl
      accepts. */
  predicate KeyWithoutEquals(key: string)
  {
    forall j :: 0 <= j < |key| ==> key[j] != '='
  }

  /** The kubectl argument for one entry: `key=value` when the value is
      truthy, `key-` (removal) otherwise, so an empty string removes too.
      Read back by kubectl, it gives the entry as meant: a truthy value as
      set, None and the empty string both as removal. */
  function AnnotationArg(a: Annotation): (arg: string)
    ensures KeyWithoutEquals(a.key) ==>
              ParseAnnotationArg(arg) == Some(Annotation(a.key, if Truthy(a.value) then a.value else None))
  {
    if Truthy(a.value) then
      var arg := a.key + "=" + a.value.value;
      assert KeyWithoutEquals(a.key) ==> ParseAnnotationArg(arg) == Some(Annotation(a.key, a.value)) by {
        if KeyWithoutEquals(a.key) { ParseSetArg(a.key, a.value.value); }
      }
      arg
    else
      var arg := a.key + "-";
      assert KeyWithoutEquals(a.key) ==> ParseAnnotationArg(arg) == Some(Annotation(a.key, None)) by {
        if KeyWithoutEquals(a.key) { ParseRemoveArg(a.key); }
      }
      arg
  }

  /** The arguments for all entries, in dict order. */
  function AnnotationArgs(annotations: seq<Annotation>): (args: seq<string>)
    ensures |args| == |annotations|
    ensures forall i :: 0 <= i < |annotations| ==> args[i] == AnnotationArg(annotations[i])
  {
    seq(|annotations|, i requires 0 <= i < |annotations| => AnnotationArg(annotations[i]))
  }

  /** `annotate`: the verb and the resource, one argument per entry in dict
      order, then `--overwrite` when asked, then `--namespace NS` when a
      namespace is given. */
  method Annotate(resource: string, annotations: seq<Annotation>, overwrite: bool,
                  namespace: Option<string>, context: Option<string>)
    returns (argv: seq<string>)
    ensures argv == CommandLine("annotate",
                                [resource] + AnnotationArgs(annotations) + When(overwrite, ["--overwrite"])
                                + OptArg("--namespace", namespace),
                                context)
  {
    // The Python list starts with the verb, which `_watch` takes as its cmd;
    // here the verb is kept apart from the list that follows it.
    var verb := "annotate";
    var args := [resource];
    for i := 0 to |annotations|
      invariant args == [resource] + AnnotationArgs(annotations[..i])
    {
      var entry := annotations[i];
      AnnotationArgsExtend(annotations, i);
      if Truthy(entry.value) {
        args := args + [entry.key + "=" + entry.value.value];
      } else {
        args := args + [entry.key + "-"];
      }
    }
    assert annotations[..|annotations|] == annotations;
    if overwrite {
      args := args + ["--overwrite"];
    }
    if Truthy(namespace) {
      args := args + ["--namespace", namespace.value];
    }
    argv := BuildCommand(verb, args, context);
  }

  lemma AnnotationArgsExtend(annotations: seq<Annotation>, i: nat)
    requires i < |annotations|
    ensures AnnotationArgs(annotations[..i + 1]) == AnnotationArgs(annotations[..i]) + [AnnotationArg(annotations[i])]
  {
  }

  /** The first index of c in s. */
  function IndexOf(s: string, c: char): (r: Option<nat>)
    ensures r.Some? ==> r.value < |s| && s[r.value] == c && forall j :: 0 <= j < r.value ==> s[j] != c
    ensures r.None? ==> forall j :: 0 <= j < |s| ==> s[j] != c
  {
    if |s| == 0 then None
    else if s[0] == c then Some(0)
    else
      match IndexOf(s[1..], c)
      case None => None
      case Some(k) => Some(k + 1)
  }

  /** How kubectl reads one annotate argument: `key=value` splits at the
      first `=`; `key-` without any `=` removes the key. */
  function ParseAnnotationArg(arg: string): Option<Annotation>
  {
    match IndexOf(arg, '=')
    case Some(k) => Some(Annotation(arg[..k], Some(arg[k + 1..])))
    case None =>
      if |arg| > 0 && arg[|arg| - 1] == '-' then Some(Annotation(arg[..|arg| - 1], None)) else None
  }

  /** Every argument of an annotate call reads back as its entry: truthy
      values as set, None and empty values as removals, in dict order. */
  lemma AnnotationArgsRoundTrip(annotations: seq<Annotation>)
    ensures forall i :: 0 <= i < |annotations| && KeyWithoutEquals(annotations[i].key) ==>
              ParseAnnotationArg(AnnotationArgs(annotations)[i]) ==
                Some(Annotation(annotations[i].key, if Truthy(annotations[i].value) then annotations[i].value else None))
  {
  }

  /** A `key=value` argument is read back as setting key to value. */
  lemma ParseSetArg(key: string, value: string)
    requires KeyWithoutEquals(key)
    ensures ParseAnnotationArg(key + "=" + value) == Some(Annotation(key, Some(value)))
  {
    var arg := key + "=" + value;
    assert arg[|key|] == '=';
    assert forall j :: 0 <= j < |key| ==> arg[j] == key[j];
    assert IndexOf(arg, '=') == Some(|key|);
    assert arg[..|key|] == key;
    assert arg[|key| + 1..] == value;
  }

  /** A `key-` argument is read back as removing key. */
  lemma ParseRemoveArg(key: string)
    requires KeyWithoutEquals(key)
    ensures ParseAnnotationArg(key + "-") == Some(Annotation(key, None))
  {
    var arg := key + "-";
    assert forall j :: 0 <= j < |key| ==> arg[j] == key[j];
    assert IndexOf(arg, '=') == None;
    assert arg[..|arg| - 1] == key;
  }

  // ---------------------------------------------------------------------
  // watch

  /** The jsonpath that `watch` uses: JsonpathNewline appended unless the
      jsonpath already ends with it. */
  function WithNewline(jsonpath: string): (r: string)
    ensures EndsWith(r, JsonpathNewline)
    ensures EndsWith(jsonpath, JsonpathNewline) ==> r == jsonpath
    ensures !EndsWith(jsonpath, JsonpathNewline) ==> r == jsonpath + JsonpathNewline
  {
    if EndsWith(jsonpath, JsonpathNewline) then jsonpath
    else
      var r := jsonpath + JsonpathNewline;
      assert r[|r| - |JsonpathNewline|..] == JsonpathNewline;
      r
  }

  /** The default jsonpath `{}` is watched as `{}` followed by the newline
      template. */
  lemma WatchDefaultJsonpath()
    ensures "--output=jsonpath=" + WithNewline("{}") == "--output=jsonpath={}{\"\\n\"}"
  {
    assert !EndsWith("{}", JsonpathNewline);
  }

  /** Normalising twice is normalising once. */
  lemma WithNewlineIdempotent(jsonpath: string)
    ensures WithNewline(WithNewline(jsonpath)) == WithNewline(jsonpath)
  {
  }

  /** `watch`: kubectl get, the resource, `--watch`, the output flag with the
      normalised jsonpath, then `--namespace=NS` when given, then
      `--context=CTX` when given. The Python default jsonpath is `{}`, so a
      call without one watches with `--output=jsonpath={}{"\n"}`
      (WatchDefaultJsonpath). */
  method Watch(resource: string, jsonpath: string, namespace: Option<string>, context: Option<string>)
    returns (argv: seq<string>)
    ensures argv == ["kubectl", "get", resource, "--watch", "--output=jsonpath=" + WithNewline(jsonpath)]
                    + OptFlag("--namespace=", namespace)
                    + OptFlag("--context=", context)
  {
    var path := jsonpath;
    if !EndsWith(path, JsonpathNewline) {
      path := path + JsonpathNewline;
    }
    argv := ["kubectl", "get", resource, "--watch", "--output=jsonpath=" + path];
    if Truthy(namespace) {
      argv := argv + ["--namespace=" + namespace.value];
    }
    if Truthy(context) {
      argv := argv + ["--context=" + context.value];
    }
  }

  // ---------------------------------------------------------------------
  // gather

  /** No item of xs holds the separator. */
  predicate ItemsWithoutSep(xs: seq<string>, sep: char)
  {
    forall i, j :: 0 <= i < |xs| && 0 <= j < |xs[i]| ==> xs[i][j] != sep
  }

  /** Python's `sep.join(xs)`. Splitting a join of a non-empty list whose
      items hold no separator gives the list back. */
  function Join(xs: seq<string>, sep: char): (joined: string)
    ensures |xs| > 0 && ItemsWithoutSep(xs, sep) ==> Split(joined, sep) == xs
  {
    if |xs| == 0 then ""
    else if |xs| == 1 then
      assert ItemsWithoutSep(xs, sep) ==> Split(xs[0], sep) == xs by {
        if ItemsWithoutSep(xs, sep) { SplitWithoutSep(xs[0], sep); }
      }
      xs[0]
    else
      var rest := Join(xs[1..], sep);
      assert ItemsWithoutSep(xs, sep) ==> Split(xs[0] + [sep] + rest, sep) == xs by {
        if ItemsWithoutSep(xs, sep) {
          assert ItemsWithoutSep(xs[1..], sep);
          SplitAfterFirstSep(xs[0], rest, sep);
          assert [xs[0]] + xs[1..] == xs;
        }
      }
      xs[0] + [sep] + rest
  }

  /** Splitting at every sep, as kubectl-gather reads a list flag. */
  function Split(s: string, sep: char): (parts: seq<string>)
    ensures |parts| > 0
    decreases |s|
  {
    if |s| == 0 then [""]
    else
      var rest := Split(s[1..], sep);
      if s[0] == sep then [""] + rest else [[s[0]] + rest[0]] + rest[1..]
  }

  lemma {:induction false} SplitWithoutSep(a: string, sep: char)
    requires forall j :: 0 <= j < |a| ==> a[j] != sep
    ensures Split(a, sep) == [a]
    decreases |a|
  {
    if |a| > 0 {
      SplitWithoutSep(a[1..], sep);
      assert [a[0]] + a[1..] == a;
    }
  }

  lemma {:induction false} SplitAfterFirstSep(a: string, b: string, sep: char)
    requires forall j :: 0 <= j < |a| ==> a[j] != sep
    ensures Split(a + [sep] + b, sep) == [a] + Split(b, sep)
    decreases |a|
  {
    var s := a + [sep] + b;
    if |a| == 0 {
      assert s[1..] == b;
    } else {
      assert s[1..] == a[1..] + [sep] + b;
      SplitAfterFirstSep(a[1..], b, sep);
      assert [a[0]] + a[1..] == a;
    }
  }

  /** `gather`: the fixed prefix with the comma-joined contexts (always
      present, even for an empty list), then `--namespaces` for a non-empty
      list, `--directory` when given and `--verbose` when asked, in that
      order. */
  method Gather(contexts: seq<string>, namespaces: Option<seq<string>>, directory: Option<string>, verbose: bool)
    returns (argv: seq<string>)
    ensures argv == ["kubectl", "gather", "--log-format", "json", "--contexts", Join(contexts, ',')]
                    + (if namespaces.Some? && |namespaces.value| > 0 then ["--namespaces", Join(namespaces.value, ',')] else [])
                    + OptArg("--directory", directory)
                    + When(verbose, ["--verbose"])
  {
    argv := ["kubectl", "gather", "--log-format", "json", "--contexts", Join(contexts, ',')];
    if namespaces.Some? && |namespaces.value| > 0 {
      argv := argv + ["--namespaces", Join(namespaces.value, ',')];
    }
    if Truthy(directory) {
      argv := argv + ["--directory", directory.value];
    }
    if verbose {
      argv := argv + ["--verbose"];
    }
  }
}
