// `scripts/repair_state_202306.py`: turning the `create` steps of a Pulumi
// plan into `pulumi import` commands for resources the state lost.
module RepairState {
  import opened Wrappers
  import opened Strings
  import opened PyRepr
  import opened PulumiPlan

  /**
   * `prepare_id`: a group membership's id is the membership name the
   * group's directory lists for the member's email (`None` when it lists
   * none); the IAM member types give 'resource role member'; any other
   * type gives `None`. `directory` stands for the Cloud Identity listing of
   * a group key: (preferred member email, membership name) pairs.
   */
  function PrepareId(state: State, directory: string -> seq<(string, string)>): (r: Result<Option<string>, PlanError>)
    ensures state.rtype != GroupMembershipType ==> r == IamId(state)
  {
    if state.rtype == GroupMembershipType then
      match Input(state, "group")
      case Err(e) => Err(e)
      case Ok(group) =>
        match MemberEmail(state)
        case Err(e) => Err(e)
        case Ok(email) =>
          var ids := EmailToId(directory(GroupKey(group)));
          Ok(if email in ids then Some(ids[email]) else None)
    else IamId(state)
  }

  /** A group membership's id is found iff the group's directory lists the member's email, and is then its membership name. */
  lemma GroupMembershipId(state: State, directory: string -> seq<(string, string)>)
    requires state.rtype == GroupMembershipType
    requires "group" in state.inputs && MemberEmail(state).Ok?
    ensures var listed := directory(GroupKey(state.inputs["group"]));
            var email := MemberEmail(state).value;
            (PrepareId(state, directory).value.Some? <==> exists i :: 0 <= i < |listed| && listed[i].0 == email) &&
            (PrepareId(state, directory).value.Some? ==>
               exists i :: 0 <= i < |listed| && listed[i] == (email, PrepareId(state, directory).value.value))
  {
    EmailToIdMeaning(directory(GroupKey(state.inputs["group"])), MemberEmail(state).value);
  }

  /** `--{k} {v!r}` for one flag. */
  function FlagText(flag: (string, string)): string
  {
    "--" + flag.0 + " " + Repr(flag.1)
  }

  function FlagTexts(flags: seq<(string, string)>): (r: seq<string>)
    ensures |r| == |flags| && forall i :: 0 <= i < |flags| ==> r[i] == FlagText(flags[i])
  {
    seq(|flags|, i requires 0 <= i < |flags| => FlagText(flags[i]))
  }

  function FlagList(imp: PulumiImport): seq<(string, string)>
  {
    if imp.flags.Some? then imp.flags.value else []
  }

  /** `PulumiImport.to_command_line`. */
  function ToCommandLine(imp: PulumiImport): string
  {
    Strip(CommandBody(imp) + " " + Join(FlagTexts(FlagList(imp)), " "))
  }

  /** The last character of a join is the last character of its last part. */
  lemma {:induction false} JoinLast(parts: seq<string>, sep: string)
    requires |parts| >= 1 && |parts[|parts| - 1]| >= 1
    ensures |Join(parts, sep)| >= 1
    ensures Join(parts, sep)[|Join(parts, sep)| - 1] == parts[|parts| - 1][|parts[|parts| - 1]| - 1]
    decreases |parts|
  {
    if |parts| > 1 {
      JoinLast(parts[1..], sep);
    }
  }

  /**
   * The command is the fixed prefix and the quoted type, name and id; with
   * flags, a space and their `--k 'v'` texts follow. (No flags: the
   * strip removes the trailing space.)
   */
  lemma CommandLineShape(imp: PulumiImport)
    ensures ToCommandLine(imp) ==
            CommandBody(imp) + (if |FlagList(imp)| == 0 then "" else " " + Join(FlagTexts(FlagList(imp)), " "))
  {
    var flags := FlagTexts(FlagList(imp));
    BodyEdges(imp);
    if |flags| > 0 {
      var last := Repr(FlagList(imp)[|flags| - 1].1);
      assert flags[|flags| - 1] == "--" + FlagList(imp)[|flags| - 1].0 + " " + last;
    }
    StripJoined(CommandBody(imp), flags);
  }

  /**
   * What the strip in `to_command_line` does to a body that starts and
   * ends with no white space: it drops the joining space when there are no
   * flags and nothing otherwise.
   */
  lemma StripJoined(body: string, flags: seq<string>)
    requires |body| > 0 && !IsSpace(body[0]) && !IsSpace(body[|body| - 1])
    requires |flags| > 0 ==> |flags[|flags| - 1]| > 0 && !IsSpace(flags[|flags| - 1][|flags[|flags| - 1]| - 1])
    ensures Strip(body + " " + Join(flags, " ")) == body + (if |flags| == 0 then "" else " " + Join(flags, " "))
  {
    var s := body + " " + Join(flags, " ");
    if |flags| == 0 {
      assert Join(flags, " ") == "";
      assert s == body + " ";
      StripTrailingSpace(body);
    } else {
      var tail := " " + Join(flags, " ");
      JoinLast(flags, " ");
      assert tail[|tail| - 1] == Join(flags, " ")[|Join(flags, " ")| - 1];
      assert s == body + tail;
      StripUnchanged(body + tail);
    }
  }

  /** The command body starts with `p` and ends with a quote. */
  lemma BodyEdges(imp: PulumiImport)
    ensures |CommandBody(imp)| > 0 && CommandBody(imp)[0] == 'p'
    ensures !IsSpace(CommandBody(imp)[|CommandBody(imp)| - 1])
  {
    var q := Repr(imp.id);
    var args := CommandArgs(imp);
    assert args == Repr(imp.rtype) + " " + Repr(imp.name) + " " + q;
    assert args[|args| - 1] == q[|q| - 1];
    assert CommandPrefix[0] == 'p';
    assert CommandBody(imp) == CommandPrefix + args;
  }

  /** A string that neither starts nor ends with white space is its own strip. */
  lemma StripUnchanged(s: string)
    requires |s| > 0 && !IsSpace(s[0]) && !IsSpace(s[|s| - 1])
    ensures Strip(s) == s
  {
    assert LStrip(s) == s;
  }

  /** Stripping such a string with one space appended removes just that space. */
  lemma StripTrailingSpace(s: string)
    requires |s| > 0 && !IsSpace(s[0]) && !IsSpace(s[|s| - 1])
    ensures Strip(s + " ") == s
  {
    var t := s + " ";
    assert LStrip(t) == t;
    assert t[..|t| - 1] == s;
    StripUnchanged(s);
  }

  /** Flag names without newlines give a command without newlines. */
  lemma CommandLineNoNewline(imp: PulumiImport)
    requires forall i :: 0 <= i < |FlagList(imp)| ==> '\n' !in FlagList(imp)[i].0
    ensures '\n' !in ToCommandLine(imp)
  {
    CommandLineShape(imp);
    CommandBodyNoNewline(imp);
    var flags := FlagTexts(FlagList(imp));
    forall i | 0 <= i < |flags|
      ensures '\n' !in flags[i]
    {
      assert flags[i] == "--" + FlagList(imp)[i].0 + " " + Repr(FlagList(imp)[i].1);
    }
    JoinNoChar(flags, " ", '\n');
  }

  lemma {:induction false} JoinNoChar(parts: seq<string>, sep: string, c: char)
    requires c !in sep && forall i :: 0 <= i < |parts| ==> c !in parts[i]
    ensures c !in Join(parts, sep)
    decreases |parts|
  {
    if |parts| > 1 {
      JoinNoChar(parts[1..], sep, c);
    }
  }

  // ---------------------------------------------------------------------
  // `main`

  /**
   * The imports of the first steps, in plan order, where `g` turns one
   * step into its import (if any); the first error stops the run.
   */
  function CollectWith(steps: seq<Step>, g: Step -> Result<Option<PulumiImport>, PlanError>): Result<seq<PulumiImport>, PlanError>
    decreases |steps|
  {
    if |steps| == 0 then Ok([])
    else
      match CollectWith(steps[..|steps| - 1], g)
      case Err(e) => Err(e)
      case Ok(imports) =>
        match g(steps[|steps| - 1])
        case Err(e) => Err(e)
        case Ok(None) => Ok(imports)
        case Ok(Some(imp)) => Ok(imports + [imp])
  }

  /** Collecting succeeds iff `g` succeeds on every step, and then yields exactly the imports `g` gives. */
  lemma {:induction false} CollectWithMeaning(steps: seq<Step>, g: Step -> Result<Option<PulumiImport>, PlanError>)
    ensures CollectWith(steps, g).Ok? <==> forall i :: 0 <= i < |steps| ==> g(steps[i]).Ok?
    ensures CollectWith(steps, g).Ok? ==>
              forall x :: x in CollectWith(steps, g).value <==> exists i :: 0 <= i < |steps| && g(steps[i]) == Ok(Some(x))
    decreases |steps|
  {
    if |steps| > 0 {
      var n := |steps| - 1;
      var init := steps[..n];
      CollectWithMeaning(init, g);
      assert forall i :: 0 <= i < n ==> init[i] == steps[i];
      if CollectWith(steps, g).Ok? {
        forall x | exists i :: 0 <= i < |steps| && g(steps[i]) == Ok(Some(x))
          ensures x in CollectWith(steps, g).value
        {
          var i :| 0 <= i < |steps| && g(steps[i]) == Ok(Some(x));
          if i < n {
            assert g(init[i]) == Ok(Some(x));
          }
        }
      }
    }
  }

  /** Once a prefix of the steps fails, the whole collection fails with the same error. */
  lemma {:induction false} CollectWithKeepsError(steps: seq<Step>, g: Step -> Result<Option<PulumiImport>, PlanError>, i: nat)
    requires i <= |steps| && CollectWith(steps[..i], g).Err?
    ensures CollectWith(steps, g) == CollectWith(steps[..i], g)
    decreases |steps| - i
  {
    if i < |steps| {
      assert steps[..i + 1][..i] == steps[..i];
      CollectWithKeepsError(steps, g, i + 1);
    } else {
      assert steps[..i] == steps;
    }
  }

  /** `main`'s imports: each step's own, with ids from `prepare_id`. */
  function Imports(steps: seq<Step>, directory: string -> seq<(string, string)>): Result<seq<PulumiImport>, PlanError>
  {
    CollectWith(steps, (step: Step) => StepImportWith(step, st => PrepareId(st, directory)))
  }

  /** The run succeeds iff every step's id can be prepared, and then the imports are exactly the steps' own. */
  lemma ImportsMeaning(steps: seq<Step>, directory: string -> seq<(string, string)>)
    ensures Imports(steps, directory).Ok? <==> forall i :: 0 <= i < |steps| ==> StepImportWith(steps[i], st => PrepareId(st, directory)).Ok?
    ensures Imports(steps, directory).Ok? ==>
              forall x :: x in Imports(steps, directory).value <==>
                exists i :: 0 <= i < |steps| && StepImportWith(steps[i], st => PrepareId(st, directory)) == Ok(Some(x))
  {
    CollectWithMeaning(steps, (step: Step) => StepImportWith(step, st => PrepareId(st, directory)));
  }

  /** `main`'s loop over the plan's steps. */
  method CollectImports(steps: seq<Step>, directory: string -> seq<(string, string)>)
    returns (r: Result<seq<PulumiImport>, PlanError>)
    ensures r == Imports(steps, directory)
  {
    var imports: seq<PulumiImport> := [];
    var i := 0;
    while i < |steps|
      invariant 0 <= i <= |steps|
      invariant Imports(steps[..i], directory) == Ok(imports)
    {
      assert steps[..i + 1][..i] == steps[..i];
      var step := steps[i];
      if step.op == "create" && step.newState.Some? {
        var id := PrepareId(step.newState.value, directory);
        if id.Err? {
          CollectWithKeepsError(steps, (step: Step) => StepImportWith(step, st => PrepareId(st, directory)), i + 1);
          return Err(id.error);
        }
        if id.value.Some? && id.value.value != "" {
          imports := imports + [PulumiImport(step.newState.value.rtype, NameFromUrn(step.urn), id.value.value, Some([]))];
        }
      }
      i := i + 1;
    }
    assert steps[..i] == steps;
    r := Ok(imports);
  }

  // ---------------------------------------------------------------------
  // The output file

  /** `outfile.writelines(i.to_command_line() for i in imports)`: the commands with nothing between them. */
  function OutputAsWritten(imports: seq<PulumiImport>): string
  {
    if |imports| == 0 then "" else ToCommandLine(imports[0]) + OutputAsWritten(imports[1..])
  }

  /** The commands one per line, as a shell script of imports needs them. */
  function Output(imports: seq<PulumiImport>): string
  {
    if |imports| == 0 then "" else ToCommandLine(imports[0]) + "\n" + Output(imports[1..])
  }

  /** Each import's command line, in order. */
  function CommandLines(imports: seq<PulumiImport>): seq<string>
  {
    if |imports| == 0 then [] else [ToCommandLine(imports[0])] + CommandLines(imports[1..])
  }

  predicate NoFlags(imports: seq<PulumiImport>)
  {
    forall i :: 0 <= i < |imports| ==> |FlagList(imports[i])| == 0
  }

  /** Every import of `main` has an empty flag dict. */
  lemma ImportsHaveNoFlags(steps: seq<Step>, directory: string -> seq<(string, string)>)
    requires Imports(steps, directory).Ok?
    ensures NoFlags(Imports(steps, directory).value)
  {
    ImportsMeaning(steps, directory);
    var imports := Imports(steps, directory).value;
    forall k | 0 <= k < |imports|
      ensures |FlagList(imports[k])| == 0
    {
      assert imports[k] in imports;
      var i :| 0 <= i < |steps| && StepImportWith(steps[i], st => PrepareId(st, directory)) == Ok(Some(imports[k]));
    }
  }

  /** As written, the file has no newline at all: every command runs into the next. */
  lemma OutputAsWrittenOneLine(imports: seq<PulumiImport>)
    requires NoFlags(imports)
    ensures '\n' !in OutputAsWritten(imports)
    ensures |imports| >= 2 ==> StartsWith(OutputAsWritten(imports), ToCommandLine(imports[0]) + CommandPrefix)
  {
    OutputAsWrittenNoNewline(imports);
    if |imports| >= 2 {
      var second := ToCommandLine(imports[1]);
      CommandStartsWithPrefix(imports[1]);
      assert OutputAsWritten(imports) == ToCommandLine(imports[0]) + (second + OutputAsWritten(imports[2..]));
      StartsWithGlued(ToCommandLine(imports[0]), second, OutputAsWritten(imports[2..]), CommandPrefix);
    }
  }

  /** A command without flags starts with the fixed `pulumi import` prefix. */
  lemma CommandStartsWithPrefix(imp: PulumiImport)
    requires |FlagList(imp)| == 0
    ensures StartsWith(ToCommandLine(imp), CommandPrefix)
  {
    CommandLineShape(imp);
    assert ToCommandLine(imp) == CommandBody(imp) + "";
    assert ToCommandLine(imp) == CommandBody(imp);
    BodyStartsWithPrefix(imp);
  }

  lemma BodyStartsWithPrefix(imp: PulumiImport)
    ensures StartsWith(CommandBody(imp), CommandPrefix)
  {
    BodyHasPrefix(CommandPrefix, CommandArgs(imp), CommandBody(imp));
  }

  lemma BodyHasPrefix(p: string, rest: string, body: string)
    requires body == p + rest
    ensures StartsWith(body, p)
  {
    assert body[..|p|] == p;
  }

  lemma {:induction false} OutputAsWrittenNoNewline(imports: seq<PulumiImport>)
    requires NoFlags(imports)
    ensures '\n' !in OutputAsWritten(imports)
    decreases |imports|
  {
    if |imports| > 0 {
      CommandLineNoNewline(imports[0]);
      assert NoFlags(imports[1..]) by {
        assert forall i :: 0 <= i < |imports| - 1 ==> imports[1..][i] == imports[i + 1];
      }
      OutputAsWrittenNoNewline(imports[1..]);
    }
  }

  lemma StartsWithGlued(first: string, second: string, rest: string, p: string)
    requires StartsWith(second, p)
    ensures StartsWith(first + (second + rest), first + p)
  {
    var out := first + (second + rest);
    assert out[..|first + p|] == first + p by {
      assert forall k :: 0 <= k < |first + p| ==> out[k] == (first + p)[k];
    }
  }

  /** The file as intended: split at newlines, the command lines and then an empty last piece. */
  lemma {:induction false} OutputLines(imports: seq<PulumiImport>)
    requires NoFlags(imports)
    ensures Split(Output(imports), "\n") == CommandLines(imports) + [""]
    decreases |imports|
  {
    if |imports| > 0 {
      var line := ToCommandLine(imports[0]);
      assert NoFlags(imports[1..]) by {
        assert forall i :: 0 <= i < |imports| - 1 ==> imports[1..][i] == imports[i + 1];
      }
      CommandLineNoNewline(imports[0]);
      OutputLines(imports[1..]);
      SplitAtChar(line, '\n', Output(imports[1..]));
      assert CommandLines(imports) + [""] == [line] + (CommandLines(imports[1..]) + [""]);
    } else {
      assert Find("", "\n") == None;
    }
  }
}
