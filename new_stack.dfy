// Creating the stack of a new dataset: the option handling and validation
// in front of it, the hail usernames it creates, and the idempotent
// additions to the seqr stack and the token map.
module NewStack {
  import opened Wrappers
  import opened Strings

  // ---------------------------------------------------------------------
  // Options

  /** The step flags of the command line. */
  datatype Steps = Steps(
    createGcpProject: bool,
    setupGcpBilling: bool,
    createHailServiceAccounts: bool,
    createPulumiStack: bool,
    createSampleMetadataProject: bool)

  /** `--perform-all` turns on every step; otherwise the flags are as given. */
  function EffectiveSteps(performAll: bool, given: Steps): (r: Steps)
    ensures performAll ==> r == Steps(true, true, true, true, true)
    ensures !performAll ==> r == given
  {
    if performAll then Steps(true, true, true, true, true) else given
  }

  /**
   * The GCP project id: the given one if it is non-empty, else the dataset
   * with an optional '-' and six random digits (passed in); lower-cased.
   */
  function ProjectIdOf(dataset: string, gcpProject: Option<string>, addRandomDigits: bool, randomDigits: nat): (r: string)
    ensures gcpProject.Some? && gcpProject.value != "" ==> r == Lower(gcpProject.value)
    ensures (gcpProject.None? || gcpProject.value == "") && !addRandomDigits ==> r == Lower(dataset)
    ensures (gcpProject.None? || gcpProject.value == "") && addRandomDigits ==>
              r == Lower(dataset) + "-" + NatToString(randomDigits)
  {
    if gcpProject.Some? && gcpProject.value != "" then Lower(gcpProject.value)
    else if addRandomDigits then Lower(dataset + "-" + NatToString(randomDigits))
    else Lower(dataset)
  }

  // ---------------------------------------------------------------------
  // Validation

  const DatasetRegex := "^[a-z][a-z0-9-]{1,15}[a-z]$"

  predicate DatasetChar(c: char)
  {
    IsLowerAlpha(c) || IsDigit(c) || c == '-'
  }

  predicate ProjectChar(c: char)
  {
    IsLowerAlpha(c) || IsDigit(c) || c == '-' || c == '_'
  }

  /** `^[a-z][a-z0-9-]{1,15}[a-z]$`. */
  predicate DatasetMatches(s: string)
  {
    3 <= |s| <= 17 && IsLowerAlpha(s[0]) && IsLowerAlpha(s[|s| - 1]) &&
    forall i :: 0 <= i < |s| ==> DatasetChar(s[i])
  }

  /** `^[a-z0-9-_]{6,30}$`. */
  predicate ProjectMatches(s: string)
  {
    6 <= |s| <= 30 && forall i :: 0 <= i < |s| ==> ProjectChar(s[i])
  }

  function DatasetLengthMessage(n: nat): string
  {
    "The dataset length must be less than (or equal to) 17 characters (got " + NatToString(n) + ")"
  }

  const RandomDigitsHint := "consider adding the --add-random-digits-to-gcp-id flag"

  function ProjectMessage(project: string): string
  {
    var first := "The GCP project ID \"" + project + "\" must be between 6 and 30 characters";
    if |project| < 6 then first + ", " + RandomDigitsHint else first
  }

  function DatasetMessage(dataset: string): string
  {
    "Expected dataset " + dataset + " to match " + DatasetRegex + "."
  }

  /**
   * The checks in `main`, in their order: the dataset's length, the
   * project's pattern, then the dataset's pattern.
   */
  function Validate(dataset: string, project: string): (r: Result<(), string>)
    ensures r.Ok? <==> DatasetMatches(dataset) && ProjectMatches(project)
    ensures |dataset| > 17 ==> r == Err(DatasetLengthMessage(|dataset|))
    ensures |dataset| <= 17 && !ProjectMatches(project) ==> r == Err(ProjectMessage(project))
    ensures |dataset| <= 17 && ProjectMatches(project) && !DatasetMatches(dataset) ==> r == Err(DatasetMessage(dataset))
  {
    if |dataset| > 17 then Err(DatasetLengthMessage(|dataset|))
    else if !ProjectMatches(project) then Err(ProjectMessage(project))
    else if !DatasetMatches(dataset) then Err(DatasetMessage(dataset))
    else Ok(())
  }

  /** The options as `main` checks them: lower-cased dataset and derived project id. */
  function ValidateOptions(dataset: string, gcpProject: Option<string>, addRandomDigits: bool, randomDigits: nat)
    : Result<(), string>
  {
    Validate(Lower(dataset), ProjectIdOf(dataset, gcpProject, addRandomDigits, randomDigits))
  }

  lemma SixDigits(n: nat)
    requires 100000 <= n <= 999999
    ensures |NatToString(n)| == 6
  {
    var a := n / 10;
    var b := a / 10;
    var c := b / 10;
    var d := c / 10;
    var e := d / 10;
    assert 1 <= e < 10;
    assert |NatToString(d)| == 2;
    assert |NatToString(c)| == 3;
    assert |NatToString(b)| == 4;
    assert |NatToString(a)| == 5;
  }

  /**
   * A valid dataset of fewer than six characters is refused as its own
   * project id, with the hint to add random digits.
   */
  lemma ShortDatasetNeedsDigits(dataset: string)
    requires DatasetMatches(dataset) && |dataset| < 6
    ensures ValidateOptions(dataset, None, false, 0) == Err(ProjectMessage(dataset))
    ensures EndsWith(ProjectMessage(dataset), RandomDigitsHint)
  {
    LowerOfLowerCase(dataset);
    var m := ProjectMessage(dataset);
    var first := "The GCP project ID \"" + dataset + "\" must be between 6 and 30 characters";
    assert m == first + ", " + RandomDigitsHint;
    assert m[|m| - |RandomDigitsHint|..] == RandomDigitsHint;
  }

  /** With the random digits, any valid dataset gives a valid project id. */
  lemma RandomDigitsMakeProjectValid(dataset: string, digits: nat)
    requires DatasetMatches(dataset) && 100000 <= digits <= 999999
    ensures ValidateOptions(dataset, None, true, digits) == Ok(())
  {
    LowerOfLowerCase(dataset);
    SixDigits(digits);
    var ds := NatToString(digits);
    var p := dataset + "-" + ds;
    LowerOfLowerCase(p) by {
      forall i | 0 <= i < |p| ensures !('A' <= p[i] <= 'Z') {
        if i > |dataset| {
          assert p[i] == ds[i - |dataset| - 1];
        }
      }
    }
    forall i | 0 <= i < |p| ensures ProjectChar(p[i]) {
      if i > |dataset| {
        assert p[i] == ds[i - |dataset| - 1];
      }
    }
  }

  /** Lower-casing leaves text without upper-case letters unchanged. */
  lemma LowerOfLowerCase(s: string)
    requires forall i :: 0 <= i < |s| ==> !('A' <= s[i] <= 'Z')
    ensures Lower(s) == s
  {
  }

  // ---------------------------------------------------------------------
  // Hail accounts

  /** The three hail service accounts of a dataset. */
  function HailUsernames(dataset: string): seq<string>
  {
    [dataset + "-test", dataset + "-standard", dataset + "-full"]
  }

  /** The usernames not yet known to hail, in order. */
  function MissingUsernames(usernames: seq<string>, known: string -> bool): (r: seq<string>)
    ensures forall u :: u in r <==> u in usernames && !known(u)
    decreases |usernames|
  {
    if |usernames| == 0 then []
    else
      var n := |usernames| - 1;
      MissingUsernames(usernames[..n], known) + (if known(usernames[n]) then [] else [usernames[n]])
  }

  /** `create_hail_accounts`: the usernames it creates are exactly the missing ones, in order. */
  method CreateHailAccounts(dataset: string, known: string -> bool) returns (created: seq<string>)
    ensures created == MissingUsernames(HailUsernames(dataset), known)
    ensures forall u :: u in created <==> u in HailUsernames(dataset) && !known(u)
  {
    var potential := HailUsernames(dataset);
    created := [];
    var i := 0;
    while i < |potential|
      invariant 0 <= i <= |potential|
      invariant created == MissingUsernames(potential[..i], known)
    {
      assert potential[..i + 1][..i] == potential[..i];
      if !known(potential[i]) {
        created := created + [potential[i]];
      }
      i := i + 1;
    }
    assert potential[..i] == potential;
  }

  /**
   * The wait for one account: up to ten polls, `active(k)` the answer of
   * poll `k`; the number of failed polls before the loop ends.
   */
  method WaitUntilActive(active: nat -> bool) returns (counter: nat)
    ensures counter <= 10
    ensures forall k :: 0 <= k < counter ==> !active(k)
    ensures counter < 10 ==> active(counter)
  {
    counter := 0;
    while counter < 10
      invariant counter <= 10
      invariant forall k :: 0 <= k < counter ==> !active(k)
    {
      if active(counter) {
        return;
      }
      counter := counter + 1;
    }
  }

  // ---------------------------------------------------------------------
  // Stack and token files

  /**
   * `add_dataset_to_seqr_depends_on`: None (the file is left alone) when
   * the dataset is already a dependency, else the list with it appended.
   */
  function AddToSeqrDependsOn(dependsOn: seq<string>, dataset: string): (r: Option<seq<string>>)
    ensures r.None? <==> dataset in dependsOn
    ensures r.Some? ==> r.value == dependsOn + [dataset]
  {
    if dataset in dependsOn then None else Some(dependsOn + [dataset])
  }

  /** The seqr dependencies after the addition, whether or not the file was rewritten. */
  function SeqrDependsOnAfter(dependsOn: seq<string>, dataset: string): seq<string>
  {
    match AddToSeqrDependsOn(dependsOn, dataset)
    case None => dependsOn
    case Some(d) => d
  }

  /** Adding twice is adding once, and the dataset is then a dependency. */
  lemma AddToSeqrDependsOnIdempotent(dependsOn: seq<string>, dataset: string)
    ensures dataset in SeqrDependsOnAfter(dependsOn, dataset)
    ensures AddToSeqrDependsOn(SeqrDependsOnAfter(dependsOn, dataset), dataset).None?
    ensures forall d :: d in dependsOn ==> d in SeqrDependsOnAfter(dependsOn, dataset)
  {
  }

  /**
   * `add_dataset_to_tokens`: whether the map is rewritten, and the map
   * afterwards; a new dataset maps to ['sample-metadata'].
   */
  function AddToTokens(tokens: map<string, seq<string>>, dataset: string): (r: (bool, map<string, seq<string>>))
    ensures r.0 <==> dataset !in tokens
    ensures !r.0 ==> r.1 == tokens
    ensures r.0 ==> r.1 == tokens[dataset := ["sample-metadata"]]
  {
    if dataset in tokens then (false, tokens) else (true, tokens[dataset := ["sample-metadata"]])
  }

  /** After one addition a second changes nothing; other datasets keep their entries. */
  lemma AddToTokensIdempotent(tokens: map<string, seq<string>>, dataset: string)
    ensures var after := AddToTokens(tokens, dataset).1;
            dataset in after && AddToTokens(after, dataset) == (false, after) &&
            forall d :: d in tokens ==> d in after && after[d] == tokens[d]
  {
  }

  // ---------------------------------------------------------------------
  // The branch step of `create_stack`

  datatype BranchAction = AskToContinue | CheckoutNewBranch(branch: string)

  function BranchName(dataset: string): string
  {
    "add-" + dataset + "-stack"
  }

  /**
   * The branch decision as written: the output of `git rev-parse`,
   * newline included, is compared with 'main'.
   */
  function BranchStepAsWritten(gitOutput: string, dataset: string): BranchAction
  {
    if gitOutput != "main" then AskToContinue
    else CheckoutNewBranch(BranchName(dataset))
  }

  /** On main, git prints 'main' and a newline, so the as-written step always asks and never branches. */
  lemma BranchStepAsWrittenOnMain(dataset: string)
    ensures BranchStepAsWritten("main\n", dataset) == AskToContinue
  {
  }

  /** The decision on the branch name itself, with the newline stripped. */
  function BranchStep(gitOutput: string, dataset: string): BranchAction
  {
    if Strip(gitOutput) != "main" then AskToContinue
    else CheckoutNewBranch(BranchName(dataset))
  }

  /** On main the new branch is checked out; on any other branch the user is asked. */
  lemma BranchStepOnMain(dataset: string, other: string)
    requires other != "main" && |other| > 0 && !IsSpace(other[0]) && !IsSpace(other[|other| - 1])
    ensures BranchStep("main\n", dataset) == CheckoutNewBranch("add-" + dataset + "-stack")
    ensures BranchStep(other + "\n", dataset) == AskToContinue
  {
    assert LStrip("main\n") == "main\n";
    assert RStrip("main\n") == RStrip("main");
    assert (other + "\n")[..|other + "\n"| - 1] == other;
    assert RStrip(other + "\n") == RStrip(other) == other;
    assert LStrip(other) == other;
  }
}
