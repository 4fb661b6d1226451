/**
 * What harnesst does with an approved merge gate, given the pull request as GitHub reports it
 * (app/approvals/merge-plan.ts).
 */
module MergePlan {
  import opened Prelude
  import opened Text

  /** An artifact of the stored ledger request: its type and, when it is text, its value. */
  datatype Artifact = Artifact(kind: Option<string>, value: Option<string>)

  /** The fields of the stored request the plan reads; a field that is not text is `None`. */
  datatype Details = Details(approveTo: Option<string>, repo: Option<string>, headSha: Option<string>,
      artifacts: seq<Artifact>)

  /** The fields of GitHub's pull request object the plan reads. */
  datatype PullRequest = PullRequest(number: nat, open: bool, merged: bool, mergeCommit: Option<string>,
    headSha: string, headRepo: Option<string>, baseRef: string, baseRepo: string, defaultBranch: string)

  datatype MergeTarget = MergeTarget(repo: string, number: nat, headSha: string)

  datatype Refusal =
    NoRepository | Unbound | NoPullRequest | Elsewhere | Fork | MergedElsewhere | Closed | Changed | WrongBase

  datatype Parsed = Target(target: MergeTarget) | Bad(reason: Refusal)

  datatype Plan = Merge(number: nat, sha: string) | AlreadyMerged(mergeSha: Option<string>) | Fail(reason: Refusal)

  // ----- Patterns -----

  predicate Name(s: string) {
    s != "" && forall i :: 0 <= i < |s| ==> s[i] != '/' && !IsSpace(s[i])
  }

  predicate Sha(s: string) {
    |s| == 40 && forall i :: 0 <= i < |s| ==> '0' <= s[i] <= '9' || 'a' <= s[i] <= 'f'
  }

  predicate Digits(s: string) {
    s != "" && forall i :: 0 <= i < |s| ==> '0' <= s[i] <= '9'
  }

  predicate Repository(s: string) {
    var parts := Split(s, '/');
    |parts| == 2 && Name(parts[0]) && Name(parts[1])
  }

  datatype PrLink = PrLink(repo: string, number: nat)

  function ParseLink(s: string): Option<PrLink> {
    var parts := Split(s, '/');
    if |parts| == 7 && parts[..3] == ["https:", "", "github.com"] && Name(parts[3]) && Name(parts[4]) &&
       parts[5] == "pull" && Digits(parts[6])
    then Some(PrLink(parts[3] + "/" + parts[4], Number(parts[6]))) else None
  }

  function LinkParts(owner: string, name: string, digits: string): seq<string> {
    ["https:", "", "github.com", owner, name, "pull", digits]
  }

  /** The link pattern accepts exactly a pull request page of one repository, and reads that repository and number. */
  lemma LinksExactly(s: string, link: PrLink)
    ensures ParseLink(s) == Some(link) <==>
            exists owner: string, name: string, digits: string ::
              Name(owner) && Name(name) && Digits(digits) && s == Join(LinkParts(owner, name, digits), "/") &&
              link.repo == owner + "/" + name && link.number == Number(digits)
  {
    SplitJoins(s, '/');
    var parts := Split(s, '/');
    if ParseLink(s) == Some(link) {
      assert parts == LinkParts(parts[3], parts[4], parts[6]);
    }
    forall owner: string, name: string, digits: string
      | Name(owner) && Name(name) && Digits(digits) && s == Join(LinkParts(owner, name, digits), "/")
      ensures parts == LinkParts(owner, name, digits)
    {
      LinkPartsSplit(owner, name, digits);
    }
  }

  lemma LinkPartsSplit(owner: string, name: string, digits: string)
    requires Name(owner) && Name(name) && Digits(digits)
    ensures Split(Join(LinkParts(owner, name, digits), "/"), '/') == LinkParts(owner, name, digits)
  {
    var parts := LinkParts(owner, name, digits);
    forall part <- parts ensures '/' !in part {}
    JoinSplits(parts, '/');
  }

  predicate Same(a: Option<string>, b: string) {
    a.Some? && Lower(a.value) == Lower(b)
  }

  // ----- The plan -----

  /** Only the gate that approves a merge. */
  predicate IsMergeGate(details: Details) {
    details.approveTo == Some("ready-to-merge")
  }

  function FirstPr(artifacts: seq<Artifact>): Option<Artifact> {
    if artifacts == [] then None
    else if artifacts[0].kind == Some("pr") then Some(artifacts[0]) else FirstPr(artifacts[1..])
  }

  function TargetOf(details: Details): Parsed {
    if details.repo.None? || !Repository(details.repo.value) then Bad(NoRepository)
    else if details.headSha.None? || !Sha(details.headSha.value) then Bad(Unbound)
    else
      var pr := FirstPr(details.artifacts);
      var link := if pr.Some? && pr.value.value.Some? then ParseLink(pr.value.value.value) else None;
      if link.None? || !Same(Some(link.value.repo), details.repo.value) then Bad(NoPullRequest)
      else Target(MergeTarget(details.repo.value, link.value.number, details.headSha.value))
  }

  function PlanFor(details: Details, pr: PullRequest): Plan {
    var parsed := TargetOf(details);
    if parsed.Bad? then Fail(parsed.reason)
    else
      var t := parsed.target;
      if pr.number != t.number || !Same(Some(pr.baseRepo), t.repo) then Fail(Elsewhere)
      else if !Same(pr.headRepo, t.repo) then Fail(Fork)
      else if pr.merged then if pr.headSha == t.headSha then AlreadyMerged(pr.mergeCommit) else Fail(MergedElsewhere)
      else if !pr.open then Fail(Closed)
      else if pr.headSha != t.headSha then Fail(Changed)
      else if pr.baseRef != pr.defaultBranch then Fail(WrongBase)
      else Merge(t.number, t.headSha)
  }
}
