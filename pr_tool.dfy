/** The pull-request tool (src/tools/pr_tool.py): the codebase lookups, the repository's full name read from
    its URL, the replacement of an open pull request between the same
    branches, and the reply. Git, the GitHub REST API and the installation
    token exchange are inputs; the model records the calls made on them. */
module PullRequestTool {
  import opened PyStr
  import opened AgentState
  import opened GitBranch

  const NotFound := "❌ Repository not found in codebase"
  const GithubPrefix := "https://github.com/"

  function Created(url: string): string {
    "✅ Pull Request created: " + url
  }

  function Failed(status: int): string {
    "❌ Failed to create pull request " + IntToString(status)
  }

  function ErrorReply(msg: string): string {
    "❌ Error creating pull request: " + msg
  }

  /** The branch as an f-string shows it: `None` when there is none. */
  function BranchText(agent: Option<string>): string {
    match agent
    case None => "None"
    case Some(b) => b
  }

  // ---------------------------------------------------------------------------
  // The codebase lookups

  predicate Matches(repo: Repository, repoName: string) {
    Contains(repo.repositoryUrl, repoName)
  }

  /** The first codebase entry whose URL contains the name. */
  function FirstMatch(codebase: seq<Repository>, repoName: string): (r: Option<nat>)
    ensures r.Some? ==> r.value < |codebase| && Matches(codebase[r.value], repoName)
    ensures r.Some? ==> forall j :: 0 <= j < r.value ==> !Matches(codebase[j], repoName)
    ensures r.None? ==> forall j :: 0 <= j < |codebase| ==> !Matches(codebase[j], repoName)
  {
    if codebase == [] then None
    else if Matches(codebase[0], repoName) then Some(0)
    else match FirstMatch(codebase[1..], repoName)
      case None => None
      case Some(k) => Some(k + 1)
  }

  /** The last codebase entry whose URL contains the name. */
  function LastMatch(codebase: seq<Repository>, repoName: string): (r: Option<nat>)
    ensures r.Some? ==> r.value < |codebase| && Matches(codebase[r.value], repoName)
    ensures r.Some? ==> forall j :: r.value < j < |codebase| ==> !Matches(codebase[j], repoName)
    ensures r.None? ==> forall j :: 0 <= j < |codebase| ==> !Matches(codebase[j], repoName)
  {
    if codebase == [] then None
    else if Matches(codebase[|codebase| - 1], repoName) then Some(|codebase| - 1)
    else LastMatch(codebase[..|codebase| - 1], repoName)
  }

  /** The loop that takes the installation id of the first match and stops. */
  method FindInstallationId(codebase: seq<Repository>, repoName: string) returns (id: Option<string>)
    ensures FirstMatch(codebase, repoName).None? ==> id == None
    ensures FirstMatch(codebase, repoName).Some? ==> id == Some(codebase[FirstMatch(codebase, repoName).value].installationId)
  {
    id := None;
    for i := 0 to |codebase|
      invariant id == None
      invariant forall j :: 0 <= j < i ==> !Matches(codebase[j], repoName)
    {
      if Contains(codebase[i].repositoryUrl, repoName) {
        id := Some(codebase[i].installationId);
        break;
      }
    }
  }

  /** The loop without a break that keeps the URL and branch of every match,
      so the last one stays. */
  method FindRepository(codebase: seq<Repository>, repoName: string) returns (found: Option<Repository>)
    ensures LastMatch(codebase, repoName).None? ==> found == None
    ensures LastMatch(codebase, repoName).Some? ==> found == Some(codebase[LastMatch(codebase, repoName).value])
  {
    found := None;
    for i := 0 to |codebase|
      invariant LastMatch(codebase[..i], repoName).None? ==> found == None
      invariant LastMatch(codebase[..i], repoName).Some? ==> found == Some(codebase[LastMatch(codebase[..i], repoName).value])
    {
      assert codebase[..i + 1][..i] == codebase[..i];
      if Contains(codebase[i].repositoryUrl, repoName) {
        found := Some(codebase[i]);
      }
    }
    assert codebase[..|codebase|] == codebase;
  }

  /** An entry matched first is also matched last, so the second lookup finds
      something whenever the first one did. */
  lemma LastMatchExists(codebase: seq<Repository>, repoName: string)
    requires FirstMatch(codebase, repoName).Some?
    ensures LastMatch(codebase, repoName).Some?
    ensures FirstMatch(codebase, repoName).value <= LastMatch(codebase, repoName).value
  {
  }

  // ---------------------------------------------------------------------------
  // The repository's full name

  /** `repo_url.split("https://github.com/")[1].split(".git")[0]` */
  function RepoFullName(url: string): Result<string, string> {
    var parts := Split(url, GithubPrefix);
    if |parts| < 2 then Failure(IndexOutOfRange) else Success(Split(parts[1], ".git")[0])
  }

  /** A text holding no occurrence of the separator is one field. */
  lemma SplitNone(s: string, sep: string)
    requires |sep| > 0 && !Contains(s, sep)
    ensures Split(s, sep) == [s]
  {
    NotContainsNowhere(s, sep);
  }

  /** A text that starts with the separator splits into an empty field and
      the fields of the rest. */
  lemma SplitLeading(sep: string, rest: string)
    requires |sep| > 0
    ensures Split(sep + rest, sep) == [""] + Split(rest, sep)
  {
    assert Find(sep + rest, sep) == Some(0);
    assert (sep + rest)[|sep|..] == rest;
  }

  /** The full name is read back from the URL the codebase entry was made
      from. */
  lemma RepoFullNameOf(name: string)
    requires !Contains(name, ".git") && !Contains(name + ".git", GithubPrefix)
    ensures RepoFullName(GithubPrefix + name + ".git") == Success(name)
  {
    var git := ".git";
    assert git[1] != '.' && git[2] != '.' && git[3] != '.';
    FieldBetween(GithubPrefix, name, git);
  }

  /** Splitting `pre + name + suf` at `pre`, then the second field at `suf`,
      gives back `name`. */
  lemma FieldBetween(pre: string, name: string, suf: string)
    requires |pre| > 0 && |suf| > 0
    requires !Contains(name, suf) && !Contains(name + suf, pre)
    requires forall k :: 0 < k < |suf| ==> suf[k] != suf[0]
    ensures var parts := Split(pre + name + suf, pre);
      |parts| >= 2 && Split(parts[1], suf)[0] == name
  {
    assert pre + name + suf == pre + (name + suf);
    SplitLeading(pre, name + suf);
    SplitNone(name + suf, pre);
    FindAppended(name, suf);
    assert (name + suf)[..|name|] == name;
  }

  /** A URL that does not hold the GitHub prefix raises `IndexError`. */
  lemma RepoFullNameNotGithub(url: string)
    requires !Contains(url, GithubPrefix)
    ensures RepoFullName(url) == Failure(IndexOutOfRange)
  {
    SplitNone(url, GithubPrefix);
  }

  // ---------------------------------------------------------------------------
  // Replacing an open pull request between the same branches

  datatype PullRequest = PullRequest(number: int, head: string, base: string)

  /** The answer to the list request: its status and the open pull requests. */
  datatype Listing = Listing(status: int, prs: seq<PullRequest>)

  predicate SameBranches(pr: PullRequest, agent: Option<string>, base: string) {
    agent == Some(pr.head) && pr.base == base
  }

  /** The first open pull request between the agent branch and the base. */
  function FirstPr(prs: seq<PullRequest>, agent: Option<string>, base: string): (r: Option<nat>)
    ensures r.Some? ==> r.value < |prs| && SameBranches(prs[r.value], agent, base)
    ensures r.Some? ==> forall j :: 0 <= j < r.value ==> !SameBranches(prs[j], agent, base)
    ensures r.None? ==> forall j :: 0 <= j < |prs| ==> !SameBranches(prs[j], agent, base)
  {
    if prs == [] then None
    else if SameBranches(prs[0], agent, base) then Some(0)
    else match FirstPr(prs[1..], agent, base)
      case None => None
      case Some(k) => Some(k + 1)
  }

  /** A call the tool makes on git or on the GitHub API. */
  datatype Step =
    | Git(cmd: string)
    | ListOpen(fullname: string, token: string)
    | Delete(fullname: string, number: int, token: string)
    | Open(fullname: string, token: string, title: string, head: Option<string>, base: string, body: string)

  /** The deletions `check_and_delete_existing_pr` makes. */
  function Deletions(fullname: string, token: string, agent: Option<string>, base: string, listing: Listing): seq<Step> {
    if listing.status != 200 then []
    else match FirstPr(listing.prs, agent, base)
      case None => []
      case Some(k) => [Delete(fullname, listing.prs[k].number, token)]
  }

  /** `check_and_delete_existing_pr`: the loop stops at the first pull request
      between the same branches and deletes it. */
  method CheckAndDeleteExistingPr(fullname: string, agent: Option<string>, base: string, token: string,
                                  listing: Listing) returns (steps: seq<Step>)
    ensures steps == [ListOpen(fullname, token)] + Deletions(fullname, token, agent, base, listing)
  {
    steps := [ListOpen(fullname, token)];
    if listing.status == 200 {
      var prs := listing.prs;
      for i := 0 to |prs|
        invariant steps == [ListOpen(fullname, token)]
        invariant forall j :: 0 <= j < i ==> !SameBranches(prs[j], agent, base)
      {
        if agent == Some(prs[i].head) && prs[i].base == base {
          steps := steps + [Delete(fullname, prs[i].number, token)];
          return;
        }
      }
    }
  }

  /** At most one pull request is deleted: the first one between the same
      branches, and only when the list request succeeded. */
  lemma AtMostOneDeletion(fullname: string, token: string, agent: Option<string>, base: string, listing: Listing)
    ensures var d := Deletions(fullname, token, agent, base, listing);
      && |d| <= 1
      && (|d| == 1 <==> listing.status == 200 && exists j :: 0 <= j < |listing.prs| && SameBranches(listing.prs[j], agent, base))
      && (|d| == 1 ==>
            exists k :: 0 <= k < |listing.prs| && d[0] == Delete(fullname, listing.prs[k].number, token)
              && SameBranches(listing.prs[k], agent, base)
              && forall j :: 0 <= j < k ==> !SameBranches(listing.prs[j], agent, base))
  {
    var d := Deletions(fullname, token, agent, base, listing);
    if listing.status == 200 && FirstPr(listing.prs, agent, base).Some? {
      var k := FirstPr(listing.prs, agent, base).value;
      assert d[0] == Delete(fullname, listing.prs[k].number, token);
    }
  }

  /** Without a current branch nothing is deleted. */
  lemma NoBranchNoDeletion(fullname: string, token: string, base: string, listing: Listing)
    ensures Deletions(fullname, token, None, base, listing) == []
  {
  }

  // ---------------------------------------------------------------------------
  // create_pull_request

  /** What git answers. */
  datatype GitRun = GitRun(returncode: int, stdout: string)

  /** The answer to the request that opens the pull request. */
  datatype Posted = Posted(status: int, htmlUrl: Option<string>)

  /** The outside world as the tool sees it: the installation token for an
      installation id, git's answer to a command, and the two answers of the
      GitHub API. */
  datatype World = World(tokenFor: string -> string, git: string -> GitRun, listing: Listing, posted: Posted)

  function InRepository(sessionId: string, repoName: string): string {
    "cd .. && cd tmp && cd " + sessionId + " && cd codebase && cd " + repoName
  }

  function BranchCmd(sessionId: string, repoName: string): string {
    InRepository(sessionId, repoName) + " && git branch"
  }

  function CommitCmd(sessionId: string, repoName: string, title: string): string {
    InRepository(sessionId, repoName) + " && git add . && git commit -m\"" + title + "\""
  }

  function PushCmd(sessionId: string, repoName: string, agent: Option<string>): string {
    InRepository(sessionId, repoName) + " && git push --set-upstream origin " + BranchText(agent)
  }

  function ForcePushCmd(sessionId: string, repoName: string, agent: Option<string>): string {
    InRepository(sessionId, repoName) + " && git push --force origin " + BranchText(agent)
  }

  /** The pushes: a force push follows only when the first push returns 1. */
  function Pushes(sessionId: string, repoName: string, agent: Option<string>, git: string -> GitRun): seq<Step> {
    if git(PushCmd(sessionId, repoName, agent)).returncode == 1 then
      [Git(PushCmd(sessionId, repoName, agent)), Git(ForcePushCmd(sessionId, repoName, agent))]
    else [Git(PushCmd(sessionId, repoName, agent))]
  }

  /** `str(pr_url)` */
  function UrlText(url: Option<string>): string {
    match url
    case None => "None"
    case Some(u) => u
  }

  /** The reply to the request that opens the pull request. */
  function PostReply(posted: Posted): string {
    if posted.status == 201 then Created(UrlText(posted.htmlUrl)) else Failed(posted.status)
  }

  /** The steps after the git steps, once the full name is known. */
  function Publish(fullname: string, token: string, title: string, body: string, agent: Option<string>, base: string,
                   world: World): seq<Step> {
    [ListOpen(fullname, token)] + Deletions(fullname, token, agent, base, world.listing)
      + [Open(fullname, token, title, agent, base, body)]
  }

  /** The reply and the calls made once `git branch` has been read: `branch`
      is what the branch extraction gave. */
  function AfterBranch(sessionId: string, repoName: string, title: string, body: string, repo: Repository,
                       token: string, world: World, branch: Result<Option<string>, string>): (string, seq<Step>) {
    var first := [Git(BranchCmd(sessionId, repoName))];
    match branch
    case Failure(e) => (ErrorReply(e), first)
    case Success(agent) =>
      var gitSteps := first + [Git(CommitCmd(sessionId, repoName, title))] + Pushes(sessionId, repoName, agent, world.git);
      match RepoFullName(repo.repositoryUrl)
      case Failure(e) => (ErrorReply(e), gitSteps)
      case Success(fullname) =>
        (PostReply(world.posted), gitSteps + Publish(fullname, token, title, body, agent, repo.branch, world))
  }

  /** The reply and the calls made, once the installation id is known;
      `repo` is the last codebase entry that matches. */
  function Proceed(sessionId: string, repoName: string, title: string, body: string, repo: Repository,
                   token: string, world: World): (string, seq<Step>) {
    AfterBranch(sessionId, repoName, title, body, repo, token, world,
                CurrentBranch(SplitLines(world.git(BranchCmd(sessionId, repoName)).stdout)))
  }

  /** The two codebase lookups: the installation id of the first entry whose
      URL contains the name, when it is not empty, and the last such entry. */
  function Lookup(codebase: seq<Repository>, repoName: string): Option<(string, Repository)> {
    match FirstMatch(codebase, repoName)
    case None => None
    case Some(i) =>
      if codebase[i].installationId == "" then None
      else
        LastMatchExists(codebase, repoName);
        Some((codebase[i].installationId, codebase[LastMatch(codebase, repoName).value]))
  }

  /** `create_pull_request`: the reply and the calls made, in order. */
  function PullRequestRun(sessionId: string, repoName: string, title: string, body: string, codebase: seq<Repository>,
                          world: World): (string, seq<Step>) {
    match Lookup(codebase, repoName)
    case None => (NotFound, [])
    case Some((id, repo)) => Proceed(sessionId, repoName, title, body, repo, world.tokenFor(id), world)
  }

  /** The git steps, run one after the other. */
  method RunGit(sessionId: string, repoName: string, title: string, world: World)
    returns (agent: Result<Option<string>, string>, steps: seq<Step>)
    ensures agent == CurrentBranch(SplitLines(world.git(BranchCmd(sessionId, repoName)).stdout))
    ensures agent.Failure? ==> steps == [Git(BranchCmd(sessionId, repoName))]
    ensures agent.Success? ==>
      steps == [Git(BranchCmd(sessionId, repoName))] + [Git(CommitCmd(sessionId, repoName, title))]
        + Pushes(sessionId, repoName, agent.value, world.git)
  {
    var command := BranchCmd(sessionId, repoName);
    var result := world.git(command);
    steps := [Git(command)];
    agent := ExtractCurrentBranch(result.stdout);
    if agent.Failure? {
      return;
    }
    command := CommitCmd(sessionId, repoName, title);
    result := world.git(command);
    steps := steps + [Git(command)];
    command := PushCmd(sessionId, repoName, agent.value);
    result := world.git(command);
    steps := steps + [Git(command)];
    if result.returncode == 1 {
      command := ForcePushCmd(sessionId, repoName, agent.value);
      result := world.git(command);
      steps := steps + [Git(command)];
    }
  }

  /** Everything after the installation id: the git steps, the lookup of the
      last matching entry, the full name, the replacement of an open pull
      request and the request that opens the new one. */
  method ProceedRun(sessionId: string, repoName: string, title: string, body: string,
                    codebase: seq<Repository>, token: string, world: World) returns (reply: string, steps: seq<Step>)
    requires LastMatch(codebase, repoName).Some?
    ensures (reply, steps) == Proceed(sessionId, repoName, title, body, codebase[LastMatch(codebase, repoName).value], token, world)
  {
    var agent;
    agent, steps := RunGit(sessionId, repoName, title, world);
    if agent.Failure? {
      return ErrorReply(agent.error), steps;
    }
    var repo := FindRepository(codebase, repoName);
    var fullname := RepoFullName(repo.value.repositoryUrl);
    if fullname.Failure? {
      return ErrorReply(fullname.error), steps;
    }
    var deleting := CheckAndDeleteExistingPr(fullname.value, agent.value, repo.value.branch, token, world.listing);
    var opening := Open(fullname.value, token, title, agent.value, repo.value.branch, body);
    assert steps + deleting + [opening] == steps + (deleting + [opening]);
    steps := steps + deleting + [opening];
    reply := PostReply(world.posted);
  }

  /** `create_pull_request` */
  method CreatePullRequest(sessionId: string, repoName: string, title: string, body: string,
                           codebase: seq<Repository>, world: World) returns (reply: string, steps: seq<Step>)
    ensures (reply, steps) == PullRequestRun(sessionId, repoName, title, body, codebase, world)
  {
    var id := FindInstallationId(codebase, repoName);
    if id == None || id.value == "" {
      return NotFound, [];
    }
    var token := world.tokenFor(id.value);
    LastMatchExists(codebase, repoName);
    assert Lookup(codebase, repoName) == Some((id.value, codebase[LastMatch(codebase, repoName).value]));
    reply, steps := ProceedRun(sessionId, repoName, title, body, codebase, token, world);
  }

  // ---------------------------------------------------------------------------
  // Properties of create_pull_request

  /** No codebase entry's URL contains the name: nothing is found. */
  lemma RepositoryNotFound(codebase: seq<Repository>, repoName: string)
    requires forall k :: 0 <= k < |codebase| ==> !Contains(codebase[k].repositoryUrl, repoName)
    ensures Lookup(codebase, repoName) == None
  {
    assert FirstMatch(codebase, repoName).None?;
  }

  /** The first matching entry has an empty installation id: nothing is
      found, even when a later entry matches with an id. */
  lemma EmptyInstallationId(codebase: seq<Repository>, repoName: string, i: nat)
    requires i < |codebase| && Contains(codebase[i].repositoryUrl, repoName) && codebase[i].installationId == ""
    requires forall j :: 0 <= j < i ==> !Contains(codebase[j].repositoryUrl, repoName)
    ensures Lookup(codebase, repoName) == None
  {
    var r := FirstMatch(codebase, repoName);
    assert r.Some? && r.value >= i;
  }

  /** Otherwise the installation id comes from the first matching entry and
      the repository (its URL and branch) from the last one. */
  lemma FirstIdLastRepository(codebase: seq<Repository>, repoName: string, i: nat, k: nat)
    requires i < |codebase| && Contains(codebase[i].repositoryUrl, repoName) && codebase[i].installationId != ""
    requires forall j :: 0 <= j < i ==> !Contains(codebase[j].repositoryUrl, repoName)
    requires k < |codebase| && Contains(codebase[k].repositoryUrl, repoName)
    requires forall j :: k < j < |codebase| ==> !Contains(codebase[j].repositoryUrl, repoName)
    ensures Lookup(codebase, repoName) == Some((codebase[i].installationId, codebase[k]))
  {
    var first := FirstMatch(codebase, repoName);
    assert first.Some? && first.value >= i;
    LastMatchExists(codebase, repoName);
    var last := LastMatch(codebase, repoName);
    assert last.value <= k;
  }

  /** Without a usable codebase entry the tool answers that the repository
      is not found and makes no call. */
  lemma NotFoundWithoutCalls(sessionId: string, repoName: string, title: string, body: string,
                             codebase: seq<Repository>, world: World)
    requires Lookup(codebase, repoName) == None
    ensures PullRequestRun(sessionId, repoName, title, body, codebase, world) == (NotFound, [])
  {
  }

  /** Once a branch is read, the git steps come first, in order: branch,
      commit, push, and a force push exactly when the first push returns 1;
      no later step runs git. */
  lemma GitSteps(sessionId: string, repoName: string, title: string, body: string, repo: Repository,
                 token: string, world: World, agent: Option<string>)
    ensures var steps := AfterBranch(sessionId, repoName, title, body, repo, token, world, Success(agent)).1;
      var forced := world.git(PushCmd(sessionId, repoName, agent)).returncode == 1;
      && |steps| >= 3
      && steps[0] == Git(BranchCmd(sessionId, repoName))
      && steps[1] == Git(CommitCmd(sessionId, repoName, title))
      && steps[2] == Git(PushCmd(sessionId, repoName, agent))
      && (forced ==> |steps| >= 4 && steps[3] == Git(ForcePushCmd(sessionId, repoName, agent)))
      && (forall k :: (if forced then 4 else 3) <= k < |steps| ==> !steps[k].Git?)
  {
    var pushes := Pushes(sessionId, repoName, agent, world.git);
    var gitSteps := [Git(BranchCmd(sessionId, repoName))] + [Git(CommitCmd(sessionId, repoName, title))] + pushes;
    var n := |gitSteps|;
    match RepoFullName(repo.repositoryUrl)
    case Failure(e) =>
    case Success(fullname) =>
      var rest := Publish(fullname, token, title, body, agent, repo.branch, world);
      var d := Deletions(fullname, token, agent, repo.branch, world.listing);
      assert forall j :: 0 <= j < |d| ==> d[j].Delete?;
      var all: seq<Step> := gitSteps + rest;
      forall j | n <= j < |all| ensures !all[j].Git? {
        assert all[j] == rest[j - n];
        if 1 <= j - n <= |d| {
          assert rest[j - n] == d[j - n - 1];
        }
      }
  }

  /** A URL that is not a GitHub URL stops the tool after the git steps, with
      the `IndexError` message. */
  lemma NotGithubUrl(sessionId: string, repoName: string, title: string, body: string, repo: Repository,
                     token: string, world: World, agent: Option<string>)
    requires !Contains(repo.repositoryUrl, GithubPrefix)
    ensures var r := AfterBranch(sessionId, repoName, title, body, repo, token, world, Success(agent));
      r.0 == ErrorReply(IndexOutOfRange) && forall k :: 0 <= k < |r.1| ==> r.1[k].Git?
  {
    RepoFullNameNotGithub(repo.repositoryUrl);
  }

  /** With a full name read from the URL, the tool lists the open pull
      requests right after the git steps and ends by opening one from the
      current branch into the entry's branch; the reply follows the status
      of that last request alone. */
  lemma OpensPullRequest(sessionId: string, repoName: string, title: string, body: string, repo: Repository,
                         token: string, world: World, agent: Option<string>, fullname: string)
    requires RepoFullName(repo.repositoryUrl) == Success(fullname)
    ensures var r := AfterBranch(sessionId, repoName, title, body, repo, token, world, Success(agent));
      var forced := world.git(PushCmd(sessionId, repoName, agent)).returncode == 1;
      var n := if forced then 4 else 3;
      && r.0 == (if world.posted.status == 201 then Created(UrlText(world.posted.htmlUrl)) else Failed(world.posted.status))
      && |r.1| >= n + 2
      && r.1[n] == ListOpen(fullname, token)
      && r.1[|r.1| - 1] == Open(fullname, token, title, agent, repo.branch, body)
  {
  }
}
