/** Build-phase patterns and the suggestion generator for a push or pull
    that the registry denied. */
module BuildProblems {
  import opened Wrappers
  import opened Proto
  import opened Runcontext
  import opened Text
  import Config

  /** Prefix of the error Docker's client reports when its daemon is unreachable. */
  const DockerDaemonUnreachable := "Cannot connect to the Docker daemon"

  /** Message fragment of a build stopped because a sibling build failed. */
  const ContextCanceled := "context canceled"

  /** Root domain of the Google-managed container registries. */
  const GcrDomain := "gcr.io"

  const CheckDefaultRepoText := "Check your `--default-repo` value"
  const CheckGlobalConfigText := "Check your default-repo setting in skaffold config"
  const AddDefaultRepoText := "Trying running with `--default-repo` flag"
  const GcloudAuthText := "try `gcloud auth configure-docker`"
  const DockerLoginText := "try `docker login`"

  /** No line break in `s`: Go's `.` matches any character but a newline. */
  predicate SingleLine(s: string) {
    forall k | 0 <= k < |s| :: s[k] != '\n'
  }

  /** The pattern `.*(Cannot connect to the Docker daemon.*) Is`, matched
      unanchored: the daemon prefix, then later on the same line " Is". */
  predicate DockerConnectionFailed(msg: string) {
    exists i, j | 0 <= i && i + |DockerDaemonUnreachable| <= j <= |msg| - 3 ::
      && OccursAt(msg, DockerDaemonUnreachable, i)
      && OccursAt(msg, " Is", j)
      && SingleLine(msg[i + |DockerDaemonUnreachable|..j])
  }

  /** The pattern `.*context canceled.*`, matched unanchored. */
  predicate BuildCancelled(msg: string) {
    Contains(msg, ContextCanceled)
  }

  /** The pattern `(.+\.)?gcr\.io.*`, matched unanchored against a repository:
      the optional subdomain group may match nothing, so it holds exactly when
      the repository contains `gcr.io` anywhere. */
  predicate GcrRepo(repo: string) {
    Contains(repo, GcrDomain)
  }

  /** The registry-specific authentication hint for a repository. */
  function MakeAuthSuggestionsForRepo(repo: string): (r: Suggestion)
    ensures r.code == GcloudDockerAuthConfigure <==> GcrRepo(repo)
    ensures r.code == DockerAuthConfigure <==> !GcrRepo(repo)
    ensures r.code == GcloudDockerAuthConfigure ==> r.action == GcloudAuthText
    ensures r.code == DockerAuthConfigure ==> r.action == DockerLoginText
  {
    if GcrRepo(repo) then Suggestion(GcloudDockerAuthConfigure, GcloudAuthText)
    else Suggestion(DockerAuthConfigure, DockerLoginText)
  }

  /** Where the repository the user pushed to was configured: the
      `--default-repo` flag wins, then a non-empty default repository in the
      global configuration; a configuration that cannot be loaded counts as
      none. */
  datatype RepoSource = FromFlag(repo: string) | FromGlobalConfig(repo: string) | Unconfigured

  function EffectiveRepo(rc: RunContext, load: Config.Loader): RepoSource {
    if rc.defaultRepo.Some? then FromFlag(rc.defaultRepo.value)
    else match load(rc.globalConfig)
      case Success(cfg) => if cfg.defaultRepo != "" then FromGlobalConfig(cfg.defaultRepo) else Unconfigured
      case Failure(_) => Unconfigured
  }

  /** The suggestions for a push or pull the registry denied. `load` reads
      the global configuration for the current kube context; its error is
      swallowed. */
  function SuggestBuildPushAccessDeniedAction(rc: RunContext, load: Config.Loader): (r: Suggestions)
    ensures r.Slice? && 1 <= |r.items| <= 2
    ensures rc.defaultRepo.Some? ==>
      r.items == [Suggestion(CheckDefaultRepo, CheckDefaultRepoText), MakeAuthSuggestionsForRepo(rc.defaultRepo.value)]
    ensures rc.defaultRepo.None? && load(rc.globalConfig).Success? && load(rc.globalConfig).value.defaultRepo != "" ==>
      r.items == [Suggestion(CheckDefaultRepoGlobalConfig, CheckGlobalConfigText),
                  MakeAuthSuggestionsForRepo(load(rc.globalConfig).value.defaultRepo)]
    ensures rc.defaultRepo.None? && (load(rc.globalConfig).Failure? || load(rc.globalConfig).value.defaultRepo == "") ==>
      r.items == [Suggestion(AddDefaultRepo, AddDefaultRepoText)]
  {
    match rc.defaultRepo
    case Some(defaultRepo) =>
      Slice([Suggestion(CheckDefaultRepo, CheckDefaultRepoText)] + [MakeAuthSuggestionsForRepo(defaultRepo)])
    case None =>
      var loaded := load(rc.globalConfig);
      if loaded.Success? && loaded.value.defaultRepo != "" then
        Slice([Suggestion(CheckDefaultRepoGlobalConfig, CheckGlobalConfigText)]
              + [MakeAuthSuggestionsForRepo(loaded.value.defaultRepo)])
      else
        Slice([Suggestion(AddDefaultRepo, AddDefaultRepoText)])
  }

  /** The generator agrees with the precedence: two suggestions exactly when a
      repository is configured, the first naming where it was configured and
      the second the authentication hint for that repository. */
  lemma PushAccessDeniedFollowsPrecedence(rc: RunContext, load: Config.Loader)
    ensures var r := SuggestBuildPushAccessDeniedAction(rc, load).items;
      match EffectiveRepo(rc, load)
      case FromFlag(repo) =>
        r == [Suggestion(CheckDefaultRepo, CheckDefaultRepoText), MakeAuthSuggestionsForRepo(repo)]
      case FromGlobalConfig(repo) =>
        r == [Suggestion(CheckDefaultRepoGlobalConfig, CheckGlobalConfigText), MakeAuthSuggestionsForRepo(repo)]
      case Unconfigured => r == [Suggestion(AddDefaultRepo, AddDefaultRepoText)]
  {
  }

  /** With `--default-repo` given, the global configuration is never consulted:
      any two loaders give the same suggestions. */
  lemma FlagIgnoresGlobalConfig(rc: RunContext, load1: Config.Loader, load2: Config.Loader)
    requires rc.defaultRepo.Some?
    ensures SuggestBuildPushAccessDeniedAction(rc, load1) == SuggestBuildPushAccessDeniedAction(rc, load2)
  {
  }

  /** A failed read of the global configuration behaves like a configuration
      without a default repository: the read error never reaches the caller. */
  lemma ConfigErrorIsSwallowed(rc: RunContext, load: Config.Loader, e: string)
    requires rc.defaultRepo.None? && load(rc.globalConfig) == Failure(e)
    ensures SuggestBuildPushAccessDeniedAction(rc, load)
         == SuggestBuildPushAccessDeniedAction(rc, _ => Success(Config.ContextConfig("")))
  {
  }

  /** Every regional host `<sub>.gcr.io` gets the gcloud hint, whatever the path. */
  lemma RegionalGcrHostsUseGcloud(sub: string, path: string)
    ensures MakeAuthSuggestionsForRepo(sub + "." + GcrDomain + path).code == GcloudDockerAuthConfigure
  {
    var repo := sub + "." + GcrDomain + path;
    assert repo[|sub| + 1..|sub| + 1 + |GcrDomain|] == GcrDomain;
    assert OccursAt(repo, GcrDomain, |sub| + 1);
  }

  /** The match is unanchored: `gcr.io` inside the path of another registry
      also selects the gcloud hint. */
  lemma UnanchoredGcrMatch()
    ensures MakeAuthSuggestionsForRepo("registry.example.com/gcr.io-mirror").code == GcloudDockerAuthConfigure
  {
    var repo := "registry.example.com/gcr.io-mirror";
    assert repo[21..27] == GcrDomain;
    assert OccursAt(repo, GcrDomain, 21);
  }

  /** A repository on Docker Hub gets the `docker login` hint. */
  lemma DockerHubUsesDockerLogin()
    ensures MakeAuthSuggestionsForRepo("docker.io/me").code == DockerAuthConfigure
  {
    var repo := "docker.io/me";
    forall i | 0 <= i <= |repo| - |GcrDomain| ensures !OccursAt(repo, GcrDomain, i) {
      assert repo[i + 1] != 'c' || repo[i] != 'g';
    }
  }

  /** With `--default-repo=myrepo.gcr.io`, the first suggestion is to check
      the flag and the second is the gcloud hint. */
  lemma GcrDefaultRepoScenario(load: Config.Loader)
    ensures SuggestBuildPushAccessDeniedAction(RunContext(Some("myrepo.gcr.io"), ""), load).items
         == [Suggestion(CheckDefaultRepo, CheckDefaultRepoText), Suggestion(GcloudDockerAuthConfigure, GcloudAuthText)]
  {
    RegionalGcrHostsUseGcloud("myrepo", "");
    assert "myrepo" + "." + GcrDomain + "" == "myrepo.gcr.io";
  }

  /** A cancelled build stays recognisable after the error is wrapped with context. */
  lemma BuildCancelledSurvivesWrapping(msg: string, before: string, after: string)
    requires BuildCancelled(msg)
    ensures BuildCancelled(before + msg + after)
  {
    ContainsUnderWrapping(msg, ContextCanceled, before, after);
  }

  /** The bare message "context canceled" is a cancelled build. */
  lemma ContextCanceledIsBuildCancelled()
    ensures BuildCancelled(ContextCanceled)
  {
    assert OccursAt(ContextCanceled, ContextCanceled, 0);
  }

  /** The message the Docker client prints when its daemon is down matches
      the daemon pattern. */
  lemma DockerDaemonDownMatches(socket: string)
    requires SingleLine(socket)
    ensures DockerConnectionFailed(DockerDaemonUnreachable + socket + " Is the docker daemon running?")
  {
    var tail := " Is the docker daemon running?";
    var msg := DockerDaemonUnreachable + socket + tail;
    var n := |DockerDaemonUnreachable|;
    assert msg[0..n] == DockerDaemonUnreachable;
    assert msg[n + |socket|..] == tail;
    assert msg[n + |socket|..n + |socket| + 3] == tail[..3] == " Is";
    assert msg[n..n + |socket|] == socket;
    assert OccursAt(msg, DockerDaemonUnreachable, 0);
    assert OccursAt(msg, " Is", n + |socket|);
  }

  /** A line break between the daemon prefix and " Is" defeats the pattern:
      no match can span it. */
  lemma DockerDaemonPatternStopsAtNewline()
    ensures !DockerConnectionFailed(DockerDaemonUnreachable + "\n Is")
  {
    var msg := DockerDaemonUnreachable + "\n Is";
    var n := |DockerDaemonUnreachable|;
    assert msg[1] == DockerDaemonUnreachable[1] == 'a';
    assert msg[n] == '\n';
    forall i, j | 0 <= i && i + n <= j <= |msg| - 3 && OccursAt(msg, DockerDaemonUnreachable, i)
      ensures !(OccursAt(msg, " Is", j) && SingleLine(msg[i + n..j]))
    {
      assert msg[i] == msg[i..i + n][0] == 'C';
      assert i == 0;
      if j == n {
        assert msg[j..j + 3][0] == '\n';
      } else {
        assert msg[i + n..j][0] == '\n';
      }
    }
  }
}
