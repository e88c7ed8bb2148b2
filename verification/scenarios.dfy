/** Build-phase classification of the two failures the build patterns name:
    an unreachable Docker daemon, and a build cancelled because a sibling
    build failed. The known build table is a parameter, so each statement
    assumes the table holds a descriptor with that pattern and that no known
    build problem reuses BUILD_UNKNOWN. */
module Scenarios {
  import opened Runcontext
  import opened Proto
  import opened Problems
  import opened Errors
  import BuildProblems

  /** A daemon-down message surfaced in the Build phase gets a known code,
      never the phase's catch-all BUILD_UNKNOWN. */
  lemma DaemonDownIsNotBuildUnknown(msg: string, rc: RunContext, k: KnownProblems, i: int)
    requires 0 <= i < |k.build| && k.build[i].matches == BuildProblems.DockerConnectionFailed
    requires BuildProblems.DockerConnectionFailed(msg)
    requires forall j :: 0 <= j < |k.build| ==> k.build[j].errCode != BuildUnknown
    ensures GetErrorCodeFromError(Build, Raw(msg), rc, k).code != BuildUnknown
  {
    RegisteredPhaseClassification(Build, msg, rc, k);
    assert KnownFor(Build, k) == k.build;
    EarlierMatchWins(k.build, msg, i);
  }

  /** A build stopped with "context canceled" in the Build phase gets a known
      code, never the phase's catch-all BUILD_UNKNOWN. */
  lemma CancelledBuildIsNotBuildUnknown(msg: string, rc: RunContext, k: KnownProblems, i: int)
    requires 0 <= i < |k.build| && k.build[i].matches == BuildProblems.BuildCancelled
    requires BuildProblems.BuildCancelled(msg)
    requires forall j :: 0 <= j < |k.build| ==> k.build[j].errCode != BuildUnknown
    ensures GetErrorCodeFromError(Build, Raw(msg), rc, k).code != BuildUnknown
  {
    RegisteredPhaseClassification(Build, msg, rc, k);
    assert KnownFor(Build, k) == k.build;
    EarlierMatchWins(k.build, msg, i);
  }
}
