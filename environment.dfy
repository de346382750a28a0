/** Option values for environment variables that may be unset. */
module Wrappers {
  datatype Option<+T> = None | Some(value: T)
}

/**
 * The environment slug a build is tagged with (`getEnvironment` in
 * development/build/scripts.js): a priority cascade over the build flags and
 * the CircleCI variables CIRCLE_BRANCH and CIRCLE_PULL_REQUEST.
 */
module Environment {
  import opened Wrappers

  /** The two CI variables read from the process environment; `None` is an unset variable. */
  datatype CiVars = CiVars(circleBranch: Option<string>, circlePullRequest: Option<string>)

  datatype Slug = Development | Testing | Production | ReleaseCandidate | Staging | PullRequest | Other

  const AllSlugNames: set<string> :=
    {"development", "testing", "production", "release-candidate", "staging", "pull-request", "other"}

  /** The string the build injects for a slug. */
  function SlugName(s: Slug): (r: string)
    ensures r in AllSlugNames
  {
    match s
    case Development => "development"
    case Testing => "testing"
    case Production => "production"
    case ReleaseCandidate => "release-candidate"
    case Staging => "staging"
    case PullRequest => "pull-request"
    case Other => "other"
  }

  /** Different slugs are injected as different strings. */
  lemma SlugNameInjective(s: Slug, t: Slug)
    ensures SlugName(s) == SlugName(t) <==> s == t
  {
  }

  /** JavaScript truthiness of a string-valued variable: set and non-empty. */
  predicate Truthy(v: Option<string>) {
    v.Some? && v.value != ""
  }

  /** `String(v)`: what `RegExp.prototype.test` sees when given an unset variable. */
  function JsString(v: Option<string>): (s: string) {
    match v
    case Some(s) => s
    case None => "undefined"
  }

  const VersionPrefix: string := "Version-v"

  /** `\d` of a JavaScript regular expression: an ASCII digit. */
  predicate IsDigit(c: char) {
    '0' <= c <= '9'
  }

  predicate AllDigits(t: string) {
    forall k :: 0 <= k < |t| ==> IsDigit(t[k])
  }

  /** The index just past the longest run of digits that starts at `i`. */
  function DigitRunEnd(s: string, i: nat): (e: nat)
    requires i <= |s|
    ensures i <= e <= |s|
    ensures forall k :: i <= k < e ==> IsDigit(s[k])
    ensures e < |s| ==> !IsDigit(s[e])
    decreases |s| - i
  {
    if i < |s| && IsDigit(s[i]) then DigitRunEnd(s, i + 1) else i
  }

  /**
   * The test `/^Version-v(\d+)[.](\d+)[.](\d+)/.test(s)`: the match is anchored
   * at the start only, so text after the third number is allowed. Each `\d+`
   * is followed by a non-digit, so the greedy runs never need to backtrack.
   */
  predicate MatchesVersionBranch(s: string) {
    |VersionPrefix| <= |s| && s[..|VersionPrefix|] == VersionPrefix &&
    var p := DigitRunEnd(s, |VersionPrefix|);
    |VersionPrefix| < p < |s| && s[p] == '.' &&
    var q := DigitRunEnd(s, p + 1);
    p + 1 < q < |s| && s[q] == '.' &&
    q + 1 < |s| && IsDigit(s[q + 1])
  }

  /**
   * Reference reading of the pattern: `s` is "Version-v", three non-empty
   * digit strings separated by dots, then anything.
   */
  ghost predicate IsVersionBranchName(s: string) {
    exists major: string, minor: string, patch: string, rest: string ::
      major != [] && minor != [] && patch != [] &&
      AllDigits(major) && AllDigits(minor) && AllDigits(patch) &&
      s == VersionName(major, minor, patch, rest)
  }

  /** "Version-v<major>.<minor>.<patch><rest>" */
  function VersionName(major: string, minor: string, patch: string, rest: string): (name: string) {
    VersionPrefix + major + "." + minor + "." + patch + rest
  }

  /** A digit run bounded by a non-digit ends where the greedy scan stops. */
  lemma {:induction false} DigitRunEndExact(s: string, i: nat, e: nat)
    requires i <= e < |s|
    requires forall k :: i <= k < e ==> IsDigit(s[k])
    requires !IsDigit(s[e])
    ensures DigitRunEnd(s, i) == e
    decreases e - i
  {
    if i < e {
      DigitRunEndExact(s, i + 1, e);
    }
  }

  /** `s` cut into seven consecutive pieces at the given indices. */
  lemma SevenPieces(s: string, n: nat, p: nat, q: nat)
    requires n <= p < q < |s| - 1
    ensures s == s[..n] + s[n..p] + [s[p]] + s[p + 1..q] + [s[q]] + [s[q + 1]] + s[q + 2..]
  {
  }

  /** Every name the matcher accepts has the shape of the reference reading. */
  lemma MatchesVersionBranchSound(s: string)
    requires MatchesVersionBranch(s)
    ensures IsVersionBranchName(s)
  {
    var n := |VersionPrefix|;
    var p := DigitRunEnd(s, n);
    var q := DigitRunEnd(s, p + 1);
    var major, minor, patch, rest := s[n..p], s[p + 1..q], [s[q + 1]], s[q + 2..];
    SevenPieces(s, n, p, q);
    assert s == VersionName(major, minor, patch, rest);
  }

  /** Where the prefix, the two dots and the numbers sit in a version name. */
  lemma VersionNamePieces(major: string, minor: string, patch: string, rest: string)
    requires patch != []
    ensures var s, n := VersionName(major, minor, patch, rest), |VersionPrefix|;
      var p := n + |major|;
      var q := p + 1 + |minor|;
      && q + 1 < |s| && s[..n] == VersionPrefix && s[n..p] == major && s[p] == '.'
      && s[p + 1..q] == minor && s[q] == '.' && s[q + 1] == patch[0]
  {
    var s, n := VersionName(major, minor, patch, rest), |VersionPrefix|;
    var p := n + |major|;
    var q := p + 1 + |minor|;
    assert s[..n] == VersionPrefix;
    assert s[n..p] == major;
    assert s[p] == '.';
    assert s[p + 1..q] == minor;
    assert s[q] == '.';
    assert s[q + 1] == patch[0];
  }

  /** In a version name the two dots stop digit runs that start after the prefix and after the first dot. */
  lemma VersionNameRuns(major: string, minor: string, patch: string, rest: string)
    requires major != [] && minor != [] && patch != []
    requires AllDigits(major) && AllDigits(minor) && AllDigits(patch)
    ensures var s, n := VersionName(major, minor, patch, rest), |VersionPrefix|;
      var p := n + |major|;
      var q := p + 1 + |minor|;
      && q + 1 < |s| && s[..n] == VersionPrefix && s[p] == '.' && s[q] == '.' && IsDigit(s[q + 1])
      && (forall k :: n <= k < p ==> IsDigit(s[k]))
      && (forall k :: p + 1 <= k < q ==> IsDigit(s[k]))
  {
    var s, n := VersionName(major, minor, patch, rest), |VersionPrefix|;
    var p := n + |major|;
    var q := p + 1 + |minor|;
    VersionNamePieces(major, minor, patch, rest);
    assert forall k :: n <= k < p ==> s[k] == s[n..p][k - n];
    assert forall k :: p + 1 <= k < q ==> s[k] == s[p + 1..q][k - p - 1];
  }

  /** A version name built from three digit strings is accepted by the matcher. */
  lemma VersionNameMatches(major: string, minor: string, patch: string, rest: string)
    requires major != [] && minor != [] && patch != []
    requires AllDigits(major) && AllDigits(minor) && AllDigits(patch)
    ensures MatchesVersionBranch(VersionName(major, minor, patch, rest))
  {
    var s, n := VersionName(major, minor, patch, rest), |VersionPrefix|;
    var p := n + |major|;
    var q := p + 1 + |minor|;
    VersionNameRuns(major, minor, patch, rest);
    DigitRunEndExact(s, n, p);
    DigitRunEndExact(s, p + 1, q);
  }

  /** Every name of the reference reading is accepted by the matcher. */
  lemma MatchesVersionBranchComplete(s: string)
    requires IsVersionBranchName(s)
    ensures MatchesVersionBranch(s)
  {
    var major: string, minor: string, patch: string, rest: string :|
      major != [] && minor != [] && patch != [] &&
      AllDigits(major) && AllDigits(minor) && AllDigits(patch) &&
      s == VersionName(major, minor, patch, rest);
    VersionNameMatches(major, minor, patch, rest);
  }

  /** The matcher accepts exactly the names of the reference reading. */
  lemma MatchesVersionBranchCorrect(s: string)
    ensures MatchesVersionBranch(s) <==> IsVersionBranchName(s)
  {
    if MatchesVersionBranch(s) {
      MatchesVersionBranchSound(s);
    }
    if IsVersionBranchName(s) {
      MatchesVersionBranchComplete(s);
    }
  }

  /**
   * `getEnvironment({ devMode, test })`: the first rule that applies decides
   * the slug.
   */
  function GetEnvironment(devMode: bool, test: bool, ci: CiVars): (slug: Slug) {
    if devMode then Development
    else if test then Testing
    else if ci.circleBranch == Some("master") then Production
    else if MatchesVersionBranch(JsString(ci.circleBranch)) then ReleaseCandidate
    else if ci.circleBranch == Some("develop") then Staging
    else if Truthy(ci.circlePullRequest) then PullRequest
    else Other
  }

  /** Development mode decides the slug whatever the CI variables say. */
  lemma DevModeWins(test: bool, ci: CiVars)
    ensures GetEnvironment(true, test, ci) == Development
  {
  }

  /** An unset branch is neither "master", "develop" nor a version branch. */
  lemma {:induction false} UnsetBranchMatchesNothing(devMode: bool, test: bool, ci: CiVars)
    requires ci.circleBranch == None
    ensures GetEnvironment(devMode, test, ci) !in {Production, ReleaseCandidate, Staging}
  {
    assert !MatchesVersionBranch("undefined") by {
      assert "undefined"[..|VersionPrefix|] != VersionPrefix by {
        assert "undefined"[0] != VersionPrefix[0];
      }
    }
  }

  /**
   * The whole cascade, one slug per line, with the version-branch rule stated
   * through the reference reading of the pattern.
   */
  lemma GetEnvironmentDecision(devMode: bool, test: bool, ci: CiVars)
    ensures var r := GetEnvironment(devMode, test, ci);
      var branch := ci.circleBranch;
      var versionBranch := branch.Some? && IsVersionBranchName(branch.value);
      var pullRequest := ci.circlePullRequest.Some? && ci.circlePullRequest.value != "";
      && (r == Development <==> devMode)
      && (r == Testing <==> !devMode && test)
      && (r == Production <==> !devMode && !test && branch == Some("master"))
      && (r == ReleaseCandidate <==> !devMode && !test && branch != Some("master") && versionBranch)
      && (r == Staging <==> !devMode && !test && branch == Some("develop"))
      && (r == PullRequest <==>
            !devMode && !test && branch != Some("master") && !versionBranch && branch != Some("develop") && pullRequest)
      && (r == Other <==>
            !devMode && !test && branch != Some("master") && !versionBranch && branch != Some("develop") && !pullRequest)
  {
    MatchesVersionBranchCorrect(JsString(ci.circleBranch));
    if ci.circleBranch == None {
      UnsetBranchMatchesNothing(devMode, test, ci);
    }
    assert !MatchesVersionBranch("develop");
  }

  /** Release-candidate branches as CircleCI names them. */
  lemma VersionBranchAccepted()
    ensures MatchesVersionBranch("Version-v8.1.0")
  {
    assert VersionName("8", "1", "0", "") == "Version-v8.1.0";
    VersionNameMatches("8", "1", "0", "");
  }

  /** Text after the patch number is allowed: the pattern is anchored only at the start. */
  lemma VersionBranchSuffixAccepted()
    ensures MatchesVersionBranch("Version-v10.22.3-hotfix")
  {
    assert VersionName("10", "22", "3", "-hotfix") == "Version-v10.22.3-hotfix";
    VersionNameMatches("10", "22", "3", "-hotfix");
  }

  /** A missing patch number, a lower-case prefix, or anything before the prefix is not a release branch. */
  lemma VersionBranchRejected()
    ensures !MatchesVersionBranch("Version-v8.1")
    ensures !MatchesVersionBranch("version-v8.1.0")
    ensures !MatchesVersionBranch("feature/Version-v8.1.0")
  {
    assert "Version-v8.1"[..9] == VersionPrefix;
    assert DigitRunEnd("Version-v8.1", 9) == 10;
    assert DigitRunEnd("Version-v8.1", 11) == 12;
    assert "version-v8.1.0"[..9] != VersionPrefix by { assert "version-v8.1.0"[0] != VersionPrefix[0]; }
    assert "feature/Version-v8.1.0"[..9] != VersionPrefix by { assert "feature/Version-v8.1.0"[0] != VersionPrefix[0]; }
  }
}
