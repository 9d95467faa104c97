/**
 * The supported operating systems of the log-export script and the choice
 * of the platform for the host: each platform is known by the label
 * `name-version`, and the host's distribution string selects the platform
 * whose label it starts with.
 */
module Platforms {
  import opened Wrappers

  /** The service-manager API a platform uses to list its services. */
  datatype ServiceManager = SystemdServiceManager | UpstartServiceManager

  /** The log-exporter API a platform uses to export logs. */
  datatype LogExporter = JournaldLogExporter | UpstartLogExporter

  /** A supported operating system and the APIs used on it. */
  datatype Platform = Platform(
    name: string,
    version: string,
    service_manager: ServiceManager,
    log_exporter: LogExporter)

  /** The supported platforms: CentOS 7 with systemd, Ubuntu 14.04 with upstart. */
  const PLATFORMS: seq<Platform> := [
    Platform("centos", "7", SystemdServiceManager, JournaldLogExporter),
    Platform("ubuntu", "14.04", UpstartServiceManager, UpstartLogExporter)
  ]

  /** The label `name-version` under which a platform is known. */
  function Label(p: Platform): string {
    p.name + "-" + p.version
  }

  /** No two supported platforms carry the same label. */
  lemma LabelsDistinct()
    ensures forall p, q :: p in PLATFORMS && q in PLATFORMS && Label(p) == Label(q) ==> p == q
  {
    assert Label(PLATFORMS[0]) == "centos-7";
    assert Label(PLATFORMS[1]) == "ubuntu-14.04";
    assert Label(PLATFORMS[0])[0] != Label(PLATFORMS[1])[0];
  }

  /**
   * `_PLATFORM_BY_LABEL`: every supported platform under its label, and
   * nothing else.
   */
  function PlatformByLabel(): (m: map<string, Platform>)
    ensures forall p :: p in PLATFORMS ==> Label(p) in m && m[Label(p)] == p
    ensures forall l :: l in m ==> m[l] in PLATFORMS && Label(m[l]) == l
  {
    LabelsDistinct();
    map p | p in PLATFORMS :: Label(p) := p
  }

  /** `str.lower` on one byte: ASCII upper-case letters become lower-case. */
  function LowerChar(c: char): (r: char)
    ensures !('A' <= r <= 'Z')
    ensures ('a' <= c <= 'z' || 'A' <= c <= 'Z') <==> 'a' <= r <= 'z'
    ensures !('A' <= c <= 'Z') ==> r == c
    ensures 'A' <= c <= 'Z' ==> r as int == c as int - 'A' as int + 'a' as int
  {
    if 'A' <= c <= 'Z' then (c as int - 'A' as int + 'a' as int) as char else c
  }

  /** `str.lower` on a byte string: every character lowered, in place. */
  function Lower(s: string): (r: string)
    ensures |r| == |s|
    ensures forall i :: 0 <= i < |s| ==> r[i] == LowerChar(s[i])
    ensures forall i :: 0 <= i < |r| ==> !('A' <= r[i] <= 'Z')
    ensures (forall i :: 0 <= i < |s| ==> !('A' <= s[i] <= 'Z')) ==> r == s
  {
    seq(|s|, i requires 0 <= i < |s| => LowerChar(s[i]))
  }

  /** Lowering works character by character, so it distributes over concatenation. */
  lemma LowerAppend(s: string, t: string)
    ensures Lower(s + t) == Lower(s) + Lower(t)
  {
    var l, r := Lower(s + t), Lower(s) + Lower(t);
    forall i | 0 <= i < |l| ensures l[i] == r[i] {
      if i < |s| {
        assert (s + t)[i] == s[i];
      } else {
        assert (s + t)[i] == t[i - |s|];
      }
    }
  }

  /** Lowering twice is lowering once. */
  lemma LowerIdempotent(s: string)
    ensures Lower(Lower(s)) == Lower(s)
  {
    assert forall i :: 0 <= i < |s| ==> LowerChar(LowerChar(s[i])) == LowerChar(s[i]);
  }

  /** The distribution string built from the detected name and version. */
  function Distribution(name: string, version: string): string {
    Lower(name) + "-" + version
  }

  /**
   * The distribution string does not depend on the case of the detected
   * name, and it starts with the name in lower case.
   */
  lemma DistributionIgnoresCase(name: string, version: string)
    ensures Distribution(Lower(name), version) == Distribution(name, version)
    ensures Lower(name) + "-" <= Distribution(name, version)
  {
    LowerIdempotent(name);
  }

  /** The error raised when no supported label matches. */
  datatype UnsupportedDistribution = UnsupportedDistribution(distribution: string)

  /** Two prefixes of one string are prefixes of one another. */
  lemma PrefixesComparable(a: string, b: string, s: string)
    requires a <= s && b <= s
    ensures a <= b || b <= a
  {
    if |a| <= |b| {
      assert a == s[..|a|] == b[..|a|];
    } else {
      assert b == s[..|b|] == a[..|b|];
    }
  }

  /** Neither supported label is a prefix of the other. */
  lemma LabelsNotPrefixes()
    ensures forall p, q :: p in PLATFORMS && q in PLATFORMS && Label(p) <= Label(q) ==> p == q
  {
    forall p, q | p in PLATFORMS && q in PLATFORMS && Label(p) <= Label(q)
      ensures p == q
    {
      assert p == PLATFORMS[0] || p == PLATFORMS[1];
      assert q == PLATFORMS[0] || q == PLATFORMS[1];
      var lp, lq := Label(p), Label(q);
      assert lp[0] == lq[0];
      assert Label(PLATFORMS[0])[0] == 'c' && Label(PLATFORMS[1])[0] == 'u';
    }
  }

  /**
   * At most one supported label is a prefix of any distribution string, so
   * the platform found does not depend on the order of the search.
   */
  lemma AtMostOneMatch(distribution: string)
    ensures forall p, q :: p in PLATFORMS && q in PLATFORMS && Label(p) <= distribution && Label(q) <= distribution ==> p == q
  {
    LabelsNotPrefixes();
    forall p, q | p in PLATFORMS && q in PLATFORMS && Label(p) <= distribution && Label(q) <= distribution
      ensures p == q
    {
      PrefixesComparable(Label(p), Label(q), distribution);
    }
  }

  /**
   * `current_platform`: search the labels, in an order the caller cannot
   * know, for one that the distribution string starts with; fail with the
   * distribution string when there is none.
   */
  method CurrentPlatform(name: string, version: string) returns (r: Result<Platform, UnsupportedDistribution>)
    ensures r.Success? <==> exists p :: p in PLATFORMS && Label(p) <= Distribution(name, version)
    ensures r.Success? ==> r.value in PLATFORMS && Label(r.value) <= Distribution(name, version)
    ensures r.Success? ==> forall q :: q in PLATFORMS && Label(q) <= Distribution(name, version) ==> q == r.value
    ensures r.Failure? ==> r.error == UnsupportedDistribution(Distribution(name, version))
  {
    var distribution := Lower(name) + "-" + version;
    var byLabel := PlatformByLabel();
    var remaining := byLabel.Keys;
    while remaining != {}
      invariant remaining <= byLabel.Keys
      invariant forall l :: l in byLabel && l !in remaining ==> !(l <= distribution)
      decreases remaining
    {
      var l :| l in remaining;
      if l <= distribution {
        AtMostOneMatch(distribution);
        return Success(byLabel[l]);
      }
      remaining := remaining - {l};
    }
    assert forall p :: p in PLATFORMS ==> Label(p) in byLabel;
    return Failure(UnsupportedDistribution(distribution));
  }
}
