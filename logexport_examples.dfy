/**
 * Concrete runs of the log-export logic: a listing line and the platform
 * of an Ubuntu 14.04 host and of an unsupported host.
 */
module LogExportExamples {
  import opened Wrappers
  import opened Fields
  import opened Platforms

  /** A `systemctl list-unit-files` line with a run of blanks between its fields. */
  lemma UnitFileLine()
    ensures ParseLine("flocker-control.service   enabled") == Success(Service("flocker-control.service", "enabled"))
  {
    ParseLineOfFields([], "flocker-control.service", "   ", "enabled");
    assert [] + "flocker-control.service" + "   " + "enabled" == "flocker-control.service   enabled";
  }

  /** The detected name is lowered before the labels are matched. */
  method UbuntuHost() returns (r: Result<Platform, UnsupportedDistribution>)
    ensures r == Success(PLATFORMS[1])
  {
    assert Distribution("Ubuntu", "14.04") == "ubuntu-14.04";
    r := CurrentPlatform("Ubuntu", "14.04");
    assert PLATFORMS[1] in PLATFORMS && Label(PLATFORMS[1]) <= Distribution("Ubuntu", "14.04");
  }

  /** A host whose distribution matches no label gets the distribution string back. */
  method FedoraHost() returns (r: Result<Platform, UnsupportedDistribution>)
    ensures r == Failure(UnsupportedDistribution("fedora-22"))
  {
    assert Distribution("fedora", "22") == "fedora-22";
    assert Label(PLATFORMS[0]) == "centos-7" && Label(PLATFORMS[1]) == "ubuntu-14.04";
    assert "centos-7"[0] != "fedora-22"[0] && "ubuntu-14.04"[0] != "fedora-22"[0];
    r := CurrentPlatform("fedora", "22");
  }
}
