/** Image selection from the version table (kdev.py:203-228). The table itself is a
    parameter: one entry per `linux-<master>.0` key, whose `docker` list and
    `image` map (arch, then distribution, then URLs) may each be absent, which in
    Python is a `KeyError`. */
module BuildMap {
  import opened Wrappers

  datatype BuildEntry = BuildEntry(docker: Option<seq<string>>,
                                   image: Option<map<string, map<string, seq<string>>>>)

  type Table = map<string, BuildEntry>

  /** `"linux-%s.0" % masterversion` */
  function VersionKey(master: string): string
  {
    "linux-" + master + ".0"
  }

  /** The preference order of `check_qcow_image`. */
  const Distros: seq<string> := ["debian", "ubuntu", "centos", "fedora"]

  /** The docker list of a version, `[]` standing for both a `KeyError` and an empty list. */
  function DockerList(table: Table, master: string): seq<string>
  {
    var key := VersionKey(master);
    if key in table && table[key].docker.Some? then table[key].docker.value else []
  }

  /** `check_docker_image`: `(True, list[0])` when the version has a non-empty
      docker list, `(False, '')` otherwise. */
  function CheckDockerImage(table: Table, master: string): (r: (bool, string))
    ensures r.0 <==> DockerList(table, master) != []
    ensures r.0 ==> r.1 == DockerList(table, master)[0]
    ensures !r.0 ==> r.1 == ""
  {
    var key := VersionKey(master);
    if key !in table || table[key].docker.None? then (false, "")
    else if |table[key].docker.value| == 0 then (false, "")
    else (true, table[key].docker.value[0])
  }

  /** `KERNEL_BUILD_MAP[linux_version]["image"][arch]`, or `None` on a `KeyError`. */
  function ImagesFor(table: Table, master: string, arch: string): Option<map<string, seq<string>>>
  {
    var key := VersionKey(master);
    if key in table && table[key].image.Some? && arch in table[key].image.value
    then Some(table[key].image.value[arch])
    else None
  }

  /** The URL list of one distribution, `[]` when the distribution is not listed. */
  function Listed(images: map<string, seq<string>>, distro: string): seq<string>
  {
    if distro in images then images[distro] else []
  }

  /** `check_qcow_image`: the first URL of the first non-empty list in the order
      debian, ubuntu, centos, fedora; `(False, '')` on a missing key or when all
      four lists are empty or absent. */
  function CheckQcowImage(table: Table, master: string, arch: string): (r: (bool, string))
    ensures r.0 <==> ImagesFor(table, master, arch).Some?
                     && exists d :: 0 <= d < |Distros| && Listed(ImagesFor(table, master, arch).value, Distros[d]) != []
    ensures r.0 ==> exists d :: 0 <= d < |Distros|
                     && Listed(ImagesFor(table, master, arch).value, Distros[d]) != []
                     && r.1 == Listed(ImagesFor(table, master, arch).value, Distros[d])[0]
                     && forall e :: 0 <= e < d ==> Listed(ImagesFor(table, master, arch).value, Distros[e]) == []
    ensures !r.0 ==> r.1 == ""
  {
    var found := ImagesFor(table, master, arch);
    if found.None? then (false, "")
    else
      var images := found.value;
      if "debian" in images && |images["debian"]| != 0 then
        assert Listed(images, Distros[0]) != [];
        (true, images["debian"][0])
      else if "ubuntu" in images && |images["ubuntu"]| != 0 then
        assert Listed(images, Distros[1]) != [];
        (true, images["ubuntu"][0])
      else if "centos" in images && |images["centos"]| != 0 then
        assert Listed(images, Distros[2]) != [];
        (true, images["centos"][0])
      else if "fedora" in images && |images["fedora"]| != 0 then
        assert Listed(images, Distros[3]) != [];
        (true, images["fedora"][0])
      else
        assert forall d :: 0 <= d < |Distros| ==> Listed(images, Distros[d]) == [];
        (false, "")
  }
}
