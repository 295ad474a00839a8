/** Small decision rules of `handle_check`, `handle_kernel` and `handle_run`. */
module Checks {
  import opened Wrappers
  import opened Failures
  import opened Text

  /** `[str(i) for i in range(1, 7)]` */
  const SupportedMasters: seq<string> := ["1", "2", "3", "4", "5", "6"]

  predicate IsSupportedMaster(c: char)
  {
    '1' <= c <= '6'
  }

  lemma SupportedMastersAreDigits(c: char)
    ensures [c] in SupportedMasters <==> IsSupportedMaster(c)
  {
    if IsSupportedMaster(c) {
      assert [c] == SupportedMasters[c as int - '1' as int];
    }
  }

  /** The tail of `handle_check` (kdev.py:366-377) as written: the return code and
      output of `make kernelversion` give the kernel version (stripped) and the master
      version (its first character). An empty version raises `IndexError`; an
      unsupported master version reaches `perror` with two arguments, which raises
      `TypeError` instead of printing the diagnostic. */
  function CheckKernelVersionAsWritten(rc: int, output: string): (r: Result<(string, string), Failure>)
    ensures rc != 0 ==> r == Err(KernelVersionFailed)
    ensures r.Ok? ==> rc == 0 && r.value.0 == Strip(output) && Strip(output) != []
                      && |r.value.1| == 1 && r.value.1[0] == Strip(output)[0] && IsSupportedMaster(r.value.1[0])
    ensures rc == 0 && Strip(output) == [] ==> r == Err(Raised("IndexError"))
    ensures rc == 0 && Strip(output) != [] && !IsSupportedMaster(Strip(output)[0]) ==> r == Err(Raised("TypeError"))
    ensures r.Ok? <==> rc == 0 && Strip(output) != [] && IsSupportedMaster(Strip(output)[0])
  {
    if rc != 0 then Err(KernelVersionFailed)
    else
      var version := Strip(output);
      if version == [] then Err(Raised("IndexError"))
      else
        var master := [version[0]];
        SupportedMastersAreDigits(version[0]);
        if master !in SupportedMasters then Err(Raised("TypeError"))
        else Ok((version, master))
  }

  /** The same step with the diagnostic the call evidently means: an unsupported
      master version ends the command with `UnsupportedMasterVersion`. */
  function CheckKernelVersion(rc: int, output: string): (r: Result<(string, string), Failure>)
    ensures r.Ok? <==> rc == 0 && Strip(output) != [] && IsSupportedMaster(Strip(output)[0])
    ensures r.Ok? ==> r.value.0 == Strip(output) && r.value.1 == [Strip(output)[0]]
    ensures rc != 0 ==> r == Err(KernelVersionFailed)
    ensures rc == 0 && Strip(output) == [] ==> r == Err(Raised("IndexError"))
    ensures rc == 0 && Strip(output) != [] && !IsSupportedMaster(Strip(output)[0])
            ==> r == Err(UnsupportedMasterVersion([Strip(output)[0]]))
  {
    if rc != 0 then Err(KernelVersionFailed)
    else
      var version := Strip(output);
      if version == [] then Err(Raised("IndexError"))
      else
        var master := [version[0]];
        SupportedMastersAreDigits(version[0]);
        if master !in SupportedMasters then Err(UnsupportedMasterVersion(master))
        else Ok((version, master))
  }

  /** The two definitions agree on every input except an unsupported master version. */
  lemma KernelVersionDiagnosticOnly(rc: int, output: string)
    ensures CheckKernelVersionAsWritten(rc, output) != CheckKernelVersion(rc, output) <==>
            rc == 0 && Strip(output) != [] && !IsSupportedMaster(Strip(output)[0])
  {
  }

  /** A 7.x kernel: the source raises `TypeError` where the diagnostic was meant. */
  lemma SevenIsRejectedWithTypeError()
    ensures CheckKernelVersionAsWritten(0, "7.0.1") == Err(Raised("TypeError"))
    ensures CheckKernelVersion(0, "7.0.1") == Err(UnsupportedMasterVersion("7"))
  {
    StripTrimmed("7.0.1");
  }

  /** The `CROSS_COMPILE` prefix of `handle_kernel` (kdev.py:457-460, repeated for the docker build at kdev.py:507-510). */
  function CrossCompilePrefix(machine: string, arch: string): (r: string)
    ensures machine == arch ==> r == ""
    ensures arch != "arm64" ==> r == ""
    ensures machine != "arm64" && arch == "arm64" ==> r == "aarch64-linux-gnu-"
  {
    if machine != arch && arch == "arm64" then "aarch64-linux-gnu-" else ""
  }

  datatype VmShape = VmShape(vmarch: string, vcpus: string, ram: string)

  /** Whether an argparse value counts as given: Python truthiness, so `None` and `''`
      both fall back to the default. */
  predicate Supplied(o: Option<string>)
  {
    o.Some? && o.value != ""
  }

  /** The vm architecture, vcpu count and memory of `handle_run` (kdev.py:794-805):
      8 vcpus and 8192 MiB on x86_64, 2 and 4096 on arm64, each default only
      where the user gave no value. */
  function VmDefaults(arch: string, vmcpu: Option<string>, vmram: Option<string>): (r: Result<VmShape, Failure>)
    ensures r.Ok? <==> arch == "x86_64" || arch == "arm64"
    ensures r.Err? ==> r.error == UnsupportedArch(arch)
    ensures r.Ok? ==> r.value.vmarch == (if arch == "x86_64" then "x86_64" else "aarch64")
    ensures r.Ok? ==> r.value.vcpus == (if Supplied(vmcpu) then vmcpu.value else if arch == "x86_64" then "8" else "2")
    ensures r.Ok? ==> r.value.ram == (if Supplied(vmram) then vmram.value else if arch == "x86_64" then "8192" else "4096")
  {
    if arch == "x86_64" then
      Ok(VmShape("x86_64", if Supplied(vmcpu) then vmcpu.value else "8",
                           if Supplied(vmram) then vmram.value else "8192"))
    else if arch == "arm64" then
      Ok(VmShape("aarch64", if Supplied(vmcpu) then vmcpu.value else "2",
                            if Supplied(vmram) then vmram.value else "4096"))
    else Err(UnsupportedArch(arch))
  }
}
