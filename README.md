# kdev: a verified model of its decision rules and state updates

`kdev.py` builds a Linux kernel, prepares a qcow2 root filesystem for it and boots
it in a VM. Most of it drives external tools, but a few parts decide or change
state deterministically. This project models those parts in Dafny and proves
what they do:

- the `.kdev` config-file overlay onto the parsed arguments (`main`);
- the image and docker choice from the kernel build table (`check_qcow_image`,
  `check_docker_image`);
- the NBD slot logic: the preferred slot, probing `nbd0`..`nbd8`, the
  free-slot search and the sweep (`handle_rootfs`, `find_free_nbd`,
  `do_clean_nbd`);
- `handle_rootfs`: mount the image, copy the kernel in, edit the partition
  (hostname, cloud-init marker, renaming of `cloud-*` agents, first-boot script)
  and release the slot;
- `handle_image`: mount or unmount an image next to its file;
- small rules: the master-version check, the cross-compile prefix and the VM
  defaults.

External commands are modelled by the class `Shell.Shell`. It records every
command issued (`issued`) and takes each return code from an oracle `exitCode`
of the commands issued before it. So nothing is assumed about `qemu-nbd`,
`mount`, `umount` or `cp` except their exit status. The argument namespace is
the class `Config.Namespace`: a map from attribute name to `Option<string>`,
where a missing key is an absent attribute and `None` is Python's `None`. The
mounted partition is the class `Tree.MountedTree`: a map from directory path
(relative to the mount point) to that directory's entries. The `/sys/block`
listing, the host's files and directories, the table and the temporary
directory name are parameters.

Modules, one file each: `Wrappers` (Option, Result), `Failures` (the ways a
command ends early), `Text` (`str.strip`, `os.path.join`, `os.path.basename`),
`Config`, `BuildMap`, `Checks`, `Shell`, `Nbd`, `Tree`, `Rootfs`, `Image`.

Facts about `kdev.py` that the model keeps as written:

- `perror` (kdev.py:290-292) prints and calls `sys.exit(1)`. `handle_rootfs` calls it
  after a failed attach, mount or copy (kdev.py:591, 602, 611-612, 623-626, 637-640,
  651-654); an exception from the edits (kdev.py:660-720) propagates; a failed lazy
  umount or disconnect (kdev.py:723-728) is only printed and the command goes on. So
  after a failed mount, copy or edit the partition stays mounted and the slot
  connected. The model returns a `Failure` from the step that fails and issues nothing
  after it; `Rootfs.ProvisionRootfs` ties everything after the attach to
  `MountCopyInject`, `Rootfs.MountCopyInjectNoRelease` proves that this stage issues no
  umount and no disconnect, and `Rootfs.Release` ignores what the umount and the
  disconnect return.
- `do_clean_nbd` (kdev.py:277-287) disconnects every `nbd*` entry of `/sys/block` that
  has a `pid` file, whether or not something still uses it.
- The probe of `handle_rootfs` tries exactly `nbd0`..`nbd8` (kdev.py:593, `Nbd.Pool`).


## Model

| member | source | states |
|---|---|---|
| Text.Strip | kdev.py:1008 | The result is the part of the line between a run of leading and a run of trailing whitespace (Python's `isspace` set), and it neither starts nor ends with whitespace |
| Text.StripTrimmed | kdev.py:1008 | A text that neither starts nor ends with whitespace is its own `strip()` |
| Text.StripIdempotent | kdev.py:1008 | Stripping twice is stripping once |
| Text.PathJoin | kdev.py:618-619 | `os.path.join` of two parts: an absolute second part replaces the first; otherwise the result is the first part, one `/` unless the first part is empty or already ends in `/`, then the second part |
| Text.Basename | kdev.py:567 | `os.path.basename`: the result is the suffix after the last `/`, and it contains no `/` |
| Config.MatchAssignmentSound | kdev.py:1011-1014 | Every pair the matcher returns is a word-character key, then spaces, `=`, spaces and a maximal value run at the start of the line |
| Config.MatchAssignmentComplete | kdev.py:1011-1014 | Every such split of the line is found by the matcher, with the same key and value |
| Config.MatchAssignmentMeaning | kdev.py:1011-1014 | Both directions: the matcher returns (key, value) exactly when the line starts with that assignment shape |
| Config.ParseLine | kdev.py:1008-1014 | One raw line: stripped, skipped when blank or a `#` comment, otherwise matched; a pair read has a non-empty key that starts the stripped line and a non-empty value |
| Config.CommentGuardRedundant | kdev.py:1008-1011 | Skipping blank and `#` lines changes nothing: such a line never matches the pattern anyway |
| Config.ParseLineMeaning | kdev.py:1008-1014 | A raw line yields (key, value) exactly when its stripped text starts with that assignment; blank and comment lines yield nothing |
| Config.LinePairs | kdev.py:1006-1014 | The pairs of one file in line order: at most one per line, each with a non-empty key and value |
| Config.ConfigPairs | kdev.py:1003-1014 | The pairs of the `.kdev` files of a listing in listing order; each has a non-empty key and value, and a listing without a `.kdev` name yields none |
| Config.LinePairsOrigin | kdev.py:1006-1014 | Every pair read from a file comes from one of its lines |
| Config.ConfigPairsOrigin | kdev.py:1003-1014 | Every pair read comes from a line of a file whose name ends in `.kdev` |
| Config.OverlayKeepsSetValues | kdev.py:1016-1020 | An attribute that holds a value is never overwritten by a config file |
| Config.OverlayIgnoresUnmentioned | kdev.py:1016-1020 | An attribute named by no pair keeps its state, absent or not |
| Config.OverlayFirstWins | kdev.py:1016-1020 | For an absent or `None` attribute, the first pair naming it sets it, and later pairs do not change it |
| Config.OverlayKeys | kdev.py:1016-1020 | The attributes afterwards are the old ones plus the keys named; each new one holds a value |
| Config.OverlayAppend | kdev.py:1003-1020 | Merging two runs of pairs in turn is the same as merging their concatenation |
| Config.Namespace.Set | kdev.py:1017 | `setattr`: the attribute holds the value, nothing else changes |
| Config.Namespace.Merge | kdev.py:1016-1020 | One matched line: the two `if`s together fill the attribute only when absent or `None` |
| Config.Namespace.LoadLines | kdev.py:1006-1020 | Reading one file's lines leaves the namespace equal to `Overlay` of the old one with the file's pairs |
| Config.Namespace.LoadConfigFiles | kdev.py:1003-1020 | Reading every `.kdev` file in listing order leaves `Overlay` of the old namespace with all their pairs |
| BuildMap.CheckDockerImage | kdev.py:203-211 | `(True, first entry)` exactly when the version key exists and its docker list is non-empty; `(False, '')` otherwise |
| BuildMap.CheckQcowImage | kdev.py:214-228 | `(True, url)` exactly when the version and arch exist and some distribution has a non-empty list; `url` is the first entry of the first such list in the order debian, ubuntu, centos, fedora; `(False, '')` otherwise |
| Checks.SupportedMastersAreDigits | kdev.py:375-376 | The list `[str(i) for i in range(1, 7)]` holds a one-character version exactly when it is `1`..`6` |
| Checks.CheckKernelVersionAsWritten | kdev.py:370-377 | As written: succeeds exactly when `make kernelversion` returned 0 and the stripped version is non-empty and starts with `1`..`6`; a failed command ends it; an empty version raises `IndexError`; an unsupported master version raises `TypeError` |
| Checks.CheckKernelVersion | kdev.py:370-377 | Corrected: succeeds exactly when the command succeeded and the stripped version starts with `1`..`6`; an unsupported master version ends with that diagnostic |
| Checks.KernelVersionDiagnosticOnly | kdev.py:375-377 | The two definitions differ exactly on an unsupported master version |
| Checks.SevenIsRejectedWithTypeError | kdev.py:375-376 | Version `7.0.1`: as written raises `TypeError`, corrected reports master version `7` |
| Checks.CrossCompilePrefix | kdev.py:457-460 | The prefix `aarch64-linux-gnu-` is set exactly when the target is `arm64` and the host's machine string is not `arm64` (so an `aarch64` host still gets it); otherwise it is empty |
| Checks.VmDefaults | kdev.py:794-807 | x86_64 gets 8 vcpus and 8192 MiB, arm64 gets `aarch64`, 2 and 4096; each default applies only when the value is not supplied; any other arch is rejected |
| Shell.Shell.Run | kdev.py:231-274 | A command is appended to the record, and its return code is the oracle's answer given the commands before it |
| Nbd.FindFreeNbd | kdev.py:876-882 | Returns `''` exactly when no listed entry is an `nbd*` directory without `pid`; otherwise the first such entry in listing order |
| Nbd.FirstFree | kdev.py:876-882 | `''` exactly when no entry is an `nbd*` directory without `pid`; otherwise such an entry, and every entry before it is not one |
| Nbd.SweepCommands | kdev.py:277-287 | The commands `do_clean_nbd` issues for a listing: at most one per entry, all of them disconnects |
| Nbd.CleanNbd | kdev.py:277-287 | Issues exactly the sweep's disconnects, in listing order, and nothing else |
| Nbd.SweepDisconnectsBoundOnly | kdev.py:277-287 | Each slot is disconnected as many times as it is listed as a bound `nbd*` directory, and every command is a disconnect of a bound slot |
| Nbd.SweepIdleWhenNothingBound | kdev.py:277-287 | With no bound slot, the sweep issues no command |
| Nbd.Probe | kdev.py:593-600 | The connect loop over the slots: every attempt connects the image, and a chosen slot is one of the slots |
| Nbd.ProbeFollowsSlotOrder | kdev.py:593-600 | The connects attempted are those of `nbd0`, `nbd1`, ... in order, ending at the chosen slot, or covering all nine when none is chosen |
| Nbd.ProbeStopsAtFirstSuccess | kdev.py:593-600 | Among the attempts, exactly the chosen slot's connect returned 0: every earlier one failed, and with no slot chosen all failed |
| Nbd.ProbeSlots | kdev.py:593-600 | The loop over a list of slots issues exactly the probe's connects and records the chosen slot in `args.nbd`, and only then |
| Nbd.ProbePool | kdev.py:593-600 | The loop issues exactly the probe's connects and records the chosen slot in `args.nbd`, and only then |
| Nbd.AttachPreferred | kdev.py:585-591 | With a preferred slot: disconnect it, connect the image; a failed connect ends the command |
| Nbd.AttachImage | kdev.py:585-602 | Preferred slot if set and not `None`, else the probe; with no slot found and no `nbd` attribute the command ends with "No available nbd found!" |
| Nbd.AttachConnected | kdev.py:584-602 | A slot the attach step returns is one whose connect, the last command it issued, returned 0; the only exception is the `None` read from an `nbd` attribute that holds `None` when every probe failed |
| Nbd.ProbeChoiceConnected | kdev.py:593-600 | The slot the probe of the pool chooses is the one whose connect, its last attempt, returned 0 |
| Tree.BackupNeverAgent | kdev.py:676-678 | A `bak-` name never starts with `cloud-` |
| Tree.RenameStepAgent | kdev.py:676-679 | One loop iteration on an agent: it leaves its own name and appears under `bak-` + name with its entry; nothing else changes |
| Tree.RenameStepOther | kdev.py:676-679 | One loop iteration on any other entry changes nothing |
| Tree.MountedTree.RenameAgents | kdev.py:675-680 | The loop leaves `usr/bin` equal to `Renamed` of the old directory; a missing `usr/bin` raises |
| Tree.RenamedLeavesNoAgent | kdev.py:675-680 | After the rename no `usr/bin` entry starts with `cloud-` |
| Tree.RenamedEntries | kdev.py:675-680 | Every agent reappears under `bak-` + name with its entry; every other entry stays unless a backup name replaces it; nothing else appears |
| Tree.RenamedWithoutAgents | kdev.py:675-680 | A directory without agents is left unchanged |
| Tree.RenamedIdempotent | kdev.py:675-680 | A second pass renames nothing |
| Tree.FirstField | kdev.py:660 | `split(".")[0]`: a prefix without `.`, followed by `.` or the whole name |
| Tree.Hostname | kdev.py:660-663 | The hostname written: the first field of the image name, stripped; it holds no dot and neither starts nor ends with white space |
| Tree.FirstFieldOfDotted | kdev.py:660 | The first field of `stem.rest` is `stem` when `stem` has no dot |
| Tree.HostnameOfStem | kdev.py:660-663 | A qcow2 name whose stem has no dot and no surrounding spaces gives that stem as hostname |
| Tree.HostnameExample | kdev.py:660-663 | `debian-12-nocloud-amd64.qcow2` gives `debian-12-nocloud-amd64` |
| Tree.MarkHostFacts | kdev.py:660-670 | Writing `etc/hostname` and `etc/cloud/cloud-init.disabled`: succeeds exactly when `etc` exists and neither file is a directory; adds those two files with the hostname and empty content; no directory is created and no other one changes |
| Tree.RenameBinFacts | kdev.py:671-680 | The `usr/bin` step succeeds exactly when `usr/bin` exists, leaves it as the renamed directory after the literal `cloud-*` removal, and changes no other directory |
| Tree.FinishEtcFacts | kdev.py:683-720 | Writing `etc/firstboot` and an executable `etc/rc.local` with the first-boot script: succeeds exactly when `etc` exists and neither is a directory; other entries and directories are unchanged |
| Tree.Injectable | kdev.py:660-720 | The condition under which no edit raises: `etc` and `usr/bin` exist and none of `hostname`, `firstboot`, `rc.local` and `cloud-init.disabled` is a directory; `Tree.InjectSucceedsIff` proves the edits all run exactly when it holds |
| Tree.InjectKeepsWellFormed | kdev.py:660-720 | The edits, whether they all run or one raises, keep `etc/cloud` and `usr/bin` listed exactly when their parents hold them as subdirectories |
| Tree.InjectSucceedsIff | kdev.py:660-720 | The edits all run exactly when `etc` and `usr/bin` exist and no file to be written is a directory |
| Tree.InjectEtc | kdev.py:660-720 | Afterwards `etc` holds the hostname, an empty `firstboot` and an executable `rc.local` with the first-boot script; other entries are unchanged |
| Tree.InjectCloudMarker | kdev.py:667-670 | `cloud-init.disabled` is written exactly when `etc/cloud` exists; the directory is never created |
| Tree.InjectKeepsDirSet | kdev.py:660-720 | No directory is created or removed |
| Tree.InjectLeavesOthers | kdev.py:660-720 | No directory other than `etc`, `etc/cloud` and `usr/bin` changes |
| Tree.InjectRenames | kdev.py:671-680 | On any tree where the edits can all run, they succeed and `usr/bin` ends as the renamed directory, after the removal of a file literally named `cloud-*` |
| Tree.InjectUsrBin | kdev.py:671-680 | On any tree where the edits can all run, no agent is left in `usr/bin`, and every agent except such a literal `cloud-*` file survives under its backup name with its entry |
| Tree.WrittenUnchanged | kdev.py:662-663 | Rewriting a file with its current content changes nothing |
| Tree.InjectFixpoint | kdev.py:660-720 | A tree in the injected shape is left unchanged by the edits |
| Tree.InjectIdempotent | kdev.py:660-720 | The edits leave the injected shape, and running them again changes nothing |
| Tree.MountedTree.WriteFile | kdev.py:662-663 | `open(..., "w")`: fails exactly when the directory is missing or the name is a directory; otherwise only that entry changes |
| Tree.MountedTree.MakeExecutable | kdev.py:720 | `chmod 755` of an existing file sets its executable flag and nothing else |
| Tree.MountedTree.RemoveLiteralGlob | kdev.py:671-673 | Removes only a regular file literally named `cloud-*` |
| Tree.MountedTree.Inject | kdev.py:660-720 | The edits leave the tree and success flag that `InjectTree` defines |
| Rootfs.CopyCommand | kdev.py:617-620 | The `cp -a` of one work directory into the image: skipped when the host directory is missing or the destination is literally `/<sub>`, otherwise a copy of the host directory's listing to the joined destination |
| Rootfs.CopyNeverTargetsHost | kdev.py:620 | A copy that runs copies the host directory's listing, and its destination is never literally `/<sub>/` |
| Rootfs.CopySkippedOnRoot | kdev.py:620 | With the image mounted on `/` every copy is skipped |
| Rootfs.CopySkippedWithoutSource | kdev.py:620 | A missing host directory skips its copy |
| Rootfs.Plan | kdev.py:617-654 | One planned step per directory, in order, each holding that directory's `CopyCommand` and the joined target a failure names |
| Rootfs.StepFailure | kdev.py:621-626 | A skipped step never fails; a failure is the `CopyFailed` naming the step's target |
| Rootfs.CopyStep | kdev.py:617-627 | One copy step: a `sync`, then the copy unless skipped; it reports the failure naming the target exactly when the copy ran and returned non-zero |
| Rootfs.CopyRunOnlySyncsAndCopies | kdev.py:617-657 | The copy steps issue only syncs and copies |
| Rootfs.CopyRunStopsAtFirstFailure | kdev.py:617-657 | Among the copies issued, exactly the last one failed when a failure is reported, and none failed otherwise; a reported failure is a `CopyFailed` after a copy |
| Rootfs.CopyRunAllSkipped | kdev.py:617-657 | When every copy is skipped the steps are one sync each and nothing fails |
| Rootfs.CopyRunOnRoot | kdev.py:617-657 | With the image mounted on `/` the three steps are three syncs and nothing fails |
| Rootfs.CopyAll | kdev.py:617-657 | The copy steps of a plan run in order and issue exactly `CopyRun`'s commands: per step a `sync`, then the copy when not skipped, stopping after the first copy that fails; the result is that copy's `CopyFailed`, or none |
| Rootfs.MountAndCopy | kdev.py:605-657 | Reports the mount failure exactly when the mount returned non-zero, issuing only the sync and the mount; otherwise issues the copy steps after them and reports their failure; nothing here unmounts or disconnects |
| Rootfs.MountCopyInjectSucceeds | kdev.py:605-720 | The stage after the attach (sync and mount, copy steps, sync, edits) ends without failure exactly when `MountCopyInjectSucceed` holds, and then the tree is in the injected shape and a second edit pass changes nothing |
| Rootfs.MountCopyInjectFailures | kdev.py:605-720 | Per failure kind: the mount fails exactly when it returned non-zero, with only the sync and mount issued and the tree untouched; otherwise a copy failure is the first failing copy's `CopyFailed`, after the mount and the copy steps, tree untouched; otherwise the edits fail with `Raised("OSError")` exactly when the tree is not injectable, after one more sync, and the tree is what the edits leave |
| Rootfs.MountCopyInjectNoRelease | kdev.py:605-720 | The stage only appends to the record, and nothing it appends unmounts or disconnects, whatever fails |
| Rootfs.MountAndInject | kdev.py:605-720 | Issues exactly the stage's commands, returns its failure and leaves its tree (`MountCopyInject`); succeeds exactly when `MountCopyInjectSucceed` holds; a mount failure issues only the sync and the mount; after the mount and copies succeed the result is `Raised("OSError")` exactly when the tree is not injectable; on success the tree is in the injected shape; nothing here unmounts or disconnects |
| Rootfs.FinishBound | kdev.py:605-730 | With a slot bound: the stage's failure is returned with only the stage's commands issued; on success the slot is returned and the lazy umount and the disconnect follow the stage's commands; the tree is the stage's |
| Rootfs.PickAndAttach | kdev.py:560-602 | No image found ends the command before any command runs; otherwise the issued commands, the `nbd` attribute and the slot are those of `Attach` for the base name of the chosen URL, and an attach failure is returned as is |
| Rootfs.Release | kdev.py:722-729 | Lazy umount of the mount point, then disconnect of the slot |
| Rootfs.ProvisionRootfs | kdev.py:559-730 | No image found: `NoImage`, nothing issued, state untouched; otherwise the `nbd` attribute is `Attach`'s, and an attach failure is returned as is with only the attach's commands issued and the tree untouched; once a slot is bound, `bound` is it and result, record and tree are those of `MountCopyInject` after the attach's commands, with the lazy umount and the disconnect of the slot appended only on success; with no slot bound the result is an error and the tree untouched |
| Image.MountDir | kdev.py:900 | The mount directory is the file name plus `-mnt` |
| Image.MountDirRoundTrip | kdev.py:900 | The mount directory names its image, and two images never share one |
| Image.MissingMountNoticeNamesNone | kdev.py:910 | With only `--mount` given, the notice as written names `None` instead of the missing file |
| Image.MissingNotice | kdev.py:930 | The missing-file notice names the file that was asked for |
| Image.MissingNoticeInjective | kdev.py:930 | Two different files never get the same missing-file notice |
| Image.MountBranchMounted | kdev.py:884-907 | The mount branch mounts exactly when the file exists, a free slot exists and both the bind and the mount return 0; then it issued exactly the bind and the mount of the first free slot; it issues nothing without the file or a free slot |
| Image.MountBranchMissingFile | kdev.py:909-910 | With only `--mount` given, a missing file yields the notice naming `None` and no command |
| Image.BindAndMount | kdev.py:894-907 | Bind to the slot, then mount `p1` on the mount directory; either failing ends the command with its return code |
| Image.MountImage | kdev.py:884-910 | Outcome and commands are `MountBranch`'s: a missing file gives the notice as written (naming the `umount` attribute) and no command; otherwise the slot is the first free entry of the listing, none ends the command, else it is bound and mounted |
| Image.UmountImage | kdev.py:911-930 | Outcome and commands are `UmountBranch`'s: missing file: a notice; an existing mount directory is unmounted, and one still holding entries ends the command before the sweep; otherwise the sweep runs |
| Image.HandleImage | kdev.py:884-930 | With `--mount` supplied, the outcome and commands are those of the mount branch (with the `umount` attribute for the notice); else with `--umount` supplied those of the umount branch; neither: nothing happens |

## Left out

- Process execution in `do_exe_cmd` (kdev.py:231-274): the `select` loop over stdout and stderr, the logging and the printing. Each command is a record plus an oracle return code.
- Rootfs.ProvisionRootfs: the `wget` download (kdev.py:570-578) is not modelled, nor its failure, which ends the command with "Download qcow2 failed!"; the model proceeds as if the image file were present. The reuse branch's `qemu-nbd --disconnect` and `modprobe` (kdev.py:579-581) are not in the record either.
- Rootfs.ProvisionRootfs: `os.rmdir` of the temporary directory (kdev.py:729) is not modelled, nor the `OSError` it raises when the directory is not empty or is still a mount point after the lazy umount; the model returns `Ok` regardless.
- `time.sleep` and `os.makedirs` of the mount points: host effects that issue no command.
- A command given as a string goes through `cmd.split()` (kdev.py:234-235). A path with whitespace (kdev.py:895, 903, 920) therefore becomes several arguments; the model keeps each path as one argument of the command.
- Config.Namespace.LoadConfigFiles: a `.kdev` entry that is a directory makes `open` raise (kdev.py:1006); the model takes the `.kdev` files with their lines and does not model that exception.
- The random temporary directory name (kdev.py:608) is a parameter of `Rootfs.ProvisionRootfs`.
- `handle_check`'s source-directory checks and the `make kernelversion` call itself; `Checks.CheckKernelVersion` takes its return code and output as inputs. `handle_rootfs` takes the master version as a parameter instead of calling `handle_check`.
- The attributes `handle_rootfs` stores for printing (`qcow2_url`, `qcow2`, `tmpdir`, `hostname`) are not recorded in the namespace; only `nbd` is.
- The effect of `cp -a` on the partition tree: copies are commands in the record and do not change `Tree.MountedTree`.
- Permissions are reduced to an executable flag. A renamed `usr/bin` subdirectory moves as one entry without its contents. A rename onto an existing name replaces it, including the cases where `os.rename` would raise (a file onto a directory, a non-empty directory).
- Rootfs.CopyNeverTargetsHost: the guard of kdev.py:620 compares strings, so a mount point that spells `/` another way (`/.`, `//`) is not caught and its copy writes into the host's own directory; the source's mount point is always a fresh directory under `/tmp`.
- Tree.WellFormed: only `etc/cloud` and `usr/bin` are tied to their parents' entries; other nested directories, and the subtree of a subdirectory renamed inside `usr/bin`, are not kept in step with their parents.
- Config.MatchAssignment: `\w` is ASCII letters, digits and `_`; Python also matches non-ASCII letters and digits.
- Splitting a config file into lines and UTF-8 decoding: a file is given as its sequence of lines.
- Image.AbsPath: `os.path.abspath` is joined with the working directory without normalising `.` and `..`.
- Rootfs.MountAndInject: an exception from the edits is one failure `Raised("OSError")`; the Python exception type is not distinguished.
- argparse setup, privilege and Python-version checks, the `apt-get` dependency list, the virsh and docker calls, the shell-script templates and the contents of `KERNEL_BUILD_MAP` (taken as a parameter).
- The text of the first-boot script is one constant `FirstBootScript`.

## Findings

| source | as written | input that shows it | evidently intended | confidence | as-written member | corrected member |
|---|---|---|---|---|---|---|
| kdev.py:376 | `perror` takes one argument but gets two, so an unsupported master version raises `TypeError` instead of printing the diagnostic | `make kernelversion` prints `7.0.1` | report "unsupported masterversion 7" and exit | high, not executed | Checks.CheckKernelVersionAsWritten | Checks.CheckKernelVersion |
| kdev.py:910 | the missing-file notice of the `--mount` branch prints `args.umount`, which is `None` there | `kdev image --mount missing.qcow2` | name the file given to `--mount` | high, not executed | Image.MissingMountNoticeAsWritten | Image.MissingNotice |
