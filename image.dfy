/** `handle_image` (kdev.py:869-930): bind a qcow2 file to a free NBD slot and mount
    its first partition next to it, or unmount that directory and sweep the slots. */
module Image {
  import opened Wrappers
  import opened Failures
  import opened Text
  import opened Shell
  import opened Config
  import opened Checks
  import opened Nbd

  /** What one `kdev image` invocation ends with. */
  datatype ImageOutcome =
    | Mounted(dir: string)     // "mount ... to <dir> done!"
    | Released                 // umount (if mounted) and sweep done
    | NoSuchFile(notice: string)
    | NothingToDo              // neither --mount nor --umount is set
    | Failed(failure: Failure) // perror

  /** The directory an image is mounted on: the absolute file name plus `-mnt`. */
  function MountDir(file: string): (d: string)
    ensures EndsWith(d, "-mnt") && |d| == |file| + 4
  {
    file + "-mnt"
  }

  /** The image a mount directory belongs to. */
  function ImageOf(dir: string): string
    requires EndsWith(dir, "-mnt")
  {
    dir[..|dir| - 4]
  }

  /** Each image has its own mount directory, and the directory names its image. */
  lemma MountDirRoundTrip(file: string, other: string)
    ensures ImageOf(MountDir(file)) == file
    ensures MountDir(file) == MountDir(other) ==> file == other
  {
    assert MountDir(file)[..|file|] == file;
    if MountDir(file) == MountDir(other) {
      assert MountDir(other)[..|other|] == other;
    }
  }

  /** `os.path.abspath(path)` from the working directory `cwd`, without the
      normalisation of `.` and `..`. */
  function AbsPath(cwd: string, path: string): string
  {
    PathJoin(cwd, path)
  }

  /** The notice for a missing file, naming the file that was asked for. */
  function MissingNotice(path: string): (r: string)
    ensures |r| == |path| + 20 && r[5..5 + |path|] == path
  {
    "File " + path + " does not exist"
  }

  /** Different files give different notices. */
  lemma MissingNoticeInjective(a: string, b: string)
    ensures MissingNotice(a) == MissingNotice(b) ==> a == b
  {
  }

  /** The notice of kdev.py:910, printed when the file given to `--mount` does not
      exist: it shows `args.umount`, which argparse leaves `None` next to `--mount`. */
  function MissingMountNoticeAsWritten(umount: Option<string>): (r: string)
  {
    MissingNotice(Display(umount))
  }

  /** With only `--mount` given, the notice as written names `None` instead of the file. */
  lemma MissingMountNoticeNamesNone(mount: string)
    requires mount != "None"
    ensures MissingMountNoticeAsWritten(None) == MissingNotice("None")
    ensures MissingMountNoticeAsWritten(None) != MissingNotice(mount)
  {
    MissingNoticeInjective("None", mount);
  }

  /** Bind `file` to slot `nbd` and mount its first partition on the mount directory
      (kdev.py:894-907); either failing ends the command with its return code. */
  method BindAndMount(sh: Shell, file: string, nbd: string) returns (out: ImageOutcome)
    modifies sh
    ensures var bind := NbdConnect(DevPath(nbd), file);
            var rc := sh.exitCode(old(sh.issued), bind);
            rc != 0 ==> out == Failed(BindFailed(file, rc)) && sh.issued == old(sh.issued) + [bind]
    ensures var bind := NbdConnect(DevPath(nbd), file);
            var mount := Mount(DevPath(nbd) + "p1", MountDir(file), false);
            var rc' := sh.exitCode(old(sh.issued) + [bind], mount);
            sh.exitCode(old(sh.issued), bind) == 0 ==>
              && sh.issued == old(sh.issued) + [bind, mount]
              && out == if rc' == 0 then Mounted(MountDir(file)) else Failed(ImageMountFailed(file, rc'))
  {
    var rc := sh.Run(NbdConnect(DevPath(nbd), file));
    if rc != 0 {
      return Failed(BindFailed(file, rc));
    }
    var mntdir := MountDir(file);
    rc := sh.Run(Mount(DevPath(nbd) + "p1", mntdir, false));
    if rc != 0 {
      return Failed(ImageMountFailed(file, rc));
    }
    return Mounted(mntdir);
  }

  /** What the `--mount` branch (kdev.py:884-910) does for `path`, given the commands
      issued before it: the outcome and the commands it issues. A missing file gets
      the notice as written, which shows `umount`. */
  function MountBranch(exitCode: (seq<Cmd>, Cmd) -> int, history: seq<Cmd>, cwd: string, path: string,
                       umount: Option<string>, files: set<string>, listing: seq<BlockEntry>): (ImageOutcome, seq<Cmd>)
  {
    var file := AbsPath(cwd, path);
    if file !in files then (NoSuchFile(MissingMountNoticeAsWritten(umount)), [])
    else
      var nbd := FirstFree(listing);
      if nbd == "" then (Failed(NoFreeNbd), [])
      else
        var bind := NbdConnect(DevPath(nbd), file);
        var rc := exitCode(history, bind);
        if rc != 0 then (Failed(BindFailed(file, rc)), [bind])
        else
          var mount := Mount(DevPath(nbd) + "p1", MountDir(file), false);
          var rc' := exitCode(history + [bind], mount);
          (if rc' == 0 then Mounted(MountDir(file)) else Failed(ImageMountFailed(file, rc')), [bind, mount])
  }

  /** The image is mounted exactly when the file exists, some slot is free, and binding
      the file to the first free slot and mounting its first partition both succeed. */
  lemma MountBranchMounted(exitCode: (seq<Cmd>, Cmd) -> int, history: seq<Cmd>, cwd: string, path: string,
                           umount: Option<string>, files: set<string>, listing: seq<BlockEntry>)
    ensures var m := MountBranch(exitCode, history, cwd, path, umount, files, listing);
            var file := AbsPath(cwd, path);
            var nbd := FirstFree(listing);
            var bind := NbdConnect(DevPath(nbd), file);
            var mount := Mount(DevPath(nbd) + "p1", MountDir(file), false);
            && (m.0.Mounted? <==> file in files && nbd != ""
                                  && exitCode(history, bind) == 0 && exitCode(history + [bind], mount) == 0)
            && (m.0.Mounted? ==> m.0.dir == MountDir(file) && m.1 == [bind, mount]
                                 && exists k :: 0 <= k < |listing| && IsFree(listing[k]) && nbd == listing[k].name
                                                && forall j :: 0 <= j < k ==> !IsFree(listing[j]))
    ensures MountBranch(exitCode, history, cwd, path, umount, files, listing).1 != [] ==>
              AbsPath(cwd, path) in files && FirstFree(listing) != ""
  {
  }

  /** With only `--mount` given, a missing file gets the notice naming `None`, and no
      command runs. */
  lemma MountBranchMissingFile(exitCode: (seq<Cmd>, Cmd) -> int, history: seq<Cmd>, cwd: string, path: string,
                               files: set<string>, listing: seq<BlockEntry>)
    requires AbsPath(cwd, path) !in files
    ensures MountBranch(exitCode, history, cwd, path, None, files, listing) == (NoSuchFile(MissingNotice("None")), [])
  {
  }

  /** The `--mount` branch (kdev.py:884-910). `nbd` is the slot `find_free_nbd` returned,
      `umount` the `--umount` attribute the missing-file notice prints. */
  method MountImage(sh: Shell, cwd: string, path: string, umount: Option<string>, files: set<string>,
                    listing: seq<BlockEntry>) returns (out: ImageOutcome, nbd: string)
    modifies sh
    ensures var m := MountBranch(sh.exitCode, old(sh.issued), cwd, path, umount, files, listing);
            out == m.0 && sh.issued == old(sh.issued) + m.1
    ensures nbd == (if AbsPath(cwd, path) in files then FirstFree(listing) else "")
    ensures AbsPath(cwd, path) !in files ==>
              out == NoSuchFile(MissingMountNoticeAsWritten(umount)) && sh.issued == old(sh.issued)
    ensures AbsPath(cwd, path) in files ==> (nbd == "" <==> forall k :: 0 <= k < |listing| ==> !IsFree(listing[k]))
    ensures AbsPath(cwd, path) in files && nbd != "" ==>
              exists k :: 0 <= k < |listing| && IsFree(listing[k]) && nbd == listing[k].name
                          && forall j :: 0 <= j < k ==> !IsFree(listing[j])
    ensures AbsPath(cwd, path) in files && nbd == "" ==> out == Failed(NoFreeNbd) && sh.issued == old(sh.issued)
    ensures AbsPath(cwd, path) in files && nbd != "" ==>
              var file := AbsPath(cwd, path);
              var bind := NbdConnect(DevPath(nbd), file);
              var rc := sh.exitCode(old(sh.issued), bind);
              rc != 0 ==> out == Failed(BindFailed(file, rc)) && sh.issued == old(sh.issued) + [bind]
    ensures AbsPath(cwd, path) in files && nbd != "" ==>
              var file := AbsPath(cwd, path);
              var bind := NbdConnect(DevPath(nbd), file);
              var mount := Mount(DevPath(nbd) + "p1", MountDir(file), false);
              var rc' := sh.exitCode(old(sh.issued) + [bind], mount);
              sh.exitCode(old(sh.issued), bind) == 0 ==>
                && sh.issued == old(sh.issued) + [bind, mount]
                && out == if rc' == 0 then Mounted(MountDir(file)) else Failed(ImageMountFailed(file, rc'))
  {
    nbd := "";
    var file := AbsPath(cwd, path);
    if file !in files {
      return NoSuchFile(MissingMountNoticeAsWritten(umount)), nbd;
    }
    nbd := FindFreeNbd(listing);
    if nbd == "" {
      return Failed(NoFreeNbd), nbd;
    }
    out := BindAndMount(sh, file, nbd);
  }

  /** What the `--umount` branch (kdev.py:911-930) does for `path`: the outcome and the
      commands it issues. The umount's return code is only printed. */
  function UmountBranch(cwd: string, path: string, files: set<string>, dirs: set<string>,
                        listing: seq<BlockEntry>, leftover: seq<string>): (ImageOutcome, seq<Cmd>)
  {
    var file := AbsPath(cwd, path);
    var mnt := MountDir(file);
    if file !in files then (NoSuchFile(MissingNotice(path)), [])
    else if mnt in dirs && leftover != [] then (Failed(MountDirNotEmpty(mnt)), [Umount(mnt, false)])
    else (Released, (if mnt in dirs then [Umount(mnt, false)] else []) + SweepCommands(listing))
  }

  /** The `--umount` branch (kdev.py:911-930). `dirs` are the host directories that
      exist; `leftover` is what the mount directory lists after the umount. The umount's
      return code is only printed; a mount directory still holding entries ends the
      command before the sweep. */
  method UmountImage(sh: Shell, cwd: string, path: string, files: set<string>, dirs: set<string>,
                     listing: seq<BlockEntry>, leftover: seq<string>) returns (out: ImageOutcome)
    modifies sh
    ensures var u := UmountBranch(cwd, path, files, dirs, listing, leftover);
            out == u.0 && sh.issued == old(sh.issued) + u.1
    ensures var file := AbsPath(cwd, path);
            var mnt := MountDir(file);
            && (file !in files ==> out == NoSuchFile(MissingNotice(path)) && sh.issued == old(sh.issued))
            && (file in files && mnt in dirs && leftover != [] ==>
                  out == Failed(MountDirNotEmpty(mnt)) && sh.issued == old(sh.issued) + [Umount(mnt, false)])
            && (file in files && !(mnt in dirs && leftover != []) ==>
                  out == Released
                  && sh.issued == old(sh.issued) + (if mnt in dirs then [Umount(mnt, false)] else []) + SweepCommands(listing))
  {
    var file := AbsPath(cwd, path);
    if file !in files {
      return NoSuchFile(MissingNotice(path));
    }
    var mnt := MountDir(file);
    ghost var umounted: seq<Cmd> := [];
    if mnt in dirs {
      var _ := sh.Run(Umount(mnt, false));
      umounted := [Umount(mnt, false)];
      if leftover != [] {
        return Failed(MountDirNotEmpty(mnt));
      }
    }
    assert sh.issued == old(sh.issued) + umounted;
    CleanNbd(sh, listing);
    AppendSteps(old(sh.issued), umounted, SweepCommands(listing));
    return Released;
  }

  /** `handle_image`: `--mount` and `--umount` are exclusive on the command line; a
      value is acted on only when it is a non-empty string. */
  method HandleImage(ns: Namespace, sh: Shell, cwd: string, files: set<string>, dirs: set<string>,
                     listing: seq<BlockEntry>, leftover: seq<string>) returns (out: ImageOutcome)
    modifies sh
    ensures var mount := Get(ns.attrs, "mount");
            Supplied(mount) ==>
              var m := MountBranch(sh.exitCode, old(sh.issued), cwd, mount.value, Get(ns.attrs, "umount"), files, listing);
              out == m.0 && sh.issued == old(sh.issued) + m.1
    ensures var umount := Get(ns.attrs, "umount");
            !Supplied(Get(ns.attrs, "mount")) && Supplied(umount) ==>
              var u := UmountBranch(cwd, umount.value, files, dirs, listing, leftover);
              out == u.0 && sh.issued == old(sh.issued) + u.1
    ensures !Supplied(Get(ns.attrs, "mount")) && !Supplied(Get(ns.attrs, "umount")) ==>
              out == NothingToDo && sh.issued == old(sh.issued)
    ensures out.Mounted? ==> Supplied(Get(ns.attrs, "mount"))
                             && out.dir == MountDir(AbsPath(cwd, Get(ns.attrs, "mount").value))
    ensures out.Released? ==> !Supplied(Get(ns.attrs, "mount")) && Supplied(Get(ns.attrs, "umount"))
  {
    var mount := Get(ns.attrs, "mount");
    var umount := Get(ns.attrs, "umount");
    if Supplied(mount) {
      var nbd;
      out, nbd := MountImage(sh, cwd, mount.value, umount, files, listing);
    } else if Supplied(umount) {
      out := UmountImage(sh, cwd, umount.value, files, dirs, listing, leftover);
    } else {
      out := NothingToDo;
    }
  }
}
