/** `handle_rootfs` (kdev.py:559-730): attach the qcow2 image to an NBD slot, mount its
    first partition, copy the built kernel into it, edit the tree and release it. */
module Rootfs {
  import opened Wrappers
  import opened Failures
  import opened Text
  import opened Shell
  import opened Config
  import opened BuildMap
  import opened Nbd
  import opened Tree

  /** The host directories the copies read from: each one that exists, with what
      the glob of its contents lists. */
  type HostDirs = map<string, seq<string>>

  /** The `cp -a` that copies the work directory's `sub` into the mounted image, or
      `None` where the source skips it: the host directory is missing, or the target
      is literally the string `/sub` (kdev.py:617-620, 631-634, 645-648). */
  function CopyCommand(host: HostDirs, workdir: string, tmpdir: string, sub: string): Option<Cmd>
  {
    var source := PathJoin(workdir, sub);
    var target := PathJoin(tmpdir, sub);
    if source in host && target != "/" + sub then Some(Copy(host[source], target + "/")) else None
  }

  /** A copy's destination is never literally `/sub/`, and it copies exactly what the
      host directory lists. The guard compares strings only. */
  lemma CopyNeverTargetsHost(host: HostDirs, workdir: string, tmpdir: string, sub: string)
    ensures var c := CopyCommand(host, workdir, tmpdir, sub);
            c.Some? ==> PathJoin(workdir, sub) in host
                        && c.value.sources == host[PathJoin(workdir, sub)]
                        && c.value.dest != "/" + sub + "/"
  {
  }

  /** With the image mounted on `/` itself every copy is skipped. */
  lemma CopySkippedOnRoot(host: HostDirs, workdir: string, sub: string)
    requires sub != [] && sub[0] != '/'
    ensures CopyCommand(host, workdir, "/", sub) == None
  {
  }

  /** With a missing host directory the copy is skipped. */
  lemma CopySkippedWithoutSource(host: HostDirs, workdir: string, tmpdir: string, sub: string)
    requires PathJoin(workdir, sub) !in host
    ensures CopyCommand(host, workdir, tmpdir, sub) == None
  {
  }

  /** `mount -o rw /dev/<nbd>p1 <tmpdir>`: the first partition of the slot. */
  function MountCommand(nbd: string, tmpdir: string): Cmd
  {
    Mount(DevPath(nbd) + "p1", tmpdir, true)
  }

  /** No command of `cmds` from index `from` on releases anything: no umount, no NBD
      disconnect. */
  predicate NoReleaseFrom(cmds: seq<Cmd>, from: nat)
  {
    forall i :: from <= i < |cmds| ==> !cmds[i].Umount? && !cmds[i].NbdDisconnect?
  }

  lemma NoReleaseSync(a: seq<Cmd>, from: nat)
    requires from <= |a| && NoReleaseFrom(a, from)
    ensures NoReleaseFrom(a + [Sync], from)
  {
    assert forall i :: from <= i < |a| ==> (a + [Sync])[i] == a[i];
  }

  /** The directories copied into the image, in the order of kdev.py:617-657. */
  const CopySubs: seq<string> := ["boot", "lib/modules", "usr"]

  /** One planned copy step: the copy it runs, if not skipped, and the directory a
      failure names. */
  datatype CopyPlan = CopyPlan(copy: Option<Cmd>, target: string)

  /** The plan of the copy steps for `subs`, in order. */
  function Plan(host: HostDirs, workdir: string, tmpdir: string, subs: seq<string>): (plan: seq<CopyPlan>)
    ensures |plan| == |subs|
    ensures forall i :: 0 <= i < |subs| ==>
              plan[i].copy == CopyCommand(host, workdir, tmpdir, subs[i]) && plan[i].target == PathJoin(tmpdir, subs[i])
  {
    seq(|subs|, i requires 0 <= i < |subs| => CopyPlan(CopyCommand(host, workdir, tmpdir, subs[i]), PathJoin(tmpdir, subs[i])))
  }

  /** The commands of one planned step: a `sync`, then the copy unless it is skipped. */
  function StepCmds(p: CopyPlan): seq<Cmd>
  {
    if p.copy.Some? then [Sync, p.copy.value] else [Sync]
  }

  /** How one planned step ends after the commands `history`: a copy that returns
      non-zero fails, naming its target. */
  function StepFailure(exitCode: (seq<Cmd>, Cmd) -> int, history: seq<Cmd>, p: CopyPlan): (r: Option<Failure>)
    ensures p.copy.None? ==> r.None?
    ensures r.Some? ==> r == Some(CopyFailed(p.target))
  {
    if p.copy.Some? && exitCode(history + [Sync], p.copy.value) != 0 then Some(CopyFailed(p.target)) else None
  }

  /** One copy step (kdev.py:617-627): a `sync`, then the copy unless it is skipped; a
      failed copy ends the command. */
  method CopyStep(sh: Shell, p: CopyPlan) returns (r: Option<Failure>)
    modifies sh
    ensures sh.issued == old(sh.issued) + StepCmds(p)
    ensures r == StepFailure(sh.exitCode, old(sh.issued), p)
    ensures r.Some? <==> p.copy.Some? && sh.exitCode(old(sh.issued) + [Sync], p.copy.value) != 0
  {
    var _ := sh.Run(Sync);
    r := None;
    if p.copy.Some? {
      var rc := sh.Run(p.copy.value);
      if rc != 0 {
        r := Some(CopyFailed(p.target));
      }
    }
  }

  /** The copy steps of `plan` in order, after the commands `history`; the first failed
      copy ends the run. The result is the commands issued and the failure, if any. */
  function CopyRun(exitCode: (seq<Cmd>, Cmd) -> int, history: seq<Cmd>, plan: seq<CopyPlan>): (seq<Cmd>, Option<Failure>)
    decreases |plan|
  {
    if plan == [] then ([], None)
    else
      var step := StepCmds(plan[0]);
      var failure := StepFailure(exitCode, history, plan[0]);
      if failure.Some? then (step, failure)
      else
        var rest := CopyRun(exitCode, history + step, plan[1..]);
        (step + rest.0, rest.1)
  }

  /** Every planned copy is a `cp -a`. */
  predicate CopiesOnly(plan: seq<CopyPlan>)
  {
    forall i :: 0 <= i < |plan| && plan[i].copy.Some? ==> plan[i].copy.value.Copy?
  }

  lemma PlanCopiesOnly(host: HostDirs, workdir: string, tmpdir: string, subs: seq<string>)
    ensures CopiesOnly(Plan(host, workdir, tmpdir, subs))
  {
  }

  /** Every command of `cmds` is a `sync` or a `cp -a`. */
  predicate SyncsAndCopies(cmds: seq<Cmd>)
  {
    forall i :: 0 <= i < |cmds| ==> cmds[i] == Sync || cmds[i].Copy?
  }

  /** The copy steps issue only `sync`s and copies. */
  lemma {:induction false} CopyRunOnlySyncsAndCopies(exitCode: (seq<Cmd>, Cmd) -> int, history: seq<Cmd>,
                                                     plan: seq<CopyPlan>)
    requires CopiesOnly(plan)
    ensures SyncsAndCopies(CopyRun(exitCode, history, plan).0)
    decreases |plan|
  {
    if plan != [] {
      assert plan[0].copy.Some? ==> plan[0].copy.value.Copy?;
      assert CopiesOnly(plan[1..]) by {
        forall i | 0 <= i < |plan[1..]| && plan[1..][i].copy.Some? ensures plan[1..][i].copy.value.Copy? {
          assert plan[1..][i] == plan[i + 1];
        }
      }
      var step := StepCmds(plan[0]);
      var cmds := CopyRun(exitCode, history, plan).0;
      if StepFailure(exitCode, history, plan[0]).None? {
        var rest := CopyRun(exitCode, history + step, plan[1..]).0;
        CopyRunOnlySyncsAndCopies(exitCode, history + step, plan[1..]);
        assert cmds == step + rest;
        forall i | 0 <= i < |cmds| ensures cmds[i] == Sync || cmds[i].Copy? {
          if i >= |step| {
            assert cmds[i] == rest[i - |step|];
          } else {
            assert cmds[i] == step[i];
          }
        }
      }
    }
  }

  /** A run reports a failure exactly when one of its copies returned non-zero, and
      then that copy is its last command: every earlier copy succeeded. */
  lemma {:induction false} CopyRunStopsAtFirstFailure(exitCode: (seq<Cmd>, Cmd) -> int, history: seq<Cmd>,
                                                      plan: seq<CopyPlan>)
    requires CopiesOnly(plan)
    ensures var run := CopyRun(exitCode, history, plan);
            && (forall i :: 0 <= i < |run.0| && run.0[i].Copy? ==>
                  (exitCode(history + run.0[..i], run.0[i]) != 0 <==> run.1.Some? && i == |run.0| - 1))
            && (run.1.Some? ==> run.0 != [] && run.0[|run.0| - 1].Copy? && run.1.value.CopyFailed?)
    decreases |plan|
  {
    if plan != [] {
      var step := StepCmds(plan[0]);
      var run := CopyRun(exitCode, history, plan);
      assert plan[0].copy.Some? ==> plan[0].copy.value.Copy?;
      assert step[..1] == [Sync];
      if StepFailure(exitCode, history, plan[0]).None? {
        var rest := CopyRun(exitCode, history + step, plan[1..]);
        assert CopiesOnly(plan[1..]) by {
          forall i | 0 <= i < |plan[1..]| && plan[1..][i].copy.Some? ensures plan[1..][i].copy.value.Copy? {
            assert plan[1..][i] == plan[i + 1];
          }
        }
        CopyRunStopsAtFirstFailure(exitCode, history + step, plan[1..]);
        forall i | 0 <= i < |run.0| && run.0[i].Copy?
          ensures exitCode(history + run.0[..i], run.0[i]) != 0 <==> run.1.Some? && i == |run.0| - 1
        {
          if i < |step| {
            assert i == 1 && run.0[..i] == [Sync] && run.0[i] == plan[0].copy.value;
          } else {
            ShiftSteps(history, step, rest.0, i);
          }
        }
      }
    }
  }

  lemma ShiftSteps(history: seq<Cmd>, step: seq<Cmd>, rest: seq<Cmd>, i: nat)
    requires |step| <= i < |step| + |rest|
    ensures history + (step + rest)[..i] == (history + step) + rest[..i - |step|]
    ensures (step + rest)[i] == rest[i - |step|]
  {
    assert (step + rest)[..i] == step + rest[..i - |step|];
  }

  /** When every copy is skipped, the steps are only `sync`s, one per step, and
      nothing fails. */
  lemma {:induction false} CopyRunAllSkipped(exitCode: (seq<Cmd>, Cmd) -> int, history: seq<Cmd>, plan: seq<CopyPlan>)
    requires forall i :: 0 <= i < |plan| ==> plan[i].copy.None?
    ensures CopyRun(exitCode, history, plan) == (seq(|plan|, _ => Sync), None)
    decreases |plan|
  {
    if plan != [] {
      assert plan[0].copy.None?;
      assert forall i :: 0 <= i < |plan[1..]| ==> plan[1..][i] == plan[i + 1];
      assert StepCmds(plan[0]) == [Sync] && StepFailure(exitCode, history, plan[0]).None?;
      CopyRunAllSkipped(exitCode, history + [Sync], plan[1..]);
      assert [Sync] + seq(|plan| - 1, _ => Sync) == seq(|plan|, _ => Sync);
    } else {
      assert seq(|plan|, _ => Sync) == [];
    }
  }

  /** With the image mounted on `/` itself, the three copy steps are three `sync`s. */
  lemma CopyRunOnRoot(exitCode: (seq<Cmd>, Cmd) -> int, history: seq<Cmd>, host: HostDirs, workdir: string)
    ensures CopyRun(exitCode, history, Plan(host, workdir, "/", CopySubs)) == ([Sync, Sync, Sync], None)
  {
    var plan := Plan(host, workdir, "/", CopySubs);
    CopySkippedOnRoot(host, workdir, CopySubs[0]);
    CopySkippedOnRoot(host, workdir, CopySubs[1]);
    CopySkippedOnRoot(host, workdir, CopySubs[2]);
    assert |plan| == 3;
    assert plan[0].copy.None? && plan[1].copy.None? && plan[2].copy.None?;
    forall i | 0 <= i < |plan| ensures plan[i].copy.None? {
      assert i == 0 || i == 1 || i == 2;
    }
    CopyRunAllSkipped(exitCode, history, plan);
    assert seq(|plan|, _ => Sync) == [Sync, Sync, Sync];
  }

  /** The copy steps of kdev.py:617-657 for a plan, in order, each after a `sync`,
      stopping at the first failed copy. */
  method CopyAll(sh: Shell, plan: seq<CopyPlan>) returns (r: Option<Failure>)
    modifies sh
    ensures var run := CopyRun(sh.exitCode, old(sh.issued), plan);
            sh.issued == old(sh.issued) + run.0 && r == run.1
  {
    ghost var done: seq<Cmd> := [];
    assert plan[0..] == plan && old(sh.issued) + done == old(sh.issued);
    assert done + CopyRun(sh.exitCode, sh.issued, plan).0 == CopyRun(sh.exitCode, sh.issued, plan).0;
    for k := 0 to |plan|
      invariant sh.issued == old(sh.issued) + done
      invariant var rest := CopyRun(sh.exitCode, sh.issued, plan[k..]);
                CopyRun(sh.exitCode, old(sh.issued), plan) == (done + rest.0, rest.1)
    {
      var p := plan[k];
      assert plan[k..][0] == p && plan[k..][1..] == plan[k + 1..];
      r := CopyStep(sh, p);
      AppendSteps(old(sh.issued), done, StepCmds(p));
      if r.Some? {
        return;
      }
      AppendSteps(done, StepCmds(p), CopyRun(sh.exitCode, sh.issued, plan[k + 1..]).0);
      done := done + StepCmds(p);
    }
    assert plan[|plan|..] == [];
    return None;
  }

  /** The mount and the copy steps release nothing, and neither does the `sync` after them. */
  lemma NoReleaseMount(start: seq<Cmd>, mount: Cmd)
    requires !mount.Umount? && !mount.NbdDisconnect?
    ensures NoReleaseFrom(start + [Sync, mount], |start|)
  {
  }

  lemma CopyRunNoRelease(exitCode: (seq<Cmd>, Cmd) -> int, start: seq<Cmd>, mount: Cmd, plan: seq<CopyPlan>)
    requires !mount.Umount? && !mount.NbdDisconnect? && CopiesOnly(plan)
    ensures var mounted := start + [Sync, mount];
            var cmds := CopyRun(exitCode, mounted, plan).0;
            NoReleaseFrom(mounted + cmds, |start|) && NoReleaseFrom(mounted + cmds + [Sync], |start|)
  {
    var mounted := start + [Sync, mount];
    var cmds := CopyRun(exitCode, mounted, plan).0;
    CopyRunOnlySyncsAndCopies(exitCode, mounted, plan);
    assert SyncsAndCopies(cmds);
    forall i | |start| <= i < |mounted + cmds| ensures !(mounted + cmds)[i].Umount? && !(mounted + cmds)[i].NbdDisconnect? {
      if i >= |mounted| {
        assert (mounted + cmds)[i] == cmds[i - |mounted|];
        assert cmds[i - |mounted|] == Sync || cmds[i - |mounted|].Copy?;
      } else {
        assert (mounted + cmds)[i] == mounted[i] && (mounted[i] == Sync || mounted[i] == mount);
      }
    }
    NoReleaseSync(mounted + cmds, |start|);
  }

  /** After the commands `history`, with the image bound to slot `nbd`: the mount of
      its partition succeeds, no copy fails and the edits can all run. */
  predicate MountCopyInjectSucceed(exitCode: (seq<Cmd>, Cmd) -> int, history: seq<Cmd>, dirs: Dirs,
                                   host: HostDirs, workdir: string, tmpdir: string, nbd: string)
  {
    var mount := MountCommand(nbd, tmpdir);
    && exitCode(history + [Sync], mount) == 0
    && CopyRun(exitCode, history + [Sync, mount], Plan(host, workdir, tmpdir, CopySubs)).1.None?
    && Injectable(dirs)
  }

  /** What the mount, copy and edit stage leaves: the failure that ends the command, if
      any, the whole command record and the partition tree. */
  datatype Stage = Stage(failure: Option<Failure>, issued: seq<Cmd>, dirs: Dirs)

  /** kdev.py:605-720 after the commands `history`, with the image bound to slot `nbd`:
      `sync` and mount, the copy steps, one more `sync`, then the edits. A failed mount
      or copy ends the command through `perror`; a failed edit raises. */
  function MountCopyInject(exitCode: (seq<Cmd>, Cmd) -> int, history: seq<Cmd>, dirs: Dirs, host: HostDirs,
                           workdir: string, tmpdir: string, nbd: string, hostname: string): Stage
  {
    var mount := MountCommand(nbd, tmpdir);
    var mounted := history + [Sync, mount];
    if exitCode(history + [Sync], mount) != 0 then Stage(Some(MountFailed), mounted, dirs)
    else
      var run := CopyRun(exitCode, mounted, Plan(host, workdir, tmpdir, CopySubs));
      if run.1.Some? then Stage(run.1, mounted + run.0, dirs)
      else
        var edited := InjectTree(dirs, hostname);
        Stage(if edited.1 then None else Some(Raised("OSError")), mounted + run.0 + [Sync], edited.0)
  }

  /** The stage succeeds exactly when the mount and every copy succeed and the edits can
      all run; the tree is then in the injected shape and a second round of edits
      would change nothing. */
  lemma MountCopyInjectSucceeds(exitCode: (seq<Cmd>, Cmd) -> int, history: seq<Cmd>, dirs: Dirs, host: HostDirs,
                                workdir: string, tmpdir: string, nbd: string, hostname: string)
    ensures var s := MountCopyInject(exitCode, history, dirs, host, workdir, tmpdir, nbd, hostname);
            && (s.failure.None? <==> MountCopyInjectSucceed(exitCode, history, dirs, host, workdir, tmpdir, nbd))
            && (s.failure.None? ==> Injected(s.dirs, hostname) && InjectTree(s.dirs, hostname) == (s.dirs, true))
  {
    InjectSucceedsIff(dirs, hostname);
    if InjectTree(dirs, hostname).1 {
      InjectIdempotent(dirs, hostname);
    }
  }

  /** Each way the stage can fail: which failure it returns, what it issued and what the
      tree holds. */
  lemma MountCopyInjectFailures(exitCode: (seq<Cmd>, Cmd) -> int, history: seq<Cmd>, dirs: Dirs, host: HostDirs,
                                workdir: string, tmpdir: string, nbd: string, hostname: string)
    ensures var s := MountCopyInject(exitCode, history, dirs, host, workdir, tmpdir, nbd, hostname);
            var mounted := history + [Sync, MountCommand(nbd, tmpdir)];
            var run := CopyRun(exitCode, mounted, Plan(host, workdir, tmpdir, CopySubs));
            && (s.failure == Some(MountFailed) <==> exitCode(history + [Sync], MountCommand(nbd, tmpdir)) != 0)
            && (s.failure == Some(MountFailed) ==> s.issued == mounted && s.dirs == dirs)
            && (s.failure != Some(MountFailed) && run.1.Some? ==>
                  s.failure == run.1 && run.1.value.CopyFailed? && s.issued == mounted + run.0 && s.dirs == dirs)
            && (s.failure != Some(MountFailed) && run.1.None? ==>
                  && s.failure == (if Injectable(dirs) then None else Some(Raised("OSError")))
                  && s.issued == mounted + run.0 + [Sync]
                  && s.dirs == InjectTree(dirs, hostname).0)
  {
    var mounted := history + [Sync, MountCommand(nbd, tmpdir)];
    var plan := Plan(host, workdir, tmpdir, CopySubs);
    PlanCopiesOnly(host, workdir, tmpdir, CopySubs);
    CopyRunStopsAtFirstFailure(exitCode, mounted, plan);
    InjectSucceedsIff(dirs, hostname);
  }

  /** Nothing the stage issues unmounts or disconnects: the record only grows, and a
      failure leaves the slot bound and the partition mounted. */
  lemma MountCopyInjectNoRelease(exitCode: (seq<Cmd>, Cmd) -> int, history: seq<Cmd>, dirs: Dirs, host: HostDirs,
                                 workdir: string, tmpdir: string, nbd: string, hostname: string)
    ensures var s := MountCopyInject(exitCode, history, dirs, host, workdir, tmpdir, nbd, hostname);
            history < s.issued && NoReleaseFrom(s.issued, |history|)
  {
    var s := MountCopyInject(exitCode, history, dirs, host, workdir, tmpdir, nbd, hostname);
    var mount := MountCommand(nbd, tmpdir);
    var mounted := history + [Sync, mount];
    var plan := Plan(host, workdir, tmpdir, CopySubs);
    var run := CopyRun(exitCode, mounted, plan);
    assert history < mounted;
    if exitCode(history + [Sync], mount) != 0 {
      assert s.issued == mounted;
      NoReleaseMount(history, mount);
    } else {
      PlanCopiesOnly(host, workdir, tmpdir, CopySubs);
      CopyRunNoRelease(exitCode, history, mount, plan);
      assert mounted <= mounted + run.0;
      if run.1.Some? {
        assert s.issued == mounted + run.0;
      } else {
        assert s.issued == mounted + run.0 + [Sync];
      }
    }
  }

  /** kdev.py:605-657, with the image bound to slot `nbd` and `tmpdir` created: mount
      the partition, then copy `boot`, `lib/modules` and `usr` with a `sync` before
      each. The first failure ends the command; nothing here unmounts or disconnects. */
  method MountAndCopy(sh: Shell, host: HostDirs, workdir: string, tmpdir: string, nbd: string)
    returns (r: Option<Failure>)
    modifies sh
    ensures r == Some(MountFailed) <==> sh.exitCode(old(sh.issued) + [Sync], MountCommand(nbd, tmpdir)) != 0
    ensures r == Some(MountFailed) ==> sh.issued == old(sh.issued) + [Sync, MountCommand(nbd, tmpdir)]
    ensures var mounted := old(sh.issued) + [Sync, MountCommand(nbd, tmpdir)];
            var run := CopyRun(sh.exitCode, mounted, Plan(host, workdir, tmpdir, CopySubs));
            r != Some(MountFailed) ==> r == run.1 && sh.issued == mounted + run.0
    ensures r.Some? ==> r.value == MountFailed || r.value.CopyFailed?
    ensures NoReleaseFrom(sh.issued, |old(sh.issued)|)
  {
    ghost var start := sh.issued;
    var _ := sh.Run(Sync);
    var rc := sh.Run(MountCommand(nbd, tmpdir));
    ghost var mounted := start + [Sync, MountCommand(nbd, tmpdir)];
    assert sh.issued == mounted;
    if rc != 0 {
      NoReleaseMount(start, MountCommand(nbd, tmpdir));
      return Some(MountFailed);
    }
    var plan := Plan(host, workdir, tmpdir, CopySubs);
    PlanCopiesOnly(host, workdir, tmpdir, CopySubs);
    r := CopyAll(sh, plan);
    assert sh.issued == mounted + CopyRun(sh.exitCode, mounted, plan).0;
    CopyRunStopsAtFirstFailure(sh.exitCode, mounted, plan);
    CopyRunNoRelease(sh.exitCode, start, MountCommand(nbd, tmpdir), plan);
  }

  /** From the first `sync` to the tree edits (kdev.py:605-720): mount and copy as
      above, `sync` once more, then edit the tree. The first failure ends the command;
      nothing here unmounts or disconnects. */
  method MountAndInject(sh: Shell, tree: MountedTree, host: HostDirs, workdir: string, tmpdir: string,
                        nbd: string, hostname: string) returns (r: Option<Failure>)
    modifies sh, tree
    ensures r.None? <==> MountCopyInjectSucceed(sh.exitCode, old(sh.issued), old(tree.dirs), host, workdir, tmpdir, nbd)
    ensures r == Some(MountFailed) <==> sh.exitCode(old(sh.issued) + [Sync], MountCommand(nbd, tmpdir)) != 0
    ensures r == Some(MountFailed) ==> sh.issued == old(sh.issued) + [Sync, MountCommand(nbd, tmpdir)]
    ensures var mounted := old(sh.issued) + [Sync, MountCommand(nbd, tmpdir)];
            var run := CopyRun(sh.exitCode, mounted, Plan(host, workdir, tmpdir, CopySubs));
            r != Some(MountFailed) ==>
              && (run.1.Some? ==> r == run.1 && sh.issued == mounted + run.0)
              && (run.1.None? ==> sh.issued == mounted + run.0 + [Sync])
    ensures r.None? || r == Some(Raised("OSError")) ==> (tree.dirs, r.None?) == InjectTree(old(tree.dirs), hostname)
    ensures r.None? ==> Injected(tree.dirs, hostname)
    ensures r.Some? && r != Some(Raised("OSError")) ==> tree.dirs == old(tree.dirs)
    ensures r.Some? ==> r.value == MountFailed || r.value.CopyFailed? || r.value == Raised("OSError")
    ensures NoReleaseFrom(sh.issued, |old(sh.issued)|)
    ensures var mounted := old(sh.issued) + [Sync, MountCommand(nbd, tmpdir)];
            r != Some(MountFailed) && CopyRun(sh.exitCode, mounted, Plan(host, workdir, tmpdir, CopySubs)).1.None? ==>
              r == if Injectable(old(tree.dirs)) then None else Some(Raised("OSError"))
    ensures var s := MountCopyInject(sh.exitCode, old(sh.issued), old(tree.dirs), host, workdir, tmpdir, nbd, hostname);
            r == s.failure && sh.issued == s.issued && tree.dirs == s.dirs
  {
    ghost var start := sh.issued;
    ghost var dirs := tree.dirs;
    MountCopyInjectSucceeds(sh.exitCode, start, dirs, host, workdir, tmpdir, nbd, hostname);
    MountCopyInjectFailures(sh.exitCode, start, dirs, host, workdir, tmpdir, nbd, hostname);
    MountCopyInjectNoRelease(sh.exitCode, start, dirs, host, workdir, tmpdir, nbd, hostname);
    r := MountAndCopy(sh, host, workdir, tmpdir, nbd);
    if r.Some? {
      return;
    }
    ghost var copied := sh.issued;
    var _ := sh.Run(Sync);
    assert sh.issued == copied + [Sync];
    var ok := tree.Inject(hostname);
    if !ok {
      return Some(Raised("OSError"));
    }
    return None;
  }

  /** Image choice and attach (kdev.py:560-602): the image is the first URL of the
      preferred distribution, attached under the base name of that URL. The result is
      the qcow2 name and the slot. */
  method PickAndAttach(ns: Namespace, sh: Shell, table: Table, master: string, arch: string)
    returns (r: Result<(string, string), Failure>)
    modifies ns, sh
    ensures var pick := CheckQcowImage(table, master, arch);
            && (!pick.0 ==> r == Err(NoImage) && sh.issued == old(sh.issued) && ns.attrs == old(ns.attrs))
            && (pick.0 ==>
                  var a := Attach(old(ns.attrs), sh.exitCode, old(sh.issued), Basename(pick.1));
                  && sh.issued == old(sh.issued) + a.cmds
                  && ns.attrs == a.attrs
                  && r == if a.result.Ok? then Ok((Basename(pick.1), a.result.value)) else Err(a.result.error))
  {
    var pick := CheckQcowImage(table, master, arch);
    if !pick.0 {
      return Err(NoImage);
    }
    var qcow2 := Basename(pick.1);
    var attached := AttachImage(ns, sh, qcow2);
    if attached.Err? {
      return Err(attached.error);
    }
    return Ok((qcow2, attached.value));
  }

  /** The clean-up of kdev.py:722-729: a lazy umount of the partition and a disconnect
      of the slot, both return codes only reported. */
  method Release(sh: Shell, tmpdir: string, nbd: string)
    modifies sh
    ensures sh.issued == old(sh.issued) + [Umount(tmpdir, true), NbdDisconnect(DevPath(nbd))]
  {
    var _ := sh.Run(Umount(tmpdir, true));
    var _ := sh.Run(NbdDisconnect(DevPath(nbd)));
  }

  /** From the first `sync` to the end of `handle_rootfs` (kdev.py:605-730), with the
      image bound to slot `nbd`: the mount, copy and edit stage, then, only when it
      succeeds, the release of the partition and the slot. */
  method FinishBound(sh: Shell, tree: MountedTree, host: HostDirs, workdir: string, tmpdir: string,
                     nbd: string, hostname: string) returns (r: Result<string, Failure>)
    modifies sh, tree
    ensures var s := MountCopyInject(sh.exitCode, old(sh.issued), old(tree.dirs), host, workdir, tmpdir, nbd, hostname);
            && tree.dirs == s.dirs
            && r == (if s.failure.Some? then Err(s.failure.value) else Ok(nbd))
            && sh.issued == if s.failure.Some? then s.issued
                            else s.issued + [Umount(tmpdir, true), NbdDisconnect(DevPath(nbd))]
  {
    var failure := MountAndInject(sh, tree, host, workdir, tmpdir, nbd, hostname);
    if failure.Some? {
      return Err(failure.value);
    }
    Release(sh, tmpdir, nbd);
    return Ok(nbd);
  }

  /** `handle_rootfs` after its initial checks (kdev.py:559-730): pick the image, attach
      it, run the mount, copy and edit stage, then release the slot. `bound` is the slot
      the image was attached to, if it got that far. The first failure ends the command
      with nothing released; after the stage succeeds the partition is unmounted lazily
      and the slot disconnected, whatever those two commands return. */
  method ProvisionRootfs(ns: Namespace, sh: Shell, tree: MountedTree, table: Table, master: string, arch: string,
                         host: HostDirs, workdir: string, tmpdir: string)
    returns (r: Result<string, Failure>, bound: Option<string>)
    modifies ns, sh, tree
    ensures !CheckQcowImage(table, master, arch).0 ==>
              r == Err(NoImage) && bound.None? && sh.issued == old(sh.issued) && ns.attrs == old(ns.attrs)
              && tree.dirs == old(tree.dirs)
    ensures var pick := CheckQcowImage(table, master, arch);
            var a := Attach(old(ns.attrs), sh.exitCode, old(sh.issued), Basename(pick.1));
            pick.0 ==>
              && ns.attrs == a.attrs
              && (a.result.Err? ==>
                    r == Err(a.result.error) && bound.None? && sh.issued == old(sh.issued) + a.cmds
                    && tree.dirs == old(tree.dirs))
    ensures var pick := CheckQcowImage(table, master, arch);
            var a := Attach(old(ns.attrs), sh.exitCode, old(sh.issued), Basename(pick.1));
            pick.0 && a.result.Ok? ==>
              var s := MountCopyInject(sh.exitCode, old(sh.issued) + a.cmds, old(tree.dirs), host, workdir, tmpdir,
                                       a.result.value, Hostname(Basename(pick.1)));
              && bound == Some(a.result.value)
              && tree.dirs == s.dirs
              && r == (if s.failure.Some? then Err(s.failure.value) else Ok(a.result.value))
              && sh.issued == if s.failure.Some? then s.issued
                              else s.issued + [Umount(tmpdir, true), NbdDisconnect(DevPath(a.result.value))]
    ensures bound.None? ==> r.Err? && tree.dirs == old(tree.dirs)
    ensures r.Ok? ==> bound == Some(r.value)
  {
    bound := None;
    var attached := PickAndAttach(ns, sh, table, master, arch);
    assert tree.dirs == old(tree.dirs);
    if attached.Err? {
      return Err(attached.error), bound;
    }
    var qcow2 := attached.value.0;
    var nbd := attached.value.1;
    bound := Some(nbd);
    ghost var attrs := ns.attrs;
    r := FinishBound(sh, tree, host, workdir, tmpdir, nbd, Hostname(qcow2));
    assert ns.attrs == attrs;
  }
}
