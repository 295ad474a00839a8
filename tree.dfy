/** The filesystem of the mounted image partition, as `handle_rootfs` edits it
    (kdev.py:660-720): each directory, named by its path relative to the mount point,
    maps the names of its entries to the entries. */
module Tree {
  import opened Wrappers
  import opened Text

  /** File contents: literal text, or the fixed first-boot script of `etc/rc.local`. */
  datatype Data = Plain(text: string) | FirstBootScript

  /** A directory entry. Permission bits are reduced to the executable flag. */
  datatype Node = File(data: Data, executable: bool) | Subdir

  type Dirs = map<string, map<string, Node>>

  /** A cloud-init agent under `usr/bin`: a name starting with `cloud-`. */
  predicate IsAgent(name: string)
  {
    "cloud-" <= name
  }

  /** `"bak-" + item`, the name an agent is renamed to. */
  function Backup(name: string): string
  {
    "bak-" + name
  }

  lemma BackupNeverAgent(name: string)
    ensures !IsAgent(Backup(name))
  {
    assert Backup(name)[0] == 'b';
  }

  lemma BackupInjective()
    ensures forall a, b {:trigger Backup(a), Backup(b)} :: Backup(a) == Backup(b) ==> a == b
  {
    forall a, b | Backup(a) == Backup(b) ensures a == b {
      assert Backup(a)[4..] == a && Backup(b)[4..] == b;
    }
  }

  /** `open(dir/name, "w")` succeeds: the directory exists and the name is not a directory. */
  predicate CanWrite(d: Dirs, dir: string, name: string)
  {
    dir in d && !(name in d[dir] && d[dir][name].Subdir?)
  }

  /** The tree after writing `data` to `dir/name`. Truncating an existing file keeps
      its mode; a new file is created without the executable bit. */
  function Written(d: Dirs, dir: string, name: string, data: Data): (r: Dirs)
    requires CanWrite(d, dir, name)
  {
    var executable := name in d[dir] && d[dir][name].File? && d[dir][name].executable;
    d[dir := d[dir][name := File(data, executable)]]
  }

  /** `os.chmod(dir/name, 0o755)` on an existing file. */
  function MadeExecutable(d: Dirs, dir: string, name: string): (r: Dirs)
    requires dir in d && name in d[dir] && d[dir][name].File?
  {
    d[dir := d[dir][name := File(d[dir][name].data, true)]]
  }

  /** The `usr/bin` name the source tests with `os.path.isfile` and removes with
      `os.remove`: a literal path, not a glob pattern. */
  const AgentGlob: string := "cloud-*"

  /** The `isfile`/`remove` pair of kdev.py:671-673: it only ever removes a regular
      file whose name is literally `cloud-*`. */
  function WithoutLiteralGlob(d: Dirs): (r: Dirs)
  {
    if "usr/bin" in d && AgentGlob in d["usr/bin"] && d["usr/bin"][AgentGlob].File?
    then d["usr/bin" := d["usr/bin"] - {AgentGlob}]
    else d
  }

  /** `usr/bin` once the agents in `done` have been renamed. A rename onto an existing
      name replaces it, as `os.rename` does for files. */
  function RenamedPart(bin: map<string, Node>, done: set<string>): map<string, Node>
  {
    var kept := map n | n in bin && !(IsAgent(n) && n in done) :: bin[n];
    BackupInjective();
    var moved := map n | n in bin && IsAgent(n) && n in done :: Backup(n) := bin[n];
    kept + moved
  }

  /** The rename loop of kdev.py:675-680 over the whole directory. */
  function Renamed(bin: map<string, Node>): map<string, Node>
  {
    RenamedPart(bin, bin.Keys)
  }

  /** `k` is the backup name of an agent in `done`. */
  predicate MovedKey(bin: map<string, Node>, done: set<string>, k: string)
  {
    |k| >= 4 && k[..4] == "bak-" && k[4..] in bin && IsAgent(k[4..]) && k[4..] in done
  }

  lemma RenamedPartAt(bin: map<string, Node>, done: set<string>, k: string)
    ensures k in RenamedPart(bin, done)
            <==> MovedKey(bin, done, k) || (k in bin && !(IsAgent(k) && k in done))
    ensures MovedKey(bin, done, k) ==> RenamedPart(bin, done)[k] == bin[k[4..]]
    ensures !MovedKey(bin, done, k) && k in RenamedPart(bin, done) ==> RenamedPart(bin, done)[k] == bin[k]
  {
    BackupInjective();
    if MovedKey(bin, done, k) {
      assert k == Backup(k[4..]);
    }
    forall n | n in bin && IsAgent(n) && n in done && k == Backup(n) ensures MovedKey(bin, done, k) {
      assert k[..4] == "bak-" && k[4..] == n;
    }
  }

  lemma RenamedPartEmpty(bin: map<string, Node>)
    ensures RenamedPart(bin, {}) == bin
  {
    forall k ensures k in RenamedPart(bin, {}) <==> k in bin {
      RenamedPartAt(bin, {}, k);
    }
    forall k | k in bin ensures RenamedPart(bin, {})[k] == bin[k] {
      RenamedPartAt(bin, {}, k);
    }
  }

  /** An agent not yet renamed still sits under its own name with its own content. */
  lemma PendingAgentKept(bin: map<string, Node>, done: set<string>, item: string)
    requires item in bin && item !in done && IsAgent(item)
    ensures item in RenamedPart(bin, done) && RenamedPart(bin, done)[item] == bin[item]
  {
    RenamedPartAt(bin, done, item);
    assert item[0] == 'c';
  }

  /** One key of one iteration of the rename loop on an agent. */
  lemma RenameStepAgentAt(bin: map<string, Node>, done: set<string>, item: string, k: string)
    requires item in bin && item !in done && IsAgent(item)
    ensures item in RenamedPart(bin, done)
    ensures var expected := (RenamedPart(bin, done) - {item})[Backup(item) := RenamedPart(bin, done)[item]];
            (k in RenamedPart(bin, done + {item}) <==> k in expected)
            && (k in expected ==> RenamedPart(bin, done + {item})[k] == expected[k])
  {
    PendingAgentKept(bin, done, item);
    var done' := done + {item};
    var b := Backup(item);
    assert b[..4] == "bak-" && b[4..] == item;
    RenamedPartAt(bin, done, k);
    RenamedPartAt(bin, done', k);
    if k == item {
      assert k[0] == 'c';
    }
    if k != b && MovedKey(bin, done', k) {
      assert k == Backup(k[4..]);
    }
  }

  /** One iteration of the rename loop on an agent: it moves to its backup name with
      its entry. */
  lemma RenameStepAgent(bin: map<string, Node>, done: set<string>, item: string)
    requires item in bin && item !in done && IsAgent(item)
    ensures item in RenamedPart(bin, done)
    ensures RenamedPart(bin, done + {item})
            == (RenamedPart(bin, done) - {item})[Backup(item) := RenamedPart(bin, done)[item]]
  {
    PendingAgentKept(bin, done, item);
    var after := RenamedPart(bin, done + {item});
    var expected := (RenamedPart(bin, done) - {item})[Backup(item) := RenamedPart(bin, done)[item]];
    forall k ensures (k in after <==> k in expected) && (k in expected ==> after[k] == expected[k]) {
      RenameStepAgentAt(bin, done, item, k);
    }
  }

  /** One key of one iteration of the rename loop on any other entry. */
  lemma RenameStepOtherAt(bin: map<string, Node>, done: set<string>, item: string, k: string)
    requires item in bin && item !in done && !IsAgent(item)
    ensures k in RenamedPart(bin, done + {item}) <==> k in RenamedPart(bin, done)
    ensures k in RenamedPart(bin, done) ==> RenamedPart(bin, done + {item})[k] == RenamedPart(bin, done)[k]
  {
    RenamedPartAt(bin, done, k);
    RenamedPartAt(bin, done + {item}, k);
  }

  /** One iteration of the rename loop on any other entry: nothing changes. */
  lemma RenameStepOther(bin: map<string, Node>, done: set<string>, item: string)
    requires item in bin && item !in done && !IsAgent(item)
    ensures RenamedPart(bin, done + {item}) == RenamedPart(bin, done)
  {
    var after := RenamedPart(bin, done + {item});
    var before := RenamedPart(bin, done);
    forall k ensures (k in after <==> k in before) && (k in before ==> after[k] == before[k]) {
      RenameStepOtherAt(bin, done, item, k);
    }
  }

  /** After the rename no `usr/bin` entry is an agent. */
  lemma RenamedLeavesNoAgent(bin: map<string, Node>)
    ensures forall n :: n in Renamed(bin) ==> !IsAgent(n)
  {
    forall n | n in bin && IsAgent(n) ensures !IsAgent(Backup(n)) {
      BackupNeverAgent(n);
    }
  }

  /** Every agent reappears under its backup name with its content; every other entry
      keeps its content unless an agent's backup name replaced it; nothing else appears. */
  lemma RenamedEntries(bin: map<string, Node>)
    ensures forall n :: n in bin && IsAgent(n) ==> Backup(n) in Renamed(bin) && Renamed(bin)[Backup(n)] == bin[n]
    ensures forall n :: n in bin && !IsAgent(n) ==> n in Renamed(bin)
    ensures forall n :: n in bin && !IsAgent(n) && (forall m :: m in bin && IsAgent(m) ==> Backup(m) != n)
                        ==> Renamed(bin)[n] == bin[n]
    ensures forall k :: k in Renamed(bin) ==> (k in bin && !IsAgent(k)) || exists m :: m in bin && IsAgent(m) && k == Backup(m)
  {
    forall n | n in bin && IsAgent(n)
      ensures Backup(n) in Renamed(bin) && Renamed(bin)[Backup(n)] == bin[n]
    {
      assert Backup(n)[..4] == "bak-" && Backup(n)[4..] == n;
      RenamedPartAt(bin, bin.Keys, Backup(n));
    }
    forall n | n in bin && !IsAgent(n) ensures n in Renamed(bin) {
      RenamedPartAt(bin, bin.Keys, n);
    }
    forall n | n in bin && !IsAgent(n) && (forall m :: m in bin && IsAgent(m) ==> Backup(m) != n)
      ensures Renamed(bin)[n] == bin[n]
    {
      RenamedPartAt(bin, bin.Keys, n);
    }
    forall k | k in Renamed(bin)
      ensures (k in bin && !IsAgent(k)) || exists m :: m in bin && IsAgent(m) && k == Backup(m)
    {
      RenamedPartAt(bin, bin.Keys, k);
      if MovedKey(bin, bin.Keys, k) {
        assert k == Backup(k[4..]);
      }
    }
  }

  /** A directory without agents is left as it is. */
  lemma RenamedWithoutAgents(bin: map<string, Node>)
    requires forall n :: n in bin ==> !IsAgent(n)
    ensures Renamed(bin) == bin
  {
    forall k ensures k in Renamed(bin) <==> k in bin {
      RenamedPartAt(bin, bin.Keys, k);
    }
    forall k | k in bin ensures Renamed(bin)[k] == bin[k] {
      RenamedPartAt(bin, bin.Keys, k);
    }
  }

  /** A second pass renames nothing. */
  lemma RenamedIdempotent(bin: map<string, Node>)
    ensures Renamed(Renamed(bin)) == Renamed(bin)
  {
    RenamedLeavesNoAgent(bin);
    RenamedWithoutAgents(Renamed(bin));
  }

  /** `s.split(".")[0]`: the text before the first `.`. */
  function FirstField(s: string): (r: string)
    ensures '.' !in r
    ensures r <= s
    ensures |r| < |s| ==> s[|r|] == '.'
  {
    if s == [] || s[0] == '.' then [] else [s[0]] + FirstField(s[1..])
  }

  /** The text written to `etc/hostname`: the qcow2 file name up to its first `.`, stripped. */
  function Hostname(qcow2: string): (r: string)
    ensures '.' !in r
    ensures r == [] || (!IsSpace(r[0]) && !IsSpace(r[|r| - 1]))
  {
    Strip(FirstField(qcow2))
  }

  /** The first field of a dotted name is everything before its first dot. */
  lemma {:induction false} FirstFieldOfDotted(stem: string, rest: string)
    requires '.' !in stem
    ensures FirstField(stem + "." + rest) == stem
  {
    var name := stem + "." + rest;
    if stem == [] {
      assert name[0] == '.';
    } else {
      assert name[0] == stem[0] && stem[0] != '.';
      assert name[1..] == stem[1..] + "." + rest;
      FirstFieldOfDotted(stem[1..], rest);
      assert [stem[0]] + stem[1..] == stem;
    }
  }

  /** A qcow2 name whose stem has no dot and no surrounding spaces yields that stem. */
  lemma HostnameOfStem(stem: string, rest: string)
    requires '.' !in stem
    requires stem != [] && !IsSpace(stem[0]) && !IsSpace(stem[|stem| - 1])
    ensures Hostname(stem + "." + rest) == stem
  {
    FirstFieldOfDotted(stem, rest);
    StripTrimmed(stem);
  }

  lemma HostnameExample()
    ensures Hostname("debian-12-nocloud-amd64.qcow2") == "debian-12-nocloud-amd64"
  {
    var stem := "debian-12-nocloud-amd64";
    assert "debian-12-nocloud-amd64.qcow2" == stem + "." + "qcow2";
    assert !IsSpace(stem[0]) && !IsSpace(stem[|stem| - 1]);
    HostnameOfStem(stem, "qcow2");
  }

  /** The first edits of kdev.py:660-670: write the hostname, then the cloud-init
      marker when `etc/cloud` exists. */
  function MarkHost(d: Dirs, hostname: string): (Dirs, bool)
  {
    if !CanWrite(d, "etc", "hostname") then (d, false)
    else
      var d1 := Written(d, "etc", "hostname", Plain(hostname));
      if "etc/cloud" !in d1 then (d1, true)
      else if !CanWrite(d1, "etc/cloud", "cloud-init.disabled") then (d1, false)
      else (Written(d1, "etc/cloud", "cloud-init.disabled", Plain("")), true)
  }

  /** kdev.py:671-680: the literal removal, then the rename of every agent in `usr/bin`;
      listing a missing `usr/bin` raises. */
  function RenameBin(d: Dirs): (Dirs, bool)
  {
    var d1 := WithoutLiteralGlob(d);
    if "usr/bin" !in d1 then (d1, false)
    else (d1["usr/bin" := Renamed(d1["usr/bin"])], true)
  }

  /** kdev.py:683-720: the empty `firstboot` marker, the `rc.local` script, and its mode. */
  function FinishEtc(d: Dirs): (Dirs, bool)
  {
    if !CanWrite(d, "etc", "firstboot") then (d, false)
    else
      var d1 := Written(d, "etc", "firstboot", Plain(""));
      if !CanWrite(d1, "etc", "rc.local") then (d1, false)
      else (MadeExecutable(Written(d1, "etc", "rc.local", FirstBootScript), "etc", "rc.local"), true)
  }

  /** The edits of kdev.py:660-720 in source order: the tree they leave and whether they
      all ran. The first one that raises (a missing directory, a directory where a file
      is written, no `usr/bin` to list) stops the rest. */
  function InjectTree(d: Dirs, hostname: string): (Dirs, bool)
  {
    var m := MarkHost(d, hostname);
    if !m.1 then m
    else
      var b := RenameBin(m.0);
      if !b.1 then b else FinishEtc(b.0)
  }

  /** `name` in directory `dir` of `d` exists and is a directory. */
  predicate IsSubdir(d: Dirs, dir: string, name: string)
    requires dir in d
  {
    name in d[dir] && d[dir][name].Subdir?
  }

  /** The hostname stage keeps every directory, touches only `etc` and `etc/cloud`,
      and runs through exactly when neither file it writes is a directory. */
  lemma MarkHostFacts(d: Dirs, hostname: string)
    ensures var m := MarkHost(d, hostname);
            && m.0.Keys == d.Keys
            && (m.1 <==> "etc" in d && !IsSubdir(d, "etc", "hostname")
                         && ("etc/cloud" in d ==> !IsSubdir(d, "etc/cloud", "cloud-init.disabled")))
            && (forall p :: p in d && p != "etc" && p != "etc/cloud" ==> m.0[p] == d[p])
            && (m.1 ==> m.0["etc"].Keys == d["etc"].Keys + {"hostname"}
                        && m.0["etc"]["hostname"].File? && m.0["etc"]["hostname"].data == Plain(hostname)
                        && (forall n :: n in d["etc"] && n != "hostname" ==> m.0["etc"][n] == d["etc"][n]))
            && (m.1 && "etc/cloud" in d ==>
                  m.0["etc/cloud"].Keys == d["etc/cloud"].Keys + {"cloud-init.disabled"}
                  && m.0["etc/cloud"]["cloud-init.disabled"].File?
                  && m.0["etc/cloud"]["cloud-init.disabled"].data == Plain(""))
  {
    if CanWrite(d, "etc", "hostname") {
      var d1 := Written(d, "etc", "hostname", Plain(hostname));
      assert d1.Keys == d.Keys;
      if "etc/cloud" in d {
        assert d1["etc/cloud"] == d["etc/cloud"];
      }
    }
  }

  /** The rename stage keeps every directory, touches only `usr/bin`, and runs through
      exactly when `usr/bin` exists. */
  lemma RenameBinFacts(d: Dirs)
    ensures var b := RenameBin(d);
            && b.0.Keys == d.Keys
            && (b.1 <==> "usr/bin" in d)
            && (forall p :: p in d && p != "usr/bin" ==> b.0[p] == d[p])
            && (b.1 ==> b.0["usr/bin"] == Renamed(WithoutLiteralGlob(d)["usr/bin"]))
  {
  }

  /** The last stage keeps every directory, touches only `etc`, and runs through exactly
      when neither `firstboot` nor `rc.local` is a directory. */
  lemma FinishEtcFacts(d: Dirs)
    ensures var f := FinishEtc(d);
            && f.0.Keys == d.Keys
            && (f.1 <==> "etc" in d && !IsSubdir(d, "etc", "firstboot") && !IsSubdir(d, "etc", "rc.local"))
            && (forall p :: p in d && p != "etc" ==> f.0[p] == d[p])
            && (f.1 ==> f.0["etc"].Keys == d["etc"].Keys + {"firstboot", "rc.local"}
                        && f.0["etc"]["firstboot"].File? && f.0["etc"]["firstboot"].data == Plain("")
                        && f.0["etc"]["rc.local"] == File(FirstBootScript, true)
                        && (forall n :: n in d["etc"] && n != "firstboot" && n != "rc.local" ==> f.0["etc"][n] == d["etc"][n]))
  {
    if CanWrite(d, "etc", "firstboot") {
      var d1 := Written(d, "etc", "firstboot", Plain(""));
      assert d1.Keys == d.Keys;
      assert IsSubdir(d1, "etc", "rc.local") == IsSubdir(d, "etc", "rc.local");
    }
  }

  /** Every edit of `InjectTree` can be carried out: `etc` and `usr/bin` exist and none of
      the files written is a directory. */
  predicate Injectable(d: Dirs)
  {
    "etc" in d && "usr/bin" in d
    && !IsSubdir(d, "etc", "hostname") && !IsSubdir(d, "etc", "firstboot") && !IsSubdir(d, "etc", "rc.local")
    && ("etc/cloud" in d ==> !IsSubdir(d, "etc/cloud", "cloud-init.disabled"))
  }

  /** The edits all run exactly when the tree is `Injectable`. */
  lemma InjectSucceedsIff(d: Dirs, hostname: string)
    ensures InjectTree(d, hostname).1 <==> Injectable(d)
  {
    var m := MarkHost(d, hostname);
    MarkHostFacts(d, hostname);
    if m.1 {
      var b := RenameBin(m.0);
      RenameBinFacts(m.0);
      FinishEtcFacts(b.0);
      if b.1 {
        var e0, e1 := d["etc"], m.0["etc"];
        assert b.0["etc"] == e1;
        assert "firstboot" in e1 <==> "firstboot" in e0;
        assert "firstboot" in e0 ==> e1["firstboot"] == e0["firstboot"];
        assert "rc.local" in e1 <==> "rc.local" in e0;
        assert "rc.local" in e0 ==> e1["rc.local"] == e0["rc.local"];
      }
    }
  }

  /** What a completed injection leaves in `etc`: the hostname, the empty `firstboot`
      marker and an executable `rc.local` holding the first-boot script, every other
      entry as it was. */
  lemma InjectEtc(d: Dirs, hostname: string)
    requires InjectTree(d, hostname).1
    ensures var t := InjectTree(d, hostname).0;
            "etc" in t
            && t["etc"].Keys == d["etc"].Keys + {"hostname", "firstboot", "rc.local"}
            && t["etc"]["hostname"].File? && t["etc"]["hostname"].data == Plain(hostname)
            && t["etc"]["firstboot"].File? && t["etc"]["firstboot"].data == Plain("")
            && t["etc"]["rc.local"] == File(FirstBootScript, true)
            && (forall n :: n in d["etc"] && n !in {"hostname", "firstboot", "rc.local"} ==> t["etc"][n] == d["etc"][n])
  {
    var m := MarkHost(d, hostname);
    var b := RenameBin(m.0);
    MarkHostFacts(d, hostname);
    RenameBinFacts(m.0);
    FinishEtcFacts(b.0);
    EtcCompose(d["etc"], m.0["etc"], FinishEtc(b.0).0["etc"], hostname);
  }

  /** The hostname write followed by the two first-boot writes, on one `etc` listing. */
  lemma EtcCompose(e0: map<string, Node>, e1: map<string, Node>, e2: map<string, Node>, hostname: string)
    requires e1.Keys == e0.Keys + {"hostname"}
    requires e1["hostname"].File? && e1["hostname"].data == Plain(hostname)
    requires forall n :: n in e0 && n != "hostname" ==> e1[n] == e0[n]
    requires e2.Keys == e1.Keys + {"firstboot", "rc.local"}
    requires e2["firstboot"].File? && e2["firstboot"].data == Plain("")
    requires e2["rc.local"] == File(FirstBootScript, true)
    requires forall n :: n in e1 && n != "firstboot" && n != "rc.local" ==> e2[n] == e1[n]
    ensures e2.Keys == e0.Keys + {"hostname", "firstboot", "rc.local"}
    ensures e2["hostname"].File? && e2["hostname"].data == Plain(hostname)
    ensures forall n :: n in e0 && n !in {"hostname", "firstboot", "rc.local"} ==> e2[n] == e0[n]
  {
  }

  /** cloud-init is disabled by a marker file exactly when its configuration directory
      `etc/cloud` exists; the directory is never created. */
  lemma InjectCloudMarker(d: Dirs, hostname: string)
    requires InjectTree(d, hostname).1
    ensures var t := InjectTree(d, hostname).0;
            ("etc/cloud" in t <==> "etc/cloud" in d)
            && ("etc/cloud" in d ==>
                  t["etc/cloud"].Keys == d["etc/cloud"].Keys + {"cloud-init.disabled"}
                  && t["etc/cloud"]["cloud-init.disabled"].File?
                  && t["etc/cloud"]["cloud-init.disabled"].data == Plain(""))
  {
    var m := MarkHost(d, hostname);
    MarkHostFacts(d, hostname);
    var b := RenameBin(m.0);
    RenameBinFacts(m.0);
    FinishEtcFacts(b.0);
  }

  /** A completed injection neither creates nor removes a directory. */
  lemma InjectKeepsDirSet(d: Dirs, hostname: string)
    requires InjectTree(d, hostname).1
    ensures InjectTree(d, hostname).0.Keys == d.Keys
  {
    var m := MarkHost(d, hostname);
    MarkHostFacts(d, hostname);
    var b := RenameBin(m.0);
    RenameBinFacts(m.0);
    FinishEtcFacts(b.0);
  }

  /** A completed injection touches no directory other than `etc`, `etc/cloud` and
      `usr/bin`. */
  lemma InjectLeavesOthers(d: Dirs, hostname: string)
    requires InjectTree(d, hostname).1
    ensures var t := InjectTree(d, hostname).0;
            forall p :: p in d && p != "etc" && p != "etc/cloud" && p != "usr/bin" ==> p in t && t[p] == d[p]
  {
    var m := MarkHost(d, hostname);
    MarkHostFacts(d, hostname);
    var b := RenameBin(m.0);
    RenameBinFacts(m.0);
    FinishEtcFacts(b.0);
  }

  /** A completed injection replaces `usr/bin` by its renamed self, after the literal
      removal. */
  lemma InjectRenames(d: Dirs, hostname: string)
    requires Injectable(d)
    ensures InjectTree(d, hostname).1
    ensures InjectTree(d, hostname).0["usr/bin"] == Renamed(WithoutLiteralGlob(d)["usr/bin"])
  {
    InjectSucceedsIff(d, hostname);
    var m := MarkHost(d, hostname);
    MarkHostFacts(d, hostname);
    var b := RenameBin(m.0);
    RenameBinFacts(m.0);
    FinishEtcFacts(b.0);
    assert WithoutLiteralGlob(m.0)["usr/bin"] == WithoutLiteralGlob(d)["usr/bin"];
  }

  /** After a completed injection no agent is left in `usr/bin`, and each agent other than
      a regular file literally named `cloud-*` survives under its backup name. */
  lemma InjectUsrBin(d: Dirs, hostname: string)
    requires Injectable(d)
    ensures InjectTree(d, hostname).1
    ensures var t := InjectTree(d, hostname).0;
            (forall n :: n in t["usr/bin"] ==> !IsAgent(n))
            && (forall n :: n in d["usr/bin"] && IsAgent(n) && !(n == AgentGlob && d["usr/bin"][n].File?)
                  ==> Backup(n) in t["usr/bin"] && t["usr/bin"][Backup(n)] == d["usr/bin"][n])
  {
    InjectRenames(d, hostname);
    var bin := WithoutLiteralGlob(d)["usr/bin"];
    RenamedLeavesNoAgent(bin);
    RenamedEntries(bin);
    forall n | n in d["usr/bin"] && IsAgent(n) && !(n == AgentGlob && d["usr/bin"][n].File?)
      ensures n in bin && bin[n] == d["usr/bin"][n]
    {
    }
  }

  /** Rewriting a file with the content it already holds changes nothing. */
  lemma WrittenUnchanged(d: Dirs, dir: string, name: string, data: Data)
    requires dir in d && name in d[dir] && d[dir][name].File? && d[dir][name].data == data
    ensures CanWrite(d, dir, name) && Written(d, dir, name, data) == d
  {
    assert d[dir][name := d[dir][name]] == d[dir];
  }

  /** `path` is listed in the tree exactly when `parent` lists `name` as a
      subdirectory: the two records of one directory agree. */
  predicate NestedAs(d: Dirs, parent: string, name: string, path: string)
  {
    path in d <==> parent in d && IsSubdir(d, parent, name)
  }

  /** The two directories the edits look up by path, `etc/cloud` and `usr/bin`, are
      listed in the tree exactly when their parents hold them. */
  predicate WellFormed(d: Dirs)
  {
    NestedAs(d, "etc", "cloud", "etc/cloud") && NestedAs(d, "usr", "bin", "usr/bin")
  }

  /** A step that keeps the directory set, the `cloud` entry of `etc` and all of `usr`
      keeps the tree well formed. */
  lemma NestingKept(d: Dirs, e: Dirs)
    requires WellFormed(d)
    requires e.Keys == d.Keys
    requires "etc" in d ==> ("cloud" in e["etc"] <==> "cloud" in d["etc"])
                            && ("cloud" in d["etc"] ==> e["etc"]["cloud"] == d["etc"]["cloud"])
    requires "usr" in d ==> e["usr"] == d["usr"]
    ensures WellFormed(e)
  {
  }

  lemma MarkHostKeepsWellFormed(d: Dirs, hostname: string)
    requires WellFormed(d)
    ensures WellFormed(MarkHost(d, hostname).0)
  {
    if CanWrite(d, "etc", "hostname") {
      var d1 := Written(d, "etc", "hostname", Plain(hostname));
      NestingKept(d, d1);
      if "etc/cloud" in d1 && CanWrite(d1, "etc/cloud", "cloud-init.disabled") {
        NestingKept(d1, Written(d1, "etc/cloud", "cloud-init.disabled", Plain("")));
      }
    }
  }

  lemma RenameBinKeepsWellFormed(d: Dirs)
    requires WellFormed(d)
    ensures WellFormed(RenameBin(d).0)
  {
    var d1 := WithoutLiteralGlob(d);
    NestingKept(d, d1);
    if "usr/bin" in d1 {
      NestingKept(d1, d1["usr/bin" := Renamed(d1["usr/bin"])]);
    }
  }

  lemma FinishEtcKeepsWellFormed(d: Dirs)
    requires WellFormed(d)
    ensures WellFormed(FinishEtc(d).0)
  {
    if CanWrite(d, "etc", "firstboot") {
      var d1 := Written(d, "etc", "firstboot", Plain(""));
      NestingKept(d, d1);
      if CanWrite(d1, "etc", "rc.local") {
        var d2 := Written(d1, "etc", "rc.local", FirstBootScript);
        NestingKept(d1, d2);
        NestingKept(d2, MadeExecutable(d2, "etc", "rc.local"));
      }
    }
  }

  /** The edits keep the tree well formed, whether they all run or one of them raises:
      they write files, remove a file and rename inside `usr/bin`, and never add or
      remove a directory. */
  lemma InjectKeepsWellFormed(d: Dirs, hostname: string)
    requires WellFormed(d)
    ensures WellFormed(InjectTree(d, hostname).0)
  {
    var m := MarkHost(d, hostname);
    MarkHostKeepsWellFormed(d, hostname);
    RenameBinKeepsWellFormed(m.0);
    FinishEtcKeepsWellFormed(RenameBin(m.0).0);
  }

  /** The shape a completed injection leaves behind. */
  predicate Injected(t: Dirs, hostname: string)
  {
    "etc" in t && "usr/bin" in t
    && "hostname" in t["etc"] && t["etc"]["hostname"].File? && t["etc"]["hostname"].data == Plain(hostname)
    && "firstboot" in t["etc"] && t["etc"]["firstboot"].File? && t["etc"]["firstboot"].data == Plain("")
    && "rc.local" in t["etc"] && t["etc"]["rc.local"] == File(FirstBootScript, true)
    && ("etc/cloud" in t ==>
          "cloud-init.disabled" in t["etc/cloud"] && t["etc/cloud"]["cloud-init.disabled"].File?
          && t["etc/cloud"]["cloud-init.disabled"].data == Plain(""))
    && (forall n :: n in t["usr/bin"] ==> !IsAgent(n))
  }

  /** An injected tree is a fixed point of the injection. */
  lemma InjectFixpoint(t: Dirs, hostname: string)
    requires Injected(t, hostname)
    ensures InjectTree(t, hostname) == (t, true)
  {
    assert MarkHost(t, hostname) == (t, true) by {
      WrittenUnchanged(t, "etc", "hostname", Plain(hostname));
      if "etc/cloud" in t {
        WrittenUnchanged(t, "etc/cloud", "cloud-init.disabled", Plain(""));
      }
    }
    assert RenameBin(t) == (t, true) by {
      assert IsAgent(AgentGlob);
      assert WithoutLiteralGlob(t) == t;
      RenamedWithoutAgents(t["usr/bin"]);
      assert t["usr/bin" := Renamed(t["usr/bin"])] == t;
    }
    assert FinishEtc(t) == (t, true) by {
      WrittenUnchanged(t, "etc", "firstboot", Plain(""));
      WrittenUnchanged(t, "etc", "rc.local", FirstBootScript);
      assert t["etc"]["rc.local" := File(FirstBootScript, true)] == t["etc"];
    }
  }

  /** Injecting an already injected tree changes nothing. */
  lemma InjectIdempotent(d: Dirs, hostname: string)
    requires InjectTree(d, hostname).1
    ensures var t := InjectTree(d, hostname).0;
            Injected(t, hostname) && InjectTree(t, hostname) == (t, true)
  {
    var t := InjectTree(d, hostname).0;
    InjectEtc(d, hostname);
    InjectCloudMarker(d, hostname);
    InjectSucceedsIff(d, hostname);
    InjectUsrBin(d, hostname);
    assert Injected(t, hostname);
    InjectFixpoint(t, hostname);
  }

  lemma UpdateTwice(d: Dirs, dir: string, first: map<string, Node>, second: map<string, Node>)
    ensures d[dir := first][dir := second] == d[dir := second]
  {
  }

  lemma UpdateSame(d: Dirs, dir: string)
    requires dir in d
    ensures d[dir := d[dir]] == d
  {
  }

  class MountedTree {
    var dirs: Dirs

    constructor (dirs: Dirs)
      ensures this.dirs == dirs
    {
      this.dirs := dirs;
    }

    /** `with open(dir/name, "w") as f: f.write(...)`; `false` where Python raises. */
    method WriteFile(dir: string, name: string, data: Data) returns (ok: bool)
      modifies this
      ensures ok == CanWrite(old(dirs), dir, name)
      ensures dirs == if ok then Written(old(dirs), dir, name, data) else old(dirs)
    {
      if dir !in dirs || (name in dirs[dir] && dirs[dir][name].Subdir?) {
        return false;
      }
      var executable := name in dirs[dir] && dirs[dir][name].File? && dirs[dir][name].executable;
      dirs := dirs[dir := dirs[dir][name := File(data, executable)]];
      return true;
    }

    /** `os.chmod(dir/name, 0o755)`; `false` where Python raises. */
    method MakeExecutable(dir: string, name: string) returns (ok: bool)
      modifies this
      ensures ok == (dir in old(dirs) && name in old(dirs)[dir] && old(dirs)[dir][name].File?)
      ensures dirs == if ok then MadeExecutable(old(dirs), dir, name) else old(dirs)
    {
      if dir in dirs && name in dirs[dir] && dirs[dir][name].File? {
        dirs := dirs[dir := dirs[dir][name := File(dirs[dir][name].data, true)]];
        return true;
      }
      return false;
    }

    /** The literal `isfile`/`remove` of kdev.py:671-673. */
    method RemoveLiteralGlob()
      modifies this
      ensures dirs == WithoutLiteralGlob(old(dirs))
    {
      if "usr/bin" in dirs && AgentGlob in dirs["usr/bin"] && dirs["usr/bin"][AgentGlob].File? {
        dirs := dirs["usr/bin" := dirs["usr/bin"] - {AgentGlob}];
      }
    }

    /** The rename loop of kdev.py:675-680 over a snapshot of `os.listdir("usr/bin")`,
        taken in an arbitrary order; `false` where the listing raises. */
    method RenameAgents() returns (ok: bool)
      modifies this
      ensures ok == ("usr/bin" in old(dirs))
      ensures dirs == if ok then old(dirs)["usr/bin" := Renamed(old(dirs)["usr/bin"])] else old(dirs)
    {
      if "usr/bin" !in dirs {
        return false;
      }
      ghost var bin0 := dirs["usr/bin"];
      ghost var done: set<string> := {};
      RenamedPartEmpty(bin0);
      UpdateSame(dirs, "usr/bin");
      var pending := dirs["usr/bin"].Keys;
      while pending != {}
        invariant pending + done == bin0.Keys && pending !! done
        invariant dirs == old(dirs)["usr/bin" := RenamedPart(bin0, done)]
        decreases pending
      {
        var item :| item in pending;
        var bin := dirs["usr/bin"];
        if "cloud-" <= item {
          RenameStepAgent(bin0, done, item);
          bin := (bin - {item})[Backup(item) := bin[item]];
        } else {
          RenameStepOther(bin0, done, item);
        }
        UpdateTwice(old(dirs), "usr/bin", RenamedPart(bin0, done), bin);
        dirs := dirs["usr/bin" := bin];
        pending := pending - {item};
        done := done + {item};
      }
      return true;
    }

    /** The edits of `handle_rootfs` to the mounted tree, stopping at the first that raises. */
    method Inject(hostname: string) returns (ok: bool)
      modifies this
      ensures (dirs, ok) == InjectTree(old(dirs), hostname)
    {
      ok := WriteFile("etc", "hostname", Plain(hostname));
      if !ok {
        return;
      }
      if "etc/cloud" in dirs {
        ok := WriteFile("etc/cloud", "cloud-init.disabled", Plain(""));
        if !ok {
          return;
        }
      }
      RemoveLiteralGlob();
      ok := RenameAgents();
      if !ok {
        return;
      }
      ok := WriteFile("etc", "firstboot", Plain(""));
      if !ok {
        return;
      }
      ok := WriteFile("etc", "rc.local", FirstBootScript);
      if !ok {
        return;
      }
      ok := MakeExecutable("etc", "rc.local");
    }
  }
}
