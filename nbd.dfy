/** NBD slots: the free-slot search and the sweep over `/sys/block`
    (kdev.py:277-287, 876-882) and the attach step of `handle_rootfs`
    (kdev.py:584-602). */
module Nbd {
  import opened Wrappers
  import opened Failures
  import opened Text
  import opened Shell
  import opened Config

  /** One entry of `os.listdir("/sys/block/")`: its name, whether it is a directory,
      and whether it holds a `pid` file (the device is bound to a qemu-nbd server). */
  datatype BlockEntry = BlockEntry(name: string, isDir: bool, hasPid: bool)

  /** `is_nbd_dir`: a directory whose name starts with `nbd`. */
  predicate IsNbd(e: BlockEntry)
  {
    e.isDir && "nbd" <= e.name
  }

  predicate IsBound(e: BlockEntry)
  {
    IsNbd(e) && e.hasPid
  }

  predicate IsFree(e: BlockEntry)
  {
    IsNbd(e) && !e.hasPid
  }

  /** `"/dev/" + name`, as the f-strings of the source build it. */
  function DevPath(name: string): string
  {
    "/dev/" + name
  }

  lemma DevPathInjective(a: string, b: string)
    requires DevPath(a) == DevPath(b)
    ensures a == b
  {
    assert a == DevPath(a)[5..] && b == DevPath(b)[5..];
  }

  /** The first nbd entry of `listing` without a `pid` file, or `''` when there is
      none. */
  function FirstFree(listing: seq<BlockEntry>): (name: string)
    ensures name == "" <==> forall k :: 0 <= k < |listing| ==> !IsFree(listing[k])
    ensures name != "" ==> exists k :: 0 <= k < |listing| && IsFree(listing[k]) && name == listing[k].name
                                       && forall j :: 0 <= j < k ==> !IsFree(listing[j])
  {
    if listing == [] then ""
    else if IsFree(listing[0]) then listing[0].name
    else
      FirstFree(listing[1..])
  }

  /** `find_free_nbd` (kdev.py:869-882): the first nbd entry, in listing order, without
      a `pid` file, or `''` when every nbd entry is bound. */
  method FindFreeNbd(listing: seq<BlockEntry>) returns (name: string)
    ensures name == FirstFree(listing)
    ensures name == "" <==> forall k :: 0 <= k < |listing| ==> !IsFree(listing[k])
    ensures name != "" ==> exists k :: 0 <= k < |listing| && IsFree(listing[k]) && name == listing[k].name
                                       && forall j :: 0 <= j < k ==> !IsFree(listing[j])
  {
    for k := 0 to |listing|
      invariant FirstFree(listing[k..]) == FirstFree(listing)
    {
      assert listing[k..][1..] == listing[k + 1..];
      if IsFree(listing[k]) {
        return listing[k].name;
      }
    }
    return "";
  }

  /** The disconnects `do_clean_nbd` issues for a listing: one per bound nbd entry,
      in listing order. */
  function SweepCommands(listing: seq<BlockEntry>): (r: seq<Cmd>)
    ensures |r| <= |listing|
    ensures forall c :: c in r ==> c.NbdDisconnect?
  {
    if listing == [] then []
    else
      var last := listing[|listing| - 1];
      SweepCommands(listing[..|listing| - 1]) + (if IsBound(last) then [NbdDisconnect(DevPath(last.name))] else [])
  }

  /** `do_clean_nbd` (its return codes are only printed). */
  method CleanNbd(sh: Shell, listing: seq<BlockEntry>)
    modifies sh
    ensures sh.issued == old(sh.issued) + SweepCommands(listing)
  {
    for k := 0 to |listing|
      invariant sh.issued == old(sh.issued) + SweepCommands(listing[..k])
    {
      assert listing[..k + 1][..k] == listing[..k];
      var entry := listing[k];
      if entry.isDir && "nbd" <= entry.name {
        if entry.hasPid {
          var _ := sh.Run(NbdDisconnect(DevPath(entry.name)));
        }
      }
    }
    assert listing[..|listing|] == listing;
  }

  /** How many bound entries of the listing carry `name`. */
  function BoundNamed(listing: seq<BlockEntry>, name: string): nat
  {
    if listing == [] then 0
    else
      var last := listing[|listing| - 1];
      BoundNamed(listing[..|listing| - 1], name) + (if IsBound(last) && last.name == name then 1 else 0)
  }

  /** The sweep disconnects each device exactly as often as the listing shows it bound
      (once, since a directory listing has no duplicate names), and issues nothing
      but such disconnects. */
  lemma {:induction false} SweepDisconnectsBoundOnly(listing: seq<BlockEntry>, name: string)
    ensures multiset(SweepCommands(listing))[NbdDisconnect(DevPath(name))] == BoundNamed(listing, name)
    ensures forall c :: c in SweepCommands(listing) ==>
              exists k :: 0 <= k < |listing| && IsBound(listing[k]) && c == NbdDisconnect(DevPath(listing[k].name))
  {
    if listing != [] {
      var front := listing[..|listing| - 1];
      var last := listing[|listing| - 1];
      SweepDisconnectsBoundOnly(front, name);
      if IsBound(last) && last.name != name {
        if NbdDisconnect(DevPath(last.name)) == NbdDisconnect(DevPath(name)) {
          DevPathInjective(last.name, name);
        }
      }
      forall c | c in SweepCommands(listing)
        ensures exists k :: 0 <= k < |listing| && IsBound(listing[k]) && c == NbdDisconnect(DevPath(listing[k].name))
      {
        if c in SweepCommands(front) {
          var k :| 0 <= k < |front| && IsBound(front[k]) && c == NbdDisconnect(DevPath(front[k].name));
          assert listing[k] == front[k];
        } else {
          assert IsBound(last) && c == NbdDisconnect(DevPath(last.name));
        }
      }
    }
  }

  /** With no bound device the sweep issues nothing. */
  lemma {:induction false} SweepIdleWhenNothingBound(listing: seq<BlockEntry>)
    requires forall k :: 0 <= k < |listing| ==> !IsBound(listing[k])
    ensures SweepCommands(listing) == []
  {
    if listing != [] {
      SweepIdleWhenNothingBound(listing[..|listing| - 1]);
    }
  }

  /** The probe order of `handle_rootfs`: `"nbd" + str(i) for i in range(9)`. */
  const Pool: seq<string> := ["nbd0", "nbd1", "nbd2", "nbd3", "nbd4", "nbd5", "nbd6", "nbd7", "nbd8"]

  /** Every slot of the pool is a bare name, so joining it under `/dev/` is `DevPath`. */
  lemma PoolSlotsBare(x: nat)
    requires x < |Pool|
    ensures PathJoin("/dev/", Pool[x]) == DevPath(Pool[x])
  {
    assert Pool[x] == "nbd" + [Pool[x][3]];
  }

  /** What a probe does: the slot it settles on, and the connects it issued. */
  datatype Probed = Probed(chosen: Option<string>, attempts: seq<Cmd>)

  /** Try `qemu-nbd --connect` on each slot in turn after the commands `history`,
      stopping at the first return code 0. */
  function Probe(exitCode: (seq<Cmd>, Cmd) -> int, history: seq<Cmd>, slots: seq<string>, image: string): (r: Probed)
    ensures r.chosen.Some? ==> r.chosen.value in slots
    ensures forall c :: c in r.attempts ==> c.NbdConnect? && c.image == image
    decreases |slots|
  {
    if slots == [] then Probed(None, [])
    else
      var c := NbdConnect(DevPath(slots[0]), image);
      if exitCode(history, c) == 0 then Probed(Some(slots[0]), [c])
      else
        var rest := Probe(exitCode, history + [c], slots[1..], image);
        Probed(rest.chosen, [c] + rest.attempts)
  }

  /** The probe connects slot after slot in the given order and no further than it
      must: its attempts are the connects of a prefix of the slots, ending at the slot
      it chose, or covering every slot when it chose none. */
  lemma {:induction false} ProbeFollowsSlotOrder(exitCode: (seq<Cmd>, Cmd) -> int, history: seq<Cmd>, slots: seq<string>, image: string)
    ensures var p := Probe(exitCode, history, slots, image);
            && |p.attempts| <= |slots|
            && (forall x :: 0 <= x < |p.attempts| ==> p.attempts[x] == NbdConnect(DevPath(slots[x]), image))
            && (p.chosen.Some? ==> p.attempts != [] && p.chosen.value == slots[|p.attempts| - 1])
            && (p.chosen.None? ==> |p.attempts| == |slots|)
    decreases |slots|
  {
    if slots != [] {
      var c := NbdConnect(DevPath(slots[0]), image);
      if exitCode(history, c) != 0 {
        ProbeFollowsSlotOrder(exitCode, history + [c], slots[1..], image);
      }
    }
  }

  lemma ShiftPrefix(history: seq<Cmd>, c: Cmd, rest: seq<Cmd>, x: nat)
    requires 1 <= x <= |rest|
    ensures history + ([c] + rest)[..x] == (history + [c]) + rest[..x - 1]
    ensures ([c] + rest)[x] == rest[x - 1]
  {
    assert ([c] + rest)[..x] == [c] + rest[..x - 1];
  }

  /** Among the attempts, exactly the one of the chosen slot returned 0: every earlier
      connect failed, and when no slot was chosen every connect failed. */
  lemma {:induction false} ProbeStopsAtFirstSuccess(exitCode: (seq<Cmd>, Cmd) -> int, history: seq<Cmd>, slots: seq<string>, image: string)
    ensures var p := Probe(exitCode, history, slots, image);
            forall x :: 0 <= x < |p.attempts| ==>
              (exitCode(history + p.attempts[..x], p.attempts[x]) == 0 <==> p.chosen.Some? && x == |p.attempts| - 1)
    decreases |slots|
  {
    if slots != [] {
      var c := NbdConnect(DevPath(slots[0]), image);
      var p := Probe(exitCode, history, slots, image);
      assert history + p.attempts[..0] == history;
      if exitCode(history, c) != 0 {
        var rest := Probe(exitCode, history + [c], slots[1..], image);
        assert p.attempts == [c] + rest.attempts && p.chosen == rest.chosen;
        ProbeStopsAtFirstSuccess(exitCode, history + [c], slots[1..], image);
        ProbeFollowsSlotOrder(exitCode, history + [c], slots[1..], image);
        forall x | 0 <= x < |p.attempts|
          ensures exitCode(history + p.attempts[..x], p.attempts[x]) == 0 <==> p.chosen.Some? && x == |p.attempts| - 1
        {
          if x > 0 {
            ShiftPrefix(history, c, rest.attempts, x);
          }
        }
      }
    }
  }

  /** `str(None)`: how the source prints an attribute that holds `None`. */
  function Display(o: Option<string>): string
  {
    if o.Some? then o.value else "None"
  }

  /** The probe loop over a sequence of slots: connect each in turn, and store the
      first slot that connects in `args.nbd`. */
  method ProbeSlots(ns: Namespace, sh: Shell, slots: seq<string>, image: string) returns (found: bool)
    modifies ns, sh
    ensures var p := Probe(sh.exitCode, old(sh.issued), slots, image);
            && sh.issued == old(sh.issued) + p.attempts
            && found == p.chosen.Some?
            && ns.attrs == (if p.chosen.Some? then old(ns.attrs)["nbd" := p.chosen] else old(ns.attrs))
  {
    ghost var tried: seq<Cmd> := [];
    found := false;
    var i := 0;
    while i < |slots|
      invariant 0 <= i <= |slots|
      invariant sh.issued == old(sh.issued) + tried
      invariant ns.attrs == old(ns.attrs) && !found
      invariant var rest := Probe(sh.exitCode, sh.issued, slots[i..], image);
                Probe(sh.exitCode, old(sh.issued), slots, image) == Probed(rest.chosen, tried + rest.attempts)
    {
      var c := NbdConnect(DevPath(slots[i]), image);
      assert slots[i..][1..] == slots[i + 1..];
      var rc := sh.Run(c);
      if rc == 0 {
        ns.Set("nbd", slots[i]);
        tried := tried + [c];
        found := true;
        break;
      }
      AppendSteps(tried, [c], Probe(sh.exitCode, sh.issued, slots[i + 1..], image).attempts);
      tried := tried + [c];
      i := i + 1;
    }
  }

  /** The probe loop of `handle_rootfs` (kdev.py:593-600): connect `nbd0` to `nbd8`
      in turn, and store the first slot that connects in `args.nbd`. */
  method ProbePool(ns: Namespace, sh: Shell, image: string) returns (found: bool)
    modifies ns, sh
    ensures var p := Probe(sh.exitCode, old(sh.issued), Pool, image);
            && sh.issued == old(sh.issued) + p.attempts
            && found == p.chosen.Some?
            && ns.attrs == (if p.chosen.Some? then old(ns.attrs)["nbd" := p.chosen] else old(ns.attrs))
  {
    found := ProbeSlots(ns, sh, Pool, image);
  }

  /** The preferred-slot branch (kdev.py:585-591): disconnect the slot whatever its
      state, then connect the image; a failed connect ends the command. */
  method AttachPreferred(sh: Shell, nbd: string, image: string) returns (r: Result<string, Failure>)
    modifies sh
    ensures var dev := PathJoin("/dev/", nbd);
            && sh.issued == old(sh.issued) + [NbdDisconnect(dev), NbdConnect(dev, image)]
            && r == if sh.exitCode(old(sh.issued) + [NbdDisconnect(dev)], NbdConnect(dev, image)) == 0
                    then Ok(nbd) else Err(ConnectFailed)
  {
    var dev := PathJoin("/dev/", nbd);
    var _ := sh.Run(NbdDisconnect(dev));
    var rc := sh.Run(NbdConnect(dev, image));
    if rc != 0 {
      return Err(ConnectFailed);
    }
    return Ok(nbd);
  }

  /** What the attach step leaves behind: the commands it issued, the attributes
      afterwards and the slot or the failure. */
  datatype Attached = Attached(cmds: seq<Cmd>, attrs: map<string, Option<string>>, result: Result<string, Failure>)

  /** The attach step of kdev.py:584-602 as a value: the preferred slot when `args.nbd`
      holds one, the probe of the pool otherwise. */
  function Attach(attrs: map<string, Option<string>>, exitCode: (seq<Cmd>, Cmd) -> int, history: seq<Cmd>,
                  image: string): Attached
  {
    var preferred := Get(attrs, "nbd");
    if preferred.Some? then
      var dev := PathJoin("/dev/", preferred.value);
      var rc := exitCode(history + [NbdDisconnect(dev)], NbdConnect(dev, image));
      Attached([NbdDisconnect(dev), NbdConnect(dev, image)], attrs,
               if rc == 0 then Ok(preferred.value) else Err(ConnectFailed))
    else
      var p := Probe(exitCode, history, Pool, image);
      Attached(p.attempts, if p.chosen.Some? then attrs["nbd" := p.chosen] else attrs,
               if p.chosen.Some? then Ok(p.chosen.value)
               else if "nbd" in attrs then Ok("None") else Err(NoNbdAvailable))
  }

  /** A slot the attach step returns is one whose connect, the last command it
      issued, returned 0; the only exception is the `None` a `None` attribute reads
      as when every probe failed. */
  /** A slot the probe of the pool chooses is the one whose connect, the last attempt,
      returned 0. */
  lemma ProbeChoiceConnected(exitCode: (seq<Cmd>, Cmd) -> int, history: seq<Cmd>, image: string)
    ensures var p := Probe(exitCode, history, Pool, image);
            p.chosen.Some? ==>
              && p.attempts != []
              && p.attempts[|p.attempts| - 1] == NbdConnect(PathJoin("/dev/", p.chosen.value), image)
              && exitCode(history + p.attempts[..|p.attempts| - 1], p.attempts[|p.attempts| - 1]) == 0
  {
    var p := Probe(exitCode, history, Pool, image);
    ProbeFollowsSlotOrder(exitCode, history, Pool, image);
    ProbeStopsAtFirstSuccess(exitCode, history, Pool, image);
    if p.chosen.Some? {
      var x := |p.attempts| - 1;
      var slot := p.chosen.value;
      assert slot == Pool[x];
      PoolSlotsBare(x);
      assert p.attempts[x] == NbdConnect(DevPath(slot), image);
    }
  }

  lemma {:induction false} AttachConnected(attrs: map<string, Option<string>>, exitCode: (seq<Cmd>, Cmd) -> int,
                                           history: seq<Cmd>, image: string)
    ensures var a := Attach(attrs, exitCode, history, image);
            a.result.Ok? ==>
              (a.cmds != [] && a.cmds[|a.cmds| - 1] == NbdConnect(PathJoin("/dev/", a.result.value), image)
               && exitCode(history + a.cmds[..|a.cmds| - 1], a.cmds[|a.cmds| - 1]) == 0)
              || (a.result.value == "None" && "nbd" in attrs && attrs["nbd"].None? && a.attrs == attrs)
  {
    if Get(attrs, "nbd").None? {
      var p := Probe(exitCode, history, Pool, image);
      ProbeChoiceConnected(exitCode, history, image);
      var a := Attach(attrs, exitCode, history, image);
      assert a.cmds == p.attempts;
      if p.chosen.Some? {
        assert a.result == Ok(p.chosen.value);
      } else if a.result.Ok? {
        assert "nbd" in attrs && attrs["nbd"].None? && a.attrs == attrs;
      }
    } else {
      var dev := PathJoin("/dev/", Get(attrs, "nbd").value);
      var a := Attach(attrs, exitCode, history, image);
      assert a.cmds[..1] == [NbdDisconnect(dev)];
    }
  }

  /** The attach step of `handle_rootfs` (kdev.py:584-602). With `args.nbd` set, the
      preferred slot is used. Without it, the pool is probed; when no slot connects and
      the namespace has no `nbd` attribute at all, the command ends with
      "No available nbd found!". */
  method AttachImage(ns: Namespace, sh: Shell, image: string) returns (r: Result<string, Failure>)
    modifies ns, sh
    ensures Get(old(ns.attrs), "nbd").Some? ==>
              var dev := PathJoin("/dev/", Get(old(ns.attrs), "nbd").value);
              && sh.issued == old(sh.issued) + [NbdDisconnect(dev), NbdConnect(dev, image)]
              && ns.attrs == old(ns.attrs)
              && r == if sh.exitCode(old(sh.issued) + [NbdDisconnect(dev)], NbdConnect(dev, image)) == 0
                      then Ok(Get(old(ns.attrs), "nbd").value) else Err(ConnectFailed)
    ensures Get(old(ns.attrs), "nbd").None? ==>
              var p := Probe(sh.exitCode, old(sh.issued), Pool, image);
              && sh.issued == old(sh.issued) + p.attempts
              && ns.attrs == (if p.chosen.Some? then old(ns.attrs)["nbd" := p.chosen] else old(ns.attrs))
              && r == if p.chosen.Some? then Ok(p.chosen.value)
                      else if "nbd" in old(ns.attrs) then Ok("None") else Err(NoNbdAvailable)
    ensures var a := Attach(old(ns.attrs), sh.exitCode, old(sh.issued), image);
            sh.issued == old(sh.issued) + a.cmds && ns.attrs == a.attrs && r == a.result
  {
    var preferred := Get(ns.attrs, "nbd");
    if preferred.Some? {
      r := AttachPreferred(sh, preferred.value, image);
      return;
    }
    var _ := ProbePool(ns, sh, image);
    if "nbd" !in ns.attrs {
      return Err(NoNbdAvailable);
    }
    return Ok(Display(ns.attrs["nbd"]));
  }
}
