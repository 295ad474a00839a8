/** External commands (kdev.py:231-274, `do_exe_cmd`) reduced to what the core looks
    at: which command ran, in which order, and its return code. The return code is
    an oracle of the commands issued before and the command itself, so the model
    assumes nothing about qemu-nbd, mount, umount or cp beyond their exit status. */
module Shell {

  datatype Cmd =
    | NbdConnect(device: string, image: string)            // qemu-nbd --connect / -c
    | NbdDisconnect(device: string)                        // qemu-nbd --disconnect / -d
    | Mount(device: string, dir: string, readWrite: bool)  // mount [-o rw]
    | Umount(dir: string, lazy: bool)                      // umount [-l]
    | Copy(sources: seq<string>, dest: string)             // /usr/bin/cp -a
    | Sync                                                 // sync

  class Shell {
    /** Every command run so far, oldest first. */
    var issued: seq<Cmd>
    /** The return code the system gives a command after the commands before it. */
    const exitCode: (seq<Cmd>, Cmd) -> int

    constructor (exitCode: (seq<Cmd>, Cmd) -> int)
      ensures issued == [] && this.exitCode == exitCode
    {
      issued := [];
      this.exitCode := exitCode;
    }

    /** `do_exe_cmd(cmd)[0]`: run one command to completion, return its exit status. */
    method Run(c: Cmd) returns (rc: int)
      modifies this
      ensures issued == old(issued) + [c]
      ensures rc == exitCode(old(issued), c)
    {
      rc := exitCode(issued, c);
      issued := issued + [c];
    }
  }

  /** Appending command sequences one after another is appending their concatenation. */
  lemma AppendSteps(a: seq<Cmd>, b: seq<Cmd>, c: seq<Cmd>)
    ensures (a + b) + c == a + (b + c)
  {
  }
}
