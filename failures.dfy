/** The ways a kdev command ends early. Every constructor but `Raised` stands for
    one `perror(...)` call (print "Error: ..." and exit with status 1); `Raised` is
    a Python exception that nothing catches, which also ends the process. */
module Failures {

  datatype Failure =
    | NoImage                               // " no available image found!"
    | ConnectFailed                         // "Connect nbd failed!" (preferred slot)
    | NoNbdAvailable                        // "No available nbd found!" (probe exhausted)
    | MountFailed                           // "Mount qcow2 failed!"
    | CopyFailed(target: string)            // " copy ... failed!! <target>"
    | KernelVersionFailed                   // "Unsupported <output of make kernelversion>"
    | UnsupportedMasterVersion(master: string)
    | UnsupportedArch(arch: string)
    | NoFreeNbd                             // "no available /dev/nbd found!"
    | BindFailed(file: string, rc: int)     // "qemu-nbd bind <file> failed! retcode=<rc>"
    | ImageMountFailed(file: string, rc: int)
    | MountDirNotEmpty(dir: string)         // "<dir> is not empty! umount failed! ..."
    | Raised(exception: string)             // an uncaught Python exception
}
