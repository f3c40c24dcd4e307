/** Small types shared by the other modules. */
module Basics {

  datatype Option<+T> = None | Some(value: T)

  /** How a call into the source's code ends: normally, or by raising. */
  datatype Outcome = Returned | Raised

  /** A hypervisor host; its number stands for CEPH_LOCK_HOST. */
  type Host = nat

  /** The disks of a VM. */
  datatype Disk = Root | Swap | Tmp | CloudInit
}
