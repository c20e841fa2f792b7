/** Linux error numbers the driver returns, negated at the return site as in
    the kernel convention (values of asm-generic/errno-base.h and errno.h). */
module Errno {
  const EIO: int := 5
  const EFAULT: int := 14
  const EBUSY: int := 16
  const ENODEV: int := 19
  const EINVAL: int := 22
  const EINPROGRESS: int := 115
}

module Wrappers {
  /** A value that may be absent; used where the driver leaves a result undefined. */
  datatype Option<T> = None | Some(value: T)
}
