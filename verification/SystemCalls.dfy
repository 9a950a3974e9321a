/** What the programs on files share: bytes, how a descriptor was opened and what a failing call reports. */
module SystemCalls {

  type Byte = b: int | 0 <= b < 256

  /** How the FIFO was opened: 11_4 blocks, 11_5 polls a non-blocking descriptor. */
  datatype Mode = Blocking | Polling

  /** What a system call reports besides its count. */
  datatype Errno = NoError | EINTR | EAGAIN | EPIPE | OtherError
}
