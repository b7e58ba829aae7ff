// The operating system as the lock-file code sees it: a file system of
// named text files, the processes that are running (and until when), the
// library's own pid and a clock in whole seconds.

module HostEnv {
  import opened Ascii

  /** How many bytes of the lock file are read before conversion. */
  const LOCK_READ_LENGTH: nat := 16

  /** The pid a lock file names: `atoi` of its first 16 characters. */
  function LockHolder(content: string): (v: int)
    ensures |content| <= LOCK_READ_LENGTH ==> v == Atoi(content)
  {
    if |content| <= LOCK_READ_LENGTH then Atoi(content) else Atoi(content[..LOCK_READ_LENGTH])
  }

  /** A lock file written with `%d` of a pid names that pid again, for
    * every pid that fits the 16 bytes read back. */
  lemma LockHolderOwnPid(pid: nat)
    requires pid < Pow10(LOCK_READ_LENGTH)
    ensures LockHolder(Decimal(pid)) == pid
  {
    DecimalLength(pid, LOCK_READ_LENGTH, Pow10(LOCK_READ_LENGTH));
    AtoiDecimal(pid, []);
    assert Decimal(pid) + [] == Decimal(pid);
  }

  class Host {
    var files: map<string, string>
    /** A process p is running while the clock is below aliveUntil[p]. */
    var aliveUntil: map<int, int>
    var pid: nat
    var now: int
    /** Paths that cannot be created or written. */
    var unwritable: set<string>
    /** Paths that cannot be removed. */
    var undeletable: set<string>

    constructor (files0: map<string, string>, alive0: map<int, int>, pid0: nat, now0: int,
                 unwritable0: set<string>, undeletable0: set<string>)
      ensures files == files0 && aliveUntil == alive0 && pid == pid0 && now == now0
      ensures unwritable == unwritable0 && undeletable == undeletable0
    {
      files := files0;
      aliveUntil := alive0;
      pid := pid0;
      now := now0;
      unwritable := unwritable0;
      undeletable := undeletable0;
    }

    /** `getsid(p)` succeeds. */
    predicate Alive(p: int)
      reads this
    {
      p in aliveUntil && now < aliveUntil[p]
    }

    /** `tban_fileExists`: the pid named by the file, 0 when there is no
      * file. */
    function FileExists(path: string): (v: int)
      reads this
      ensures path !in files ==> v == 0
      ensures path in files ==> v == LockHolder(files[path])
    {
      if path in files then LockHolder(files[path]) else 0
    }

    /** `unlink`. */
    method Unlink(path: string) returns (ok: bool)
      modifies this`files
      ensures ok <==> path in old(files) && path !in undeletable
      ensures files == if ok then old(files) - {path} else old(files)
    {
      ok := path in files && path !in undeletable;
      if ok {
        files := files - {path};
      }
    }

    /** `createLockFile`: opening for writing creates (or empties) the
      * file; writing nothing counts as a failure. */
    method CreateFile(path: string, content: string) returns (ok: bool)
      modifies this`files
      ensures ok <==> path !in unwritable && |content| > 0
      ensures files == if path in unwritable then old(files) else old(files)[path := content]
    {
      if path in unwritable {
        return false;
      }
      files := files[path := content];
      ok := |content| > 0;
    }

    /** A one-second sleep. */
    method Sleep()
      modifies this`now
      ensures now == old(now) + 1
    {
      now := now + 1;
    }
  }
}
