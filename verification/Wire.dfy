/** Vocabulary shared by the models of silcd: optional values, sequences without
    repetition, connection and server kinds, and the message types of the backup
    resuming protocol. */
module Wire {

  datatype Option<+T> = None | Some(value: T)

  /** What kind of peer a packet stream leads to. */
  datatype ConnType = ConnUnknown | ConnClient | ConnServer | ConnRouter

  /** `server->server_type`. */
  datatype ServerType = NormalServer | Router | BackupRouter

  /** First byte of a RESUME_ROUTER packet. */
  datatype ResumeKind = Start | Connected | Ending | Resumed | Replaced

  /** A resuming message as put on the wire: the session travels in one byte. */
  datatype ResumeMessage = ResumeMessage(kind: ResumeKind, number: nat)

  /** Conversion of an `int` to the `SilcUInt8` that carries a session number. */
  function Byte(n: nat): (b: nat)
    ensures b < 256
    ensures n < 256 ==> b == n
  {
    n % 256
  }

  predicate NoRepeats<T(==)>(s: seq<T>) {
    forall i, j :: 0 <= i < j < |s| ==> s[i] != s[j]
  }

  function Elems<T>(s: seq<T>): set<T> {
    set x | x in s
  }

  /** The sequence without its element at `k`. */
  function WithoutAt<T>(s: seq<T>, k: nat): seq<T>
    requires k < |s|
  {
    s[..k] + s[k + 1..]
  }
}
