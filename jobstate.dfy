/**
 * The life-cycle states of a MoleQueue job. The older revision spells
 * QueuedLocal, QueuedRemote and Canceled as LocalQueued, RemoteQueued and
 * Killed; the model uses one enumeration for both.
 *
 * The enumeration, its integer values and its names are declared in
 * molequeueglobal.h, which is not part of this model: the values below are
 * the ones the rest of the code relies on (Unknown is -1, None is 0, the
 * others count up in declaration order), and each name is the enumerator's
 * own spelling.
 */
module JobStates {

  datatype JobState =
    | Unknown
    | None
    | Accepted
    | QueuedLocal
    | Submitted
    | QueuedRemote
    | RunningLocal
    | RunningRemote
    | Finished
    | Canceled
    | Error

  /** The integer a JobState converts to. */
  function Ordinal(s: JobState): (n: int)
    ensures -1 <= n <= 9
    ensures n == -1 <==> s == Unknown
  {
    match s
    case Unknown => -1
    case None => 0
    case Accepted => 1
    case QueuedLocal => 2
    case Submitted => 3
    case QueuedRemote => 4
    case RunningLocal => 5
    case RunningRemote => 6
    case Finished => 7
    case Canceled => 8
    case Error => 9
  }

  /** static_cast<JobState>(n); a number outside the enumeration reads as Unknown. */
  function FromOrdinal(n: int): (s: JobState)
    ensures -1 <= n <= 9 ==> Ordinal(s) == n
    ensures !(-1 <= n <= 9) ==> s == Unknown
  {
    if n == 0 then None
    else if n == 1 then Accepted
    else if n == 2 then QueuedLocal
    else if n == 3 then Submitted
    else if n == 4 then QueuedRemote
    else if n == 5 then RunningLocal
    else if n == 6 then RunningRemote
    else if n == 7 then Finished
    else if n == 8 then Canceled
    else if n == 9 then Error
    else Unknown
  }

  lemma OrdinalRoundTrip(s: JobState)
    ensures FromOrdinal(Ordinal(s)) == s
  {
  }

  /** jobStateToString. */
  function Name(s: JobState): string {
    match s
    case Unknown => "Unknown"
    case None => "None"
    case Accepted => "Accepted"
    case QueuedLocal => "QueuedLocal"
    case Submitted => "Submitted"
    case QueuedRemote => "QueuedRemote"
    case RunningLocal => "RunningLocal"
    case RunningRemote => "RunningRemote"
    case Finished => "Finished"
    case Canceled => "Canceled"
    case Error => "Error"
  }

  /** stringToJobState: a name that is not one of the enumerators reads as Unknown. */
  function FromName(name: string): (s: JobState)
    ensures s != Unknown ==> Name(s) == name
  {
    if name == "None" then None
    else if name == "Accepted" then Accepted
    else if name == "QueuedLocal" then QueuedLocal
    else if name == "Submitted" then Submitted
    else if name == "QueuedRemote" then QueuedRemote
    else if name == "RunningLocal" then RunningLocal
    else if name == "RunningRemote" then RunningRemote
    else if name == "Finished" then Finished
    else if name == "Canceled" then Canceled
    else if name == "Error" then Error
    else Unknown
  }

  lemma NameRoundTrip(s: JobState)
    ensures FromName(Name(s)) == s
  {
  }
}
