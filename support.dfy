/**
 * The enums and defaults that job.py, configurator.py and ansible.py import
 * from support.py, which is not part of this model. Only the members these
 * files use are declared. Status is an integer enum whose `unknown` member is
 * 0, so it is the one falsy status; Priority is ordered with `ignore` lowest.
 */
module Support {

  datatype Status = Unknown | Ok | Degraded | Error | NotApplied {

    /** The integer value of the member, which is also the order `sorted` uses. */
    function Ordinal(): nat {
      match this
      case Unknown => 0
      case Ok => 1
      case Degraded => 2
      case Error => 3
      case NotApplied => 5
    }

    /** `status.name` */
    function Name(): string {
      match this
      case Unknown => "unknown"
      case Ok => "ok"
      case Degraded => "degraded"
      case Error => "error"
      case NotApplied => "notapplied"
    }

    /** Python truthiness of the member: only `unknown` (0) is false. */
    predicate Truthy() {
      Ordinal() != 0
    }
  }

  const AllStatuses: seq<Status> := [Unknown, Ok, Degraded, Error, NotApplied]

  lemma AllStatusesSortedAndComplete()
    ensures forall i, j :: 0 <= i < j < |AllStatuses| ==> AllStatuses[i].Ordinal() < AllStatuses[j].Ordinal()
    ensures forall s: Status :: s in AllStatuses
  {
    forall s: Status ensures s in AllStatuses {
      match s
      case Unknown => assert AllStatuses[0] == s;
      case Ok => assert AllStatuses[1] == s;
      case Degraded => assert AllStatuses[2] == s;
      case Error => assert AllStatuses[3] == s;
      case NotApplied => assert AllStatuses[4] == s;
    }
  }

  lemma StatusNamesDistinct(s: Status, t: Status)
    requires s.Name() == t.Name()
    ensures s == t
  {
  }

  datatype Priority = Ignore | Required {

    function Rank(): nat {
      match this
      case Ignore => 0
      case Required => 2
    }

    /** `self > other` on the integer enum. */
    predicate Above(other: Priority) {
      Rank() > other.Rank()
    }
  }

  /** `Defaults.workflow` */
  const DefaultWorkflow: string := "deploy"

  /** `Defaults.shouldRun` */
  const DefaultShouldRun: Priority := Required
}
