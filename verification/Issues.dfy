/** Vocabulary shared by every component: instants, optional values, and the alert record. */
module Base {

  datatype Option<+T> = None | Some(value: T)

  /** An instant, or a duration, in nanoseconds. Go's zero time is `None` of an `Option<Time>`. */
  type Time = int
}

/** Keys are built by joining two strings with a slash; Cut takes one apart again. */
module Keys {

  /** What comes before the first slash. */
  function Cut(s: string): (before: string)
    ensures Slashless(before)
  {
    if s == "" || s[0] == '/' then "" else [s[0]] + Cut(s[1..])
  }

  predicate Slashless(s: string) {
    forall i :: 0 <= i < |s| ==> s[i] != '/'
  }

  lemma {:induction false} CutJoined(a: string, b: string)
    requires Slashless(a)
    ensures Cut(a + "/" + b) == a
    ensures (a + "/" + b)[|a| + 1..] == b
  {
    if a != "" {
      assert (a + "/" + b)[1..] == a[1..] + "/" + b;
      CutJoined(a[1..], b);
    }
  }
}

/** Alerts as they travel from the detectors to the receivers. */
module Issues {
  import opened Base

  const LABEL_COMPOSE_PROJECT := "com.docker.compose.project"
  const SEVERITY_WARNING := "warning"
  const SEVERITY_CRITICAL := "critical"

  /** The text of an alert. What the engine adds to it is kept as structure instead of as formatted text. */
  datatype Message =
    | Text(text: string)
    | Over(reason: string, lasted: Time, was: Message)
    | HeldBack(was: Message, lasted: Time)

  datatype Container = Container(id: string, name: string, status: string, tty: bool, labels: map<string, string>) {
    /** The value of the project label, or "". */
    function Project(): string {
      if LABEL_COMPOSE_PROJECT in labels then labels[LABEL_COMPOSE_PROJECT] else ""
    }
  }

  datatype Issue = Issue(
    detector: string,
    severity: string,
    message: Message,
    container: Container,
    resource: string,
    detectedAt: Time,
    logs: seq<string>,
    analysis: string,
    resolved: bool,
    silenced: bool,
    key: string,
    incidentID: int)

  function SeverityRank(severity: string): nat {
    if severity == SEVERITY_CRITICAL then 2
    else if severity == SEVERITY_WARNING then 1
    else 0
  }

  /** Critical is more urgent than a warning, and a warning than anything else; of the rest none is more urgent. */
  lemma CriticalIsMostUrgent(severity: string, other: string)
    requires severity !in {"critical", "warning"} && other !in {"critical", "warning"}
    ensures SeverityRank("critical") > SeverityRank("warning") > SeverityRank(severity) == SeverityRank(other)
  {
  }
}
