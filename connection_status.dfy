/**
 * The connection indicator (frontend/components/ConnectionStatus.tsx): a
 * three-state status, the time of the last check, and the badge's colour and
 * label. The health call is modelled by its outcome, the clock by its reading.
 */
module ConnectionStatus {

  datatype Status = Connected | Disconnected | Checking

  /** How the awaited health check ended: with a verdict, or by throwing. */
  datatype HealthOutcome = Answered(healthy: bool) | Threw

  datatype Colour = Green | Red | Yellow

  /** The status a finished check leaves: connected only on a healthy verdict. */
  function Settled(outcome: HealthOutcome): (s: Status)
    ensures s != Checking
    ensures s == Connected <==> outcome == Answered(true)
  {
    match outcome
    case Answered(healthy) => if healthy then Connected else Disconnected
    case Threw => Disconnected
  }

  /** `getStatusColor`: green and red for the two verdicts, yellow while checking. */
  function StatusColor(s: Status): (c: Colour)
    ensures c == Green <==> s == Connected
    ensures c == Red <==> s == Disconnected
  {
    match s
    case Connected => Green
    case Disconnected => Red
    case Checking => Yellow
  }

  /** `getStatusText`. */
  function StatusText(s: Status): (r: string)
    ensures r == "Backend Connected" <==> s == Connected
    ensures r == "Backend Disconnected" <==> s == Disconnected
    ensures r == "Checking Connection" <==> s == Checking
  {
    match s
    case Connected => "Backend Connected"
    case Disconnected => "Backend Disconnected"
    case Checking => "Checking Connection"
  }

  /** The label tells the three states apart. */
  lemma StatusTextDistinguishes(s1: Status, s2: Status)
    requires StatusText(s1) == StatusText(s2)
    ensures s1 == s2
  {
  }

  /** Once a check has finished the badge shows a verdict, never the checking colour or label. */
  lemma SettledShowsVerdict(outcome: HealthOutcome)
    ensures StatusColor(Settled(outcome)) != Yellow
    ensures StatusText(Settled(outcome)) != StatusText(Checking)
  {
  }

  class Indicator {
    var status: Status
    var lastChecked: nat

    /** The state on first render: checking, stamped with the render time. */
    constructor (now: nat)
      ensures status == Checking && lastChecked == now
    {
      status := Checking;
      lastChecked := now;
    }

    /** The first step of `checkConnection`, before the health call. */
    method BeginCheck()
      modifies this
      ensures status == Checking && lastChecked == old(lastChecked)
    {
      status := Checking;
    }

    /** The rest of `checkConnection`: the verdict (disconnected if the call threw), then the stamp. */
    method FinishCheck(outcome: HealthOutcome, now: nat)
      modifies this
      ensures status == Settled(outcome) && lastChecked == now
    {
      match outcome {
        case Answered(healthy) =>
          status := if healthy then Connected else Disconnected;
        case Threw =>
          status := Disconnected;
      }
      lastChecked := now;
    }

    /** `checkConnection`: it never ends checking, and always re-stamps. */
    method CheckConnection(outcome: HealthOutcome, now: nat)
      modifies this
      ensures status == Settled(outcome) && status != Checking
      ensures lastChecked == now
    {
      BeginCheck();
      FinishCheck(outcome, now);
    }
  }
}
