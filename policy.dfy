/** The closed vocabularies of the monitor's policy files, and the alert kinds it logs. */
module Policy {

  datatype Option<+T> = None | Some(value: T)

  /** The severity tier named by a file entry's event token. */
  datatype Tier = NoneTier | WarnTier | CriticalTier

  /** The policy token that names a tier. */
  function TierToken(t: Tier): string
  {
    match t
    case NoneTier => "none"
    case WarnTier => "warn"
    case CriticalTier => "critical"
  }

  /** The chain `== 'none'` / `== 'warn'` / `== 'critical'` of the handler loop:
      a token is recognised exactly when it is the token of some tier. */
  function ParseTier(token: string): (r: Option<Tier>)
    ensures r.Some? ==> TierToken(r.value) == token
    ensures forall t :: TierToken(t) == token ==> r == Some(t)
  {
    if token == "none" then Some(NoneTier)
    else if token == "warn" then Some(WarnTier)
    else if token == "critical" then Some(CriticalTier)
    else None
  }

  lemma ParseTierToken(t: Tier)
    ensures ParseTier(TierToken(t)) == Some(t)
  {
  }

  /** The critical-level log records written by the process and port scans.
      Their texts carry no target name, so an alert is only its kind. */
  datatype Alert =
    | RogueProcess      // "Rogue process found: ..."
    | MissingProcess    // "Essential process missing: ..."
    | PortOpen          // "Port ... is open!"
    | PortUnknownError  // "Unknown error with ...!"
    | PortClosed        // "Port ... is closed!"

  /** Number of occurrences of `a` in `s`. */
  function Count(a: Alert, s: seq<Alert>): nat
  {
    if s == [] then 0
    else Count(a, s[..|s| - 1]) + (if s[|s| - 1] == a then 1 else 0)
  }

  lemma {:induction false} CountAppend(a: Alert, s: seq<Alert>, u: seq<Alert>)
    ensures Count(a, s + u) == Count(a, s) + Count(a, u)
    decreases |u|
  {
    if u == [] {
      assert s + u == s;
    } else {
      assert (s + u)[..|s + u| - 1] == s + u[..|u| - 1];
      CountAppend(a, s, u[..|u| - 1]);
    }
  }

  lemma CountSingle(a: Alert, b: Alert)
    ensures Count(a, [b]) == if a == b then 1 else 0
  {
    assert [b][..0] == [];
  }

  /** `n` copies of one alert. */
  function Repeat(a: Alert, n: nat): (r: seq<Alert>)
    ensures |r| == n
    ensures forall i :: 0 <= i < n ==> r[i] == a
  {
    if n == 0 then [] else Repeat(a, n - 1) + [a]
  }

  lemma {:induction false} CountRepeat(a: Alert, b: Alert, n: nat)
    ensures Count(a, Repeat(b, n)) == if a == b then n else 0
  {
    if n > 0 {
      CountRepeat(a, b, n - 1);
      assert Repeat(b, n)[..n - 1] == Repeat(b, n - 1);
    }
  }
}
