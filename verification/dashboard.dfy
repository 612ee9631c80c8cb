/**
 * The dashboard page's helpers: the status and metric colour classifiers,
 * and the per-action sets of servers with a start, stop or restart in
 * flight, which disable that action's button until its timer completes.
 */
module Dashboard {
  /** The colour a classifier picks; the class strings themselves are not modelled. */
  datatype Color = Green | Yellow | Red | Gray

  // ---------------------------------------------------------------------------
  // Classifiers

  /** `getStatusColor`: a switch on the status text, gray for anything else.
      Exactly the three known statuses get a colour of their own, each a
      different one; every other text, the empty one included, is gray. */
  function StatusColor(status: string): (c: Color)
    ensures c != Gray ==> StatusOf(c) == status
    ensures c == Gray <==> status !in {"active", "warning", "error"}
  {
    if status == "active" then Green
    else if status == "warning" then Yellow
    else if status == "error" then Red
    else Gray
  }

  /** The status each non-gray colour stands for. */
  function StatusOf(c: Color): string
    requires c != Gray
  {
    match c
    case Green => "active"
    case Yellow => "warning"
    case Red => "error"
  }

  lemma StatusOfRoundTrip(c: Color)
    requires c != Gray
    ensures StatusColor(StatusOf(c)) == c
  {
  }

  /** Severity order of the colours a metric can get. */
  function Rank(c: Color): nat {
    match c
    case Green => 0
    case Yellow => 1
    case Red => 2
    case Gray => 0
  }

  /** `getMetricColor`: green below 50, yellow below 75, red from 75 on. */
  function MetricColor(value: real): (c: Color)
    ensures c == Green <==> value < 50.0
    ensures c == Yellow <==> 50.0 <= value < 75.0
    ensures c == Red <==> 75.0 <= value
  {
    if value < 50.0 then Green
    else if value < 75.0 then Yellow
    else Red
  }

  /** The CPU, RAM and disk percentage text: red above 75, yellow above 50,
      green otherwise. */
  function InlineMetricColor(value: real): (c: Color)
    ensures c == Green <==> value <= 50.0
    ensures c == Yellow <==> 50.0 < value <= 75.0
    ensures c == Red <==> 75.0 < value
  {
    if value > 75.0 then Red
    else if value > 50.0 then Yellow
    else Green
  }

  /** A higher reading never gets a milder colour, in either scheme. */
  lemma MetricMonotone(v: real, w: real)
    requires v <= w
    ensures Rank(MetricColor(v)) <= Rank(MetricColor(w))
    ensures Rank(InlineMetricColor(v)) <= Rank(InlineMetricColor(w))
  {
  }

  /** The two schemes agree everywhere except exactly at 50 and 75, where the
      inline one is one step milder. */
  lemma SchemesDisagreeAtBoundaries(v: real)
    ensures InlineMetricColor(v) != MetricColor(v) <==> v == 50.0 || v == 75.0
    ensures Rank(InlineMetricColor(v)) <= Rank(MetricColor(v))
    ensures v == 50.0 ==> MetricColor(v) == Yellow && InlineMetricColor(v) == Green
    ensures v == 75.0 ==> MetricColor(v) == Red && InlineMetricColor(v) == Yellow
  {
  }

  // ---------------------------------------------------------------------------
  // Actions in flight

  datatype Action = Start | Stop | Restart

  /** A scheduled completion: it removes `id` from the set of `action`. */
  datatype Completion = Completion(action: Action, id: string)

  predicate Distinct<T(==)>(q: seq<T>) {
    forall i, j :: 0 <= i < j < |q| ==> q[i] != q[j]
  }

  /** Removing one element of a sequence without repeats removes exactly
      that value and leaves no repeats. */
  lemma RemoveDistinct<T>(q: seq<T>, k: nat)
    requires Distinct(q) && k < |q|
    ensures var r := q[..k] + q[k + 1..];
      && Distinct(r)
      && forall x :: x in r <==> x in q && x != q[k]
  {
    var r := q[..k] + q[k + 1..];
    assert forall j :: 0 <= j < |r| ==> r[j] == if j < k then q[j] else q[j + 1];
    forall x | x in q && x != q[k]
      ensures x in r
    {
      var j :| 0 <= j < |q| && q[j] == x;
      assert r[if j < k then j else j - 1] == x;
    }
  }

  class PendingActions {
    var starting: set<string>
    var stopping: set<string>
    var restarting: set<string>
    /** Completions scheduled and not yet run. */
    var timers: seq<Completion>

    function Pending(a: Action): set<string>
      reads this
    {
      match a
      case Start => starting
      case Stop => stopping
      case Restart => restarting
    }

    /** A server is in an action's set exactly while one completion of that
        action for it is scheduled. */
    ghost predicate Valid()
      reads this
    {
      && (forall c: Completion :: c in timers <==> c.id in Pending(c.action))
      && Distinct(timers)
    }

    constructor ()
      ensures Valid()
      ensures starting == {} && stopping == {} && restarting == {} && timers == []
    {
      starting, stopping, restarting := {}, {}, {};
      timers := [];
    }

    /** An action's button is disabled while the server is in its set, that
        is, while a completion of that action for it is scheduled. */
    predicate Disabled(a: Action, id: string)
      reads this
      ensures Valid() ==> (Disabled(a, id) <==> Completion(a, id) in timers)
    {
      id in Pending(a)
    }

    /** `handleStart` / `handleStop` / `handleRestart`: the id joins that
        action's set at once and a completion is scheduled; the other two
        sets are untouched. */
    method Handle(a: Action, id: string)
      modifies this
      ensures Pending(a) == old(Pending(a)) + {id}
      ensures forall b :: b != a ==> Pending(b) == old(Pending(b))
      ensures timers == old(timers) + [Completion(a, id)]
    {
      match a {
        case Start => starting := starting + {id};
        case Stop => stopping := stopping + {id};
        case Restart => restarting := restarting + {id};
      }
      timers := timers + [Completion(a, id)];
    }

    /** A click on the button: ignored while it is disabled, the handler
        otherwise. */
    method Press(a: Action, id: string) returns (accepted: bool)
      requires Valid()
      modifies this
      ensures Valid()
      ensures accepted <==> !old(Disabled(a, id))
      ensures accepted ==> Pending(a) == old(Pending(a)) + {id} && timers == old(timers) + [Completion(a, id)]
      ensures !accepted ==> Pending(a) == old(Pending(a)) && timers == old(timers)
      ensures forall b :: b != a ==> Pending(b) == old(Pending(b))
    {
      if Disabled(a, id) {
        return false;
      }
      Handle(a, id);
      accepted := true;
      assert Completion(a, id) !in old(timers);
    }

    /** The completion at position `k` runs (completions may run in any
        order): exactly its id leaves exactly its action's set. */
    method Complete(k: nat) returns (done: Completion)
      requires Valid() && k < |timers|
      modifies this
      ensures Valid()
      ensures done == old(timers)[k]
      ensures Pending(done.action) == old(Pending(done.action)) - {done.id}
      ensures forall b :: b != done.action ==> Pending(b) == old(Pending(b))
      ensures timers == old(timers)[..k] + old(timers)[k + 1..]
    {
      done := timers[k];
      RemoveDistinct(timers, k);
      timers := timers[..k] + timers[k + 1..];
      match done.action {
        case Start => starting := starting - {done.id};
        case Stop => stopping := stopping - {done.id};
        case Restart => restarting := restarting - {done.id};
      }
    }
  }

  /** Start pressed twice on server "1": the second press is ignored; once
      the completion runs the button is free and a press is accepted again. */
  method StartTwiceSession() returns (first: bool, second: bool, third: bool, busy: set<string>)
    ensures first && !second && third
    ensures busy == {"1"}
  {
    var p := new PendingActions();
    first := p.Press(Start, "1");
    second := p.Press(Start, "1");
    assert p.timers == [Completion(Start, "1")];
    var done := p.Complete(0);
    third := p.Press(Start, "1");
    busy := p.starting;
  }
}
