/** An attempt through the session layer is one request of the interleaved token protocol, with nobody else around
    (pkg/upstream/transport/sessionauth.go). */
module Attempts {
  import CircuitBreakers
  import opened SessionAuths
  import Retries
  import opened Chains

  /** The steps can be taken one after the other. */
  predicate Runs(y: System, steps: seq<Step>, early: int)
    decreases |steps|
  {
    steps == [] || (Enabled(y, steps[0]) && Runs(Next(y, steps[0], early), steps[1..], early))
  }

  function Final(y: System, steps: seq<Step>, early: int): System
    requires Runs(y, steps, early)
    decreases |steps|
  {
    if steps == [] then y else Final(Next(y, steps[0], early), steps[1..], early)
  }

  /** The tokens the answered sends went out with. */
  function Carried(y: System, steps: seq<Step>, early: int): seq<string>
    requires Runs(y, steps, early)
    decreases |steps|
  {
    if steps == [] then []
    else
      var rest := Carried(Next(y, steps[0], early), steps[1..], early);
      match steps[0]
      case Answer(id, _, _) => [y.reqs[id].token] + rest
      case AnswerAgain(id) => [y.reqs[id].token] + rest
      case Acquire(_, _) => rest
      case Reacquire(_, _) => rest
  }

  lemma FirstOf(y: System, t: Step, rest: seq<Step>, early: int)
    requires Enabled(y, t) && Runs(Next(y, t, early), rest, early)
    ensures Runs(y, [t] + rest, early)
    ensures Final(y, [t] + rest, early) == Final(Next(y, t, early), rest, early)
    ensures Carried(y, [t] + rest, early) ==
            (match t
             case Answer(id, _, _) => [y.reqs[id].token]
             case AnswerAgain(id) => [y.reqs[id].token]
             case Acquire(_, _) => []
             case Reacquire(_, _) => []) + Carried(Next(y, t, early), rest, early)
  {
    assert ([t] + rest)[1..] == rest;
  }

  predicate ReadableBody(s: Setup, y: Client) {
    !Unreadable(s, y, 0) && !Unreadable(s, y, 1)
  }

  /** What is left to do once a 401 has come back. */
  lemma AfterRejection(s: Setup, y0: System, id: nat, m: Moment) returns (steps: seq<Step>)
    requires id in y0.reqs && y0.reqs[id].Rejected? && y0.reqs[id].generation == y0.shared.generation > 0
    ensures Runs(y0, steps, s.v.early)
    ensures var z := Final(y0, steps, s.v.early);
            && z.shared == SharedAfter(y0.shared, y0.shared.generation, m, s.v.early)
            && z.reqs == y0.reqs[id := Finished] && |z.calls| == |y0.calls| + 1
    ensures Carried(y0, steps, s.v.early) == match m.auth case Granted(token, _) => [token] case Refused(_) => []
  {
    var t := Reacquire(id, m);
    var y1 := Next(y0, t, s.v.early);
    if m.auth.Granted? {
      FirstOf(y1, AnswerAgain(id), [], s.v.early);
      FirstOf(y0, t, [AnswerAgain(id)] + [], s.v.early);
      steps := [t] + ([AnswerAgain(id)] + []);
    } else {
      FirstOf(y0, t, [], s.v.early);
      steps := [t] + [];
    }
  }

  /** What is left to do once the first token is there. */
  lemma AfterToken(s: Setup, y0: System, id: nat, w: CircuitBreakers.Reply, m: Moment) returns (steps: seq<Step>)
    requires id in y0.reqs && y0.reqs[id].Sending? && y0.reqs[id].generation == y0.shared.generation > 0
    ensures Runs(y0, steps, s.v.early)
    ensures var z := Final(y0, steps, s.v.early);
            var again := w == CircuitBreakers.Response(401) && s.body != Retries.OneShot;
            && z.shared == (if again then SharedAfter(y0.shared, y0.shared.generation, m, s.v.early) else y0.shared)
            && z.reqs == y0.reqs[id := Finished] && |z.calls| == |y0.calls| + (if again then 1 else 0)
            && Carried(y0, steps, s.v.early) == [y0.reqs[id].token] +
                 if again && m.auth.Granted? then [m.auth.token] else []
  {
    var t := Answer(id, w == CircuitBreakers.Response(401), s.body != Retries.OneShot);
    var y1 := Next(y0, t, s.v.early);
    var rest := [];
    if w == CircuitBreakers.Response(401) && s.body != Retries.OneShot {
      rest := AfterRejection(s, y1, id, m);
    }
    FirstOf(y0, t, rest, s.v.early);
    steps := [t] + rest;
  }

  /** From any state of the protocol with the same cache: a fresh request takes the attempt's course, ends with the same
      cache, costs as many Authenticate calls, and goes out with the same tokens. */
  lemma AttemptIsProtocol(s: Setup, y: Client, y0: System, id: nat) returns (steps: seq<Step>)
    requires Sane(y) && ReadableBody(s, y) && y0.shared == y.net.shared && id !in y0.reqs
    ensures Runs(y0, steps, s.v.early)
    ensures var (z, r), p := SessionOver(s)(y), Final(y0, steps, s.v.early);
            && p.shared == z.net.shared && p.reqs == y0.reqs[id := Finished]
            && |p.calls| - |y0.calls| == z.net.auths - y.net.auths
            && z.net.sent == y.net.sent + Carried(y0, steps, s.v.early)
  {
    var t := Acquire(id, s.v.moments(y.net.lookups));
    var y1 := Next(y0, t, s.v.early);
    var rest := [];
    if y1.reqs[id].Sending? {
      rest := AfterToken(s, y1, id, s.v.wires(|y.net.sent|), s.v.moments(y.net.lookups + 1));
    }
    FirstOf(y0, t, rest, s.v.early);
    steps := [t] + rest;
  }
}
