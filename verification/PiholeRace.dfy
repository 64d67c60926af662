/** Pi-hole calls side by side. Each fetches a list, edits its copy and patches the whole list back, with no lock across
    the two requests, and the executor has several under way at once (pkg/upstream/pihole/pihole.go:192-269,
    internal/reconcile/executor.go:132-169). */
module PiholeRaces {
  import opened Model
  import opened Pihole

  /** The edit one call makes. */
  datatype Call = Call(name: string, entry: string, remove: bool)

  /** The list at first, the calls on it, and how entries are ascribed to names. */
  datatype Race = Race(init: seq<string>, calls: seq<Call>, nameOf: string -> string)

  function Edit(entries: seq<string>, x: Race, id: nat): seq<string>
    requires id < |x.calls|
  {
    Edited(entries, x.calls[id].name, x.calls[id].entry, x.calls[id].remove, x.nameOf)
  }

  /** The call's edit is in place. */
  predicate InEffect(entries: seq<string>, x: Race, id: nat)
    requires id < |x.calls|
  {
    Owned(entries, x.calls[id].name, x.nameOf) == Wanted(x.calls[id].entry, x.calls[id].remove)
  }

  // ---- fetches and patches in any order ----

  datatype Event = Fetch(id: nat) | Patch(id: nat)

  /** A list, the calls whose edits made it, and the number of patches the server had taken by then. */
  datatype Copy = Copy(entries: seq<string>, made: seq<nat>, version: nat)

  datatype State = State(server: Copy, fetched: map<nat, Copy>)

  predicate Enabled(x: Race, s: State, e: Event) {
    e.id < |x.calls| && (e.Patch? ==> e.id in s.fetched)
  }

  /** A patch is sent only if the fetched copy needs the edit. */
  predicate Writes(x: Race, s: State, e: Event)
    requires Enabled(x, s, e)
  {
    e.Patch? && !InEffect(s.fetched[e.id].entries, x, e.id)
  }

  function Next(x: Race, s: State, e: Event): State
    requires Enabled(x, s, e)
  {
    match e
    case Fetch(i) => s.(fetched := s.fetched[i := s.server])
    case Patch(i) =>
      var copy := s.fetched[i];
      State(if Writes(x, s, e) then Copy(Edit(copy.entries, x, i), copy.made + [i], s.server.version + 1) else s.server,
            s.fetched - {i})
  }

  ghost predicate IsTrace(x: Race, states: seq<State>, events: seq<Event>) {
    && |states| == |events| + 1 && states[0] == State(Copy(x.init, [], 0), map[])
    && forall n :: 0 <= n < |events| ==>
         Enabled(x, states[n], events[n]) && states[n + 1] == Next(x, states[n], events[n])
  }

  // ---- what is on the server ----

  predicate Known(x: Race, made: seq<nat>) {
    forall k :: 0 <= k < |made| ==> made[k] < |x.calls|
  }

  /** The edits of some calls, one after the other. */
  function Serial(x: Race, made: seq<nat>): seq<string>
    requires Known(x, made)
  {
    if made == [] then x.init else Edit(Serial(x, made[..|made| - 1]), x, made[|made| - 1])
  }

  predicate Made(x: Race, c: Copy) {
    Known(x, c.made) && c.entries == Serial(x, c.made)
  }

  ghost predicate AllMade(x: Race, s: State) {
    Made(x, s.server) && forall i :: i in s.fetched ==> Made(x, s.fetched[i])
  }

  /** In whatever order the requests arrive, the list is that of some of the calls made one after the other. */
  lemma {:induction false} ListIsSerial(x: Race, states: seq<State>, events: seq<Event>, n: nat)
    requires IsTrace(x, states, events) && n <= |events|
    ensures AllMade(x, states[n])
  {
    if n > 0 {
      ListIsSerial(x, states, events, n - 1);
      var e := events[n - 1];
      if Writes(x, states[n - 1], e) {
        var copy := states[n - 1].fetched[e.id];
        assert (copy.made + [e.id])[..|copy.made|] == copy.made;
      }
    }
  }

  // ---- when nothing is lost ----

  /** The calls whose patches were sent, in order. */
  function Written(x: Race, states: seq<State>, events: seq<Event>, n: nat): seq<nat>
    requires IsTrace(x, states, events) && n <= |events|
  {
    if n == 0 then []
    else Written(x, states, events, n - 1) + if Writes(x, states[n - 1], events[n - 1]) then [events[n - 1].id] else []
  }

  /** The patch sent at m replaces the very list its call had fetched. */
  predicate OverCurrent(x: Race, s: State, e: Event)
    requires Enabled(x, s, e)
  {
    Writes(x, s, e) ==> s.fetched[e.id].version == s.server.version
  }

  ghost predicate AllOverCurrent(x: Race, states: seq<State>, events: seq<Event>, n: nat)
    requires IsTrace(x, states, events) && n <= |events|
  {
    forall m :: 0 <= m < n ==> OverCurrent(x, states[m], events[m])
  }

  /** A copy is at most as new as the server's list, and that very list if equally new. */
  predicate Older(c: Copy, server: Copy) {
    |c.made| <= c.version <= server.version && (c.version == server.version ==> c.made == server.made)
  }

  ghost predicate AllOlder(s: State) {
    Older(s.server, s.server) && forall i :: i in s.fetched ==> Older(s.fetched[i], s.server)
  }

  lemma {:induction false} CopiesAreOlder(x: Race, states: seq<State>, events: seq<Event>, n: nat)
    requires IsTrace(x, states, events) && n <= |events|
    ensures AllOlder(states[n])
  {
    if n > 0 {
      CopiesAreOlder(x, states, events, n - 1);
    }
  }

  /** The list is that of all the calls whose patches were sent, one after the other in that order, exactly when each
      patch replaced the list its call had fetched; otherwise it is that of fewer calls. */
  lemma {:induction false} NothingLostIff(x: Race, states: seq<State>, events: seq<Event>, n: nat)
    requires IsTrace(x, states, events) && n <= |events|
    ensures var made, written := states[n].server.made, Written(x, states, events, n);
            && (made == written <==> AllOverCurrent(x, states, events, n))
            && (made == written || |made| < |written|) && |written| == states[n].server.version
  {
    if n > 0 {
      NothingLostIff(x, states, events, n - 1);
      CopiesAreOlder(x, states, events, n - 1);
      var s, e := states[n - 1], events[n - 1];
      assert AllOverCurrent(x, states, events, n) <==> AllOverCurrent(x, states, events, n - 1) && OverCurrent(x, s, e);
      if Writes(x, s, e) {
        SameLast(s.fetched[e.id].made, Written(x, states, events, n - 1), e.id);
      }
    }
  }

  lemma SameLast(a: seq<nat>, b: seq<nat>, i: nat)
    ensures a + [i] == b + [i] <==> a == b
  {
    if a + [i] == b + [i] {
      assert a == (a + [i])[..|a|] && b == (b + [i])[..|b|];
    }
  }

  // ---- what that means for the names ----

  predicate ReadsBack(x: Race, id: nat)
    requires id < |x.calls|
  {
    x.calls[id].remove || x.nameOf(x.calls[id].entry) == x.calls[id].name
  }

  /** Each call is about a name of its own, with an entry that reads back under it. */
  ghost predicate OwnNames(x: Race) {
    && (forall i :: 0 <= i < |x.calls| ==> ReadsBack(x, i))
    && forall i, j :: 0 <= i < j < |x.calls| ==> x.calls[i].name != x.calls[j].name
  }

  /** The calls of one pass are moreover made once each. */
  ghost predicate OnePass(x: Race, events: seq<Event>) {
    OwnNames(x) && forall a, b :: 0 <= a < b < |events| ==> events[a] != events[b]
  }

  lemma OneEdit(x: Race, entries: seq<string>, last: nat, id: nat)
    requires OwnNames(x) && last < |x.calls| && id < |x.calls|
    ensures InEffect(Edit(entries, x, last), x, id) <==> last == id || InEffect(entries, x, id)
  {
    var c := x.calls[last];
    assert ReadsBack(x, last);
    if last == id {
      EditedOwned(entries, c.name, c.entry, c.remove, x.nameOf);
    } else {
      assert x.calls[id].name != c.name;
      EditedElsewhere(entries, c.name, c.entry, c.remove, x.nameOf, x.calls[id].name);
    }
  }

  lemma InLast(made: seq<nat>, id: nat)
    requires made != []
    ensures id in made <==> id in made[..|made| - 1] || id == made[|made| - 1]
  {
    assert made == made[..|made| - 1] + [made[|made| - 1]];
  }

  /** A call is in effect on a list exactly when it is among those that made it, or was in effect from the start. */
  lemma {:induction false} InEffectIff(x: Race, made: seq<nat>, id: nat)
    requires OwnNames(x) && id < |x.calls| && Known(x, made)
    ensures InEffect(Serial(x, made), x, id) <==> id in made || InEffect(x.init, x, id)
  {
    if made != [] {
      var init, last := made[..|made| - 1], made[|made| - 1];
      InEffectIff(x, init, id);
      OneEdit(x, Serial(x, init), last, id);
      InLast(made, id);
    }
  }

  predicate Distinct(s: seq<nat>) {
    forall a, b :: 0 <= a < b < |s| ==> s[a] != s[b]
  }

  /** Only patches that were sent can have made a list. */
  lemma {:induction false} MadeByWritten(x: Race, states: seq<State>, events: seq<Event>, n: nat)
    requires IsTrace(x, states, events) && n <= |events|
    ensures forall i :: i in states[n].server.made ==> i in Written(x, states, events, n)
    ensures forall j, i :: j in states[n].fetched && i in states[n].fetched[j].made ==>
              i in Written(x, states, events, n)
  {
    if n > 0 {
      MadeByWritten(x, states, events, n - 1);
    }
  }

  /** A sent patch is one event. */
  lemma {:induction false} WrittenOnce(x: Race, states: seq<State>, events: seq<Event>, n: nat, i: nat)
    requires IsTrace(x, states, events) && n <= |events| && i in Written(x, states, events, n)
    ensures exists m :: 0 <= m < n && events[m] == Patch(i)
  {
    if !(Writes(x, states[n - 1], events[n - 1]) && events[n - 1].id == i) {
      WrittenOnce(x, states, events, n - 1, i);
    } else {
      assert events[n - 1] == Patch(i);
    }
  }

  /** In one pass the sent patches are those of different calls, none of which was in effect at first. */
  lemma {:induction false} WrittenInOnePass(x: Race, states: seq<State>, events: seq<Event>, n: nat)
    requires IsTrace(x, states, events) && n <= |events| && OnePass(x, events)
    ensures var written := Written(x, states, events, n);
            Distinct(written) && Known(x, written) && forall i :: i in written ==> !InEffect(x.init, x, i)
  {
    if n > 0 {
      WrittenInOnePass(x, states, events, n - 1);
      var s, e := states[n - 1], events[n - 1];
      if Writes(x, s, e) {
        if e.id in Written(x, states, events, n - 1) {
          WrittenOnce(x, states, events, n - 1, e.id);
        }
        MadeByWritten(x, states, events, n - 1);
        ListIsSerial(x, states, events, n - 1);
        InEffectIff(x, s.fetched[e.id].made, e.id);
      }
    }
  }

  lemma {:induction false} DistinctInto(a: seq<nat>, b: seq<nat>)
    requires Distinct(a)
    requires forall i :: i in a ==> i in b
    ensures |a| <= |b|
  {
    if a != [] {
      var init, last := a[..|a| - 1], a[|a| - 1];
      assert last in a;
      var at :| 0 <= at < |b| && b[at] == last;
      forall i | i in init ensures i in b[..at] + b[at + 1..] {
        assert i in a;
        var k :| 0 <= k < |b| && b[k] == i;
        assert k < at ==> b[..at][k] == i;
        assert k > at ==> b[at + 1..][k - at - 1] == i;
      }
      DistinctInto(init, b[..at] + b[at + 1..]);
    }
  }

  /** The calls of one pass side by side: every patch that was sent, and reported as a success, is in effect at the end
      exactly when each replaced the very list its call had fetched, nothing having been patched in between. */
  lemma AllKeptIff(x: Race, states: seq<State>, events: seq<Event>, n: nat)
    requires IsTrace(x, states, events) && n <= |events| && OnePass(x, events)
    ensures (forall i :: i in Written(x, states, events, n) ==>
               i < |x.calls| && InEffect(states[n].server.entries, x, i))
            <==> AllOverCurrent(x, states, events, n)
  {
    var made, written := states[n].server.made, Written(x, states, events, n);
    ListIsSerial(x, states, events, n);
    NothingLostIff(x, states, events, n);
    WrittenInOnePass(x, states, events, n);
    forall i | i in written ensures InEffect(states[n].server.entries, x, i) <==> i in made {
      InEffectIff(x, made, i);
    }
    if forall i :: i in written ==> i in made {
      DistinctInto(written, made);
    }
  }

  /** It does happen, with any two calls about different names that the list needs: both fetch, then both patch. Both
      report success, and the first is as if it had never been made. */
  lemma TwoAtOnce(x: Race) returns (states: seq<State>, events: seq<Event>)
    requires OwnNames(x) && |x.calls| == 2 && !InEffect(x.init, x, 0) && !InEffect(x.init, x, 1)
    ensures events == [Fetch(0), Fetch(1), Patch(0), Patch(1)]
    ensures IsTrace(x, states, events) && OnePass(x, events) && Written(x, states, events, 4) == [0, 1]
    ensures states[4].server.entries == Edit(x.init, x, 1) && !InEffect(states[4].server.entries, x, 0)
  {
    events := [Fetch(0), Fetch(1), Patch(0), Patch(1)];
    states := TwoStates(x);
    TwoWritten(x, states, events);
    OneEdit(x, x.init, 1, 0);
  }

  lemma TwoStates(x: Race) returns (states: seq<State>)
    requires |x.calls| == 2 && !InEffect(x.init, x, 0) && !InEffect(x.init, x, 1)
    ensures IsTrace(x, states, [Fetch(0), Fetch(1), Patch(0), Patch(1)])
    ensures states[4].server.entries == Edit(x.init, x, 1)
  {
    var s0 := State(Copy(x.init, [], 0), map[]);
    var s1 := Next(x, s0, Fetch(0));
    var s2 := Next(x, s1, Fetch(1));
    var s3 := Next(x, s2, Patch(0));
    states := [s0, s1, s2, s3, Next(x, s3, Patch(1))];
  }

  lemma TwoWritten(x: Race, states: seq<State>, events: seq<Event>)
    requires IsTrace(x, states, events) && events == [Fetch(0), Fetch(1), Patch(0), Patch(1)]
    requires |x.calls| == 2 && !InEffect(x.init, x, 0) && !InEffect(x.init, x, 1)
    ensures Written(x, states, events, 4) == [0, 1]
  {
    assert Written(x, states, events, 0) == Written(x, states, events, 1) == Written(x, states, events, 2) == [];
    assert Written(x, states, events, 3) == [0];
  }

  /** The race of creating two entries under names that own nothing yet. */
  ghost predicate TwoCreates(x: Race, n: string, e: string, m: string, f: string) {
    && x.calls == [Call(n, e, false), Call(m, f, false)] && n != m
    && Owned(x.init, n, x.nameOf) == Owned(x.init, m, x.nameOf) == []
  }

  lemma TwoCreatesRace(x: Race, n: string, e: string, m: string, f: string)
    requires TwoCreates(x, n, e, m, f) && x.nameOf(e) == n && x.nameOf(f) == m
    ensures OwnNames(x) && !InEffect(x.init, x, 0) && !InEffect(x.init, x, 1)
  {
  }

  lemma NameReadsBack(r: Record, nameOf: string -> string)
    requires PlainHost(r) && nameOf == HostName
    ensures nameOf(HostEntry(r)) == r.name
  {
    HostEntryRoundTripIff(r);
  }

  /** Two workers of one pass create two new address records side by side: both creates are reported as successes, and
      only the second record is there. */
  lemma TwoHosts(x: Race, a: Record, b: Record) returns (states: seq<State>, events: seq<Event>)
    requires TwoCreates(x, a.name, HostEntry(a), b.name, HostEntry(b)) && x.nameOf == HostName
    requires PlainHost(a) && PlainHost(b)
    ensures IsTrace(x, states, events) && |events| == 4 && Written(x, states, events, 4) == [0, 1]
    ensures Owned(states[4].server.entries, a.name, HostName) == []
    ensures Owned(states[4].server.entries, b.name, HostName) == [HostEntry(b)]
  {
    NameReadsBack(a, x.nameOf);
    NameReadsBack(b, x.nameOf);
    TwoCreatesRace(x, a.name, HostEntry(a), b.name, HostEntry(b));
    states, events := TwoAtOnce(x);
    SecondOnly(x.init, a, b);
  }

  lemma SecondOnly(init: seq<string>, a: Record, b: Record)
    requires PlainHost(b) && a.name != b.name && Owned(init, a.name, HostName) == []
    ensures var entries := Edited(init, b.name, HostEntry(b), false, HostName);
            Owned(entries, a.name, HostName) == [] && Owned(entries, b.name, HostName) == [HostEntry(b)]
  {
    HostEntryRoundTripIff(b);
    EditedOwned(init, b.name, HostEntry(b), false, HostName);
    EditedElsewhere(init, b.name, HostEntry(b), false, HostName, a.name);
  }
}
