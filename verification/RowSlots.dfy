/** The principal rows' slots of the in-memory principal store
    (pkg/store/principal/memory/store.go): any number of hold callers taking and
    releasing single-slot channels, as a state machine. */
module RowSlots {
  import opened Common
  import opened Order
  import opened Permissions

  /** A principal's slot. */
  datatype Row = Row(tenant: Did, id: PrincipalId)

  predicate RowBefore(a: Row, b: Row) {
    Before(a.tenant, b.tenant) || (a.tenant == b.tenant && Before(a.id, b.id))
  }

  lemma RowOrder(a: Row, b: Row, c: Row)
    ensures !RowBefore(a, a)
    ensures RowBefore(a, b) && RowBefore(b, c) ==> RowBefore(a, c)
    ensures RowBefore(a, b) || a == b || RowBefore(b, a)
  {
    BeforeIrreflexive(a.tenant);
    BeforeIrreflexive(a.id);
    BeforeTotal(a.tenant, b.tenant);
    BeforeTotal(a.id, b.id);
    if Before(a.tenant, b.tenant) && Before(b.tenant, c.tenant) { BeforeTransitive(a.tenant, b.tenant, c.tenant); }
    if Before(a.id, b.id) && Before(b.id, c.id) { BeforeTransitive(a.id, b.id, c.id); }
  }

  ghost predicate InOrder(rows: seq<Row>) {
    forall i, j :: 0 <= i < j < |rows| ==> RowBefore(rows[i], rows[j])
  }

  /** r in its place, unless it is there already. */
  function Place(r: Row, rows: seq<Row>): seq<Row> {
    if rows == [] then [r]
    else if rows[0] == r then rows
    else if RowBefore(r, rows[0]) then [r] + rows
    else [rows[0]] + Place(r, rows[1..])
  }

  /** The rows sorted, each once. */
  function Arrange(rows: seq<Row>): seq<Row> {
    if rows == [] then [] else Place(rows[0], Arrange(rows[1..]))
  }

  lemma {:induction false} PlaceKeepsOrder(r: Row, rows: seq<Row>)
    requires InOrder(rows)
    ensures InOrder(Place(r, rows)) && Elements(Place(r, rows)) == Elements(rows) + {r}
  {
    if rows != [] && rows[0] != r {
      RowOrder(r, rows[0], r);
      assert rows == [rows[0]] + rows[1..];
      ElementsJoin([rows[0]], rows[1..]);
      if RowBefore(r, rows[0]) {
        ElementsJoin([r], rows);
        forall i | 0 < i < |rows| ensures RowBefore(r, rows[i]) { RowOrder(r, rows[0], rows[i]); }
      } else {
        PlaceKeepsOrder(r, rows[1..]);
        var rest := Place(r, rows[1..]);
        ElementsJoin([rows[0]], rest);
        forall i | 0 <= i < |rest| ensures RowBefore(rows[0], rest[i]) { assert rest[i] in Elements(rest); }
      }
    }
  }

  lemma {:induction false} ArrangeOrders(rows: seq<Row>)
    ensures InOrder(Arrange(rows)) && Elements(Arrange(rows)) == Elements(rows)
    ensures forall i, j :: 0 <= i < j < |Arrange(rows)| ==>
      var a, b := Arrange(rows)[i], Arrange(rows)[j]; Before(a.tenant, b.tenant) || (a.tenant == b.tenant && Before(a.id, b.id))
  {
    if rows != [] {
      ArrangeOrders(rows[1..]);
      PlaceKeepsOrder(rows[0], Arrange(rows[1..]));
      assert rows == [rows[0]] + rows[1..];
      ElementsJoin([rows[0]], rows[1..]);
    }
  }

  // ------------------------------------------------------------------ the callers

  /** Taking slots one by one; holding them all; giving them back one by one,
      after a timeout, a cancelled context or the end of what they were held
      for; done. */
  datatype Phase = Taking | Holding | Draining | Done

  /** rows are the caller's, arranged; it has taken the first taken of them and
      given back the first drained. */
  datatype Caller = Caller(rows: seq<Row>, phase: Phase, taken: nat, drained: nat)

  /** A slot is full while some caller's token is in it. */
  datatype State = State(full: set<Row>, callers: map<nat, Caller>)

  const INITIAL := State({}, map[])

  datatype Event =
    | Call(rows: seq<Row>)
    | Take       // send into the next slot, which has room
    | AllTaken
    | GiveUp     // the timer fired or the context ended while waiting
    | Release    // what the rows were held for is over
    | Drain      // receive from one held slot
    | Drained

  predicate Can(s: State, id: nat, e: Event) {
    if e.Call? then id !in s.callers
    else
      && id in s.callers
      && var c := s.callers[id];
         match e
         case Take => c.phase == Taking && c.taken < |c.rows| && c.rows[c.taken] !in s.full
         case AllTaken => c.phase == Taking && c.taken == |c.rows|
         case GiveUp => c.phase == Taking && c.taken < |c.rows|
         case Release => c.phase == Holding
         case Drain => c.phase == Draining && c.drained < c.taken <= |c.rows| && c.rows[c.drained] in s.full
         case Drained => c.phase == Draining && c.drained >= c.taken
         case Call(_) => false
  }

  function Do(s: State, id: nat, e: Event): State
    requires Can(s, id, e)
  {
    match e
    case Call(rows) => s.(callers := s.callers[id := Caller(Arrange(rows), Taking, 0, 0)])
    case Take =>
      var c := s.callers[id];
      State(s.full + {c.rows[c.taken]}, s.callers[id := c.(taken := c.taken + 1)])
    case AllTaken => s.(callers := s.callers[id := s.callers[id].(phase := Holding)])
    case GiveUp => s.(callers := s.callers[id := s.callers[id].(phase := Draining)])
    case Release => s.(callers := s.callers[id := s.callers[id].(phase := Draining)])
    case Drain =>
      var c := s.callers[id];
      State(s.full - {c.rows[c.drained]}, s.callers[id := c.(drained := c.drained + 1)])
    case Drained => s.(callers := s.callers[id := s.callers[id].(phase := Done)])
  }

  ghost predicate Next(s: State, n: State) {
    exists id, e :: Can(s, id, e) && n == Do(s, id, e)
  }

  ghost predicate Run(states: seq<State>) {
    && |states| > 0 && states[0] == INITIAL
    && forall i :: 0 <= i < |states| - 1 ==> Next(states[i], states[i + 1])
  }

  ghost predicate Reachable(s: State) {
    exists states :: Run(states) && states[|states| - 1] == s
  }

  // ------------------------------------------------------------------ the invariant

  /** The slots that hold the caller's token. */
  predicate Owns(c: Caller, r: Row) {
    exists i :: 0 <= i < |c.rows| && c.drained <= i < c.taken && c.rows[i] == r
  }

  ghost predicate Sound(c: Caller) {
    && InOrder(c.rows) && c.drained <= c.taken <= |c.rows|
    && (c.phase == Taking || c.phase == Holding ==> c.drained == 0)
    && (c.phase == Holding ==> c.taken == |c.rows|)
    && (c.phase == Done ==> c.drained == c.taken)
  }

  ghost predicate Inv(s: State) {
    && (forall i :: i in s.callers ==> Sound(s.callers[i]))
    && (forall i, r :: i in s.callers && Owns(s.callers[i], r) ==> r in s.full)
    && (forall r :: r in s.full ==> exists i :: i in s.callers && Owns(s.callers[i], r))
    && forall i, j, r :: i in s.callers && j in s.callers && Owns(s.callers[i], r) && Owns(s.callers[j], r) ==> i == j
  }

  lemma OwnsNext(c: Caller, r: Row)
    requires Sound(c) && c.taken < |c.rows| && c.drained == 0
    ensures Owns(c.(taken := c.taken + 1), r) <==> Owns(c, r) || r == c.rows[c.taken]
  {
    var d := c.(taken := c.taken + 1);
    if Owns(c, r) {
      var i :| 0 <= i < |c.rows| && c.drained <= i < c.taken && c.rows[i] == r;
      assert d.rows[i] == r;
    }
    assert d.rows[c.taken] == c.rows[c.taken];
  }

  lemma OwnsLess(c: Caller, r: Row)
    requires Sound(c) && c.drained < c.taken
    ensures Owns(c.(drained := c.drained + 1), r) <==> Owns(c, r) && r != c.rows[c.drained]
    ensures Owns(c, c.rows[c.drained])
  {
    var d := c.(drained := c.drained + 1);
    assert c.rows[c.drained] == c.rows[c.drained];
    if Owns(c, r) && r != c.rows[c.drained] {
      var i :| 0 <= i < |c.rows| && c.drained <= i < c.taken && c.rows[i] == r;
      assert d.rows[i] == r;
    }
    if Owns(d, r) {
      var i :| 0 <= i < |d.rows| && d.drained <= i < d.taken && d.rows[i] == r;
      assert c.rows[i] == r;
      RowOrder(c.rows[c.drained], c.rows[i], r);
    }
  }

  lemma TakeKeeps(s: State, id: nat)
    requires Inv(s) && Can(s, id, Take)
    ensures Inv(Do(s, id, Take))
  {
    var n, c := Do(s, id, Take), s.callers[id];
    assert Sound(c);
    forall r ensures Owns(n.callers[id], r) <==> Owns(c, r) || r == c.rows[c.taken] { OwnsNext(c, r); }
    forall r | r in n.full ensures exists i :: i in n.callers && Owns(n.callers[i], r) {
      if r == c.rows[c.taken] {
        assert Owns(n.callers[id], r);
      } else {
        var i :| i in s.callers && Owns(s.callers[i], r);
        assert Owns(n.callers[i], r);
      }
    }
  }

  lemma DrainKeeps(s: State, id: nat)
    requires Inv(s) && Can(s, id, Drain)
    ensures Inv(Do(s, id, Drain))
  {
    var n, c := Do(s, id, Drain), s.callers[id];
    assert Sound(c);
    forall r ensures Owns(n.callers[id], r) <==> Owns(c, r) && r != c.rows[c.drained] { OwnsLess(c, r); }
    OwnsLess(c, c.rows[c.drained]);
    forall r | r in n.full ensures exists i :: i in n.callers && Owns(n.callers[i], r) {
      var i :| i in s.callers && Owns(s.callers[i], r);
      assert Owns(n.callers[i], r);
    }
  }

  lemma OtherKeeps(s: State, id: nat, e: Event)
    requires Inv(s) && Can(s, id, e) && !e.Take? && !e.Drain?
    ensures Inv(Do(s, id, e))
  {
    var n := Do(s, id, e);
    if e.Call? { ArrangeOrders(e.rows); }
    assert Sound(n.callers[id]) by { if !e.Call? { assert Sound(s.callers[id]); } }
    forall r ensures Owns(n.callers[id], r) <==> id in s.callers && Owns(s.callers[id], r) {
      if id in s.callers { SameOwned(s.callers[id], n.callers[id], r); }
    }
    forall r | r in n.full ensures exists i :: i in n.callers && Owns(n.callers[i], r) {
      var i :| i in s.callers && Owns(s.callers[i], r);
      assert Owns(n.callers[i], r);
    }
  }

  lemma SameOwned(c: Caller, d: Caller, r: Row)
    requires d.rows == c.rows && d.taken == c.taken && d.drained == c.drained
    ensures Owns(d, r) <==> Owns(c, r)
  {}

  lemma {:induction false} RunInv(states: seq<State>, i: nat)
    requires Run(states) && i < |states|
    ensures Inv(states[i])
  {
    if i > 0 {
      RunInv(states, i - 1);
      assert Next(states[i - 1], states[i]);
      var id, e :| Can(states[i - 1], id, e) && states[i] == Do(states[i - 1], id, e);
      if e.Take? {
        TakeKeeps(states[i - 1], id);
      } else if e.Drain? {
        DrainKeeps(states[i - 1], id);
      } else {
        OtherKeeps(states[i - 1], id, e);
      }
    }
  }

  lemma ReachableInv(s: State)
    requires Reachable(s)
    ensures Inv(s)
  {
    var states :| Run(states) && states[|states| - 1] == s;
    RunInv(states, |states| - 1);
  }

  // ------------------------------------------------------------------ the theorems

  /** No slot ever has two holders, and no slot is full without one. */
  lemma OneHolder(s: State, r: Row)
    requires Reachable(s)
    ensures r in s.full <==> exists i :: i in s.callers && Owns(s.callers[i], r)
    ensures forall i, j :: i in s.callers && j in s.callers && Owns(s.callers[i], r) && Owns(s.callers[j], r) ==> i == j
  {
    ReachableInv(s);
  }

  /** A caller that is done, having timed out or not, holds nothing; and no step
      of it ever touched a slot it had not taken. */
  lemma DoneHoldsNothing(s: State, id: nat, r: Row)
    requires Reachable(s) && id in s.callers && s.callers[id].phase == Done
    ensures !Owns(s.callers[id], r)
  {
    ReachableInv(s);
    assert Sound(s.callers[id]);
  }

  /** A step empties only slots its own caller took, and fills only its own. */
  lemma TouchesOnlyItsOwn(s: State, id: nat, e: Event, r: Row)
    requires Reachable(s) && Can(s, id, e)
    ensures r in s.full && r !in Do(s, id, e).full ==> Owns(s.callers[id], r)
    ensures r in Do(s, id, e).full && r !in s.full ==> Owns(Do(s, id, e).callers[id], r)
  {
    ReachableInv(s);
    if e.Drain? {
      assert Sound(s.callers[id]);
      OwnsLess(s.callers[id], r);
    }
    if e.Take? {
      assert Sound(s.callers[id]);
      OwnsNext(s.callers[id], r);
    }
  }

  /** A caller waiting for a slot that is full. */
  predicate Blocked(s: State, id: nat) {
    && id in s.callers && s.callers[id].phase == Taking && s.callers[id].taken < |s.callers[id].rows|
    && s.callers[id].rows[s.callers[id].taken] in s.full
  }

  /** The row a caller waits for. */
  function Awaited(s: State, id: nat): Row
    requires Blocked(s, id)
  {
    s.callers[id].rows[s.callers[id].taken]
  }

  /** Among blocked callers, one waits for the last row. */
  lemma {:induction false} LastAwaited(s: State, ids: set<nat>) returns (last: nat)
    requires ids != {} && forall i :: i in ids ==> Blocked(s, i)
    ensures last in ids && forall i :: i in ids ==> !RowBefore(Awaited(s, last), Awaited(s, i))
  {
    last :| last in ids;
    RowOrder(Awaited(s, last), Awaited(s, last), Awaited(s, last));
    if ids != {last} {
      var best := LastAwaited(s, ids - {last});
      if !RowBefore(Awaited(s, last), Awaited(s, best)) {
        forall i | i in ids ensures !RowBefore(Awaited(s, last), Awaited(s, i)) {
          if i != last {
            RowOrder(Awaited(s, best), Awaited(s, last), Awaited(s, i));
            RowOrder(Awaited(s, last), Awaited(s, i), Awaited(s, best));
          }
        }
      } else {
        RowOrder(Awaited(s, last), Awaited(s, best), Awaited(s, last));
        RowOrder(Awaited(s, best), Awaited(s, last), Awaited(s, best));
        last := best;
      }
    }
  }

  /** Ordered acquisition never deadlocks: while some caller is not done, some
      caller can step, without its timer. */
  lemma NoDeadlock(s: State, id: nat) returns (who: nat, e: Event)
    requires Reachable(s) && id in s.callers && s.callers[id].phase != Done
    ensures Can(s, who, e) && !e.GiveUp? && !e.Call?
  {
    ReachableInv(s);
    who := id;
    if Blocked(s, id) { who := SomeUnblocked(s, id); }
    assert Sound(s.callers[who]);
    e := Unblocked(s, who);
    if s.callers[who].drained < s.callers[who].taken { DrainsOwn(s, who); }
  }

  /** Whoever holds the last awaited row is not waiting. */
  lemma SomeUnblocked(s: State, id: nat) returns (who: nat)
    requires Inv(s) && Blocked(s, id)
    ensures who in s.callers && !Blocked(s, who) && s.callers[who].phase != Done
  {
    var ids := set i | i in s.callers && Blocked(s, i);
    assert id in ids;
    var last := LastAwaited(s, ids);
    who :| who in s.callers && Owns(s.callers[who], Awaited(s, last));
    HolderWaitsFurther(s, last, who);
    assert who !in ids;
  }

  /** A blocked caller holding a row waits for a later one. */
  lemma HolderWaitsFurther(s: State, waiter: nat, holder: nat)
    requires Inv(s) && Blocked(s, waiter) && holder in s.callers && Owns(s.callers[holder], Awaited(s, waiter))
    ensures Blocked(s, holder) ==> RowBefore(Awaited(s, waiter), Awaited(s, holder))
    ensures s.callers[holder].phase != Done
  {
    var c := s.callers[holder];
    assert Sound(c);
    var i :| 0 <= i < |c.rows| && c.drained <= i < c.taken && c.rows[i] == Awaited(s, waiter);
  }

  lemma DrainsOwn(s: State, i: nat)
    requires Inv(s) && i in s.callers && s.callers[i].drained < s.callers[i].taken
    ensures s.callers[i].rows[s.callers[i].drained] in s.full
  {
    assert Sound(s.callers[i]);
    OwnsLess(s.callers[i], s.callers[i].rows[s.callers[i].drained]);
  }

  function Unblocked(s: State, i: nat): (e: Event)
    requires i in s.callers
  {
    var c := s.callers[i];
    if c.phase == Taking then (if c.taken == |c.rows| then AllTaken else Take)
    else if c.phase == Holding then Release
    else if c.drained < c.taken then Drain
    else Drained
  }
}
