/** The Forge commands an S3 permission stands for (pkg/s3perm/s3perm.go). */
module Permissions {
  import opened Common

  /** The permission table; every theorem holds for any table. */
  const PERMISSION_COMMANDS: map<string, seq<Command>>

  function CommandsOf(permission: string): seq<Command> {
    if permission in PERMISSION_COMMANDS then PERMISSION_COMMANDS[permission] else []
  }

  /** The commands a set of permissions maps to. */
  function CommandSet(permissions: set<string>): set<Command> {
    set p, c | p in permissions && c in CommandsOf(p) :: c
  }

  /** The table's row for p has c. */
  ghost predicate Maps(p: string, c: Command) {
    p in PERMISSION_COMMANDS && c in PERMISSION_COMMANDS[p]
  }

  lemma CommandSetMeans(permissions: set<string>, c: Command)
    ensures c in CommandSet(permissions) <==> exists p :: p in permissions && Maps(p, c)
  {
    if c in CommandSet(permissions) {
      var p :| p in permissions && c in CommandsOf(p);
      assert Maps(p, c);
    }
    if p :| p in permissions && Maps(p, c) { assert c in CommandsOf(p); }
  }

  function Elements<T>(xs: seq<T>): set<T> {
    set x | x in xs
  }

  lemma ElementsJoin<T>(a: seq<T>, b: seq<T>)
    ensures Elements(a + b) == Elements(a) + Elements(b)
  {}

  lemma ElementsGrow<T>(xs: seq<T>, i: nat)
    requires i < |xs|
    ensures Elements(xs[..i + 1]) == Elements(xs[..i]) + {xs[i]}
    ensures Elements(xs[..i + 1]) <= Elements(xs) && xs[i] in xs
  {
    assert xs[..i + 1] == xs[..i] + [xs[i]];
    ElementsJoin(xs[..i], [xs[i]]);
  }

  lemma NoElements<T>(a: seq<T>)
    ensures Elements(a) == {} <==> a == []
  {
    if a != [] {
      assert a[0] in a;
      assert a[0] in Elements(a);
    }
  }

  function Flatten(permissions: seq<string>): seq<Command> {
    if permissions == [] then [] else Flatten(permissions[..|permissions| - 1]) + CommandsOf(permissions[|permissions| - 1])
  }

  /** xs without the later repeats, in first-seen order. */
  function FirstSeen(xs: seq<Command>): seq<Command> {
    if xs == [] then []
    else
      var before := FirstSeen(xs[..|xs| - 1]);
      var last := xs[|xs| - 1];
      if last in xs[..|xs| - 1] then before else before + [last]
  }

  lemma {:induction false} FirstSeenIsDistinct(xs: seq<Command>)
    ensures forall c :: c in FirstSeen(xs) <==> c in xs
    ensures forall i, j :: 0 <= i < j < |FirstSeen(xs)| ==> FirstSeen(xs)[i] != FirstSeen(xs)[j]
  {
    if xs != [] {
      FirstSeenIsDistinct(xs[..|xs| - 1]);
      assert xs == xs[..|xs| - 1] + [xs[|xs| - 1]];
    }
  }

  lemma {:induction false} FlattenHas(permissions: seq<string>)
    ensures forall c :: c in Flatten(permissions) <==> c in CommandSet(Elements(permissions))
  {
    if permissions != [] {
      var init, last := permissions[..|permissions| - 1], permissions[|permissions| - 1];
      assert permissions == init + [last];
      FlattenHas(init);
      assert Elements(permissions) == Elements(init) + {last};
    }
  }

  lemma ExtendSeen(done: seq<Command>, row: seq<Command>, j: nat)
    requires j < |row|
    ensures var before, c := done + row[..j], row[j];
      && FirstSeen(done + row[..j + 1]) == (if c in Elements(before) then FirstSeen(before) else FirstSeen(before) + [c])
      && Elements(done + row[..j + 1]) == Elements(before) + {c}
  {
    var before, after := done + row[..j], done + row[..j + 1];
    assert after == before + [row[j]];
    assert after[..|after| - 1] == before;
    ElementsJoin(before, [row[j]]);
    assert Elements([row[j]]) == {row[j]};
  }

  lemma ExtendFlatten(permissions: seq<string>, i: nat)
    requires i < |permissions|
    ensures Flatten(permissions[..i + 1]) == Flatten(permissions[..i]) + CommandsOf(permissions[i])
  {
    assert permissions[..i + 1][..i] == permissions[..i];
  }

  /** The inner loop of CommandsFor: one permission's commands. */
  method AppendRow(seen: set<Command>, cmds: seq<Command>, row: seq<Command>, ghost done: seq<Command>)
    returns (seenAfter: set<Command>, out: seq<Command>)
    requires seen == Elements(done) && cmds == FirstSeen(done)
    ensures seenAfter == Elements(done + row) && out == FirstSeen(done + row)
  {
    seenAfter, out := seen, cmds;
    assert done + row[..0] == done;
    for j := 0 to |row|
      invariant seenAfter == Elements(done + row[..j])
      invariant out == FirstSeen(done + row[..j])
    {
      ExtendSeen(done, row, j);
      if row[j] !in seenAfter {
        seenAfter := seenAfter + {row[j]};
        out := out + [row[j]];
      }
    }
    assert row[..|row|] == row;
  }

  /** CommandsFor: each command the permissions map to, once, in first-seen
      order. */
  method CommandsFor(permissions: seq<string>) returns (cmds: seq<Command>)
    ensures cmds == FirstSeen(Flatten(permissions))
    ensures Elements(cmds) == CommandSet(Elements(permissions))
    ensures forall c :: c in cmds <==> exists p :: p in permissions && Maps(p, c)
    ensures forall i, j :: 0 <= i < j < |cmds| ==> cmds[i] != cmds[j]
  {
    var seen: set<Command> := {};
    cmds := [];
    for i := 0 to |permissions|
      invariant seen == Elements(Flatten(permissions[..i]))
      invariant cmds == FirstSeen(Flatten(permissions[..i]))
    {
      ExtendFlatten(permissions, i);
      seen, cmds := AppendRow(seen, cmds, CommandsOf(permissions[i]), Flatten(permissions[..i]));
    }
    assert permissions[..|permissions|] == permissions;
    FirstSeenIsDistinct(Flatten(permissions));
    FlattenHas(permissions);
    forall c { CommandSetMeans(Elements(permissions), c); }
  }
}
