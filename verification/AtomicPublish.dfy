/** prepare/atomic_publish.py on a file system of names, inodes and contents, where the
    process can be killed between any two operations. */
module AtomicPublish {
  import opened Contents

  datatype Folder = Base | Fast | Hub

  /** A file, or the backup a script keeps next to it under a suffix. */
  datatype Name = File(dir: Folder, name: string) | Backup(dir: Folder, name: string, suffix: string)

  /** What the names read: `live` files, and the <path>.tmp sibling of each file. */
  type Live = map<Name, Content>
  datatype Dir = Dir(live: Live, tmp: Live)

  datatype Op =
    | Create(name: Name)                    // open <name>.tmp for writing: truncates an old one in place
    | Fill(name: Name, content: Content)    // the last byte of <name>.tmp is written
    | Rename(name: Name)                    // os.replace(<name>.tmp, <name>)
    | Link(src: Name, dst: Name)            // os.link

  /** What one operation does to what each name reads. */
  function Do(d: Dir, op: Op): Dir {
    match op
    case Create(n) => Dir(d.live, d.tmp[n := Torn])
    case Fill(n, c) => Dir(d.live, d.tmp[n := c])
    case Rename(n) => if n in d.tmp then Dir(d.live[n := d.tmp[n]], d.tmp - {n}) else d
    case Link(s, t) => if s in d.live && t !in d.live then Dir(d.live[t := d.live[s]], d.tmp) else d
  }

  function Exec(d: Dir, ops: seq<Op>): Dir
    decreases |ops|
  {
    if ops == [] then d else Exec(Do(d, ops[0]), ops[1..])
  }

  lemma {:induction false} ExecAppend(d: Dir, a: seq<Op>, b: seq<Op>)
    ensures Exec(d, a + b) == Exec(Exec(d, a), b)
    decreases |a|
  {
    if a == [] {
      assert a + b == b;
    } else {
      assert (a + b)[1..] == a[1..] + b;
      ExecAppend(Do(d, a[0]), a[1..], b);
    }
  }

  /** A step of a script: publish a complete file under a name, or hardlink one. */
  datatype Action = Publish(name: Name, content: Content) | LinkTo(src: Name, dst: Name)

  function OpsOf(a: Action): seq<Op> {
    match a
    case Publish(n, c) => [Create(n), Fill(n, c), Rename(n)]
    case LinkTo(s, t) => [Link(s, t)]
  }

  function Ops(acts: seq<Action>): seq<Op> {
    if acts == [] then [] else OpsOf(acts[0]) + Ops(acts[1..])
  }

  lemma {:induction false} OpsAppend(a: seq<Action>, b: seq<Action>)
    ensures Ops(a + b) == Ops(a) + Ops(b)
  {
    if a == [] {
      assert a + b == b;
    } else {
      assert (a + b)[1..] == a[1..] + b;
      OpsAppend(a[1..], b);
    }
  }

  /** backup_once: copy the file to its backup unless that backup exists. */
  function BackupOnce(live: Live, n: Name, suffix: string): seq<Action>
    requires n.File? && n in live
  {
    var b := Backup(n.dir, n.name, suffix);
    if b in live then [] else [Publish(b, live[n])]
  }

  /** One run of a script with `budget` operations before it is killed: `ops` cut there. */
  predicate Ran(d0: Dir, budget0: nat, ops: seq<Op>, d1: Dir, budget1: nat, alive: bool) {
    if |ops| <= budget0
    then alive && d1 == Exec(d0, ops) && budget1 == budget0 - |ops|
    else !alive && d1 == Exec(d0, ops[..budget0]) && budget1 == 0
  }

  lemma RanThen(d0: Dir, k0: nat, a: seq<Op>, d1: Dir, k1: nat, b: seq<Op>, d2: Dir, k2: nat, alive: bool)
    requires Ran(d0, k0, a, d1, k1, true) && Ran(d1, k1, b, d2, k2, alive)
    ensures Ran(d0, k0, a + b, d2, k2, alive)
  {
    if |b| <= k1 {
      ExecAppend(d0, a, b);
    } else {
      ExecAppend(d0, a, b[..k1]);
      assert (a + b)[..k0] == a + b[..k1];
    }
  }

  lemma RanKilled(d0: Dir, k0: nat, a: seq<Op>, d1: Dir, k1: nat, b: seq<Op>)
    requires Ran(d0, k0, a, d1, k1, false)
    ensures Ran(d0, k0, a + b, d1, k1, false)
  {
    assert (a + b)[..k0] == a[..k0];
  }

  // ---- names, inodes and contents

  predicate Resolves(names: map<Name, nat>, inodes: seq<Content>) {
    forall n :: n in names ==> names[n] < |inodes|
  }

  function Reads(names: map<Name, nat>, inodes: seq<Content>): (live: Live)
    requires Resolves(names, inodes)
    ensures live.Keys == names.Keys
  {
    map n | n in names :: inodes[names[n]]
  }

  /** Names that do not share the inode keep what they read. */
  lemma ReadsWrite(names: map<Name, nat>, inodes: seq<Content>, i: nat, c: Content)
    requires Resolves(names, inodes) && i < |inodes|
    requires forall n :: n in names ==> names[n] != i
    ensures Reads(names, inodes[i := c]) == Reads(names, inodes)
  {
  }

  lemma ReadsGrow(names: map<Name, nat>, inodes: seq<Content>, c: Content)
    requires Resolves(names, inodes)
    ensures Resolves(names, inodes + [c])
    ensures Reads(names, inodes + [c]) == Reads(names, inodes)
  {
  }

  lemma ReadsPoint(names: map<Name, nat>, inodes: seq<Content>, n: Name, i: nat)
    requires Resolves(names, inodes) && i < |inodes|
    ensures Resolves(names[n := i], inodes)
    ensures Reads(names[n := i], inodes) == Reads(names, inodes)[n := inodes[i]]
  {
  }

  lemma ReadsDrop(names: map<Name, nat>, inodes: seq<Content>, n: Name)
    requires Resolves(names, inodes)
    ensures Resolves(names - {n}, inodes)
    ensures Reads(names - {n}, inodes) == Reads(names, inodes) - {n}
  {
  }

  lemma ReadsWriteOne(names: map<Name, nat>, inodes: seq<Content>, n: Name, c: Content)
    requires Resolves(names, inodes) && n in names
    requires forall m :: m in names && m != n ==> names[m] != names[n]
    ensures Reads(names, inodes[names[n] := c]) == Reads(names, inodes)[n := c]
  {
  }

  /** The file system itself. Names map to inodes and several names may share one; `budget`
      counts the operations left before the process is killed. */
  class Disk {
    var live: map<Name, nat>
    var tmp: map<Name, nat>
    var inodes: seq<Content>
    var budget: nat

    /** No name shares the inode of a temporary file. */
    ghost predicate Valid()
      reads this
    {
      && Resolves(live, inodes) && Resolves(tmp, inodes)
      && (forall t, n :: t in tmp && n in live ==> tmp[t] != live[n])
      && (forall t, u :: t in tmp && u in tmp && t != u ==> tmp[t] != tmp[u])
    }

    /** What every name reads. */
    function View(): (d: Dir)
      requires Valid()
      reads this
    {
      Dir(Reads(live, inodes), Reads(tmp, inodes))
    }

    /** A directory as it was downloaded: each file has an inode of its own. */
    constructor (budget: nat)
      ensures Valid() && View() == Dir(map[], map[]) && this.budget == budget
    {
      live, tmp, inodes, this.budget := map[], map[], [], budget;
    }

    /** Writing a temporary file, in place when a killed run left one: only its own inode
        changes, so no live name reads anything new, hardlinked or not. */
    method Write(n: Name, c: Content)
      requires Valid()
      modifies this`tmp, this`inodes
      ensures Valid() && n in tmp
      ensures View() == Dir(old(View()).live, old(View()).tmp[n := c])
    {
      if n in tmp {
        ReadsWrite(live, inodes, tmp[n], c);
        ReadsWriteOne(tmp, inodes, n, c);
        inodes := inodes[tmp[n] := c];
      } else {
        ReadsGrow(live, inodes, c);
        ReadsGrow(tmp, inodes, c);
        ReadsPoint(tmp, inodes + [c], n, |inodes|);
        tmp := tmp[n := |inodes|];
        inodes := inodes + [c];
      }
    }

    /** The name takes the temporary file's inode; every other name keeps its own. */
    method Replace(n: Name)
      requires Valid() && n in tmp
      modifies this`live, this`tmp
      ensures Valid()
      ensures live == old(live)[n := old(tmp)[n]] && tmp == old(tmp) - {n}
      ensures View() == Do(old(View()), Rename(n))
    {
      ReadsPoint(live, inodes, n, tmp[n]);
      ReadsDrop(tmp, inodes, n);
      live, tmp := live[n := tmp[n]], tmp - {n};
    }

    /** View() changes exactly as Do() says, although several live names may share an inode:
        publishing never changes what another name reads. */
    method Perform(op: Op)
      requires Valid()
      modifies this`live, this`tmp, this`inodes
      ensures Valid()
      ensures View() == Do(old(View()), op)
    {
      match op {
        case Create(n) =>
          Write(n, Torn);
        case Fill(n, c) =>
          Write(n, c);
        case Rename(n) =>
          if n in tmp {
            Replace(n);
          }
        case Link(s, t) =>
          if s in live && t !in live {
            ReadsPoint(live, inodes, t, live[s]);
            live := live[t := live[s]];
          }
      }
    }

    /** One operation, or the kill. */
    method Step(op: Op) returns (alive: bool)
      requires Valid()
      modifies this
      ensures Valid()
      ensures Ran(old(View()), old(budget), [op], View(), budget, alive)
    {
      assert Exec(View(), [op]) == Do(View(), op) by {
        assert [op][1..] == [];
      }
      if budget == 0 {
        return false;
      }
      Perform(op);
      budget := budget - 1;
      alive := true;
    }

    /** write_json, write_text, save_tensors, copy_atomic: write <name>.tmp, then publish it. */
    method WriteAndPublish(n: Name, c: Content) returns (alive: bool)
      requires Valid()
      modifies this
      ensures Valid()
      ensures Ran(old(View()), old(budget), OpsOf(Publish(n, c)), View(), budget, alive)
    {
      ghost var d0, k0 := View(), budget;
      alive := Step(Create(n));
      ghost var d1, k1 := View(), budget;
      if !alive {
        RanKilled(d0, k0, [Create(n)], d1, k1, [Fill(n, c), Rename(n)]);
        assert [Create(n)] + [Fill(n, c), Rename(n)] == OpsOf(Publish(n, c));
        return;
      }
      alive := Step(Fill(n, c));
      ghost var d2, k2 := View(), budget;
      RanThen(d0, k0, [Create(n)], d1, k1, [Fill(n, c)], d2, k2, alive);
      assert [Create(n)] + [Fill(n, c)] == [Create(n), Fill(n, c)];
      if !alive {
        RanKilled(d0, k0, [Create(n), Fill(n, c)], d2, k2, [Rename(n)]);
        assert [Create(n), Fill(n, c)] + [Rename(n)] == OpsOf(Publish(n, c));
        return;
      }
      alive := Step(Rename(n));
      RanThen(d0, k0, [Create(n), Fill(n, c)], d2, k2, [Rename(n)], View(), budget, alive);
      assert [Create(n), Fill(n, c)] + [Rename(n)] == OpsOf(Publish(n, c));
    }

    method LinkOnce(src: Name, dst: Name) returns (alive: bool)
      requires Valid()
      modifies this
      ensures Valid()
      ensures Ran(old(View()), old(budget), if dst in old(View()).live then [] else OpsOf(LinkTo(src, dst)),
                  View(), budget, alive)
    {
      if dst in live {
        return true;
      }
      alive := Step(Link(src, dst));
    }

    method KeepBackup(n: Name, suffix: string) returns (alive: bool)
      requires Valid() && n.File? && n in View().live
      modifies this
      ensures Valid()
      ensures Ran(old(View()), old(budget), Ops(BackupOnce(old(View()).live, n, suffix)), View(), budget, alive)
    {
      ghost var acts := BackupOnce(View().live, n, suffix);
      var b := Backup(n.dir, n.name, suffix);
      if b in live {
        return true;
      }
      assert acts[1..] == [] && Ops(acts) == OpsOf(acts[0]);
      alive := WriteAndPublish(b, inodes[live[n]]);
    }

    method Read(n: Name) returns (c: Option<Content>)
      requires Valid()
      ensures c == if n in View().live then Some(View().live[n]) else None
    {
      c := if n in live then Some(inodes[live[n]]) else None;
    }
  }
}
