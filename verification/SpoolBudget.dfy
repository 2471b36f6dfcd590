/** The spool directory's byte budget. Writers take turns under `spool.lock`, each
    measuring the directory one file at a time; the drain worker removes delivered
    hooks without that lock, and a crash leaves a temporary file behind. */
module SpoolBudget {
  datatype File = Hook(name: string) | Temp(name: string)

  type Directory = map<File, nat>

  datatype Writer =
    | Free
    | Measuring(path: string, len: nat, todo: seq<File>, size: nat)
    | Approved(path: string, len: nat)
    | Writing(path: string, len: nat, temp: string)

  datatype Spool = Spool(files: Directory, lock: Writer)

  datatype Step =
    | Acquire(path: string, len: nat, listing: seq<File>)
    | Measure
    | Approve
    | Refuse
    | CreateTemp(temp: string, written: nat)
    | Rename
    | Abandon
    | Crash
    | Remove(gone: set<string>)

  // ---- Bytes ----

  ghost function Total(files: Directory): nat
    decreases |files|
  {
    if files == map[] then 0
    else
      assert exists f :: f in files;
      var f :| f in files;
      files[f] + Total(files - {f})
  }

  ghost function HookBytes(files: Directory): nat {
    Total(map f | f in files && f.Hook? :: files[f])
  }

  /** What a writer of `path` still has to have counted besides `todo`. */
  ghost function Counted(files: Directory, path: string, todo: seq<File>): Directory {
    map f | f in files && f != Hook(path) && f !in todo :: files[f]
  }

  lemma {:induction false} TotalWithout(files: Directory, f: File)
    requires f in files
    ensures Total(files) == files[f] + Total(files - {f})
    decreases |files|
  {
    var g :| g in files && Total(files) == files[g] + Total(files - {g});
    if g != f {
      TotalWithout(files - {g}, f);
      TotalWithout(files - {f}, g);
      assert files - {g} - {f} == files - {f} - {g};
    }
  }

  predicate Within(a: Directory, b: Directory) {
    forall f :: f in a ==> f in b && a[f] == b[f]
  }

  lemma {:induction false} TotalWithin(a: Directory, b: Directory)
    requires Within(a, b)
    ensures Total(a) <= Total(b)
    decreases |b|
  {
    if b == map[] {
      assert a == map[];
    } else {
      var f :| f in b && Total(b) == b[f] + Total(b - {f});
      if f in a {
        TotalWithout(a, f);
        TotalWithin(a - {f}, b - {f});
      } else {
        TotalWithin(a, b - {f});
      }
    }
  }

  lemma HookBytesWithin(a: Directory, b: Directory)
    requires forall f :: f in a && f.Hook? ==> f in b && a[f] == b[f]
    ensures HookBytes(a) <= HookBytes(b) && HookBytes(a) <= Total(b)
  {
    TotalWithin(map f | f in a && f.Hook? :: a[f], map f | f in b && f.Hook? :: b[f]);
    TotalWithin(map f | f in a && f.Hook? :: a[f], b);
  }

  lemma HookBytesWrite(files: Directory, path: string, len: nat)
    ensures HookBytes(files[Hook(path) := len]) == HookBytes(files - {Hook(path)}) + len
  {
    var all := map f | f in files[Hook(path) := len] && f.Hook? :: files[Hook(path) := len][f];
    TotalWithout(all, Hook(path));
    assert all - {Hook(path)} == map f | f in files - {Hook(path)} && f.Hook? :: (files - {Hook(path)})[f];
  }

  // ---- Steps ----

  predicate Enabled(s: Spool, a: Step, limit: nat) {
    match a
    case Acquire(_, _, listing) => s.lock.Free? && forall f :: f in s.files ==> f in listing
    case Measure => s.lock.Measuring? && s.lock.todo != []
    case Approve => s.lock.Measuring? && s.lock.todo == [] && s.lock.size + s.lock.len <= limit
    case Refuse => s.lock.Measuring? && s.lock.todo == [] && s.lock.size + s.lock.len > limit
    case CreateTemp(temp, written) => s.lock.Approved? && Temp(temp) !in s.files && written <= s.lock.len
    case Rename | Abandon => s.lock.Writing?
    case Crash | Remove(_) => true
  }

  function SizeOf(files: Directory, f: File, path: string): nat {
    if f in files && f != Hook(path) then files[f] else 0
  }

  function Without(files: Directory, gone: set<string>): Directory {
    map f | f in files && !(f.Hook? && f.name in gone) :: files[f]
  }

  function Apply(s: Spool, a: Step, limit: nat): Spool
    requires Enabled(s, a, limit)
  {
    match a
    case Acquire(path, len, listing) => s.(lock := Measuring(path, len, listing, 0))
    case Measure =>
      var k := s.lock;
      s.(lock := k.(todo := k.todo[1..], size := k.size + SizeOf(s.files, k.todo[0], k.path)))
    case Approve => s.(lock := Approved(s.lock.path, s.lock.len))
    case Refuse => s.(lock := Free)
    case CreateTemp(temp, written) =>
      Spool(s.files[Temp(temp) := written], Writing(s.lock.path, s.lock.len, temp))
    case Rename => Spool((s.files - {Temp(s.lock.temp)})[Hook(s.lock.path) := s.lock.len], Free)
    case Abandon => Spool(s.files - {Temp(s.lock.temp)}, Free)
    case Crash => s.(lock := Free)
    case Remove(gone) => s.(files := Without(s.files, gone))
  }

  predicate Runs(s: Spool, steps: seq<Step>, s': Spool, limit: nat)
    decreases steps
  {
    if steps == [] then s == s'
    else Enabled(s, steps[0], limit) && Runs(Apply(s, steps[0], limit), steps[1..], s', limit)
  }

  // ---- The budget ----

  ghost predicate Budgeted(s: Spool, limit: nat) {
    && HookBytes(s.files) <= limit
    && match s.lock
       case Free => true
       case Measuring(path, _, todo, size) => Total(Counted(s.files, path, todo)) <= size
       case Approved(path, len) => HookBytes(s.files - {Hook(path)}) + len <= limit
       case Writing(path, len, _) => HookBytes(s.files - {Hook(path)}) + len <= limit
  }

  lemma MeasureOne(files: Directory, path: string, todo: seq<File>)
    requires todo != []
    ensures Total(Counted(files, path, todo[1..])) <=
            Total(Counted(files, path, todo)) + SizeOf(files, todo[0], path)
  {
    var f, after := todo[0], Counted(files, path, todo[1..]);
    assert todo == [f] + todo[1..];
    if f in after {
      TotalWithout(after, f);
      TotalWithin(after - {f}, Counted(files, path, todo));
    } else {
      TotalWithin(after, Counted(files, path, todo));
    }
  }

  lemma RemoveKeeps(s: Spool, gone: set<string>, limit: nat)
    requires Budgeted(s, limit)
    ensures Budgeted(s.(files := Without(s.files, gone)), limit)
  {
    var files := Without(s.files, gone);
    HookBytesWithin(files, s.files);
    match s.lock
    case Free =>
    case Measuring(path, _, todo, _) => TotalWithin(Counted(files, path, todo), Counted(s.files, path, todo));
    case Approved(path, _) => HookBytesWithin(files - {Hook(path)}, s.files - {Hook(path)});
    case Writing(path, _, _) => HookBytesWithin(files - {Hook(path)}, s.files - {Hook(path)});
  }

  lemma ApproveKeeps(s: Spool, limit: nat)
    requires Budgeted(s, limit) && Enabled(s, Approve, limit)
    ensures Budgeted(Apply(s, Approve, limit), limit)
  {
    HookBytesWithin(s.files - {Hook(s.lock.path)}, Counted(s.files, s.lock.path, []));
  }

  lemma AcquireKeeps(s: Spool, path: string, len: nat, listing: seq<File>, limit: nat)
    requires Budgeted(s, limit) && Enabled(s, Acquire(path, len, listing), limit)
    ensures Budgeted(Apply(s, Acquire(path, len, listing), limit), limit)
  {
    assert Counted(s.files, path, listing) == map[];
  }

  lemma CreateKeeps(s: Spool, temp: string, written: nat, limit: nat)
    requires Budgeted(s, limit) && Enabled(s, CreateTemp(temp, written), limit)
    ensures Budgeted(Apply(s, CreateTemp(temp, written), limit), limit)
  {
    var files := s.files[Temp(temp) := written];
    HookBytesWithin(files, s.files);
    HookBytesWithin(files - {Hook(s.lock.path)}, s.files - {Hook(s.lock.path)});
  }

  lemma RenameKeeps(s: Spool, limit: nat)
    requires Budgeted(s, limit) && s.lock.Writing?
    ensures Budgeted(Apply(s, Rename, limit), limit) && Budgeted(Apply(s, Abandon, limit), limit)
  {
    var files, path := s.files - {Temp(s.lock.temp)}, s.lock.path;
    HookBytesWithin(files, s.files);
    HookBytesWithin(files - {Hook(path)}, s.files - {Hook(path)});
    HookBytesWrite(files, path, s.lock.len);
  }

  lemma StepKeeps(s: Spool, a: Step, limit: nat)
    requires Budgeted(s, limit) && Enabled(s, a, limit)
    ensures Budgeted(Apply(s, a, limit), limit)
  {
    hide HookBytes, Counted, Without;
    match a
    case Acquire(path, len, listing) => AcquireKeeps(s, path, len, listing, limit);
    case Measure => MeasureOne(s.files, s.lock.path, s.lock.todo);
    case Approve => ApproveKeeps(s, limit);
    case CreateTemp(temp, written) => CreateKeeps(s, temp, written, limit);
    case Rename => RenameKeeps(s, limit);
    case Abandon => RenameKeeps(s, limit);
    case Remove(gone) => RemoveKeeps(s, gone, limit);
    case _ =>
  }

  /** The hook files never exceed the limit, however writers, removals and crashes interleave. */
  lemma {:induction false} BudgetKept(s: Spool, steps: seq<Step>, s': Spool, limit: nat)
    requires s.lock.Free? && HookBytes(s.files) <= limit && Runs(s, steps, s', limit)
    ensures HookBytes(s'.files) <= limit
  {
    RunKeeps(s, steps, s', limit);
  }

  lemma {:induction false} RunKeeps(s: Spool, steps: seq<Step>, s': Spool, limit: nat)
    requires Budgeted(s, limit) && Runs(s, steps, s', limit)
    ensures Budgeted(s', limit)
    decreases steps
  {
    if steps != [] {
      StepKeeps(s, steps[0], limit);
      RunKeeps(Apply(s, steps[0], limit), steps[1..], s', limit);
    }
  }

  // ---- No eviction ----

  predicate Removed(steps: seq<Step>, name: string) {
    exists i :: 0 <= i < |steps| && steps[i].Remove? && name in steps[i].gone
  }

  predicate Targeted(s: Spool, steps: seq<Step>, name: string) {
    || (!s.lock.Free? && s.lock.path == name)
    || exists i :: 0 <= i < |steps| && steps[i].Acquire? && steps[i].path == name
  }

  /** No writer changes another's hook file: one that no step removed, and no
      writer was writing, is as it was. */
  lemma {:induction false} NoEviction(s: Spool, steps: seq<Step>, s': Spool, limit: nat, name: string)
    requires Runs(s, steps, s', limit) && !Targeted(s, steps, name)
    ensures Hook(name) in s'.files ==> Hook(name) in s.files && s'.files[Hook(name)] == s.files[Hook(name)]
    ensures Hook(name) in s.files && !Removed(steps, name) ==> Hook(name) in s'.files
    decreases steps
  {
    if steps != [] {
      var a, rest := steps[0], steps[1..];
      var next := Apply(s, a, limit);
      forall i | 0 <= i < |rest| ensures rest[i] == steps[i + 1] {
      }
      assert !Targeted(next, rest, name);
      assert Removed(rest, name) ==> Removed(steps, name);
      NoEviction(next, rest, s', limit, name);
    }
  }

  // ---- Files a crash leaves behind ----

  predicate Leftover(s: Spool, temp: string) {
    Temp(temp) in s.files && !(s.lock.Writing? && s.lock.temp == temp)
  }

  ghost predicate Charged(s: Spool, temp: string) {
    Leftover(s, temp) &&
    match s.lock
    case Measuring(_, _, todo, size) => Temp(temp) !in todo ==> s.files[Temp(temp)] <= size
    case _ => true
  }

  /** A temporary file left by a crash is never removed, and uses up the budget of
      every later write: a write is approved only if it fits beside the leftover. */
  lemma {:induction false} LeftoverIsCharged(s: Spool, steps: seq<Step>, s': Spool, limit: nat, temp: string)
    requires s.lock.Free? && Leftover(s, temp) && Runs(s, steps, s', limit)
    ensures Leftover(s', temp) && s'.files[Temp(temp)] == s.files[Temp(temp)]
    ensures Enabled(s', Approve, limit) ==> s.files[Temp(temp)] + s'.lock.len <= limit
  {
    ChargedKept(s, steps, s', limit, temp);
  }

  /** A writer that dies with its temporary file written: for ever after, only an empty
      write is approved, though there is not one hook file. */
  lemma CrashFillsSpool(temp: string, limit: nat) returns (steps: seq<Step>, left: Spool)
    ensures Runs(Spool(map[], Free), steps, left, limit)
    ensures left.lock.Free? && Leftover(left, temp) && left.files == map[Temp(temp) := limit]
    ensures forall more, s' :: Runs(left, more, s', limit) && Enabled(s', Approve, limit) ==> s'.lock.len == 0
  {
    var s0 := Spool(map[], Free);
    steps := [Acquire("hook", limit, []), Approve, CreateTemp(temp, limit), Crash];
    var s1 := Apply(s0, steps[0], limit);
    var s2 := Apply(s1, steps[1], limit);
    var s3 := Apply(s2, steps[2], limit);
    left := Apply(s3, steps[3], limit);
    assert steps[1..] == [Approve, CreateTemp(temp, limit), Crash];
    assert steps[1..][1..] == [CreateTemp(temp, limit), Crash] && steps[1..][1..][1..] == [Crash];
    assert Runs(left, [], left, limit) && Runs(s3, [Crash], left, limit);
    assert Runs(s2, [CreateTemp(temp, limit), Crash], left, limit);
    assert Runs(s1, steps[1..], left, limit);
    forall more, s' | Runs(left, more, s', limit) && Enabled(s', Approve, limit) ensures s'.lock.len == 0 {
      LeftoverIsCharged(left, more, s', limit, temp);
    }
  }

  lemma {:induction false} ChargedKept(s: Spool, steps: seq<Step>, s': Spool, limit: nat, temp: string)
    requires Charged(s, temp) && Runs(s, steps, s', limit)
    ensures Charged(s', temp) && s'.files[Temp(temp)] == s.files[Temp(temp)]
    decreases steps
  {
    if steps != [] {
      var a := steps[0];
      var next := Apply(s, a, limit);
      if a.Measure? {
        assert s.lock.todo == [s.lock.todo[0]] + s.lock.todo[1..];
      }
      assert Charged(next, temp);
      ChargedKept(next, steps[1..], s', limit, temp);
    }
  }

  // ---- The writer as it runs ----

  class SpoolDirectory {
    var files: Directory
    const limit: nat

    ghost predicate Valid()
      reads this
    {
      HookBytes(files) <= limit
    }

    constructor (limit: nat)
      ensures Valid() && files == map[] && this.limit == limit
    {
      files, this.limit := map[], limit;
    }

    /** The drain worker removes delivered hooks, taking no part in the lock. */
    method RemoveHooks(gone: set<string>, ghost lock: Writer)
      requires Budgeted(Spool(files, lock), limit)
      modifies this`files
      ensures Budgeted(Spool(files, lock), limit) && files == Without(old(files), gone)
    {
      RemoveKeeps(Spool(files, lock), gone, limit);
      files := Without(files, gone);
    }

    method ReadDir() returns (listing: seq<File>)
      ensures forall f :: f in files ==> f in listing
      ensures forall i :: 0 <= i < |listing| ==> listing[i] in files
      ensures forall i, j :: 0 <= i < j < |listing| ==> listing[i] != listing[j]
    {
      listing := [];
      var rest := files.Keys;
      while rest != {}
        invariant rest <= files.Keys
        invariant forall f :: f in files && f !in rest ==> f in listing
        invariant forall i :: 0 <= i < |listing| ==> listing[i] in files && listing[i] !in rest
        invariant forall i, j :: 0 <= i < j < |listing| ==> listing[i] != listing[j]
        decreases rest
      {
        var f :| f in rest;
        listing := listing + [f];
        rest := rest - {f};
      }
    }

    /** Adds up the directory one file at a time, the worker removing `gone(i)` meanwhile. */
    method MeasureFiles(path: string, ghost len: nat, gone: nat -> set<string>) returns (size: nat)
      requires Valid()
      modifies this`files
      ensures Budgeted(Spool(files, Measuring(path, len, [], size)), limit)
      ensures Within(files, old(files)) && RemovedBy(old(files), files, gone)
      ensures Undisturbed(gone) ==> files == old(files) && size == Total(files - {Hook(path)})
    {
      hide HookBytes, Total, Without, Within, RemovedBy, Budgeted, Counted, SizeOf;
      size := 0;
      var listing := ReadDir();
      AcquireKeeps(Spool(files, Free), path, len, listing, limit);
      AllUncounted(files, path, listing);
      NothingRemoved(files, gone);
      for k := 0 to |listing|
        invariant Within(files, old(files)) && RemovedBy(old(files), files, gone)
        invariant Budgeted(Spool(files, Measuring(path, len, listing[k..], size)), limit)
        invariant Undisturbed(gone) ==> files == old(files) && size == Total(Counted(files, path, listing[k..]))
      {
        MeasureKeeps(files, path, len, listing, k, size, limit);
        MeasureExactly(files, path, listing, k);
        size := size + SizeOf(files, listing[k], path);
        ghost var before := files;
        RemoveHooks(gone(k), Measuring(path, len, listing[k + 1..], size));
        RemovedMore(old(files), before, files, gone, k);
      }
      assert listing[|listing|..] == [];
      AllCounted(files, path);
    }

    /** The measured bytes allow `path` to be replaced, through a temporary file. */
    method ReplaceFile(path: string, len: nat, temp: string, gone: set<string>, fails: bool)
      requires Budgeted(Spool(files, Approved(path, len)), limit) && Temp(temp) !in files
      modifies this`files
      ensures Valid()
      ensures var kept := Without(old(files), gone); files == if fails then kept else kept[Hook(path) := len]
    {
      hide HookBytes;
      CreateKeeps(Spool(files, Approved(path, len)), temp, len, limit);
      files := files[Temp(temp) := len];
      RemoveHooks(gone, Writing(path, len, temp));
      RenameKeeps(Spool(files, Writing(path, len, temp)), limit);
      files := files - {Temp(temp)};
      assert files == Without(old(files), gone);
      if !fails {
        files := files[Hook(path) := len];
      }
    }

    /** Writes a hook file of `len` bytes, the worker removing hooks meanwhile.
        `fails` is a failing write. */
    method WriteEnvelope(path: string, len: nat, temp: string, gone: nat -> set<string>, fails: bool)
      returns (ok: bool)
      requires Valid() && Temp(temp) !in files
      modifies this`files
      ensures Valid()
      ensures ok ==> Hook(path) in files && files[Hook(path)] == len
      ensures Within(if ok then files - {Hook(path)} else files, old(files))
      ensures RemovedBy(old(files), files, gone)
      ensures Undisturbed(gone) && !fails ==> (ok <==> Total(old(files) - {Hook(path)}) + len <= limit)
    {
      hide HookBytes, Total, Without;
      var size := MeasureFiles(path, len, gone);
      if size + len > limit {
        return false;
      }
      ApproveKeeps(Spool(files, Measuring(path, len, [], size)), limit);
      WithoutOnly(files, gone(0));
      ReplaceFile(path, len, temp, gone(0), fails);
      ok := !fails;
    }
  }

  ghost predicate Undisturbed(gone: nat -> set<string>) {
    forall i :: gone(i) == {}
  }

  /** Whatever is missing from `files` is a hook the worker removed. */
  ghost predicate RemovedBy(before: Directory, files: Directory, gone: nat -> set<string>) {
    forall f :: f in before && f !in files ==> f.Hook? && exists i :: f.name in gone(i)
  }

  lemma AllUncounted(files: Directory, path: string, listing: seq<File>)
    requires forall f :: f in files ==> f in listing
    ensures Total(Counted(files, path, listing)) == 0
  {
    assert Counted(files, path, listing) == map[];
  }

  lemma AllCounted(files: Directory, path: string)
    ensures Counted(files, path, []) == files - {Hook(path)}
  {
  }

  lemma NothingRemoved(files: Directory, gone: nat -> set<string>)
    ensures Within(files, files) && RemovedBy(files, files, gone)
  {
  }

  lemma RemovedMore(first: Directory, before: Directory, files: Directory, gone: nat -> set<string>, k: nat)
    requires files == Without(before, gone(k)) && Within(before, first) && RemovedBy(first, before, gone)
    ensures Within(files, first) && RemovedBy(first, files, gone)
    ensures Undisturbed(gone) ==> files == before
  {
    assert Undisturbed(gone) ==> gone(k) == {};
  }

  lemma MeasureKeeps(files: Directory, path: string, len: nat, listing: seq<File>, k: nat, size: nat, limit: nat)
    requires k < |listing| && Budgeted(Spool(files, Measuring(path, len, listing[k..], size)), limit)
    ensures Budgeted(Spool(files, Measuring(path, len, listing[k + 1..], size + SizeOf(files, listing[k], path))), limit)
  {
    hide HookBytes, Total, Counted;
    MeasureOne(files, path, listing[k..]);
    assert listing[k..][1..] == listing[k + 1..];
  }

  lemma WithoutOnly(files: Directory, gone: set<string>)
    ensures Within(Without(files, gone), files)
    ensures forall f :: f in files && f !in Without(files, gone) ==> f.Hook? && f.name in gone
  {
  }

  lemma MeasureExactly(files: Directory, path: string, listing: seq<File>, k: nat)
    requires k < |listing|
    requires forall i, j :: 0 <= i < j < |listing| ==> listing[i] != listing[j]
    ensures Total(Counted(files, path, listing[k + 1..])) ==
            Total(Counted(files, path, listing[k..])) + SizeOf(files, listing[k], path)
  {
    var f, before, after := listing[k], Counted(files, path, listing[k..]), Counted(files, path, listing[k + 1..]);
    assert listing[k..] == [f] + listing[k + 1..];
    assert f !in listing[k + 1..];
    if f in after {
      TotalWithout(after, f);
      assert after - {f} == before;
    } else {
      assert after == before;
    }
  }
}
