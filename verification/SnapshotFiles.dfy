/**
 The two files a snapshot lives in, and what is on disk when writing it is cut short: the current
 generation is renamed to the backup, then the new one replaces it (`_write_snapshot`, `load`).
 */
module SnapshotFiles {
  import opened Wrappers

  /** A durable document: no file, a file that fails its checks, or a body that passes them. */
  datatype Document<+T> = Missing | Unusable | Stored(body: T)

  datatype Files<+T> = Files(primary: Document<T>, backup: Document<T>)

  datatype Flags = Flags(restoredFromBackup: bool, snapshotCorrupt: bool)

  const FRESH_FLAGS := Flags(false, false)

  /**
   How far the durable writes of one operation get: `left` of them succeed, and the next one
   raises an OSError without effect or, when `crash` is set, never happens because the process dies.
   */
  datatype Luck = Luck(left: nat, crash: bool)
  {
    function Fate(): Fate { if crash then Crashed else Raised }
    function Spent(): Luck { if left > 0 then this.(left := left - 1) else this }
  }

  datatype Fate = Done | Raised | Crashed

  datatype Written<+T> = Written(files: Files<T>, flags: Flags, fate: Fate, luck: Luck)

  predicate Rotates<T>(f: Files<T>, g: Flags) {
    !f.primary.Missing? && !g.restoredFromBackup && !g.snapshotCorrupt
  }

  function Rotated<T>(f: Files<T>): Files<T> { Files(Missing, f.primary) }

  function WriteSnapshot<T>(f: Files<T>, g: Flags, body: T, luck: Luck): (w: Written<T>) {
    if Rotates(f, g) && luck.left == 0 then Written(f, g, luck.Fate(), luck) else
    var (f', luck') := if Rotates(f, g) then (Rotated(f), luck.Spent()) else (f, luck);
    if luck'.left == 0 then Written(f', g, luck'.Fate(), luck')
    else Written(f'.(primary := Stored(body)), FRESH_FLAGS, Done, luck'.Spent())
  }

  /** The body `load` restores, if any. */
  function Recoverable<T>(f: Files<T>): Option<T> {
    if f.primary.Stored? then Some(f.primary.body)
    else if f.backup.Stored? then Some(f.backup.body)
    else None
  }

  /** The flags a fresh registry has after `load`. */
  function LoadFlags<T>(f: Files<T>): Flags {
    if f.primary.Stored? then FRESH_FLAGS
    else if f.backup.Stored? then Flags(true, false)
    else Flags(false, !(f.primary.Missing? && f.backup.Missing?))
  }

  /** A write that succeeds is what a reader finds, and one that does not leaves what it found before. */
  lemma WriteRecovers<T(!new)>(f: Files<T>, g: Flags, body: T, luck: Luck)
    requires !f.primary.Unusable? && !f.backup.Unusable?
    ensures var w := WriteSnapshot(f, g, body, luck);
      && Recoverable(w.files) == (if w.fate == Done then Some(body) else Recoverable(f))
      && !w.files.primary.Unusable? && !w.files.backup.Unusable?
      && (w.files.primary.Stored? ==> w.files.primary.body == body || w.files.primary == f.primary)
      && (w.files.backup.Stored? ==> w.files.backup == f.primary || w.files.backup == f.backup)
      && (!luck.crash ==> w.fate != Crashed)
  {
  }

  // ---- runs of writes, crashes, restarts and damage ----

  /** What may happen to the files; Damage makes the primary unreadable, at any time. */
  datatype Event<T> = Write(body: T, luck: Luck) | Restart | Damage

  /** `committed` and `previous` are the last two generations that a reader is owed. */
  datatype History<T> = History(files: Files<T>, flags: Flags, committed: Option<T>, previous: Option<T>)

  function NoHistory<T>(): History<T> {
    History(Files(Missing, Missing), FRESH_FLAGS, None, None)
  }

  function Step<T>(s: History<T>, e: Event<T>): History<T> {
    match e
    case Write(body, luck) =>
      var w := WriteSnapshot(s.files, s.flags, body, luck);
      match w.fate {
        case Done => History(w.files, w.flags, Some(body), s.committed)
        case Raised => s.(files := w.files, flags := w.flags)
        case Crashed => s.(files := w.files, flags := LoadFlags(w.files))
      }
    case Restart => s.(flags := LoadFlags(s.files))
    case Damage =>
      if s.files.primary.Stored? then s.(files := s.files.(primary := Unusable), committed := s.previous) else s
  }

  function Run<T>(s: History<T>, es: seq<Event<T>>): History<T>
    decreases |es|
  {
    if es == [] then s else Run(Step(s, es[0]), es[1..])
  }

  function AsDocument<T>(b: Option<T>): Document<T> {
    match b case None => Missing case Some(body) => Stored(body)
  }

  /** The process has loaded the files since their primary was damaged, if it was. */
  predicate Aware<T>(s: History<T>) {
    s.files.primary.Unusable? ==> s.flags.restoredFromBackup || s.flags.snapshotCorrupt
  }

  /**
   The two generations: a readable primary is the last commit and the backup is the one before it;
   otherwise the backup is the last commit.
   */
  ghost predicate Generations<T(!new)>(s: History<T>) {
    && (s.files.primary.Stored? ==>
        s.committed == Some(s.files.primary.body) && s.files.backup == AsDocument(s.previous) && s.flags == FRESH_FLAGS)
    && (!s.files.primary.Stored? ==> s.files.backup == AsDocument(s.committed))
  }

  /** No write happens between damage and the next load. */
  predicate Careful<T>(s: History<T>, es: seq<Event<T>>)
    decreases |es|
  {
    es == [] || ((es[0].Write? ==> Aware(s)) && Careful(Step(s, es[0]), es[1..]))
  }

  lemma StepKeepsGenerations<T(!new)>(s: History<T>, e: Event<T>)
    requires Generations(s) && (e.Write? ==> Aware(s))
    ensures Generations(Step(s, e)) && (e.Restart? ==> Aware(Step(s, e)))
  {
  }

  /**
   At every point of every such run, loading recovers exactly the last committed snapshot: a failed
   or interrupted write loses nothing, and damage to the primary costs one generation.  The backup
   is never replaced by an unreadable file.
   */
  lemma {:induction false} CrashSafety<T(!new)>(s: History<T>, es: seq<Event<T>>)
    requires Generations(s) && Careful(s, es)
    ensures var r := Run(s, es);
      && Generations(r) && Recoverable(r.files) == r.committed && !r.files.backup.Unusable?
    decreases |es|
  {
    if es != [] {
      StepKeepsGenerations(s, es[0]);
      CrashSafety(Step(s, es[0]), es[1..]);
    }
  }

  /** From no files at all. */
  lemma CrashSafetyFromNothing<T(!new)>(es: seq<Event<T>>)
    requires Careful(NoHistory<T>(), es)
    ensures var r := Run(NoHistory<T>(), es); Recoverable(r.files) == r.committed && !r.files.backup.Unusable?
  {
    assert Generations(NoHistory<T>());
    CrashSafety(NoHistory<T>(), es);
  }

  // ---- damage while the process runs ----

  /** A reader finds the new body after a write that was done, and the good backup after any other. */
  ghost predicate KeepsBackup<T(!new)>(f: Files<T>, g: Flags, body: T, luck: Luck) {
    var w := WriteSnapshot(f, g, body, luck);
    Recoverable(w.files) == (if w.fate == Done then Some(body) else Recoverable(f)) && !w.files.backup.Unusable?
  }

  /**
   With an unreadable primary, every possible write keeps the good backup if and only if the process
   has loaded the files since the damage: otherwise the unreadable file is rotated over it.
   */
  lemma BackupSurvivesIff<T(!new)>(s: History<T>, body: T)
    requires Generations(s) && s.files.primary.Unusable?
    ensures (forall luck :: KeepsBackup(s.files, s.flags, body, luck)) <==> Aware(s)
  {
    if !Aware(s) {
      assert !KeepsBackup(s.files, s.flags, body, Luck(1, false));
    }
  }

  /** Two commits, damage to a live process, and a write that fails half way: nothing is left to read. */
  lemma LiveDamageLosesAll<T(!new)>(a: T, b: T, c: T)
    ensures var r := Run(NoHistory<T>(), [Write(a, Luck(9, false)), Write(b, Luck(9, false)), Damage, Write(c, Luck(1, false))]);
      r.files == Files(Missing, Unusable) && Recoverable(r.files) == None && r.committed == Some(a)
  {
    var s0 := NoHistory<T>();
    var s1 := Step(s0, Write(a, Luck(9, false)));
    var s2 := Step(s1, Write(b, Luck(9, false)));
    var s3 := Step(s2, Damage);
    var s4 := Step(s3, Write(c, Luck(1, false)));
    assert s2.files == Files(Stored(b), Stored(a)) && s3.files == Files(Unusable, Stored(a));
    var es := [Write(a, Luck(9, false)), Write(b, Luck(9, false)), Damage, Write(c, Luck(1, false))];
    assert Run(s0, es) == Run(s1, es[1..]) == Run(s2, es[1..][1..]) == Run(s3, es[1..][1..][1..]) == Run(s4, es[1..][1..][1..][1..]) == s4;
  }
}
