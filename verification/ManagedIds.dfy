/** The data ids of managed databases over the boots of src/datadir-migrate.ts: a registration is shared by
    all branches of its project, and each branch's directory is named after its id. */
module ManagedIds {

  datatype Option<T> = None | Some(value: T)

  type DataId = string
  type Ref = string

  /** A registration; one from before the data directory has no id. */
  datatype Reg = Reg(service: string, kind: string, dataId: Option<DataId>)

  /** `md/<ref>/<kind>-<dataId>`. */
  datatype Dir = Dir(ref: Ref, kind: string, dataId: DataId)

  /** The directory every operation derives for a branch, from what the registration says by then. */
  function DirOf(ref: Ref, reg: Reg): Option<Dir> {
    if reg.dataId.None? then None else Some(Dir(ref, reg.kind, reg.dataId.value))
  }

  /** Registrations are added; none is ever given another kind or another id. */
  predicate Settled(was: seq<Reg>, now: seq<Reg>) {
    && |was| <= |now|
    && forall n :: 0 <= n < |was| ==> now[n].(dataId := None) == was[n].(dataId := None) && (was[n].dataId.Some? ==> now[n] == was[n])
  }

  function Backfilled(regs: seq<Reg>, mint: nat -> DataId): (out: seq<Reg>)
    ensures |out| == |regs|
    ensures forall n :: 0 <= n < |regs| ==> out[n] == if regs[n].dataId.None? then regs[n].(dataId := Some(mint(n))) else regs[n]
  {
    seq(|regs|, n requires 0 <= n < |regs| => if regs[n].dataId.None? then regs[n].(dataId := Some(mint(n))) else regs[n])
  }

  /** What a boot meets: the draws of its backfill, the registrations that appear after it and before the
      state is read for the loop, those that appear while a branch is migrated, and how many registrations
      each branch gets through before its migration ends. */
  datatype Boot = Boot(mint: nat -> DataId, between: seq<Reg>, refs: seq<Ref>, during: nat -> seq<Reg>, ends: nat -> nat)

  class Install {
    var regs: seq<Reg>
    /** The directory each branch's bytes of a registration were copied under. */
    var copied: map<(Ref, nat), Dir>
    var stamped: set<Ref>

    constructor (regs: seq<Reg>)
      ensures this.regs == regs && copied == map[] && stamped == {}
    {
      this.regs, copied, stamped := regs, map[], {};
    }

    /** Where the bytes were put is where the next operation looks for them. */
    ghost predicate Valid()
      reads this
    {
      forall k :: k in copied ==> k.1 < |regs| && DirOf(k.0, regs[k.1]) == Some(copied[k])
    }

    /** No two branches share a directory, and in one branch no two registrations of different ids. */
    ghost predicate OwnDirectories()
      requires Valid()
      reads this
    {
      forall a, b :: a in copied && b in copied && copied[a] == copied[b] ==> a.0 == b.0 && regs[a.1].dataId == regs[b.1].dataId
    }

    /** `backfillManagedDataIds`. */
    method Backfill(mint: nat -> DataId)
      modifies this`regs
      ensures regs == Backfilled(old(regs), mint)
    {
      var n := 0;
      while n < |regs|
        invariant 0 <= n <= |regs| == |old(regs)|
        invariant forall m :: 0 <= m < |regs| ==> regs[m] == if m < n then Backfilled(old(regs), mint)[m] else old(regs)[m]
      {
        if regs[n].dataId.None? {
          regs := regs[n := regs[n].(dataId := Some(mint(n)))];
        }
        n := n + 1;
      }
    }

    /** Somebody adds services meanwhile, with or without an id. */
    method Appear(more: seq<Reg>)
      requires Valid()
      modifies this`regs
      ensures regs == old(regs) + more && Valid()
    {
      regs := regs + more;
    }

    /** The loop over the registrations of the snapshot, for one branch: what has no id is passed over. */
    method MigrateManaged(ref: Ref, snapshot: seq<Reg>, end: nat) returns (through: bool)
      requires Valid() && Settled(snapshot, regs)
      modifies this`copied
      ensures Valid()
      ensures forall k :: k in old(copied) ==> k in copied && copied[k] == old(copied)[k]
      ensures through ==> forall m :: 0 <= m < |snapshot| && snapshot[m].dataId.Some? ==> (ref, m) in copied
      ensures forall k :: k in copied && k !in old(copied) ==> k.0 == ref && k.1 < |snapshot| && snapshot[k.1].dataId.Some?
    {
      var m := 0;
      while m < |snapshot|
        invariant 0 <= m <= |snapshot| && Valid()
        invariant forall k :: k in old(copied) ==> k in copied && copied[k] == old(copied)[k]
        invariant forall l :: 0 <= l < m && snapshot[l].dataId.Some? ==> (ref, l) in copied
        invariant forall k :: k in copied && k !in old(copied) ==> k.0 == ref && k.1 < |snapshot| && snapshot[k.1].dataId.Some?
      {
        if m == end {
          return false;
        }
        if snapshot[m].dataId.Some? {
          assert regs[m] == snapshot[m];
          copied := copied[(ref, m) := Dir(ref, snapshot[m].kind, snapshot[m].dataId.value)];
        }
        m := m + 1;
      }
      through := true;
    }

    /** `migrateLegacyData`. A branch that is copied again is copied under the directory it was copied under
        before, which is the one any later operation derives; one that is stamped has every registration
        there was when the boot began. */
    method Migrate(boot: Boot)
      requires Valid()
      modifies this
      ensures Valid() && Settled(old(regs), regs) && old(stamped) <= stamped && OwnDirectories()
      ensures forall k :: k in old(copied) ==> k in copied && copied[k] == old(copied)[k]
      ensures forall ref, m :: ref in stamped && ref !in old(stamped) && 0 <= m < |old(regs)| ==> (ref, m) in copied
    {
      Backfill(boot.mint);
      Appear(boot.between);
      var snapshot := regs;
      var n := 0;
      while n < |boot.refs|
        invariant 0 <= n <= |boot.refs| && Valid() && Settled(old(regs), snapshot) && Settled(snapshot, regs) && old(stamped) <= stamped
        invariant forall m :: 0 <= m < |old(regs)| ==> m < |snapshot| && snapshot[m].dataId.Some?
        invariant forall k :: k in old(copied) ==> k in copied && copied[k] == old(copied)[k]
        invariant forall ref, m :: ref in stamped && ref !in old(stamped) && 0 <= m < |old(regs)| ==> (ref, m) in copied
      {
        Appear(boot.during(n));
        if boot.refs[n] !in stamped {
          var through := MigrateManaged(boot.refs[n], snapshot, boot.ends(n));
          if through {
            stamped := stamped + {boot.refs[n]};
          }
        }
        n := n + 1;
      }
    }

    /** Any number of boots, each ending where it may. */
    method Boots(boots: seq<Boot>)
      requires Valid()
      modifies this
      ensures Valid() && Settled(old(regs), regs) && OwnDirectories()
      ensures forall k :: k in old(copied) ==> k in copied && copied[k] == old(copied)[k]
    {
      var n := 0;
      while n < |boots|
        invariant 0 <= n <= |boots| && Valid() && Settled(old(regs), regs)
        invariant forall k :: k in old(copied) ==> k in copied && copied[k] == old(copied)[k]
      {
        Migrate(boots[n]);
        n := n + 1;
      }
    }
  }

  /** Minting inside the branch loop instead: the loop reads a registration without an id, so every branch
      draws one of its own and writes it to the row. */
  function LoopMinted(reg: Reg, refs: seq<Ref>, draw: nat -> DataId): (Reg, seq<Dir>) {
    if refs == [] then (reg, [])
    else
      var n := |refs| - 1;
      var (_, dirs) := LoopMinted(reg, refs[..n], draw);
      (reg.(dataId := Some(draw(n))), dirs + [Dir(refs[n], reg.kind, draw(n))])
  }

  /** Then a branch's bytes are found again exactly when it drew what the last branch drew. */
  lemma {:induction false} MintingInTheLoopStrands(reg: Reg, refs: seq<Ref>, draw: nat -> DataId, n: nat)
    requires n < |refs|
    ensures var (last, dirs) := LoopMinted(reg, refs, draw);
            |dirs| == |refs| && (DirOf(refs[n], last) == Some(dirs[n]) <==> draw(n) == draw(|refs| - 1))
  {
    LoopDirs(reg, refs, draw);
  }

  lemma {:induction false} LoopDirs(reg: Reg, refs: seq<Ref>, draw: nat -> DataId)
    ensures var (last, dirs) := LoopMinted(reg, refs, draw);
            && |dirs| == |refs| && last.kind == reg.kind
            && (refs != [] ==> last.dataId == Some(draw(|refs| - 1)))
            && forall m :: 0 <= m < |refs| ==> dirs[m] == Dir(refs[m], reg.kind, draw(m))
  {
    if refs != [] {
      LoopDirs(reg, refs[..|refs| - 1], draw);
    }
  }
}
