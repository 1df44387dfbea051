/** The boot migration of src/datadir-migrate.ts for one branch: bytes that live in a docker container
    or volume are copied under the data directory, and only then is their old home removed.

    Every docker and filesystem step draws its outcome from `env`, and a crash may land in any of them;
    the next boot starts over from whatever the disk and docker then hold. */
module Migration {

  datatype Option<T> = None | Some(value: T)

  /** The bytes of one directory, compared for equality only; 0 stands for "no files at all". */
  type Bytes = nat

  /** A directory: absent, holding an unfinished tree, or whole. `looksWhole` is whether an unfinished
      PGDATA nevertheless passes the three-file completeness test, `empty` whether it lists nothing. */
  datatype Dir = Missing | Partial(looksWhole: bool, empty: bool) | Whole(bytes: Bytes)

  predicate LooksComplete(d: Dir) {
    d.Whole? || (d.Partial? && d.looksWhole)
  }

  predicate IsEmptyOrMissing(d: Dir) {
    d.Missing? || (d.Partial? && d.empty) || d == Whole(0)
  }

  /** One set of bytes: where it comes from (while that still exists), its staging directory and its
      destination. */
  datatype Store = Store(source: Option<Bytes>, staging: Dir, target: Dir)

  /** Nothing but the directories of `p` differs. */
  ghost predicate OnlyDirs(before: map<Place, Store>, after: map<Place, Store>, p: Place) {
    && p in before && before.Keys == after.Keys
    && (forall q :: q in before && q != p ==> after[q] == before[q])
    && after[p].source == before[p].source
  }

  /** The bytes that have to survive: the source's, or what a finished copy of it holds. */
  function Content(s: Store): Option<Bytes> {
    if s.source.Some? then s.source else if s.target.Whole? then Some(s.target.bytes) else None
  }

  datatype Place = Pg | Vol(i: nat) | Md(j: nat, k: nat)

  datatype Handle = Legacy | Fresh

  /** `databases['pg-db']` on the branch row. */
  datatype Row = NoRow | Row(container: Handle, idRecorded: bool)

  datatype Postgres = Postgres(legacyRunning: bool, replacement: Option<bool>, row: Row)

  /** The app container of a compute group, by what its `/data` is mounted from. */
  datatype App = NoApp | OnVolume | OnBind

  datatype Managed = Managed(container: Option<bool>, onBind: bool, paths: nat, password: bool)

  datatype Reply = Works | Refuses | Unanswered | CrashBefore | CrashMidway(looksWhole: bool, empty: bool) | CrashAfter

  /** The outcome of a step: a value, an error that fails the branch, or the end of the daemon. */
  datatype Step<+T> = Done(value: T) | Raised | Crashed {
    predicate IsFailure() { !Done? }

    function PropagateFailure<U>(): Step<U>
      requires IsFailure()
    {
      if Raised? then Step<U>.Raised else Step<U>.Crashed
    }

    function Extract(): T
      requires Done?
    {
      value
    }
  }

  // ---- what holds at every moment --------------------------------------------------------------

  ghost predicate Safe(stores: map<Place, Store>, origin: map<Place, Option<Bytes>>) {
    stores.Keys == origin.Keys && forall p :: p in stores ==> Content(stores[p]) == origin[p]
  }

  /** A finished destination beside a postgres source holds the source's bytes (nothing wrote the
      source since the copy), an unfinished one does not pass for finished, and a replacement
      container, or a row that names it, stands on a whole directory. */
  predicate PgOk(s: Store, pg: Postgres) {
    && (s.source.Some? && s.target.Whole? ==> s.target.bytes == s.source.value)
    && (s.target.Partial? ==> !s.target.looksWhole)
    && (pg.replacement.Some? ==> s.target.Whole?)
    && (pg.row.Row? && pg.row.container.Fresh? ==> s.target.Whole?)
  }

  /** An app on the bind mount reads a finished copy, and where no app names either copy the
      destination is either untouched or a finished copy. */
  predicate VolOk(s: Store, app: App) {
    && (app.OnBind? && s.source.Some? ==> s.target == Whole(s.source.value))
    && (app.NoApp? && s.source.Some? ==> IsEmptyOrMissing(s.target) || s.target == Whole(s.source.value))
  }

  /** The bytes of a managed database come from its container until that is re-created. */
  predicate MdOk(s: Store, m: Managed) {
    s.source.Some? <==> m.container.Some? && !m.onBind
  }

  /** Disk and docker, as far as a boot goes by them. */
  datatype Disk = Disk(stores: map<Place, Store>, pg: Postgres, vols: seq<App>, mds: seq<Managed>)

  // ---- what an uninterrupted boot does ---------------------------------------------------------

  predicate LegacyExists(s: Store, pg: Postgres) {
    s.source.Some? && !(pg.row.Row? && pg.row.container.Fresh?)
  }

  predicate PgSettled(s: Store, pg: Postgres) {
    !LegacyExists(s, pg) && pg.replacement.Some? && pg.row == Row(Fresh, true)
  }

  predicate PgHasWork(s: Store, pg: Postgres) {
    !PgSettled(s, pg) && (LegacyExists(s, pg) || LooksComplete(s.target))
  }

  function PgBoot(s: Store, pg: Postgres): (Store, Postgres) {
    if !PgHasWork(s, pg) then (s, pg)
    else
      var row := if pg.row.Row? then Row(Fresh, true) else NoRow;
      if LegacyExists(s, pg) then
        (if LooksComplete(s.target) then s.(source := None) else Store(None, Missing, Whole(s.source.value)),
         Postgres(false, Some(pg.legacyRunning), row))
      else
        (s, pg.(replacement := Some(if pg.replacement.Some? then pg.replacement.value else true), row := row))
  }

  /** What is left of postgres is what an uninterrupted boot leaves, but for the container it stopped. */
  ghost predicate PgBooted(before: map<Place, Store>, was: Postgres, after: map<Place, Store>, now: Postgres) {
    && Pg in before && Pg in after
    && (after[Pg], now.replacement, now.row) == (PgBoot(before[Pg], was).0, PgBoot(before[Pg], was).1.replacement, PgBoot(before[Pg], was).1.row)
  }

  /** Something lies at the destination and no app names either copy. */
  predicate Ambiguous(s: Store, app: App) {
    app.NoApp? && !IsEmptyOrMissing(s.target)
  }

  function VolBoot(s: Store, app: App): (Store, App) {
    if s.source.None? then (s, app)
    else if app.OnBind? then (s.(source := None), app)
    else if Ambiguous(s, app) then (s, OnBind)
    else (Store(None, Missing, Whole(s.source.value)), OnBind)
  }

  /** Whether `md/<ref>/<dataId>` lists anything: a data path or a staging directory inside it. */
  predicate DataDirIn(stores: map<Place, Store>, j: nat, paths: nat)
    requires forall k: nat :: k < paths ==> Md(j, k) in stores
  {
    exists k: nat :: k < paths && !(stores[Md(j, k)].target.Missing? && stores[Md(j, k)].staging.Missing?)
  }

  /** A container that holds the bytes comes back on the bind mount, running exactly if it was; one that an
      earlier boot removed comes back running, its directory being the record that it was there. */
  function MdBoot(m: Managed, present: bool): Managed {
    if m.onBind && m.container.Some? then m
    else if m.container.Some? then m.(onBind := true)
    else if present then m.(container := Some(true), onBind := true)
    else m
  }

  // ---- the program -----------------------------------------------------------------------------

  /** Docker, the filesystem and the daemon's own luck: the outcome of each step, in order. */
  class Environment {
    var replies: seq<Reply>
    var clock: nat

    constructor (replies: seq<Reply>)
      ensures this.replies == replies && clock == 0
    {
      this.replies, clock := replies, 0;
    }

    /** Everything answers and the daemon lives. */
    predicate Answering()
      reads this
    {
      forall n :: 0 <= n < |replies| ==> replies[n] == Works
    }

    method Draw() returns (r: Reply)
      modifies this
      ensures replies == old(replies)
      ensures Answering() ==> r == Works
    {
      r := if clock < |replies| then replies[clock] else Works;
      clock := clock + 1;
    }

    /** A read that either answers, fails the branch, or never returns. */
    method Probe<T>(value: T) returns (r: Step<T>)
      modifies this
      ensures replies == old(replies)
      ensures r.Done? ==> r.value == value
      ensures Answering() ==> r.Done?
    {
      var reply := Draw();
      r := match reply
        case Works => Done(value)
        case Refuses => Raised
        case Unanswered => Raised
        case _ => Crashed;
    }

    /** A step whose failure is swallowed: it may or may not have worked. */
    method Swallowed() returns (r: Step<bool>)
      modifies this
      ensures replies == old(replies)
      ensures !r.Raised?
      ensures Answering() ==> r == Done(true)
    {
      var reply := Draw();
      r := match reply
        case Works => Done(true)
        case Refuses => Done(false)
        case Unanswered => Done(false)
        case _ => Crashed;
    }
  }

  class Branch {
    var stores: map<Place, Store>
    var pg: Postgres
    var vols: seq<App>
    var mds: seq<Managed>
    var stamped: bool
    ghost var origin: map<Place, Option<Bytes>>
    ghost var history: set<map<Place, Store>>

    predicate IsPlace(p: Place)
      reads this
    {
      match p
      case Pg => true
      case Vol(i) => i < |vols|
      case Md(j, k) => j < |mds| && k < mds[j].paths
    }

    predicate ArmOk(p: Place, s: Store)
      requires IsPlace(p)
      reads this
    {
      match p
      case Pg => PgOk(s, pg)
      case Vol(i) => VolOk(s, vols[i])
      case Md(j, k) => MdOk(s, mds[j])
    }

    /** What every step keeps. `history` collects every state the disk went through, the present one
        included, so the bytes of every place were whole, in their source or their destination, all along. */
    ghost predicate Valid()
      reads this
    {
      && (forall p :: p in stores <==> IsPlace(p))
      && Safe(stores, origin)
      && (forall h :: h in history ==> Safe(h, origin))
      && stores in history
      && (forall p :: p in stores ==> ArmOk(p, stores[p]))
    }

    method Put(p: Place, s: Store)
      requires Valid() && p in stores && Content(s) == origin[p] && ArmOk(p, s)
      modifies `stores, `history
      ensures old(history) <= history
      ensures Valid() && stores == old(stores)[p := s]
    {
      stores := stores[p := s];
      history := history + {stores};
    }

    // ---- copyIntoPlace -----------------------------------------------------------------------

    /** The directory that removal leaves when the daemon dies in it. */
    static function HalfRemoved(d: Dir, looksWhole: bool, empty: bool): (r: Dir)
      ensures IsEmptyOrMissing(d) ==> IsEmptyOrMissing(r)
      ensures LooksComplete(r) ==> LooksComplete(d)
    {
      if IsEmptyOrMissing(d) then d else Partial(looksWhole && LooksComplete(d), empty)
    }

    method SetStaging(p: Place, d: Dir)
      requires Valid() && p in stores
      modifies `stores, `history
      ensures old(history) <= history
      ensures Valid() && OnlyDirs(old(stores), stores, p)
      ensures stores[p] == old(stores)[p].(staging := d)
    {
      Put(p, stores[p].(staging := d));
    }

    method RemoveStaging(env: Environment, p: Place) returns (r: Step<()>)
      requires Valid() && p in stores
      modifies env, `stores, `history
      ensures old(history) <= history
      ensures env.replies == old(env.replies)
      ensures Valid() && OnlyDirs(old(stores), stores, p) && stores[p].target == old(stores)[p].target
      ensures r.Done? ==> stores[p].staging == Missing
      ensures env.Answering() ==> r.Done?
    {
      var d := stores[p].staging;
      var reply := env.Draw();
      match reply
      case Works => SetStaging(p, Missing); r := Done(());
      case CrashAfter => SetStaging(p, Missing); r := Crashed;
      case CrashMidway(l, e) => SetStaging(p, HalfRemoved(d, l, e)); r := Crashed;
      case CrashBefore => SetStaging(p, d); r := Crashed;
      case _ => SetStaging(p, d); r := Raised;
    }

    /** `ensureDir`, then the helper container's copy into the staging directory. */
    method CopyToStaging(env: Environment, p: Place) returns (r: Step<()>)
      requires Valid() && p in stores && stores[p].source.Some?
      modifies env, `stores, `history
      ensures old(history) <= history
      ensures env.replies == old(env.replies)
      ensures Valid() && OnlyDirs(old(stores), stores, p) && stores[p].target == old(stores)[p].target
      ensures r.Done? ==> stores[p].staging == Whole(stores[p].source.value)
      ensures env.Answering() ==> r.Done?
    {
      var s := stores[p];
      var reply := env.Draw();
      match reply
      case Works => SetStaging(p, Whole(s.source.value)); r := Done(());
      case CrashAfter => SetStaging(p, Whole(s.source.value)); r := Crashed;
      case CrashMidway(l, e) => SetStaging(p, Partial(l, e)); r := Crashed;
      case CrashBefore => SetStaging(p, s.staging); r := Crashed;
      case _ => SetStaging(p, Partial(true, false)); r := Raised;
    }

    /** A destination may be cleared only beside its source, and only where nothing reads it. */
    ghost predicate Clearable(p: Place)
      requires p in stores && IsPlace(p)
      reads this
    {
      && stores[p].source.Some?
      && (p.Pg? ==> !LooksComplete(stores[p].target) && pg.replacement.None? && !(pg.row.Row? && pg.row.container.Fresh?))
      && (p.Vol? ==> vols[p.i].OnVolume? || (vols[p.i].NoApp? && IsEmptyOrMissing(stores[p].target)))
    }

    method RemoveTarget(env: Environment, p: Place) returns (r: Step<()>)
      requires Valid() && p in stores && Clearable(p)
      modifies env, `stores, `history
      ensures old(history) <= history
      ensures env.replies == old(env.replies)
      ensures Valid() && OnlyDirs(old(stores), stores, p) && Clearable(p) && stores[p].staging == old(stores)[p].staging
      ensures env.Answering() ==> r.Done?
    {
      var s := stores[p];
      var reply := env.Draw();
      match reply
      case Works => Put(p, s.(target := Missing)); r := Done(());
      case CrashAfter => Put(p, s.(target := Missing)); r := Crashed;
      case CrashMidway(l, e) => Put(p, s.(target := HalfRemoved(s.target, l, e))); r := Crashed;
      case CrashBefore => Put(p, s); r := Crashed;
      case _ => Put(p, s); r := Raised;
    }

    /** One atomic rename: the destination exists only once what fills it is whole. */
    method Promote(env: Environment, p: Place) returns (r: Step<()>)
      requires Valid() && p in stores && Clearable(p) && stores[p].staging == Whole(stores[p].source.value)
      modifies env, `stores, `history
      ensures old(history) <= history
      ensures env.replies == old(env.replies)
      ensures Valid() && OnlyDirs(old(stores), stores, p)
      ensures r.Done? ==> stores[p].staging == Missing && stores[p].target == Whole(stores[p].source.value)
      ensures env.Answering() ==> r.Done?
    {
      var s := stores[p];
      var moved := s.(staging := Missing, target := Whole(s.source.value));
      var reply := env.Draw();
      match reply
      case Works => Put(p, moved); r := Done(());
      case CrashAfter => Put(p, moved); r := Crashed;
      case Refuses => Put(p, s); r := Raised;
      case Unanswered => Put(p, s); r := Raised;
      case _ => Put(p, s); r := Crashed;
    }

    /** The staged half: discard any leftover, copy, and check the copy of a PGDATA. */
    method Stage(env: Environment, p: Place) returns (r: Step<()>)
      requires Valid() && p in stores && stores[p].source.Some?
      modifies env, `stores, `history
      ensures old(history) <= history
      ensures env.replies == old(env.replies)
      ensures Valid() && OnlyDirs(old(stores), stores, p) && stores[p].target == old(stores)[p].target
      ensures r.Done? ==> stores[p].staging == Whole(stores[p].source.value)
      ensures env.Answering() ==> r.Done?
    {
      var _ :- RemoveStaging(env, p);
      var _ :- CopyToStaging(env, p);
      if p.Pg? {
        var whole :- env.Probe(LooksComplete(stores[p].staging));
        if !whole {
          return Raised;
        }
      }
      r := Done(());
    }

    method CopyIntoPlace(env: Environment, p: Place) returns (r: Step<()>)
      requires Valid() && p in stores && Clearable(p)
      modifies env, `stores, `history
      ensures old(history) <= history
      ensures env.replies == old(env.replies)
      ensures Valid() && OnlyDirs(old(stores), stores, p)
      ensures r.Done? ==> stores[p].staging == Missing && stores[p].target == Whole(stores[p].source.value)
      ensures env.Answering() ==> r.Done?
    {
      var _ :- Stage(env, p);
      var _ :- RemoveTarget(env, p);
      var _ :- Promote(env, p);
      r := Done(());
    }

    // ---- postgres ----------------------------------------------------------------------------

    method SetPg(next: Postgres)
      requires Valid() && PgOk(stores[Pg], next)
      modifies `pg
      ensures Valid() && pg == next
    {
      pg := next;
    }

    /** `stopForCopy`: whatever the stop answered, only a container seen at rest may be copied. */
    method StopLegacy(env: Environment) returns (r: Step<()>)
      requires Valid()
      modifies env, `pg
      ensures env.replies == old(env.replies)
      ensures Valid() && pg == old(pg).(legacyRunning := pg.legacyRunning)
      ensures r.Done? ==> !pg.legacyRunning
      ensures env.Answering() ==> r.Done?
    {
      var reply := env.Draw();
      if reply.Works? || reply.CrashAfter? {
        SetPg(pg.(legacyRunning := false));
      }
      if !(reply.Works? || reply.Refuses? || reply.Unanswered?) {
        return Crashed;
      }
      var running :- env.Probe(pg.legacyRunning);
      r := if running then Raised else Done(());
    }

    /** `docker rm -f -v` of the legacy container: the source goes, and its error is swallowed. */
    method RemoveLegacy(env: Environment) returns (r: Step<()>)
      requires Valid() && stores[Pg].source.Some? && stores[Pg].target.Whole?
      modifies env, `stores, `history
      ensures old(history) <= history
      ensures env.replies == old(env.replies)
      ensures Valid() && stores == old(stores)[Pg := old(stores)[Pg].(source := stores[Pg].source)]
      ensures !r.Raised?
      ensures env.Answering() ==> r.Done? && stores[Pg].source.None?
    {
      var gone :- env.Swallowed();
      if gone {
        Put(Pg, stores[Pg].(source := None));
      }
      r := Done(());
    }

    /** `docker rm -f`, the run, the waits and the final stop of the replacement container. */
    method Replace(env: Environment, running: bool) returns (r: Step<()>)
      requires Valid() && stores[Pg].target.Whole?
      modifies env, `pg
      ensures env.replies == old(env.replies)
      ensures Valid() && pg == old(pg).(replacement := pg.replacement)
      ensures r.Done? ==> pg.replacement.Some?
      ensures env.Answering() ==> r.Done? && pg.replacement == Some(running)
    {
      if pg.replacement.Some? {
        var gone :- env.Swallowed();
        if gone {
          SetPg(pg.(replacement := None));
        }
      }
      var reply := env.Draw();
      if pg.replacement.Some? {
        return Raised;
      }
      if reply.Works? || reply.CrashAfter? {
        SetPg(pg.(replacement := Some(true)));
      }
      if !reply.Works? {
        return if reply.Refuses? || reply.Unanswered? then Raised else Crashed;
      }
      var _ :- env.Probe(true);
      var _ :- env.Probe(true);
      var _ :- env.Swallowed();
      if !running {
        var stopped :- env.Swallowed();
        if stopped {
          SetPg(pg.(replacement := Some(false)));
        }
      }
      r := Done(());
    }

    method WriteRow(env: Environment) returns (r: Step<()>)
      requires Valid() && stores[Pg].target.Whole?
      modifies env, `pg
      ensures env.replies == old(env.replies)
      ensures Valid() && pg == old(pg).(row := pg.row)
      ensures pg.row == old(pg).row || pg.row == Row(Fresh, true)
      ensures r.Done? ==> pg.row == if old(pg).row.Row? then Row(Fresh, true) else NoRow
      ensures env.Answering() ==> r.Done?
    {
      var moved := if pg.row.Row? then Row(Fresh, true) else NoRow;
      var reply := env.Draw();
      if reply.Works? || reply.CrashAfter? {
        SetPg(pg.(row := moved));
      }
      r := if reply.Works? then Done(()) else if reply.Refuses? || reply.Unanswered? then Raised else Crashed;
    }

    /** The copy, unless a finished one is there. */
    method FillTarget(env: Environment) returns (r: Step<()>)
      requires Valid() && LegacyExists(stores[Pg], pg)
      modifies env, `stores, `history
      ensures old(history) <= history
      ensures env.replies == old(env.replies)
      ensures Valid() && OnlyDirs(old(stores), stores, Pg)
      ensures r.Done? ==> stores[Pg].target == Whole(stores[Pg].source.value)
      ensures r.Done? ==> stores[Pg].staging == if old(LooksComplete(stores[Pg].target)) then old(stores[Pg]).staging else Missing
      ensures env.Answering() ==> r.Done?
    {
      assert ArmOk(Pg, stores[Pg]);
      var whole :- env.Probe(LooksComplete(stores[Pg].target));
      if !whole {
        var _ :- CopyIntoPlace(env, Pg);
      }
      r := Done(());
    }

    /** The container that still holds the bytes: stop it, copy unless a finished copy is there, remove it. */
    method TakeLegacy(env: Environment) returns (r: Step<bool>)
      requires Valid() && LegacyExists(stores[Pg], pg)
      modifies env, `stores, `pg, `history
      ensures old(history) <= history
      ensures env.replies == old(env.replies)
      ensures Valid() && OnlyPg(old(stores), stores)
      ensures pg == old(pg).(legacyRunning := pg.legacyRunning)
      ensures r.Done? ==> stores[Pg].target.Whole? && r.value == old(pg).legacyRunning
      ensures env.Answering() ==> r.Done? && stores[Pg] == PgBoot(old(stores[Pg]), old(pg)).0
    {
      var running :- env.Probe(pg.legacyRunning);
      var _ :- StopLegacy(env);
      var _ :- FillTarget(env);
      var _ :- RemoveLegacy(env);
      r := Done(running);
    }

    /** The first half: which container held the bytes, and their copy into place. `running` is the
        lifecycle intent taken off whichever container is replaced. */
    method TakeBytes(env: Environment) returns (r: Step<bool>)
      requires Valid() && (LegacyExists(stores[Pg], pg) || LooksComplete(stores[Pg].target))
      modifies env, `stores, `pg, `history
      ensures old(history) <= history
      ensures env.replies == old(env.replies)
      ensures Valid() && OnlyPg(old(stores), stores)
      ensures pg == old(pg).(legacyRunning := pg.legacyRunning)
      ensures r.Done? ==> stores[Pg].target.Whole?
      ensures env.Answering() ==> r.Done? && stores[Pg] == PgBoot(old(stores[Pg]), old(pg)).0
      ensures env.Answering() ==>
                r.value == (if old(LegacyExists(stores[Pg], pg)) then old(pg).legacyRunning
                            else if old(pg).replacement.Some? then old(pg).replacement.value else true)
    {
      var running := true;
      if LegacyExists(stores[Pg], pg) {
        running :- TakeLegacy(env);
      } else if pg.replacement.Some? {
        running :- env.Probe(pg.replacement.value);
      }
      r := Done(running);
    }

    /** Whether there is anything to do: not when everything is settled, and not when no container holds the
        bytes and nothing finished lies at the destination. */
    method PgPending(env: Environment) returns (r: Step<bool>)
      modifies env
      requires Pg in stores
      ensures env.replies == old(env.replies)
      ensures r.Done? ==> r.value == PgHasWork(stores[Pg], pg)
      ensures env.Answering() ==> r.Done?
    {
      var legacyExists :- env.Probe(LegacyExists(stores[Pg], pg));
      var replaced :- env.Probe(pg.replacement.Some?);
      if !legacyExists && replaced && pg.row == Row(Fresh, true) {
        return Done(false);
      }
      if !legacyExists {
        var whole :- env.Probe(LooksComplete(stores[Pg].target));
        if !whole {
          return Done(false);
        }
      }
      r := Done(true);
    }

    method MigratePostgres(env: Environment) returns (r: Step<bool>)
      requires Valid()
      modifies env, `stores, `pg, `history
      ensures old(history) <= history
      ensures env.replies == old(env.replies)
      ensures Valid() && OnlyPg(old(stores), stores)
      ensures r.Done? ==> PgMoved() && (origin[Pg].Some? ==> pg.replacement.Some?)
      ensures r.Done? && r.value ==> !LegacyHandle(pg.row)
      ensures env.Answering() ==> r.Done?
      ensures env.Answering() ==> PgBooted(old(stores), old(pg), stores, pg)
    {
      var pending :- PgPending(env);
      if !pending {
        return Done(false);
      }
      var running :- TakeBytes(env);
      var _ :- Replace(env, running);
      var _ :- WriteRow(env);
      r := Done(true);
    }

    // ---- compute /data volumes ---------------------------------------------------------------

    method SetApp(i: nat, app: App)
      requires Valid() && i < |vols| && VolOk(stores[Vol(i)], app)
      modifies `vols
      ensures Valid() && vols == old(vols)[i := app]
    {
      vols := vols[i := app];
    }

    /** `engine.deploy` on the bind mount: it replaces the app container, and may die in between. */
    method Redeploy(env: Environment, i: nat) returns (r: Step<()>)
      requires Valid() && i < |vols|
      requires stores[Vol(i)].source.Some? && stores[Vol(i)].target == Whole(stores[Vol(i)].source.value)
      modifies env, `vols
      ensures env.replies == old(env.replies)
      ensures Valid() && vols == old(vols)[i := vols[i]] && |vols| == |old(vols)|
      ensures r.Done? ==> vols[i].OnBind?
      ensures env.Answering() ==> r.Done?
    {
      var reply := env.Draw();
      match reply
      case Works => SetApp(i, OnBind); r := Done(());
      case CrashAfter => SetApp(i, OnBind); r := Crashed;
      case CrashMidway(_, _) => SetApp(i, NoApp); r := Crashed;
      case Unanswered => SetApp(i, NoApp); r := Raised;
      case Refuses => SetApp(i, vols[i]); r := Raised;
      case CrashBefore => SetApp(i, vols[i]); r := Crashed;
    }

    /** The app is not on the bind mount: the volume is copied unless neither copy can be shown to be the
        newer one, and the app is put there. False when the volume is to be kept. */
    method MoveApp(env: Environment, i: nat) returns (r: Step<bool>)
      requires Valid() && i < |vols| && stores[Vol(i)].source.Some? && !vols[i].OnBind?
      modifies env, `stores, `vols, `history
      ensures old(history) <= history
      ensures env.replies == old(env.replies)
      ensures Valid() && OnlyDirs(old(stores), stores, Vol(i)) && |vols| == |old(vols)| && vols == old(vols)[i := vols[i]]
      ensures r.Done? ==> vols[i].OnBind? && stores[Vol(i)].target == Whole(stores[Vol(i)].source.value)
      ensures r.Done? ==> r.value == !Ambiguous(old(stores)[Vol(i)], old(vols)[i])
      ensures r.Done? ==> stores[Vol(i)] == if r.value then old(stores)[Vol(i)].(staging := Missing, target := stores[Vol(i)].target) else old(stores)[Vol(i)]
      ensures env.Answering() ==> r.Done?
    {
      var p := Vol(i);
      var ambiguous := false;
      if vols[i].NoApp? {
        var empty :- env.Probe(IsEmptyOrMissing(stores[p].target));
        ambiguous := !empty;
      }
      if !ambiguous {
        var _ :- CopyIntoPlace(env, p);
      }
      assert ArmOk(p, stores[p]);
      var _ :- Redeploy(env, i);
      r := Done(!ambiguous);
    }

    /** One turn of the loop over compute groups. */
    method MigrateVolume(env: Environment, i: nat) returns (r: Step<()>)
      requires Valid() && i < |vols|
      modifies env, `stores, `vols, `history
      ensures old(history) <= history
      ensures env.replies == old(env.replies)
      ensures Valid() && OnlyPlace(old(stores), stores, Vol(i)) && |vols| == |old(vols)| && vols == old(vols)[i := vols[i]]
      ensures r.Done? && origin[Vol(i)].Some? ==> stores[Vol(i)].target == Whole(origin[Vol(i)].value)
      ensures env.Answering() ==> r.Done? && (stores[Vol(i)], vols[i]) == VolBoot(old(stores)[Vol(i)], old(vols)[i])
    {
      var p := Vol(i);
      assert p in stores && ArmOk(p, stores[p]);
      var found :- env.Probe(stores[p].source.Some?);
      if !found {
        return Done(());
      }
      var app :- env.Probe(vols[i]);
      if !app.OnBind? {
        var moved :- MoveApp(env, i);
        if !moved {
          return Done(());
        }
      }
      var gone :- env.Swallowed();
      if gone {
        Put(p, stores[p].(source := None));
      }
      r := Done(());
    }

    /** The bytes of the first `i` volumes, the same as ever, are whole at their destination. */
    ghost predicate VolsDone(i: nat)
      reads this
    {
      forall n: nat :: n < i ==> Vol(n) in stores && Vol(n) in origin && (origin[Vol(n)].Some? ==> stores[Vol(n)].target == Whole(origin[Vol(n)].value))
    }

    /** One turn, as the loop sees it. */
    method MigrateVolumeNext(env: Environment, i: nat, ghost first: map<Place, Store>, ghost were: seq<App>) returns (r: Step<()>)
      requires Valid() && i < |vols| && VolsFrom(first, were, stores, vols, i) && VolsDone(i)
      requires env.Answering() ==> VolsBooted(first, were, stores, vols, i)
      modifies env, `stores, `vols, `history
      ensures old(history) <= history
      ensures env.replies == old(env.replies)
      ensures Valid() && VolsFrom(first, were, stores, vols, i + 1)
      ensures r.Done? ==> VolsDone(i + 1)
      ensures env.Answering() ==> r.Done? && VolsBooted(first, were, stores, vols, i + 1)
    {
      ghost var before, apps := stores, vols;
      assert Vol(i) in stores;
      r := MigrateVolume(env, i);
      assert forall n: nat :: n < i && Vol(n) in before ==> stores[Vol(n)] == before[Vol(n)];
      assert forall n: nat :: n < i ==> vols[n] == apps[n];
    }

    method MigrateVolumes(env: Environment) returns (r: Step<()>)
      requires Valid()
      modifies env, `stores, `vols, `history
      ensures old(history) <= history
      ensures env.replies == old(env.replies)
      ensures Valid() && |vols| == |old(vols)|
      ensures stores.Keys == old(stores).Keys
      ensures forall q :: q in stores && !q.Vol? ==> stores[q] == old(stores)[q]
      ensures r.Done? ==> VolsMoved()
      ensures old(PgMoved()) ==> PgMoved()
      ensures env.Answering() ==> r.Done? && VolsBooted(old(stores), old(vols), stores, vols, |vols|)
    {
      var i: nat := 0;
      while i < |vols|
        invariant i <= |vols| == |old(vols)| && old(history) <= history
        invariant env.replies == old(env.replies)
        invariant Valid() && VolsDone(i)
        invariant VolsFrom(old(stores), old(vols), stores, vols, i)
        invariant env.Answering() ==> VolsBooted(old(stores), old(vols), stores, vols, i)
      {
        var _ :- MigrateVolumeNext(env, i, old(stores), old(vols));
        i := i + 1;
      }
      r := Done(());
    }

    // ---- managed databases -------------------------------------------------------------------

    method SetManaged(j: nat, m: Managed)
      requires Valid() && j < |mds| && m.paths == mds[j].paths
      requires forall k: nat :: k < m.paths ==> MdOk(stores[Md(j, k)], m)
      modifies `mds
      ensures Valid() && mds == old(mds)[j := m]
    {
      mds := mds[j := m];
    }

    predicate HasDataDir(j: nat)
      requires j < |mds| && forall k: nat :: k < mds[j].paths ==> Md(j, k) in stores
      reads this
    {
      DataDirIn(stores, j, mds[j].paths)
    }

    method StopManaged(env: Environment, j: nat) returns (r: Step<()>)
      requires Valid() && j < |mds| && mds[j].container.Some?
      modifies env, `mds
      ensures env.replies == old(env.replies)
      ensures Valid() && OnlyMd(old(mds), mds, j) && mds[j].container.Some? && mds[j].onBind == old(mds)[j].onBind
      ensures r.Done? ==> mds[j].container == Some(false)
      ensures env.Answering() ==> r.Done?
    {
      var reply := env.Draw();
      if reply.Works? || reply.CrashAfter? {
        SetManaged(j, mds[j].(container := Some(false)));
      }
      if !(reply.Works? || reply.Refuses? || reply.Unanswered?) {
        return Crashed;
      }
      var running :- env.Probe(mds[j].container.value);
      r := if running then Raised else Done(());
    }

    method CopyPath(env: Environment, j: nat, k: nat) returns (r: Step<()>)
      requires Valid() && j < |mds| && k < mds[j].paths && mds[j].container.Some? && !mds[j].onBind
      modifies env, `stores, `history
      ensures old(history) <= history
      ensures env.replies == old(env.replies)
      ensures Valid() && OnlyDirs(old(stores), stores, Md(j, k))
      ensures r.Done? ==> stores[Md(j, k)].source.Some? && stores[Md(j, k)].target == Whole(stores[Md(j, k)].source.value)
      ensures env.Answering() ==> r.Done?
    {
      assert Md(j, k) in stores && ArmOk(Md(j, k), stores[Md(j, k)]);
      var _ :- CopyIntoPlace(env, Md(j, k));
      r := Done(());
    }

    method CopyPaths(env: Environment, j: nat) returns (r: Step<()>)
      requires Valid() && j < |mds| && mds[j].container.Some? && !mds[j].onBind
      modifies env, `stores, `history
      ensures old(history) <= history
      ensures env.replies == old(env.replies)
      ensures Valid() && OnlyManaged(old(stores), stores, j)
      ensures r.Done? ==> Copied(j)
      ensures env.Answering() ==> r.Done?
    {
      var k: nat := 0;
      while k < mds[j].paths
        invariant k <= mds[j].paths && old(history) <= history
        invariant env.replies == old(env.replies)
        invariant Valid() && OnlyManaged(old(stores), stores, j)
        invariant CopiedTo(stores, j, k)
      {
        ghost var before := stores;
        var _ :- CopyPath(env, j, k);
        OneMoreCopied(before, stores, j, k);
        k := k + 1;
      }
      r := Done(());
    }

    /** Every path of container `j` has a finished copy. */
    ghost predicate Copied(j: nat)
      requires j < |mds| && forall k: nat :: k < mds[j].paths ==> Md(j, k) in stores
      reads this
    {
      forall k: nat :: k < mds[j].paths ==>
        stores[Md(j, k)].source.Some? && stores[Md(j, k)].target == Whole(stores[Md(j, k)].source.value)
    }

    ghost predicate Landed(j: nat)
      requires j < |mds| && forall k: nat :: k < mds[j].paths ==> Md(j, k) in stores
      reads this
    {
      forall k: nat :: k < mds[j].paths && Content(stores[Md(j, k)]).Some? ==> stores[Md(j, k)].target == Whole(Content(stores[Md(j, k)]).value)
    }

    lemma DroppedOk(j: nat)
      requires Valid() && j < |mds| && mds[j].container.Some? && !mds[j].onBind && Copied(j)
      ensures var after := WithoutSources(stores, j);
              && after.Keys == stores.Keys && Safe(after, origin) && OnlyManaged(stores, after, j)
              && forall k: nat :: k < mds[j].paths ==> Md(j, k) in after && after[Md(j, k)].source.None? && after[Md(j, k)].target.Whole?
    {
      CopiesKeepContent(stores, j, mds[j].paths);
    }

    method DropManaged(j: nat)
      requires Valid() && j < |mds| && mds[j].container.Some? && !mds[j].onBind && Copied(j)
      modifies `stores, `mds, `history
      ensures old(history) <= history
      ensures Valid() && OnlyManaged(old(stores), stores, j)
      ensures OnlyMd(old(mds), mds, j) && mds[j].container.None? && Landed(j)
    {
      DroppedOk(j);
      stores := WithoutSources(stores, j);
      history := history + {stores};
      mds := mds[j := mds[j].(container := None)];
      forall p | p in stores ensures ArmOk(p, stores[p]) {
        assert p in old(stores) && old(ArmOk(p, stores[p]));
      }
    }

    /** `docker rm -f -v`: every path of the container loses its source at once. */
    method RemoveManaged(env: Environment, j: nat) returns (r: Step<()>)
      requires Valid() && j < |mds| && mds[j].container.Some? && !mds[j].onBind && Copied(j)
      modifies env, `stores, `mds, `history
      ensures old(history) <= history
      ensures env.replies == old(env.replies)
      ensures Valid() && OnlyManaged(old(stores), stores, j) && !r.Raised?
      ensures OnlyMd(old(mds), mds, j) && Landed(j)
      ensures env.Answering() ==> r.Done? && mds[j].container.None?
    {
      var gone :- env.Swallowed();
      if gone {
        DropManaged(j);
      }
      r := Done(());
    }

    method Provision(env: Environment, j: nat, running: bool) returns (r: Step<()>)
      requires Valid() && j < |mds|
      modifies env, `mds
      ensures env.replies == old(env.replies)
      ensures Valid() && OnlyMd(old(mds), mds, j)
      ensures r.Done? ==> old(mds)[j].container.None? && mds[j].container.Some? && mds[j].onBind
      ensures r.Done? && running ==> mds[j].container == Some(true)
      ensures env.Answering() && old(mds)[j].container.None? ==> r.Done? && mds[j].container == Some(running)
    {
      var reply := env.Draw();
      if mds[j].container.Some? {
        return Raised;
      }
      if reply.Works? || reply.CrashAfter? {
        SetManaged(j, mds[j].(container := Some(true), onBind := true));
      }
      if !reply.Works? {
        return if reply.Refuses? || reply.Unanswered? then Raised else Crashed;
      }
      if !running {
        var stopped :- env.Swallowed();
        if stopped {
          SetManaged(j, mds[j].(container := Some(false)));
        }
      }
      r := Done(());
    }

    /** The container that still holds the bytes: stop it, copy every path, remove it. What is answered is
        whether it ran before all that. */
    method TakeManaged(env: Environment, j: nat) returns (r: Step<bool>)
      requires Valid() && j < |mds| && mds[j].container.Some? && !mds[j].onBind
      modifies env, `stores, `mds, `history
      ensures old(history) <= history
      ensures env.replies == old(env.replies)
      ensures Valid() && OnlyManaged(old(stores), stores, j) && OnlyMd(old(mds), mds, j)
      ensures r.Done? ==> Landed(j) && old(mds)[j].container == Some(r.value)
      ensures env.Answering() ==> r.Done? && mds[j].container.None?
    {
      var running :- env.Probe(mds[j].container.value);
      var _ :- StopManaged(env, j);
      var _ :- CopyPaths(env, j);
      var _ :- RemoveManaged(env, j);
      r := Done(running);
    }

    lemma NoSourceMeansLanded(j: nat)
      requires Valid() && j < |mds| && (mds[j].container.None? || mds[j].onBind)
      ensures Landed(j)
      ensures (exists k: nat :: k < mds[j].paths && origin[Md(j, k)].Some?) ==> HasDataDir(j)
    {
      forall k: nat | k < mds[j].paths
        ensures Content(stores[Md(j, k)]).Some? ==> stores[Md(j, k)].target == Whole(Content(stores[Md(j, k)]).value)
      {
        assert Md(j, k) in stores && ArmOk(Md(j, k), stores[Md(j, k)]);
      }
    }

    /** One turn of the loop over managed registrations. */
    method MigrateManagedOne(env: Environment, j: nat) returns (r: Step<()>)
      requires Valid() && j < |mds|
      modifies env, `stores, `mds, `history
      ensures old(history) <= history
      ensures env.replies == old(env.replies)
      ensures Valid() && OnlyManaged(old(stores), stores, j) && OnlyMd(old(mds), mds, j)
      ensures r.Done? ==> Landed(j)
      ensures r.Done? && (exists k: nat :: k < mds[j].paths && origin[Md(j, k)].Some?) ==> mds[j].container.Some? && mds[j].onBind
      ensures r.Done? && old(mds)[j].container == Some(true) ==> mds[j].container == Some(true) && mds[j].onBind
      ensures env.Answering() && mds[j].password ==> r.Done? && mds[j] == MdBoot(old(mds)[j], old(HasDataDir(j)))
    {
      var running := true;
      var found :- env.Probe(mds[j].container.Some?);
      if found {
        var done :- env.Probe(mds[j].onBind);
        if done {
          NoSourceMeansLanded(j);
          return Done(());
        }
        running :- TakeManaged(env, j);
      } else {
        NoSourceMeansLanded(j);
        var present :- env.Probe(HasDataDir(j));
        if !present {
          return Done(());
        }
      }
      if !mds[j].password {
        return Raised;
      }
      var _ :- Provision(env, j, running);
      r := Done(());
    }

    /** The first `j` have all that is theirs whole at its destination. */
    ghost predicate MdsDone(j: nat)
      reads this
    {
      j <= |mds| && forall n: nat :: n < j ==> (forall k: nat :: k < mds[n].paths ==> Md(n, k) in stores) && Landed(n)
    }

    /** One turn, as the loop sees it: what was `first` before the loop is what the turn finds of container
        `j`. */
    method MigrateManagedNext(env: Environment, j: nat, ghost first: map<Place, Store>, ghost were: seq<Managed>) returns (r: Step<()>)
      requires Valid() && j < |mds| && SomeBooted(first, were, mds, j, env.Answering() && Passwords()) && MdsFrom(first, stores, j) && MdsDone(j)
      modifies env, `stores, `mds, `history
      ensures old(history) <= history
      ensures env.replies == old(env.replies)
      ensures Valid() && OnlyMd(old(mds), mds, j) && MdsFrom(first, stores, j + 1)
      ensures r.Done? ==> MdsDone(j + 1)
      ensures r.Done? ==> SomeBooted(first, were, mds, j + 1, env.Answering() && Passwords())
      ensures env.Answering() && Passwords() ==> r.Done?
    {
      ghost var was := mds;
      assert DataDirIn(first, j, mds[j].paths) == HasDataDir(j);
      r := MigrateManagedOne(env, j);
      if env.Answering() && Passwords() {
        assert was[j].password && MdBooted(first, were, mds, j);
        forall i: nat | i < j ensures MdBooted(first, were, mds, i) {
          assert MdBooted(first, were, was, i);
        }
      }
      forall n: nat | n < j ensures Landed(n) {
        assert old(Landed(n));
      }
    }

    method MigrateManaged(env: Environment) returns (r: Step<()>)
      requires Valid()
      modifies env, `stores, `mds, `history
      ensures old(history) <= history
      ensures env.replies == old(env.replies)
      ensures Valid() && stores.Keys == old(stores).Keys
      ensures forall q :: q in stores && !q.Md? ==> stores[q] == old(stores)[q]
      ensures |mds| == |old(mds)| && forall n :: 0 <= n < |mds| ==> mds[n].password == old(mds)[n].password
      ensures r.Done? ==> MdsMoved()
      ensures r.Done? ==> SomeBooted(old(stores), old(mds), mds, |mds|, env.Answering() && Passwords())
      ensures env.Answering() && Passwords() ==> r.Done?
    {
      var j: nat := 0;
      while j < |mds|
        invariant j <= |mds| == |old(mds)| && old(history) <= history
        invariant env.replies == old(env.replies)
        invariant Valid() && MdsDone(j) && MdsFrom(old(stores), stores, j)
        invariant forall n :: 0 <= n < |mds| ==> mds[n].password == old(mds)[n].password
        invariant SomeBooted(old(stores), old(mds), mds, j, env.Answering() && Passwords())
      {
        var _ :- MigrateManagedNext(env, j, old(stores), old(mds));
        j := j + 1;
      }
      r := Done(());
    }

    // ---- one boot ----------------------------------------------------------------------------

    /** All that a boot goes by. */
    ghost function Box(): Disk
      reads this
    {
      Disk(stores, pg, vols, mds)
    }

    /** Every place's bytes, the same as ever, are whole at their destination. */
    ghost predicate Moved()
      reads this
    {
      stores.Keys == origin.Keys && forall p :: p in stores && origin[p].Some? ==> stores[p].target == Whole(origin[p].value)
    }

    ghost predicate PgMoved()
      reads this
    {
      Pg in stores && Pg in origin && (origin[Pg].Some? ==> stores[Pg].target == Whole(origin[Pg].value))
    }

    ghost predicate VolsMoved()
      reads this
    {
      forall i: nat :: i < |vols| ==> Vol(i) in stores && Vol(i) in origin && (origin[Vol(i)].Some? ==> stores[Vol(i)].target == Whole(origin[Vol(i)].value))
    }

    ghost predicate MdsMoved()
      reads this
    {
      forall j: nat :: j < |mds| ==> (forall k: nat :: k < mds[j].paths ==> Md(j, k) in stores) && Landed(j)
    }

    lemma ArmsMoved()
      requires Valid() && PgMoved() && VolsMoved() && MdsMoved()
      ensures Moved()
    {
      forall p | p in stores && origin[p].Some? ensures stores[p].target == Whole(origin[p].value) {
        if p.Md? {
          assert Landed(p.j) && p == Md(p.j, p.k);
        } else if p.Vol? {
          assert p == Vol(p.i);
        }
      }
    }

    method MigrateBranch(env: Environment) returns (r: Step<bool>)
      requires Valid()
      modifies env, `stores, `pg, `vols, `mds, `history
      ensures old(history) <= history
      ensures env.replies == old(env.replies)
      ensures Valid() && Passwords() == old(Passwords())
      ensures r.Done? ==> Moved()
      ensures r.Done? ==> StillUp(old(mds), mds)
      ensures env.Answering() && Passwords() ==> r.Done? && Booted(old(Box()), Box())
    {
      var touched :- MigratePostgres(env);
      label postgres:
      var _ :- MigrateServices(env);
      if env.Answering() && Passwords() {
        ServicesBootedSince(old(Box()), old@postgres(Box()), Box());
      }
      r := Done(touched);
    }

    /** The two arms after postgres. */
    method MigrateServices(env: Environment) returns (r: Step<()>)
      requires Valid() && PgMoved()
      modifies env, `stores, `vols, `mds, `history
      ensures old(history) <= history
      ensures env.replies == old(env.replies)
      ensures Valid() && Passwords() == old(Passwords())
      ensures r.Done? ==> Moved()
      ensures r.Done? ==> StillUp(old(mds), mds)
      ensures Pg in old(stores) && stores[Pg] == old(stores)[Pg]
      ensures env.Answering() && Passwords() ==> r.Done? && ServicesBooted(old(Box()), Box())
    {
      var _ :- MigrateVolumes(env);
      label volumes:
      var _ :- MigrateManaged(env);
      assert VolsMoved() && PgMoved() by {
        assert old@volumes(VolsMoved()) && old@volumes(PgMoved());
      }
      ArmsMoved();
      if env.Answering() && Passwords() {
        MdsBootedSince(old(stores), old@volumes(stores), old(mds), mds);
      }
      r := Done(());
    }

    /** What the daemon does with this branch at boot: nothing once it is stamped; otherwise the three
        arms, and the stamp only when all of them came through: never after a probe that could not answer or
        a step that failed. */
    method Boot(env: Environment) returns (r: Step<bool>)
      requires Valid()
      modifies env, this
      ensures Valid() && origin == old(origin) && old(history) <= history && Passwords() == old(Passwords())
      ensures old(stamped) ==> r == Done(false) && stamped && stores == old(stores) && pg == old(pg) && vols == old(vols) && mds == old(mds)
      ensures stamped && !old(stamped) ==> Moved()
      ensures !stamped ==> !r.Done?
      ensures r.Raised? ==> !stamped
      ensures r.Done? ==> StillUp(old(mds), mds)
      ensures old(env.Answering()) && Passwords() ==> r.Done? && stamped
      ensures old(env.Answering()) && Passwords() && !old(stamped) ==> Booted(old(Box()), Box())
    {
      if stamped {
        return Done(false);
      }
      var touched :- MigrateBranch(env);
      var _ :- Stamp(env);
      r := Done(touched);
    }

    method Stamp(env: Environment) returns (r: Step<()>)
      requires Valid() && Moved() && !stamped
      modifies env, `stamped
      ensures Valid() && Moved() && (r.Done? ==> stamped) && (r.Raised? ==> !stamped)
      ensures env.replies == old(env.replies)
      ensures env.Answering() ==> r.Done?
    {
      var reply := env.Draw();
      if reply.Works? || reply.CrashAfter? {
        stamped := true;
      }
      r := if reply.Works? then Done(()) else if reply.Refuses? || reply.Unanswered? then Raised else Crashed;
    }

    /** Every managed registration on the branch has its stored password. */
    predicate Passwords()
      reads this`mds
    {
      forall n :: 0 <= n < |mds| ==> mds[n].password
    }

    /** Any number of boots, each ending wherever its replies end it. */
    method Boots(boots: seq<seq<Reply>>)
      requires Valid() && !stamped
      modifies this
      ensures Valid() && origin == old(origin) && old(history) <= history && Passwords() == old(Passwords())
      ensures stamped ==> Moved()
    {
      var n := 0;
      while n < |boots|
        invariant Valid() && origin == old(origin) && old(history) <= history && Passwords() == old(Passwords())
        invariant stamped ==> Moved()
      {
        var env := new Environment(boots[n]);
        var _ := Boot(env);
        n := n + 1;
      }
    }

    /** One boot in which everything answers. */
    method LastBoot()
      requires Valid() && Passwords()
      modifies this
      ensures Valid() && origin == old(origin) && old(history) <= history && stamped && (!old(stamped) ==> Moved())
      ensures old(stamped) ==> Box() == old(Box())
    {
      var good := new Environment([]);
      var _ := Boot(good);
    }

    /** From whatever those boots leave behind, one boot in which everything answers finishes the job with
        the same bytes: that state is `settled`. Every boot after it does nothing and says so, whatever
        docker answers. */
    method ComesThrough(boots: seq<seq<Reply>>, more: seq<seq<Reply>>) returns (ghost settled: Disk, again: seq<Step<bool>>)
      requires Valid() && !stamped && Passwords()
      modifies this
      ensures Valid() && origin == old(origin) && old(history) <= history
      ensures stamped && Moved()
      ensures |again| == |more| && forall r :: r in again ==> r == Done(false)
      ensures Box() == settled && settled.stores.Keys == origin.Keys
      ensures forall p :: p in settled.stores && origin[p].Some? ==> settled.stores[p].target == Whole(origin[p].value)
    {
      Boots(boots);
      LastBoot();
      settled := Box();
      again := [];
      while |again| < |more|
        invariant |again| <= |more| && forall r :: r in again ==> r == Done(false)
        invariant Valid() && origin == old(origin) && old(history) <= history
        invariant stamped && Moved() && Box() == settled
      {
        var env := new Environment(more[|again|]);
        var r := Boot(env);
        again := again + [r];
      }
    }
  }

  /** The volumes from number `i` on, and all that is no volume, are as they were. */
  ghost predicate VolsFrom(before: map<Place, Store>, were: seq<App>, after: map<Place, Store>, now: seq<App>, i: nat) {
    && before.Keys == after.Keys && |were| == |now|
    && (forall p :: p in before && (p.Vol? ==> p.i >= i) ==> after[p] == before[p]) && forall n :: i <= n < |were| ==> now[n] == were[n]
  }

  /** The first `i` volumes are what an uninterrupted boot leaves. */
  ghost predicate VolsBooted(before: map<Place, Store>, were: seq<App>, after: map<Place, Store>, now: seq<App>, i: nat) {
    && before.Keys == after.Keys && i <= |were| == |now|
    && forall n: nat :: n < i ==> Vol(n) in before && (after[Vol(n)], now[n]) == VolBoot(before[Vol(n)], were[n])
  }

  /** No managed database that ran is left stopped. */
  ghost predicate StillUp(before: seq<Managed>, after: seq<Managed>) {
    |after| == |before| && forall n :: 0 <= n < |before| && before[n].container == Some(true) ==> after[n].container == Some(true)
  }

  /** What an uninterrupted boot makes of apps and managed databases. */
  ghost predicate ServicesBooted(before: Disk, after: Disk) {
    && VolsBooted(before.stores, before.vols, after.stores, after.vols, |before.vols|)
    && |after.mds| == |before.mds| && forall n: nat :: n < |before.mds| ==> MdBooted(before.stores, before.mds, after.mds, n)
  }

  /** And of the whole branch. */
  ghost predicate Booted(before: Disk, after: Disk) {
    PgBooted(before.stores, before.pg, after.stores, after.pg) && ServicesBooted(before, after)
  }

  lemma ServicesBootedSince(first: Disk, mid: Disk, after: Disk)
    requires ServicesBooted(mid, after) && OnlyPg(first.stores, mid.stores) && mid.vols == first.vols && mid.mds == first.mds
    ensures ServicesBooted(first, after)
  {
    MdsBootedSince(first.stores, mid.stores, first.mds, after.mds);
  }

  lemma MdsBootedSince(first: map<Place, Store>, mid: map<Place, Store>, before: seq<Managed>, after: seq<Managed>)
    requires first.Keys == mid.Keys && forall p :: p in first && p.Md? ==> mid[p] == first[p]
    requires |after| == |before| && forall n: nat :: n < |before| ==> MdBooted(mid, before, after, n)
    ensures forall n: nat :: n < |before| ==> MdBooted(first, before, after, n)
  {
    forall n: nat | n < |before| ensures MdBooted(first, before, after, n) {
      assert MdBooted(mid, before, after, n);
      assert DataDirIn(first, n, before[n].paths) == DataDirIn(mid, n, before[n].paths);
    }
  }

  /** The directories of the managed databases from number `j` on, and all that is of none, are as they were. */
  ghost predicate MdsFrom(before: map<Place, Store>, after: map<Place, Store>, j: nat) {
    before.Keys == after.Keys && forall p :: p in before && (p.Md? ==> p.j >= j) ==> after[p] == before[p]
  }

  /** The first `n` managed databases have had their turn, and the others are as they were: none that ran is
      left stopped, and with a docker that answers each is what an uninterrupted boot makes of it. */
  ghost predicate SomeBooted(stores: map<Place, Store>, before: seq<Managed>, after: seq<Managed>, n: nat, answering: bool) {
    && n <= |before| == |after| && (forall i :: n <= i < |before| ==> after[i] == before[i])
    && (forall i :: 0 <= i < |before| && before[i].container == Some(true) ==> after[i].container == Some(true))
    && (answering ==> forall i: nat :: i < n ==> MdBooted(stores, before, after, i))
  }

  ghost predicate MdBooted(stores: map<Place, Store>, before: seq<Managed>, after: seq<Managed>, n: nat) {
    && n < |before| == |after| && (forall k: nat :: k < before[n].paths ==> Md(n, k) in stores)
    && after[n] == MdBoot(before[n], DataDirIn(stores, n, before[n].paths))
  }

  ghost predicate OnlyMd(before: seq<Managed>, after: seq<Managed>, j: nat) {
    && |after| == |before| && j < |before|
    && (forall n :: 0 <= n < |before| && n != j ==> after[n] == before[n])
    && after[j].paths == before[j].paths && after[j].password == before[j].password
  }

  /** The first `k` paths of container `j` have a finished copy. */
  ghost predicate CopiedTo(stores: map<Place, Store>, j: nat, k: nat) {
    forall n: nat :: n < k ==> Md(j, n) in stores && stores[Md(j, n)].source.Some? && stores[Md(j, n)].target == Whole(stores[Md(j, n)].source.value)
  }

  lemma OneMoreCopied(before: map<Place, Store>, after: map<Place, Store>, j: nat, k: nat)
    requires CopiedTo(before, j, k) && OnlyDirs(before, after, Md(j, k))
    requires after[Md(j, k)].source.Some? && after[Md(j, k)].target == Whole(after[Md(j, k)].source.value)
    ensures CopiedTo(after, j, k + 1)
  {
    forall n: nat | n < k ensures Md(j, n) in after && after[Md(j, n)] == before[Md(j, n)] {}
  }

  function WithoutSources(stores: map<Place, Store>, j: nat): map<Place, Store> {
    map p | p in stores :: if p.Md? && p.j == j then stores[p].(source := None) else stores[p]
  }

  lemma CopiesKeepContent(stores: map<Place, Store>, j: nat, paths: nat)
    requires forall k: nat :: Md(j, k) in stores ==> k < paths
    requires forall k: nat :: k < paths ==> Md(j, k) in stores && stores[Md(j, k)].source.Some?
                                            && stores[Md(j, k)].target == Whole(stores[Md(j, k)].source.value)
    ensures var after := WithoutSources(stores, j);
            after.Keys == stores.Keys && forall p :: p in stores ==> Content(after[p]) == Content(stores[p])
  {
    var after := WithoutSources(stores, j);
    forall p | p in stores ensures Content(after[p]) == Content(stores[p]) {
      if p.Md? && p.j == j {
        assert p == Md(j, p.k);
      }
    }
  }

  ghost predicate OnlyPlace(before: map<Place, Store>, after: map<Place, Store>, p: Place) {
    && p in before && before.Keys == after.Keys
    && forall q :: q in before && q != p ==> after[q] == before[q]
  }

  ghost predicate OnlyManaged(before: map<Place, Store>, after: map<Place, Store>, j: nat) {
    && before.Keys == after.Keys
    && forall q :: q in before && !(q.Md? && q.j == j) ==> after[q] == before[q]
  }

  predicate LegacyHandle(row: Row) {
    row.Row? && row.container.Legacy?
  }

  ghost predicate OnlyPg(before: map<Place, Store>, after: map<Place, Store>) {
    && Pg in before && before.Keys == after.Keys
    && forall q :: q in before && q != Pg ==> after[q] == before[q]
  }

  // ---- where the bytes depend on what went before ----------------------------------------------

  /** An uninterrupted boot keeps a postgres source's bytes exactly when the destination does not pass
      for a finished copy of something else: an unfinished tree that looks whole, or a copy taken
      before the source was started and written again, costs the source's bytes. */
  lemma PgBytesSurvive(s: Store, pg: Postgres)
    requires LegacyExists(s, pg)
    ensures Content(PgBoot(s, pg).0) == s.source <==> !LooksComplete(s.target) || s.target == Whole(s.source.value)
  {
  }

  /** A second uninterrupted boot finds everything as the first one left it. */
  lemma PgBootTwice(s: Store, pg: Postgres)
    requires PgOk(s, pg)
    ensures PgBoot(PgBoot(s, pg).0, PgBoot(s, pg).1) == PgBoot(s, pg)
  {
    var (s1, pg1) := PgBoot(s, pg);
    assert LegacyExists(s, pg) && LooksComplete(s.target) ==> s.target == Whole(s.source.value);
  }

  /** One boot never loses a volume's bytes, because it keeps the volume when it cannot tell which copy
      is newer; but the app it puts on the bind mount then tells the next boot that the copy is done.
      When that next boot comes before the stamp, the volume survives only if the destination was
      untouched or already held the same bytes. */
  lemma VolumeBytesSurvive(s: Store, app: App)
    requires s.source.Some?
    ensures var (s1, app1) := VolBoot(s, app);
            var (s2, _) := VolBoot(s1, app1);
            && (!app.OnBind? ==> Content(s1) == s.source)
            && (Content(s2) == s.source <==> VolOk(s, app))
  {
  }

  /** The losing input: a leftover destination, no app container, and two boots. */
  lemma KeptVolumeIsRemovedNextBoot(bytes: Bytes)
    ensures var s := Store(Some(bytes), Missing, Partial(false, false));
            var (s1, app1) := VolBoot(s, NoApp);
            s1 == s && app1 == OnBind && VolBoot(s1, app1).0 == Store(None, Missing, Partial(false, false))
  {
  }

  // ---- an app that goes on writing -------------------------------------------------------------

  /** What an app of the group writes lands where its `/data` is mounted from. */
  function Written(s: Store, app: App, w: Option<Bytes>): Store {
    if w.None? || app.NoApp? then s
    else if app.OnBind? then s.(target := Whole(w.value))
    else if s.source.Some? then s.(source := w)
    else s
  }

  /** The bytes that ought to survive: what was written last, or else what there was. */
  function Newest(kept: Option<Bytes>, s: Store, app: App, w: Option<Bytes>): Option<Bytes> {
    if w.Some? && (app.OnBind? || (app.OnVolume? && s.source.Some?)) then w else kept
  }

  /** One volume with its app running, on a boot that nothing interrupts: nothing stops the app before the
      copy is read, and only the redeploy takes it off the volume. */
  class LiveVolume {
    var store: Store
    var app: App
    ghost var newest: Option<Bytes>

    constructor (store: Store, app: App)
      ensures this.store == store && this.app == app && newest == Content(store)
    {
      this.store, this.app, newest := store, app, Content(store);
    }

    method AppWrites(w: Option<Bytes>)
      modifies this
      ensures store == Written(old(store), old(app), w) && newest == Newest(old(newest), old(store), old(app), w) && app == old(app)
    {
      newest := Newest(newest, store, app, w);
      store := Written(store, app, w);
    }

    /** `early` is what the app writes before the copy reads the volume, `late` what it writes between that
        and the redeploy. What is left is as `VolBoot` has it for the store the copy read, whatever `late`
        was; and it is what was written last exactly when nothing different was written late. */
    method Migrate(early: Option<Bytes>, late: Option<Bytes>)
      requires newest == Content(store) && VolOk(store, app)
      modifies this
      ensures (store, app) == VolBoot(Written(old(store), old(app), early), old(app))
      ensures Content(store) == newest <==> !LosesWrite(old(store), old(app), early, late)
      ensures LosesWrite(old(store), old(app), early, late) ==> newest == late
    {
      AppWrites(early);
      if store.source.None? {
        return;
      }
      if !app.OnBind? {
        var ambiguous := app.NoApp? && !IsEmptyOrMissing(store.target);
        if !ambiguous {
          store := Store(store.source, Missing, Whole(store.source.value));
          AppWrites(late);
        }
        app := OnBind;
        if ambiguous {
          return;
        }
      }
      store := store.(source := None);
    }
  }

  /** The app was on the volume, wrote after the copy was read, and not the same as the copy holds. */
  predicate LosesWrite(s: Store, app: App, early: Option<Bytes>, late: Option<Bytes>) {
    app.OnVolume? && s.source.Some? && late.Some? && late != (if early.Some? then early else s.source)
  }

  /** The losing input: a volume in use, nothing at its destination, one write between copy and redeploy. */
  method LateWriteIsLost(a: Bytes, b: Bytes) returns (v: LiveVolume)
    requires a != b
    ensures v.newest == Some(b) && v.store == Store(None, Missing, Whole(a))
  {
    v := new LiveVolume(Store(Some(a), Missing, Missing), OnVolume);
    v.Migrate(None, Some(b));
  }
}
