/** What a boot of the data migration that nothing interrupts leaves of each container, directory and row,
    over the disk and docker alone; module Migration proves that the boot gets there. */
module MigrationEffects {
  import opened Migration

  /** The container that held a branch's postgres bytes on its own filesystem: there, and not what the row
      names when that already is the replacement. */
  predicate StillLegacy(d: Disk) {
    Pg in d.stores && d.stores[Pg].source != None && !(d.pg.row.Row? && d.pg.row.container == Fresh)
  }

  /** Postgres comes back in a replacement that runs exactly when its container ran, on the same bytes; a
      replacement that is there stays as it was, and one that is missing beside a finished copy comes back
      running. The row, if there is one, names it from then on. */
  lemma WhatBecomesOfPostgres(before: Disk, after: Disk)
    requires Booted(before, after)
    ensures Pg in before.stores && Pg in after.stores
    ensures var s, t := before.stores[Pg], after.stores[Pg];
            if StillLegacy(before) then
              && after.pg.replacement == Some(before.pg.legacyRunning)
              && t.source == None && (before.pg.row.Row? ==> after.pg.row == Row(Fresh, true)) && (before.pg.row.NoRow? ==> after.pg.row == NoRow)
              && (if s.target.Whole? || (s.target.Partial? && s.target.looksWhole) then t.target == s.target else t.target == Whole(s.source.value))
            else t == s && (before.pg.replacement.Some? ==> after.pg.replacement == before.pg.replacement)
                 && (s.target.Whole? ==> after.pg.replacement.Some? && (before.pg.replacement.None? ==> after.pg.replacement == Some(true))
                                         && (before.pg.row.Row? ==> after.pg.row == Row(Fresh, true)))
                 && (s.target.Missing? ==> after.pg.replacement == before.pg.replacement && after.pg.row == before.pg.row)
  {
  }

  /** An app's volume is copied into place and goes, and the app is on the copy: unless there is none; or the
      app already is on a copy, which is left as it is; or nobody is on either and something lies at the
      destination, when the volume is kept. */
  lemma WhatBecomesOfAVolume(before: Disk, after: Disk, i: nat)
    requires Booted(before, after) && i < |before.vols|
    ensures |after.vols| == |before.vols| && Vol(i) in before.stores && Vol(i) in after.stores
    ensures var s, t := before.stores[Vol(i)], after.stores[Vol(i)];
            if s.source == None then t == s && after.vols[i] == before.vols[i]
            else
              && after.vols[i] == OnBind
              && (if before.vols[i] == OnBind then t == s.(source := None)
                  else if before.vols[i] == NoApp && !s.target.Missing? && s.target != Whole(0) && !(s.target.Partial? && s.target.empty) then t == s
                  else t.source == None && t.target == Whole(s.source.value))
  {
  }

  /** A managed database that is on its own filesystem comes back on the data directory, running exactly when
      it ran; one whose container is gone comes back running if its directory lists anything, and is left
      alone if not; and so is one that is on the data directory already. */
  lemma WhatBecomesOfAManaged(before: Disk, after: Disk, j: nat)
    requires Booted(before, after) && j < |before.mds|
    ensures |after.mds| == |before.mds| && forall k: nat :: k < before.mds[j].paths ==> Md(j, k) in before.stores
    ensures var m, n := before.mds[j], after.mds[j];
            var lists := exists k: nat :: k < m.paths && !(before.stores[Md(j, k)].target == Missing && before.stores[Md(j, k)].staging == Missing);
            && n.paths == m.paths && n.password == m.password
            && (if m.container != None && !m.onBind then n.container == m.container && n.onBind
                else if m.container != None then n == m
                else if lists then n.container == Some(true) && n.onBind
                else n == m)
  {
    assert MdBooted(before.stores, before.mds, after.mds, j);
  }
}
