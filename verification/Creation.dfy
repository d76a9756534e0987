/** Creators that race: what happens when other transactions commit between the checks of a creation and its inserts. */
module Creation {
  import opened Events
  import opened LookupKey
  import opened Conversation

  /** The step creates the command's conversation, or another one under its lookup key. */
  predicate Takes(db: Db, st: Step, cmd: CreateCommand) {
    && st.DoCreate? && Tables(db, st) != db
    && (st.cmd.id == cmd.id || (LookupOf(cmd).Some? && LookupOf(st.cmd) == LookupOf(cmd)))
  }

  predicate Taken(db: Db, cmd: CreateCommand) {
    cmd.id in db.convs || (LookupOf(cmd).Some? && LookupOf(cmd).value in db.lookup)
  }

  lemma TakesStep(db: Db, st: Step, cmd: CreateCommand)
    ensures Taken(Tables(db, st), cmd) <==> Taken(db, cmd) || Takes(db, st, cmd)
  {
  }

  /** The rivals' step `j` does. */
  predicate TakenAt(db: Db, rivals: seq<Step>, j: nat, cmd: CreateCommand) {
    j < |rivals| && Takes(TablesAfter(db, rivals[..j]), rivals[j], cmd)
  }

  ghost predicate TakenBy(db: Db, rivals: seq<Step>, cmd: CreateCommand) {
    exists j: nat :: TakenAt(db, rivals, j, cmd)
  }

  lemma TakenBySnoc(db: Db, front: seq<Step>, st: Step, cmd: CreateCommand)
    ensures TakenBy(db, front + [st], cmd) <==> TakenBy(db, front, cmd) || Takes(TablesAfter(db, front), st, cmd)
  {
    var rivals := front + [st];
    assert rivals[..|front|] == front;
    forall j: nat | j < |front| ensures TakenAt(db, rivals, j, cmd) <==> TakenAt(db, front, j, cmd) {
      assert rivals[..j] == front[..j];
    }
    if Takes(TablesAfter(db, front), st, cmd) {
      assert TakenAt(db, rivals, |front|, cmd);
    }
    if TakenBy(db, front, cmd) {
      var j: nat :| TakenAt(db, front, j, cmd);
      assert TakenAt(db, rivals, j, cmd);
    }
    if TakenBy(db, rivals, cmd) {
      var j: nat :| TakenAt(db, rivals, j, cmd);
      assert j == |front| || TakenAt(db, front, j, cmd);
    }
  }

  lemma {:induction false} TakenIff(db: Db, rivals: seq<Step>, cmd: CreateCommand)
    ensures Taken(TablesAfter(db, rivals), cmd) <==> Taken(db, cmd) || TakenBy(db, rivals, cmd)
  {
    if rivals == [] {
      assert !TakenBy(db, rivals, cmd);
    } else {
      var front, st := rivals[..|rivals| - 1], rivals[|rivals| - 1];
      TakenIff(db, front, cmd);
      TakesStep(TablesAfter(db, front), st, cmd);
      assert rivals == front + [st];
      TakenBySnoc(db, front, st, cmd);
    }
  }

  /** The tables of a run and of its rivals are those of one longer run. */
  lemma {:induction false} RivalsAreARun(steps: seq<Step>, rivals: seq<Step>)
    ensures TablesAfter(Run(steps).db, rivals) == Run(steps + rivals).db
  {
    if rivals == [] {
      assert steps + rivals == steps;
    } else {
      RivalsAreARun(steps, rivals[..|rivals| - 1]);
      assert (steps + rivals)[..|steps + rivals| - 1] == steps + rivals[..|rivals| - 1];
    }
  }

  /** Exactly when creation loses a race: a call that found nothing at its checks ends with an error if and only if a
      user is repeated, or some other creation between its checks and its inserts took its id or its lookup key. Then it
      leaves the tables as the others left them; otherwise it adds its conversation to them. */
  lemma LosesRaceIff(steps: seq<Step>, cmd: CreateCommand, idFirst: bool, rivals: seq<Step>, now: int)
    requires !Malformed(cmd) && Existing(Run(steps).db, cmd, idFirst).None?
    ensures var db := Run(steps).db;
            var (db', r) := CreateRacing(db, cmd, idFirst, rivals, now);
            && (r.Err? <==> !Distinct(cmd.participants) || TakenBy(db, rivals, cmd))
            && (r.Err? ==> r == Err(Constraint) && db' == TablesAfter(db, rivals))
            && (r.Ok? ==> r.value == cmd.id && db' == Created(TablesAfter(db, rivals), cmd, now))
  {
    TakenIff(Run(steps).db, rivals, cmd);
    RivalsAreARun(steps, rivals);
    Invariant(steps + rivals);
  }

  /** Creation that races is creation alone, at the moment of its inserts, or fails and does nothing. */
  lemma RacingIsSerial(steps: seq<Step>, cmd: CreateCommand, idFirst: bool, rivals: seq<Step>, now: int)
    requires !Malformed(cmd) && Existing(Run(steps).db, cmd, idFirst).None?
    ensures var (db', r) := CreateRacing(Run(steps).db, cmd, idFirst, rivals, now);
            && db' == (if r.Ok? then Run(steps + rivals + [DoCreate(cmd, idFirst, now)]).db else Run(steps + rivals).db)
  {
    LosesRaceIff(steps, cmd, idFirst, rivals, now);
    RivalsAreARun(steps, rivals);
    var all := steps + rivals + [DoCreate(cmd, idFirst, now)];
    assert all[..|all| - 1] == steps + rivals;
  }

  /** A creation that lost to another one would find the winner if it were tried again. */
  lemma RetryFindsWinner(steps: seq<Step>, cmd: CreateCommand, idFirst: bool, rivals: seq<Step>, now: int, again: bool)
    requires !Malformed(cmd) && Existing(Run(steps).db, cmd, idFirst).None? && Distinct(cmd.participants)
    ensures var (db', r) := CreateRacing(Run(steps).db, cmd, idFirst, rivals, now);
            r.Err? ==> Create(db', cmd, again, now).0 == db' && Create(db', cmd, again, now).1.Ok?
  {
    LosesRaceIff(steps, cmd, idFirst, rivals, now);
    TakenIff(Run(steps).db, rivals, cmd);
  }

  /** The losing creator: both want the same pair, the other one commits first, and the call ends with an error although
      the pair's conversation exists. */
  lemma LosingCreator(a: Id, b: Id)
    requires a != b
    ensures var cmd, rival := CreateCommand("c", Direct, [a, b]), DoCreate(CreateCommand("d", Direct, [b, a]), true, 0);
            var (db, r) := CreateRacing(EMPTY, cmd, true, [rival], 0);
            && r == Err(Constraint) && "d" in db.participants && db.participants["d"].Keys == {a, b} && "c" !in db.convs
            && Create(db, cmd, true, 0).1 == Ok("d")
  {
    var rival := DoCreate(CreateCommand("d", Direct, [b, a]), true, 0);
    assert [rival][..0] == [];
    KeySymmetric(a, b);
    assert Rows(Direct, [b, a]).Keys == {a, b};
    assert TablesAfter(EMPTY, [rival]) == Created(EMPTY, rival.cmd, 0);
  }
}
