/**
 The profile manager's operations step by step, each proved to leave the store its specification says.
 */
module ProfileManager {
  import opened Wrappers
  import opened Text
  import opened ProfileStore
  import C = CodexConfig
  import M = ModelSelection
  import A = ModelApply
  import S = ProfileSync

  lemma AttemptLast(u: A.Undo, writes: seq<Write>, w: Write, faults: Faults)
    ensures A.AttemptAll(u, writes + [w], faults) == A.Attempt(A.AttemptAll(u, writes, faults), w, faults)
  {
    assert (writes + [w])[..|writes|] == writes;
  }

  /** Once an operation has failed its later parts do nothing. */
  lemma Stopped(env: Env, e: Exec, p: Profile, now: int, faults: Faults)
    requires !e.ok
    ensures EnsureBackup(env, e, p, now, faults) == e && Finish(e, p, faults) == e
  {
  }

  lemma NothingSaved(env: Env, e: Exec, p: Profile, st: State, faults: Faults)
    requires !e.ok
    ensures WriteManagedState(env, e, p, st, faults) == e
  {
  }

  lemma NothingCleared(env: Env, e: Exec, p: Profile, faults: Faults)
    requires !e.ok
    ensures ClearState(env, e, p, faults) == e
  {
  }

  class Manager {
    const env: Env
    var rows: map<Row, string>
    var files: map<(Profile, Slot), string>
    var io: nat

    constructor (env: Env, store: Store)
      ensures this.env == env && View() == store && io == 0
    {
      this.env, rows, files, io := env, store.rows, store.files, 0;
    }

    function View(): Store
      reads this
    {
      Store(rows, files)
    }

    /** Where an operation stands, given whether it has gone well so far. */
    function At(ok: bool): Exec
      reads this
    {
      Exec(Store(rows, files), io, ok)
    }

    // ----- single steps -----

    /** Reading, validating or computing. */
    method Try(holds: bool, faults: Faults) returns (ok: bool)
      modifies this`io
      ensures At(ok) == Check(old(At(true)), holds, faults)
    {
      ok := holds && !faults(io);
      io := io + 1;
    }

    /** `load_state`: a setting that cannot be read counts as absent. */
    method ReadState(faults: Faults) returns (seen: Option<State>)
      modifies this`io
      ensures seen == SeenState(env, old(At(true)), faults) && At(true) == Read(old(At(true)))
    {
      seen := if faults(io) then None else LoadState(env, View());
      io := io + 1;
    }

    /** `load_backups`. */
    method ReadBackups(faults: Faults) returns (seen: Backups)
      modifies this`io
      ensures seen == SeenBackups(env, old(At(true)), faults) && At(true) == Read(old(At(true)))
    {
      seen := if faults(io) then map[] else LoadBackups(env, View());
      io := io + 1;
    }

    /** A file read whose failure is taken for an absent file. */
    method Peek(p: Profile, slot: Slot, faults: Faults) returns (content: Option<string>)
      modifies this`io
      ensures content == (if faults(old(io)) then None else FileOf(View(), p, slot)) && At(true) == Read(old(At(true)))
    {
      content := if faults(io) then None else FileOf(View(), p, slot);
      io := io + 1;
    }

    /** `write_atomic`, or `remove_file_if_exists` when there is no content. */
    method WriteFile(p: Profile, slot: Slot, content: Option<string>, faults: Faults) returns (ok: bool)
      modifies this`io, this`files
      ensures At(ok) == Must(old(At(true)), File(p, slot, content), faults)
    {
      ok := !faults(io);
      io := io + 1;
      if ok {
        files := if content.Some? then files[(p, slot) := content.value] else files - {(p, slot)};
      }
    }

    /** `save_persisted_app_setting`. */
    method SaveSetting(row: Row, value: Option<string>, faults: Faults) returns (ok: bool)
      modifies this`io, this`rows
      ensures At(ok) == Must(old(At(true)), Save(row, value), faults)
    {
      ok := !faults(io);
      io := io + 1;
      if ok {
        rows := rows[row := Normalize(value).GetOr("")];
      }
    }

    // ----- parts -----

    method MigrateLegacyMarker(p: Profile, faults: Faults) returns (ok: bool)
      modifies this
      ensures At(ok) == MigrateMarker(old(At(true)), p, faults)
    {
      if (p, LegacyMarker) !in files {
        return true;
      }
      if (p, MarkerFile) !in files {
        ok := WriteFile(p, MarkerFile, Some(files[(p, LegacyMarker)]), faults);
        if !ok {
          return false;
        }
      }
      ok := WriteFile(p, LegacyMarker, None, faults);
    }

    method EnsureBackupOf(p: Profile, now: int, faults: Faults) returns (ok: bool)
      modifies this
      ensures At(ok) == EnsureBackup(env, old(At(true)), p, now, faults)
    {
      hide SeenBackups;
      var backups := ReadBackups(faults);
      if p in backups {
        return true;
      }
      ok := Try(true, faults);
      if !ok {
        return false;
      }
      ok := SaveSetting(BackupsRow, Some(env.renderBackups(backups[p := EntryOf(View(), p, now)])), faults);
    }

    method WriteManagedMarker(p: Profile, st: State, faults: Faults) returns (ok: bool)
      modifies this
      ensures At(ok) == WriteMarker(env, old(At(true)), p, st, faults)
    {
      ok := WriteFile(p, MarkerFile, Some(env.renderMarker(MarkerOf(st))), faults);
      if ok {
        var removed := WriteFile(p, LegacyMarker, None, faults);
      }
    }

    method SaveManagedState(p: Profile, st: State, faults: Faults) returns (ok: bool)
      modifies this
      ensures At(ok) == WriteManagedState(env, old(At(true)), p, st, faults)
    {
      hide WriteMarker;
      ok := WriteManagedMarker(p, st, faults);
      if ok {
        ok := SaveSetting(StateRow, Some(env.renderState(st)), faults);
      }
    }

    /** `persist_codex_home` and the status. */
    method FinishSwitch(p: Profile, faults: Faults) returns (ok: bool)
      modifies this
      ensures At(ok) == Finish(old(At(true)), p, faults)
    {
      hide MigrateMarker;
      ok := SaveSetting(HomeRow, Some(p), faults);
      if ok {
        var migrated := MigrateLegacyMarker(p, faults);
        ok := Try(true, faults);
      }
    }

    // ----- switches -----

    /** The first steps of an account or aggregate switch. */
    method Accept(p: Profile, valid: bool, faults: Faults) returns (ok: bool)
      modifies this
      ensures At(ok) == Accepted(old(At(true)), p, valid, faults)
    {
      hide MigrateMarker;
      var migrated := MigrateLegacyMarker(p, faults);
      ok := Try(valid, faults);
    }

    /** What every switch writes, in the order in which it is written. */
    method CarryOut(p: Profile, t: Todo, faults: Faults) returns (ok: bool)
      modifies this
      ensures At(ok) == Carry(env, old(At(true)), p, t, faults)
    {
      hide Finish, WriteMarker;
      ok := WriteFile(p, t.slot, t.content, faults);
      if ok {
        ok := WriteFile(p, Config, Some(t.config), faults);
      }
      if ok {
        ok := SaveManagedState(p, t.st, faults);
      } else {
        NothingSaved(env, At(false), p, t.st, faults);
      }
      if ok {
        ok := FinishSwitch(p, faults);
      } else {
        Stopped(env, At(false), p, 0, faults);
      }
    }

    method SwitchToAccount(r: DirectRequest, faults: Faults) returns (ok: bool)
      modifies this
      ensures At(ok) == ApplyDirect(env, old(At(true)), r, faults)
    {
      hide Accepted, EnsureBackup, DirectConfig, Carry, SeenState;
      var p := r.profile;
      ok := Accept(p, r.valid, faults);
      if !ok {
        Stopped(env, At(false), p, r.now, faults);
        return;
      }
      ok := EnsureBackupOf(p, r.now, faults);
      if !ok {
        return;
      }
      var seen := ReadState(faults);
      var config := DirectConfig(env, seen, FileOf(View(), p, Config), p);
      ok := Try(config.Ok?, faults);
      if ok {
        ok := CarryOut(p, Todo(Auth, Some(r.auth), config.value, DirectState(r)), faults);
      }
    }

    /** Phase one takes the backup; the network answers before phase two writes anything. */
    method SwitchToAggregate(r: AggregateRequest, faults: Faults) returns (ok: bool)
      modifies this
      ensures At(ok) == ApplyAggregate(env, old(At(true)), r, faults)
    {
      hide Accepted, EnsureBackup, AggregateTodo, Carry, SeenState;
      var p := r.profile;
      ok := Accept(p, r.valid, faults);
      if !ok {
        Stopped(env, At(false), p, r.now, faults);
        return;
      }
      ok := EnsureBackupOf(p, r.now, faults);
      if !ok {
        return;
      }
      var seen := ReadState(faults);
      var todo := AggregateTodo(env, seen, FileOf(View(), p, Config), r);
      ok := Try(todo.Ok?, faults);
      if ok {
        ok := CarryOut(p, todo.value, faults);
      }
    }

    /** The document is patched, from the text phase one read, before anything is written. */
    method SwitchToGateway(r: GatewayRequest, faults: Faults) returns (ok: bool)
      modifies this
      ensures At(ok) == ApplyGateway(env, old(At(true)), r, faults)
    {
      hide MigrateMarker, EnsureBackup, GatewayTodo, Carry, SeenState;
      var p := r.profile;
      var current := FileOf(View(), p, Config);
      var seen := ReadState(faults);
      var todo := GatewayTodo(env, seen, current, r);
      ok := Try(r.valid && todo.Ok?, faults);
      if !ok {
        Stopped(env, At(false), p, r.now, faults);
        return;
      }
      var migrated := MigrateLegacyMarker(p, faults);
      ok := EnsureBackupOf(p, r.now, faults);
      if ok {
        ok := CarryOut(p, todo.value, faults);
      }
    }

    // ----- restore -----

    /** Both files back, both markers gone. */
    method PutBack(p: Profile, entry: BackupEntry, faults: Faults) returns (ok: bool)
      modifies this
      ensures At(ok) == RestoreFiles(old(At(true)), p, entry, faults)
    {
      ok := WriteFile(p, Auth, entry.auth, faults);
      if ok {
        ok := WriteFile(p, Config, entry.config, faults);
      }
      if ok {
        ok := WriteFile(p, MarkerFile, None, faults);
      }
      if ok {
        ok := WriteFile(p, LegacyMarker, None, faults);
      }
    }

    /** The state is cleared if it is this profile's, as far as it can be read. */
    method ForgetState(p: Profile, faults: Faults) returns (ok: bool)
      modifies this
      ensures At(ok) == ClearState(env, old(At(true)), p, faults)
    {
      hide SeenState;
      var seen := ReadState(faults);
      ok := true;
      if seen.Some? && seen.value.profile == p {
        ok := SaveSetting(StateRow, None, faults);
      }
      if ok {
        ok := Try(true, faults);
      }
    }

    method Restore(p: Profile, faults: Faults) returns (ok: bool)
      modifies this
      ensures At(ok) == RestoreProfile(env, old(At(true)), p, faults)
    {
      hide SeenBackups, RestoreFiles, ClearState;
      var backups := ReadBackups(faults);
      ok := Try(p in backups, faults);
      if !ok {
        return;
      }
      ok := PutBack(p, backups[p], faults);
      if ok {
        ok := SaveSetting(BackupsRow, Some(env.renderBackups(backups - {p})), faults);
      }
      if ok {
        ok := ForgetState(p, faults);
      } else {
        NothingCleared(env, At(false), p, faults);
      }
    }

    // ----- model selection -----

    /** Every one of the four reads is silent. */
    method Look(p: Profile, faults: Faults) returns (seen: A.Seen)
      modifies this`io
      ensures seen == A.LookAround(env, old(At(true)), p, faults) && At(true) == old(At(true)).(io := old(io) + 4)
    {
      hide SeenState;
      var st := ReadState(faults);
      var text := Peek(p, MarkerFile, faults);
      var marker := if text.Some? then env.parseMarker(text.value) else None;
      var auth := Peek(p, Auth, faults);
      var config := Peek(p, Config, faults);
      seen := A.Seen(st, marker, auth, config);
    }

    method WriteSelection(r: A.Prepared, faults: Faults) returns (ok: bool)
      modifies this
      ensures At(ok) == A.WriteNewValues(env, old(At(true)), r, faults)
    {
      hide MigrateMarker, EnsureBackup, A.NewState, A.LookAround, Carry;
      var p := r.profile;
      ok := MigrateLegacyMarker(p, faults);
      if !ok {
        Stopped(env, At(false), p, r.now, faults);
        return;
      }
      ok := EnsureBackupOf(p, r.now, faults);
      if !ok {
        return;
      }
      var seen := Look(p, faults);
      var st := A.NewState(env, seen, r);
      ok := Try(st.Ok?, faults);
      if ok {
        ok := CarryOut(p, Todo(Catalog, Some(env.renderCatalog(r.models)), r.config, st.value), faults);
      }
    }

    /** One compensation; its failure is noted and the next one is still attempted. */
    method Compensate(w: Write, errors: nat, faults: Faults, ghost start: A.Undo, ghost done: seq<Write>)
      returns (total: nat, ghost more: seq<Write>)
      requires A.Undo(View(), io, errors) == A.AttemptAll(start, done, faults)
      modifies this
      ensures more == done + [w]
      ensures A.Undo(View(), io, total) == A.AttemptAll(start, more, faults)
    {
      hide A.AttemptAll;
      AttemptLast(start, done, w, faults);
      more := done + [w];
      var ok: bool;
      match w {
        case File(p, slot, content) => ok := WriteFile(p, slot, content, faults);
        case Save(row, value) => ok := SaveSetting(row, value, faults);
      }
      total := if ok then errors else errors + 1;
    }

    /** All seven values are written back, whatever fails on the way. */
    method WriteBack(snapshot: Store, p: Profile, faults: Faults) returns (errors: nat)
      modifies this
      ensures A.Undo(View(), io, errors)
              == A.AttemptAll(A.Undo(old(View()), old(io), 0), A.OldValues(snapshot, p), faults)
    {
      ghost var start := A.Undo(View(), io, 0);
      ghost var done: seq<Write> := [];
      NothingAttempted(start, faults);
      hide A.AttemptAll, A.Attempt, FileOf, Raw, Written, A.OldValues;
      errors, done := Compensate(Save(HomeRow, Raw(snapshot, HomeRow)), 0, faults, start, done);
      errors, done := Compensate(Save(StateRow, Raw(snapshot, StateRow)), errors, faults, start, done);
      errors, done := Compensate(File(p, MarkerFile, FileOf(snapshot, p, MarkerFile)), errors, faults, start, done);
      errors, done := Compensate(File(p, LegacyMarker, FileOf(snapshot, p, LegacyMarker)), errors, faults, start, done);
      errors, done := Compensate(File(p, Config, FileOf(snapshot, p, Config)), errors, faults, start, done);
      errors, done := Compensate(File(p, Catalog, FileOf(snapshot, p, Catalog)), errors, faults, start, done);
      errors, done := Compensate(Save(BackupsRow, Raw(snapshot, BackupsRow)), errors, faults, start, done);
      InOrder(snapshot, p, done);
    }

    /** The managed directory goes too if this commit created it. */
    method RollBack(snapshot: Store, p: Profile, rootExisted: bool, faults: Faults) returns (errors: nat)
      modifies this
      ensures A.Undo(View(), io, errors) == A.WayBack(A.Undo(old(View()), old(io), 0), snapshot, p, rootExisted, faults)
    {
      hide A.AttemptAll, A.OldValues;
      errors := WriteBack(snapshot, p, faults);
      if !rootExisted {
        var removed := Try(true, faults);
        errors := if removed then errors else errors + 1;
      }
    }

    /** The old values: a settings table that cannot be read looks empty. */
    method Capture(faults: Faults) returns (snapshot: Store)
      modifies this`io
      ensures snapshot == A.Captured(old(At(true)), faults) && At(true) == Read(old(At(true)))
    {
      snapshot := Store(if faults(io) then map[] else rows, files);
      io := io + 1;
    }

    /** `apply_models_commit_locked`: the old values are read before anything changes. */
    method CommitSelection(r: A.Prepared, faults: Faults) returns (ok: bool, errors: nat)
      modifies this
      ensures A.Commit(At(ok), errors) == A.CommitModels(env, old(At(true)), r, faults)
    {
      hide A.WriteNewValues, A.WayBack, A.Captured;
      errors := 0;
      var snapshot := Capture(faults);
      ok := Try(true, faults);
      if !ok {
        return;
      }
      ok := WriteSelection(r, faults);
      if !ok {
        errors := RollBack(snapshot, r.profile, r.rootExisted, faults);
      }
    }

    method SelectModels(r: A.ModelsRequest, faults: Faults) returns (ok: bool, errors: nat)
      modifies this
      ensures A.Commit(At(ok), errors) == A.ApplyModels(env, old(At(true)), r, faults)
    {
      hide A.CommitModels, A.Ready;
      errors := 0;
      var prepared := A.Ready(env, View(), r);
      ok := Try(prepared.Ok?, faults);
      if ok {
        ok, errors := CommitSelection(prepared.value, faults);
      }
    }

    // ----- sync -----

    method WriteMaybe(before: bool, p: Profile, slot: Slot, content: Option<string>, faults: Faults) returns (ok: bool)
      modifies this`io, this`files
      ensures At(ok) == S.MaybeFile(old(At(before)), p, slot, content, faults)
    {
      ok := before;
      if before && content.Some? {
        ok := WriteFile(p, slot, content, faults);
      }
    }

    method WriteInLine(plan: S.Prepared, content: S.Content, config: Option<string>, faults: Faults) returns (ok: bool)
      modifies this
      ensures At(ok) == S.WriteSynced(env, old(At(true)), plan, content, config, faults)
    {
      hide S.MaybeFile, WriteManagedState, Finish;
      var p := plan.state.profile;
      ok := WriteMaybe(true, p, Catalog, content.catalog, faults);
      ok := WriteMaybe(ok, p, Config, config, faults);
      var st := S.SyncedState(plan, content);
      if plan.changed || st != plan.state {
        if ok {
          ok := SaveManagedState(p, st, faults);
        } else {
          NothingSaved(env, At(false), p, st, faults);
        }
      }
    }

    /** The selection follows the changes first; only then is it known whether there is anything to do. */
    method SyncActive(r: S.SyncRequest, faults: Faults) returns (ok: bool, done: bool)
      modifies this
      ensures S.Synced(At(ok), done) == S.SyncProfile(env, old(At(true)), r, faults)
    {
      hide S.Decide, S.Contents, S.SyncedConfig, S.WriteSynced, SeenState;
      done := false;
      var seen := ReadState(faults);
      var decision := S.Decide(env, seen, View(), r);
      ok := Try(!decision.Refused?, faults);
      if !ok || !decision.Proceed? {
        return;
      }
      var content := S.Contents(env, r, decision.plan);
      ok := Try(content.Ok?, faults);
      if !ok {
        return;
      }
      var config := S.SyncedConfig(env, View(), r, decision.plan, content.value);
      ok := Try(config.Ok?, faults);
      if !ok {
        return;
      }
      ok := WriteInLine(decision.plan, content.value, config.value, faults);
      done := ok;
    }
  }

  lemma InOrder(s: Store, p: Profile, done: seq<Write>)
    requires done == [] + [Save(HomeRow, Raw(s, HomeRow))] + [Save(StateRow, Raw(s, StateRow))]
                     + [File(p, MarkerFile, FileOf(s, p, MarkerFile))]
                         + [File(p, LegacyMarker, FileOf(s, p, LegacyMarker))]
                     + [File(p, Config, FileOf(s, p, Config))] + [File(p, Catalog, FileOf(s, p, Catalog))]
                     + [Save(BackupsRow, Raw(s, BackupsRow))]
    ensures done == A.OldValues(s, p)
  {
    hide Raw, FileOf;
  }

  lemma NothingAttempted(u: A.Undo, faults: Faults)
    ensures A.AttemptAll(u, [], faults) == u
  {
  }
}
