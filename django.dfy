/**
 * src/django.rs: Django management commands and linters, each run inside a
 * service container through `docker-compose exec`.
 */
module Django {
  import opened Prelude
  import opened Shell
  import opened DockerCompose

  /** `python manage.py <args>` run in the container of `service`. */
  function Manage(service: string, args: seq<string>): (inv: Invocation)
    ensures inv.program == ComposeProgram
    ensures |inv.args| == 4 + |args| && inv.args[1] == service && inv.args[4..] == args
    ensures inv.args[..4] == ["exec", service, "python", "manage.py"]
  {
    Invocation(ComposeProgram, ["exec", service, "python", "manage.py"] + args)
  }

  /** The management command an invocation of manage.py runs. */
  function Command(inv: Invocation): string
  {
    if |inv.args| > 4 then inv.args[4] else ""
  }

  /** The `--name <n>` option of makemigrations, when a migration name is given. */
  function NameOption(migrationName: Option<string>): seq<string>
  {
    if migrationName.Some? then ["--name", migrationName.value] else []
  }

  method ExecManageCommand(sh: Runner, service: string, args: seq<string>) returns (ok: bool)
    modifies sh
    ensures sh.log == old(sh.log) + [Manage(service, args)]
    ensures ok == sh.succeeds(|old(sh.log)|)
  {
    ok := sh.Exec(ComposeProgram, ["exec", service, "python", "manage.py"] + args);
  }

  /**
   * The commands `migrate` runs, as a chain that stops at the first failure, or
   * None when it refuses to run anything (an empty migration needs an application).
   */
  function MigratePlan(service: string, application: Option<string>, migrationNumber: Option<string>,
                       empty: bool, migrationName: Option<string>): (plan: Option<seq<Invocation>>)
    ensures plan.None? <==> empty && application.None?
    ensures plan.Some? ==> 1 <= |plan.value| <= 2 && RunsOnly(plan.value, ComposeProgram)
    // an empty migration is one makemigrations --empty for the application, whatever the number
    ensures plan.Some? && empty ==>
              plan == Some([Manage(service, ["makemigrations", "--empty"] + NameOption(migrationName) + [application.value])])
    // a rollback to a migration number never runs makemigrations
    ensures !empty && application.Some? && migrationNumber.Some? ==>
              plan == Some([Manage(service, ["migrate", application.value, migrationNumber.value])])
    // otherwise makemigrations comes first and migrate second, for the same application if there is one
    ensures !empty && (application.None? || migrationNumber.None?) ==>
              |plan.value| == 2 && Command(plan.value[0]) == "makemigrations" && Command(plan.value[1]) == "migrate"
              && plan.value[1] == Manage(service, ["migrate"] + ToSeq(application))
    // the migration name follows the application; without an application makemigrations is bare
    ensures !empty && application.Some? && migrationNumber.None? ==>
              plan.value[0] == Manage(service, ["makemigrations", application.value] + NameOption(migrationName))
    ensures !empty && application.None? ==> plan.value[0] == Manage(service, ["makemigrations"])
  {
    if empty then
      if application.Some? then
        Some([Manage(service, ["makemigrations", "--empty"] + NameOption(migrationName) + [application.value])])
      else None
    else if application.Some? then
      if migrationNumber.Some? then Some([Manage(service, ["migrate", application.value, migrationNumber.value])])
      else Some([ Manage(service, ["makemigrations", application.value] + NameOption(migrationName)),
                  Manage(service, ["migrate", application.value]) ])
    else Some([Manage(service, ["makemigrations"]), Manage(service, ["migrate"])])
  }

  /**
   * Creates and applies migrations for all applications or one.  With a
   * migration number it only migrates that application to that migration
   * (a rollback); with `empty` it only creates an empty migration, and then an
   * application is required.
   */
  method Migrate(sh: Runner, service: string, application: Option<string>, migrationNumber: Option<string>,
                 empty: bool, migrationName: Option<string>) returns (ok: bool)
    modifies sh
    ensures var plan := MigratePlan(service, application, migrationNumber, empty, migrationName);
            plan.None? ==> sh.log == old(sh.log) && !ok
    ensures var plan := MigratePlan(service, application, migrationNumber, empty, migrationName);
            plan.Some? ==> var c := Chain(plan.value, sh.succeeds, |old(sh.log)|);
                           sh.log == old(sh.log) + c.ran && ok == c.ok
  {
    ghost var plan := MigratePlan(service, application, migrationNumber, empty, migrationName);
    ghost var at := |sh.log|;
    var makeMigrationArgs := ["makemigrations"];
    if empty {
      makeMigrationArgs := makeMigrationArgs + ["--empty"];
      if migrationName.Some? {
        makeMigrationArgs := makeMigrationArgs + ["--name", migrationName.value];
      }
      if application.Some? {
        makeMigrationArgs := makeMigrationArgs + [application.value];
        assert makeMigrationArgs == ["makemigrations", "--empty"] + NameOption(migrationName) + [application.value];
        assert plan.value == [Manage(service, makeMigrationArgs)];
        ok := ExecManageCommand(sh, service, makeMigrationArgs);
        ChainRunsAll(plan.value, sh.succeeds, at);
        return;
      }
      return false;
    }
    var migrateArgs := ["migrate"];
    match application {
      case Some(app) =>
        migrateArgs := migrateArgs + [app];
        match migrationNumber {
          case Some(migration) =>
            migrateArgs := migrateArgs + [migration];
            assert migrateArgs == ["migrate", app, migration];
            assert plan.value == [Manage(service, migrateArgs)];
            ok := ExecManageCommand(sh, service, migrateArgs);
            ChainRunsAll(plan.value, sh.succeeds, at);
          case None =>
            makeMigrationArgs := makeMigrationArgs + [app];
            if migrationName.Some? {
              makeMigrationArgs := makeMigrationArgs + ["--name", migrationName.value];
            }
            assert makeMigrationArgs == ["makemigrations", app] + NameOption(migrationName);
            assert plan.value == [Manage(service, makeMigrationArgs), Manage(service, migrateArgs)];
            ok := ExecManageCommand(sh, service, makeMigrationArgs);
            if !ok {
              assert Chain(plan.value, sh.succeeds, at) == Chained([plan.value[0]], false);
              return false;
            }
            ok := ExecManageCommand(sh, service, migrateArgs);
            ChainRunsAll(plan.value, sh.succeeds, at);
        }
      case None =>
        assert plan.value == [Manage(service, makeMigrationArgs), Manage(service, migrateArgs)];
        ok := ExecManageCommand(sh, service, makeMigrationArgs);
        if !ok {
          assert Chain(plan.value, sh.succeeds, at) == Chained([plan.value[0]], false);
          return false;
        }
        ok := ExecManageCommand(sh, service, migrateArgs);
        ChainRunsAll(plan.value, sh.succeeds, at);
    }
  }

  /** The three steps of `purge_db`, in the order it runs them. */
  function PurgeDbPlan(dbFolder: string, volume: Option<string>): seq<Invocation>
  {
    [ Invocation(ComposeProgram, ["rm", "--stop", "--force"]),
      if volume.Some? then Invocation("docker", ["volume", "rm", volume.value]) else Invocation("rm", ["-rf", dbFolder]),
      Invocation(ComposeProgram, ["up", "-d"]) ]
  }

  /** Stops all containers, deletes the database volume or folder and starts again, giving up at the first failure. */
  method PurgeDb(sh: Runner, dbFolder: string, volume: Option<string>) returns (ok: bool)
    modifies sh
    ensures var c := Chain(PurgeDbPlan(dbFolder, volume), sh.succeeds, |old(sh.log)|);
            sh.log == old(sh.log) + c.ran && ok == c.ok
  {
    ghost var plan := PurgeDbPlan(dbFolder, volume);
    ok := sh.Exec(ComposeProgram, ["rm", "--stop", "--force"]);
    if !ok {
      return false;
    }
    match volume {
      case Some(volumeName) =>
        ok := sh.Exec("docker", ["volume", "rm", volumeName]);
        if !ok {
          return false;
        }
      case None =>
        ok := sh.Exec("rm", ["-rf", dbFolder]);
        if !ok {
          return false;
        }
    }
    ok := sh.Exec(ComposeProgram, ["up", "-d"]);
    assert sh.log == old(sh.log) + plan;
  }

  method ShowUrls(sh: Runner, service: string) returns (ok: bool)
    modifies sh
    ensures sh.log == old(sh.log) + [Manage(service, ["show_urls"])]
    ensures ok == sh.succeeds(|old(sh.log)|)
  {
    ok := ExecManageCommand(sh, service, ["show_urls"]);
  }

  method AddApp(sh: Runner, appName: string, service: string) returns (ok: bool)
    modifies sh
    ensures sh.log == old(sh.log) + [Manage(service, ["startapp", appName])]
    ensures ok == sh.succeeds(|old(sh.log)|)
  {
    ok := ExecManageCommand(sh, service, ["startapp", appName]);
  }

  /** Runs pytest in the container, on the given tests path only when one is supplied. */
  method Pytest(sh: Runner, path: Option<string>, service: string) returns (ok: bool)
    modifies sh
    ensures sh.log == old(sh.log) + [Invocation(ComposeProgram, ["exec", service, "pytest"] + ToSeq(path))]
    ensures ok == sh.succeeds(|old(sh.log)|)
  {
    var pytestCmd := ["exec", service, "pytest"];
    match path {
      case Some(tests) =>
        pytestCmd := pytestCmd + [tests];
        assert pytestCmd == ["exec", service, "pytest"] + ToSeq(path);
        ok := sh.Exec(ComposeProgram, pytestCmd);
      case None =>
        assert pytestCmd == ["exec", service, "pytest"] + ToSeq(path);
        ok := sh.Exec(ComposeProgram, pytestCmd);
    }
  }

  function BlackInvocation(path: string, service: string): Invocation
  {
    Invocation(ComposeProgram, ["exec", service, "black", path])
  }

  function Flake8Invocation(path: string, service: string): Invocation
  {
    Invocation(ComposeProgram, ["exec", service, "flake8", path, "--exclude=migrations"])
  }

  function ProspectorInvocation(path: string, service: string): Invocation
  {
    Invocation(ComposeProgram, ["exec", service, "prospector", path])
  }

  method Black(sh: Runner, path: string, service: string) returns (ok: bool)
    modifies sh
    ensures sh.log == old(sh.log) + [BlackInvocation(path, service)]
    ensures ok == sh.succeeds(|old(sh.log)|)
  {
    ok := sh.Exec(ComposeProgram, ["exec", service, "black", path]);
  }

  method Flake8(sh: Runner, path: string, service: string) returns (ok: bool)
    modifies sh
    ensures sh.log == old(sh.log) + [Flake8Invocation(path, service)]
    ensures ok == sh.succeeds(|old(sh.log)|)
  {
    ok := sh.Exec(ComposeProgram, ["exec", service, "flake8", path, "--exclude=migrations"]);
  }

  method Prospector(sh: Runner, path: string, service: string) returns (ok: bool)
    modifies sh
    ensures sh.log == old(sh.log) + [ProspectorInvocation(path, service)]
    ensures ok == sh.succeeds(|old(sh.log)|)
  {
    ok := sh.Exec(ComposeProgram, ["exec", service, "prospector", path]);
  }

  method Pydocstyle(sh: Runner, path: string, service: string, convention: string) returns (ok: bool)
    modifies sh
    ensures sh.log == old(sh.log) + [Invocation(ComposeProgram, ["exec", service, "pydocstyle", "--convention", convention,
                                                                path, "--match-dir=^(?!migrations).*"])]
    ensures ok == sh.succeeds(|old(sh.log)|)
  {
    ok := sh.Exec(ComposeProgram, ["exec", service, "pydocstyle", "--convention", convention,
                                  path, "--match-dir=^(?!migrations).*"]);
  }

  method Mypy(sh: Runner, path: string, service: string, level: string) returns (ok: bool)
    modifies sh
    ensures sh.log == old(sh.log) + [Invocation(ComposeProgram, ["exec", service, "mypy", path, "--" + level])]
    ensures ok == sh.succeeds(|old(sh.log)|)
  {
    ok := sh.Exec(ComposeProgram, ["exec", service, "mypy", path, "--" + level]);
  }

  /** The linters `lint` runs, in order, all on the same path in the same container. */
  function LintPlan(path: string, service: string): seq<Invocation>
  {
    [BlackInvocation(path, service), Flake8Invocation(path, service), ProspectorInvocation(path, service)]
  }

  /** Runs black, flake8 and prospector, giving up at the first that fails. */
  method Lint(sh: Runner, path: string, service: string) returns (ok: bool)
    modifies sh
    ensures var c := Chain(LintPlan(path, service), sh.succeeds, |old(sh.log)|);
            sh.log == old(sh.log) + c.ran && ok == c.ok
    ensures RunsOnly(sh.log[|old(sh.log)|..], ComposeProgram)
    ensures forall inv <- sh.log[|old(sh.log)|..] :: inv.args[1] == service && inv.args[3] == path
  {
    ghost var plan := LintPlan(path, service);
    ok := sh.Exec(ComposeProgram, ["exec", service, "black", path]);
    if !ok {
      return false;
    }
    ok := sh.Exec(ComposeProgram, ["exec", service, "flake8", path, "--exclude=migrations"]);
    if !ok {
      return false;
    }
    ok := sh.Exec(ComposeProgram, ["exec", service, "prospector", path]);
    assert sh.log == old(sh.log) + plan;
  }
}
