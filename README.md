# django-compose-shob, modelled in Dafny

django-compose-shob is a command-line helper for Django projects that run under
docker-compose. This project models its three core modules:

- `src/docker_compose.rs` starts, stops, restarts, rebuilds, lists and tails
  the compose services.
- `src/django.rs` runs `manage.py` commands, pytest and linters inside a service
  container, and purges the database.
- `src/deploy.rs` packs a directory with tar, opens an SSH session, uploads the
  archive over scp in 1 MB chunks and runs six commands on the server.

Every local command goes through `exec_command` (`src/utils.rs`). Here it is
`Shell.Runner.Exec`. It appends the invocation to the runner's `log`, and its
success is decided by an oracle `succeeds(k)`, indexed by the position of the
call in the log. Operations that stop at the first failing command are stated
against `Shell.Chain`. That function takes a plan of invocations and returns
those that run and the final result. Its lemmas give the short-circuit
behaviour once for every operation that uses it.

The SSH library, the TCP connection and the local archive file are replaced by
values:

- an `SshHost` gives the outcome of each step of opening a session;
- a `Host` gives the archive bytes, the outcome of each read and write, and the
  server's reply to each remote command.

`Deploy.Execute` returns the trace of actions it performs on the outside world
and where it ends: one of the early returns, a panic from an `.unwrap()`, or a
completed deployment.

The model follows the code, also where it behaves unexpectedly:

- The upload buffer is never cleared. Every write hands the server the whole
  prefix of the archive read so far (`Deploy.Handed`, `Deploy.HandedTotal`).
- A remote command that exits with a non-zero status stops nothing. Only a
  failure to open a channel, or a failure inside the channel, ends the run, and
  both panic.
- The remote commands run in the code's order: `tar -zxvf /tmp/deployment.tar.gz`
  (which extracts into the remote shell's working directory, not into `/tmp`),
  `mkdir -p /home/<user>/web`, `mv -f /tmp/deployment /home/<user>/web`,
  `rm -rf /tmp/deployment.tar.gz`, `cd /home/<user>/web; docker-compose rm -s -f`,
  `cd /home/<user>/web; docker-compose up -d --build`.

## Model

| member | source | states |
|---|---|---|
| Shell.Runner.Exec | src/utils.rs:5-19 | running a command appends exactly that invocation to the log; the result is the oracle's answer for that position |
| Shell.Chain | src/docker_compose.rs:32-40 | a plan run until the first failure: the commands run form a prefix of the plan and are never empty for a non-empty plan; all but the last succeeded; the result is the last one's; stopping early means failure |
| Shell.ChainSucceeds | src/django.rs:160-171 | a chain succeeds exactly when every step of the plan succeeds, and then the whole plan ran |
| Shell.ChainStopsAtFirstFailure | src/django.rs:74-91 | if step k fails, at most k + 1 steps run and the chain fails |
| Shell.ChainRunsAll | src/django.rs:13-68 | when all steps but the last succeed, the whole plan runs and the result is the last step's |
| Decimal.DigitChar | src/docker_compose.rs:49 | each digit value maps to the decimal digit character of that value |
| Decimal.DigitsRoundTrip | src/docker_compose.rs:49 | the decimal digits of a natural number are non-empty, all digits, without a leading zero, and read back as that number |
| Decimal.ShowRoundTrip | src/docker_compose.rs:49 | formatting an integer in decimal with `{}` and parsing it back gives the same integer, negative ones included; the text has no leading zero |
| DockerCompose.Start | src/docker_compose.rs:6-11 | `build --force-rm --parallel` runs only when `build` is set, then `up -d` always runs; the result is that of `up -d` alone |
| DockerCompose.Stop | src/docker_compose.rs:14-20 | one `rm --stop --force -v` invocation, followed by the service name only when one is given |
| DockerCompose.Restart | src/docker_compose.rs:23-29 | `restart` for all services, otherwise `restart <service>`; one invocation |
| DockerCompose.Rebuild | src/docker_compose.rs:32-40 | stop, build and up of the service as a chain that stops at the first failure; one to three invocations, all docker-compose |
| DockerCompose.Status | src/docker_compose.rs:43-45 | one `ps` invocation and its result |
| DockerCompose.Logs | src/docker_compose.rs:48-56 | one `logs` invocation with the arguments of `LogsArgs` |
| DockerCompose.LogsArgs | src/docker_compose.rs:48-56 | `logs --timestamps --tail=<n>`, where the text after `--tail=` parses back to the number of lines and has no leading zero; `--follow` appears before the service exactly when asked for; the service comes last |
| Django.Manage | src/django.rs:5-8 | a manage.py command is a docker-compose invocation whose first four arguments are `exec <service> python manage.py`, followed by the command's own arguments unchanged |
| Django.ExecManageCommand | src/django.rs:5-8 | one invocation, that of `Manage`, and its result |
| Django.MigratePlan | src/django.rs:13-68 | nothing runs for an empty migration without an application; an empty migration is one `manage.py makemigrations --empty [--name <n>] <app>` in the service, whatever the number; a rollback with application and number is one `migrate <app> <number>` and never makes migrations; otherwise `makemigrations <app> [--name <n>]` then `migrate <app>`, or bare `makemigrations` then `migrate` without an application; every step is docker-compose |
| Django.Migrate | src/django.rs:13-68 | when the plan is refused the log is unchanged and the result is false; otherwise the log grows by the plan run as a chain, and the result is the chain's |
| Django.PurgeDb | src/django.rs:74-91 | `rm --stop --force`, then `docker volume rm <volume>` when a volume is given or `rm -rf <folder>` otherwise, then `up -d`, stopping at the first failure |
| Django.ShowUrls | src/django.rs:94-96 | one `manage.py show_urls` invocation in the service |
| Django.AddApp | src/django.rs:99-101 | one `manage.py startapp <name>` invocation in the service |
| Django.Pytest | src/django.rs:104-114 | one `exec <service> pytest` invocation, followed by the tests path only when one is given |
| Django.Black | src/django.rs:116-118 | one `exec <service> black <path>` invocation |
| Django.Flake8 | src/django.rs:120-125 | one `exec <service> flake8 <path> --exclude=migrations` invocation |
| Django.Prospector | src/django.rs:127-129 | one `exec <service> prospector <path>` invocation |
| Django.Pydocstyle | src/django.rs:131-144 | one pydocstyle invocation with the convention, the path and the directory filter that skips migrations |
| Django.Mypy | src/django.rs:146-157 | one mypy invocation on the path with `--<level>` |
| Django.Lint | src/django.rs:160-171 | black, flake8 and prospector as a chain that stops at the first failure; every command is docker-compose, in the same service, on the same path |
| Deploy.Description | src/deploy.rs:23-32 | every error kind describes itself by the cause it carries |
| Deploy.Fmt | src/deploy.rs:34-38 | an error displays as its cause and nothing else |
| Deploy.AuthFor | src/deploy.rs:59-69 | authentication uses the key file when one is given and the SSH agent otherwise |
| Deploy.GetSession | src/deploy.rs:40-70 | a session to `<ip>:22` for the user exactly when connect, session creation, handshake and authentication all succeed; otherwise a connection error carrying the connect failure, a session error carrying the creation or handshake failure, or an authentication error carrying the authentication failure; never a remote-command error |
| Deploy.ExecCmdOnServer | src/deploy.rs:72-85 | success exactly when the command ran to the end, whatever its exit status; a session error carrying the cause when no channel opens; a panic when exec, reading the output, closing or the exit status fails |
| Deploy.HandedAt | src/deploy.rs:134-156 | the k-th buffer handed to write is the archive's first k + 1 chunks, not the k-th chunk |
| Deploy.HandedCount | src/deploy.rs:134-156 | the loop writes once per 1 MB chunk: n writes for an archive of more than (n-1) MB and at most n MB |
| Deploy.HandedEndsWithArchive | src/deploy.rs:134-156 | the last buffer handed to write is the whole archive |
| Deploy.HandedTotal | src/deploy.rs:121-156 | the bytes handed to write total the declared size for an archive of at most one chunk, and strictly more than it for any larger archive |
| Deploy.ThreeMegabytes | src/deploy.rs:134-156 | a 3 MB archive is written in three calls that hand over 6 MB in all |
| Deploy.TotalAtLeastLast | src/deploy.rs:134-156 | the total handed over is at least the size of the last buffer |
| Deploy.Upload | src/deploy.rs:134-156 | the writes are a prefix of the buffers `Handed` describes; the upload completes exactly when every read up to the final empty read and every write succeeds, and then all buffers were written; otherwise it stops at the first failed read or write, and every earlier one succeeded |
| Deploy.RunRemoteCommands | src/deploy.rs:160-196 | the six commands are sent in order; deployment completes exactly when every one runs to the end; otherwise the first one that does not panics, and the commands up to it were sent |
| Deploy.Execute | src/deploy.rs:87-197 | tar is logged first; where the run ends is stated as an iff for each ending (tar failure, session error, archive open, metadata, scp channel, upload failure, completion); at each ending, the exact trace of connect, open, scp channel, writes and remote commands up to that point |

## Left out

- `exec_command` spawning the process, inheriting stdio, printing the command and panicking when the program cannot be spawned: a command is an entry in the log and an oracle outcome.
- Everything `println!`/`eprintln!` writes, including the messages of `execute`'s early returns: these outputs are not modelled.
- The SSH library, TCP, the local file system and the server: each foreign call is an oracle outcome in `SshHost` or `Host`.
- The archive's metadata length is taken to be the number of bytes later read from it. The file is assumed not to change between the two.
- Deploy.Upload: the count returned by `channel.write` is ignored, as in the source. What the server actually stores is not modelled, only the buffers handed to write.
- Deploy.Execute: the scp channel is never sent EOF or closed, and the SSH session is dropped at the end. Neither is modelled.
- Deploy.Execute: the reply to the k-th remote command is `host.remote(k)`. It is indexed by the command's position, not by its text.
- Deploy.Execute: a panic is an ending (`Panicked`), not an unwound thread.
- DeployError's `RemoteCmdError` variant is never constructed by the source, and no model operation builds it.
- The command-line parsing and routing in `src/main.rs` are not part of this model.
- `django::shell_plus`, which `src/main.rs` calls, is not defined in `src/django.rs`, and it is not part of this model.
- Django.Migrate: the "Must provide application name" message printed when an empty migration has no application is not modelled, only the `false` result.
- `src/main.rs` calls `execute` with an extra list of exclude patterns; `execute` in `src/deploy.rs` takes four parameters and uses none. The model follows `src/deploy.rs`.
- The code has no ignore list, no randomly named archive, no removal of the local archive and no stop on a non-zero remote exit status, and the model adds none of them.
- DockerCompose.LogsArgs: `num_lines` is an `i32`, modelled by the `Decimal.i32` newtype; negative values are formatted with a leading `-`, as `{}` does.
