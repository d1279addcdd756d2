/**
 * src/deploy.rs: package a directory with tar, open an SSH session, upload the
 * archive over scp in chunks and run a fixed list of commands on the server.
 * The SSH library, the network and the local file are replaced by a Host: the
 * outcome of each foreign call and the bytes of the archive.
 */
module Deploy {
  import opened Prelude
  import opened Shell

  newtype byte = b: int | 0 <= b < 256

  const Mb: nat := 1_000_000
  /** The most bytes one read of the archive takes. */
  const ChunkSize: nat := 1 * Mb

  const PackageName: string := "deployment"
  const Package: string := PackageName + ".tar.gz"
  const UploadPath: string := "/tmp/" + Package
  /** The file mode the archive is uploaded with: 0o644, owner read/write, everyone else read. */
  const UploadMode: int := 420

  function Min(a: int, b: int): int
  {
    if a <= b then a else b
  }

  // ---------------------------------------------------------------- errors

  datatype DeployError =
    | AuthenticationFailed(cause: string)
    | ConnectionError(cause: string)
    | SessionError(cause: string)
    | RemoteCmdError(cause: string)

  /** Error::description: the cause an error carries, whatever its kind. */
  function Description(e: DeployError): (s: string)
    ensures s == e.cause
  {
    match e
    case AuthenticationFailed(cause) => cause
    case ConnectionError(cause) => cause
    case SessionError(cause) => cause
    case RemoteCmdError(cause) => cause
  }

  /** Display::fmt writes the description and nothing else. */
  function Fmt(e: DeployError): (s: string)
    ensures s == e.cause
  {
    Description(e)
  }

  // ---------------------------------------------------------------- session

  /** The outcome of one foreign call: success, or failure with the library's message. */
  datatype Attempt = Pass | Fail(cause: string)

  datatype Auth = KeyFile(path: string) | Agent

  datatype Session = Session(address: string, user: string, auth: Auth)

  /** How the server and the SSH library answer each step of opening a session. */
  datatype SshHost = SshHost(
    connect: string -> Attempt,           // TcpStream::connect to an address
    create: Attempt,                      // Session::new
    handshake: Attempt,                   // Session::handshake
    authenticate: (string, Auth) -> Attempt)  // userauth_pubkey_file or userauth_agent, for a user

  function Address(serverIp: string): string
  {
    serverIp + ":22"
  }

  /** A key file when a key is given, the SSH agent otherwise. */
  function AuthFor(sshKey: Option<string>): (auth: Auth)
    ensures auth.KeyFile? <==> sshKey.Some?
    ensures auth.KeyFile? ==> auth.path == sshKey.value
  {
    match sshKey
    case Some(key) => KeyFile(key)
    case None => Agent
  }

  /**
   * get_session: connect to port 22, create the session, shake hands and
   * authenticate, returning at the first failure with the error kind of that step.
   */
  function GetSession(ssh: SshHost, serverIp: string, serverUser: string, sshKey: Option<string>): (r: Result<Session, DeployError>)
    ensures var connect, auth := ssh.connect(Address(serverIp)), ssh.authenticate(serverUser, AuthFor(sshKey));
      && (r.Ok? <==> connect.Pass? && ssh.create.Pass? && ssh.handshake.Pass? && auth.Pass?)
      && (r.Ok? ==> r.value == Session(Address(serverIp), serverUser, AuthFor(sshKey)))
      // the kind of the error tells the step that failed
      && (r.Err? ==> !r.error.RemoteCmdError?)
      && (r.Err? && r.error.ConnectionError? <==> connect.Fail?)
      && (r.Err? && r.error.SessionError? <==> connect.Pass? && (ssh.create.Fail? || ssh.handshake.Fail?))
      && (r.Err? && r.error.AuthenticationFailed? <==> connect.Pass? && ssh.create.Pass? && ssh.handshake.Pass? && auth.Fail?)
      // and its cause is that step's message
      && (r.Err? && r.error.ConnectionError? ==> r.error.cause == connect.cause)
      && (r.Err? && r.error.SessionError? ==> r.error.cause == if ssh.create.Fail? then ssh.create.cause else ssh.handshake.cause)
      && (r.Err? && r.error.AuthenticationFailed? ==> r.error.cause == auth.cause)
  {
    var address := Address(serverIp);
    match ssh.connect(address)
    case Fail(cause) => Err(ConnectionError(cause))
    case Pass =>
      match ssh.create
      case Fail(cause) => Err(SessionError(cause))
      case Pass =>
        match ssh.handshake
        case Fail(cause) => Err(SessionError(cause))
        case Pass =>
          var auth := AuthFor(sshKey);
          match ssh.authenticate(serverUser, auth)
          case Fail(cause) => Err(AuthenticationFailed(cause))
          case Pass => Ok(Session(address, serverUser, auth))
  }

  // ---------------------------------------------------------------- remote commands

  /**
   * What the server does with one command: no channel could be opened, one of
   * exec, read_to_string, wait_close or exit_status failed, or the command ran
   * to the end with some output and exit status.
   */
  datatype Reply = NoChannel(cause: string) | Broken | Exited(output: string, status: int)

  /** How a Rust function ends: it returns a value, or the thread panics. */
  datatype Exit<T> = Return(value: T) | Panic

  /**
   * exec_cmd_on_server: an error only when no channel opens, a panic on any
   * later failure (the unwraps), success whatever the exit status.
   */
  function ExecCmdOnServer(reply: Reply): (r: Exit<Result<(), DeployError>>)
    ensures r == Return(Ok(())) <==> reply.Exited?
    ensures r.Panic? <==> reply.Broken?
    ensures reply.NoChannel? ==> r == Return(Err(SessionError(reply.cause)))
  {
    match reply
    case NoChannel(cause) => Return(Err(SessionError(cause)))
    case Broken => Panic
    case Exited(_, _) => Return(Ok(()))
  }

  /** The commands run on the server after the upload, in order. */
  function RemoteCommands(serverUser: string): seq<string>
  {
    var web := "/home/" + serverUser + "/web";
    [ "tar -zxvf /tmp/" + Package,
      "mkdir -p " + web,
      "mv -f /tmp/" + PackageName + " " + web,
      "rm -rf /tmp/" + Package,
      "cd " + web + "; docker-compose rm -s -f",
      "cd " + web + "; docker-compose up -d --build" ]
  }

  // ---------------------------------------------------------------- upload

  /**
   * The buffers the upload loop hands to write once `pos` bytes have been read,
   * when every call succeeds.  The buffer is never cleared, so each one is the
   * whole prefix of the archive read so far, one chunk longer than the last.
   */
  function Handed(archive: seq<byte>, pos: nat): seq<seq<byte>>
    requires pos <= |archive|
    decreases |archive| - pos
  {
    if pos == |archive| then []
    else
      var next := pos + Min(ChunkSize, |archive| - pos);
      [archive[..next]] + Handed(archive, next)
  }

  /** The k-th buffer handed to write holds the first k + 1 chunks of the archive. */
  lemma {:induction false} HandedAt(archive: seq<byte>, pos: nat, k: nat)
    requires pos <= |archive| && k < |Handed(archive, pos)|
    ensures Handed(archive, pos)[k] == archive[..Min(pos + (k + 1) * ChunkSize, |archive|)]
    decreases |archive| - pos
  {
    if k > 0 {
      var next := pos + Min(ChunkSize, |archive| - pos);
      HandedAt(archive, next, k - 1);
    }
  }

  /** The loop writes once per chunk: the archive needs exactly |Handed| chunks. */
  lemma {:induction false} HandedCount(archive: seq<byte>, pos: nat)
    requires pos <= |archive|
    ensures var n := |Handed(archive, pos)|;
            (n - 1) * ChunkSize < |archive| - pos <= n * ChunkSize
    decreases |archive| - pos
  {
    if pos < |archive| {
      HandedCount(archive, pos + Min(ChunkSize, |archive| - pos));
    }
  }

  /** The last buffer handed to write is the whole archive. */
  lemma {:induction false} HandedEndsWithArchive(archive: seq<byte>, pos: nat)
    requires pos < |archive|
    ensures var ws := Handed(archive, pos); ws != [] && ws[|ws| - 1] == archive
    decreases |archive| - pos
  {
    var next := pos + Min(ChunkSize, |archive| - pos);
    if next < |archive| {
      HandedEndsWithArchive(archive, next);
    }
  }

  /** The number of bytes handed to write over a whole upload. */
  function TotalLength(ws: seq<seq<byte>>): nat
  {
    if ws == [] then 0 else |ws[0]| + TotalLength(ws[1..])
  }

  /**
   * The declared size is the archive's length, but more bytes than that are
   * handed to write as soon as the archive is longer than one chunk.
   */
  lemma HandedTotal(archive: seq<byte>)
    ensures |archive| <= ChunkSize ==> TotalLength(Handed(archive, 0)) == |archive|
    ensures |archive| > ChunkSize ==> TotalLength(Handed(archive, 0)) > |archive|
  {
    if 0 < |archive| {
      var ws := Handed(archive, 0);
      if |archive| <= ChunkSize {
        assert Handed(archive, |archive|) == [];
        assert ws == [archive[..|archive|]];
        assert ws[1..] == [];
      } else {
        HandedEndsWithArchive(archive, ChunkSize);
        TotalAtLeastLast(Handed(archive, ChunkSize));
      }
    }
  }

  lemma {:induction false} TotalAtLeastLast(ws: seq<seq<byte>>)
    requires ws != []
    ensures TotalLength(ws) >= |ws[|ws| - 1]|
  {
    if |ws| > 1 {
      TotalAtLeastLast(ws[1..]);
    }
  }

  /** A 3 MB archive is read in three chunks and 6 MB are handed to write. */
  lemma ThreeMegabytes(archive: seq<byte>)
    requires |archive| == 3 * Mb
    ensures |Handed(archive, 0)| == 3
    ensures TotalLength(Handed(archive, 0)) == 6 * Mb
  {
    var ws := Handed(archive, 0);
    assert Handed(archive, 3 * Mb) == [];
    assert Handed(archive, 2 * Mb) == [archive[..3 * Mb]];
    assert Handed(archive, Mb) == [archive[..2 * Mb], archive[..3 * Mb]];
    assert ws == [archive[..Mb], archive[..2 * Mb], archive[..3 * Mb]];
    assert TotalLength(ws[1..][1..][1..]) == 0;
    assert TotalLength(ws[1..][1..]) == 3 * Mb;
    assert TotalLength(ws[1..]) == 5 * Mb;
  }

  datatype UploadStatus = Uploaded | ReadFailed(read: nat) | WriteFailed(write: nat)

  /** Every read up to the final empty one, and every write, succeeds. */
  predicate UploadSucceeds(archive: seq<byte>, readOk: nat -> bool, writeOk: nat -> bool)
  {
    var n := |Handed(archive, 0)|;
    (forall k | 0 <= k <= n :: readOk(k)) && (forall k | 0 <= k < n :: writeOk(k))
  }

  /**
   * The upload loop: read at most a chunk, stop at the first read of nothing,
   * hand the whole buffer read so far to write, and give up at the first read
   * or write error.  `readOk(k)` and `writeOk(k)` say whether the k-th read and
   * the k-th write succeed; the count a write returns is ignored.
   */
  method Upload(archive: seq<byte>, readOk: nat -> bool, writeOk: nat -> bool)
    returns (writes: seq<seq<byte>>, status: UploadStatus)
    ensures writes <= Handed(archive, 0)
    ensures status == Uploaded <==> UploadSucceeds(archive, readOk, writeOk)
    ensures status == Uploaded ==> writes == Handed(archive, 0)
    ensures status.ReadFailed? ==>
              && status.read == |writes| && !readOk(status.read)
              && forall k | 0 <= k < status.read :: readOk(k) && writeOk(k)
    ensures status.WriteFailed? ==>
              && status.write == |writes| - 1 && readOk(status.write) && !writeOk(status.write)
              && forall k | 0 <= k < status.write :: readOk(k) && writeOk(k)
  {
    var buffer: seq<byte> := [];
    var pos := 0;
    writes := [];
    while true
      invariant pos <= |archive|
      invariant buffer == archive[..pos]
      invariant writes + Handed(archive, pos) == Handed(archive, 0)
      invariant forall k | 0 <= k < |writes| :: readOk(k) && writeOk(k)
      decreases |archive| - pos
    {
      var round := |writes|;
      if !readOk(round) {
        return writes, ReadFailed(round);
      }
      // read_to_end on the reader limited to ChunkSize bytes appends to the buffer
      var readBytes := Min(ChunkSize, |archive| - pos);
      ghost var before := pos;
      buffer := buffer + archive[pos..pos + readBytes];
      pos := pos + readBytes;
      assert buffer == archive[..pos];
      if readBytes == 0 {
        break;
      }
      assert Handed(archive, before) == [buffer] + Handed(archive, pos);
      writes := writes + [buffer];
      assert writes + Handed(archive, pos) == Handed(archive, 0);
      if !writeOk(round) {
        return writes, WriteFailed(round);
      }
    }
    status := Uploaded;
  }

  // ---------------------------------------------------------------- execute

  /** What `execute` does to the outside world, apart from the local tar. */
  datatype Action =
    | Connect(address: string)                       // get_session
    | OpenArchive(path: string)                      // File::open
    | OpenUpload(path: string, mode: int, size: nat) // scp_send
    | Write(data: seq<byte>)                         // channel.write
    | Remote(command: string)                        // exec_cmd_on_server

  /** Where `execute` stopped. */
  datatype End =
    | PackFailed                  // tar failed
    | NoSession(error: DeployError)
    | NoArchive                   // File::open failed
    | NoMetadata                  // metadata failed
    | NoUploadChannel             // scp_send failed
    | UploadFailed(status: UploadStatus)
    | Panicked(step: nat)         // the unwrap of the step-th remote command panicked
    | Deployed

  /** The answers of the outside world to everything `execute` asks of it. */
  datatype Host = Host(
    ssh: SshHost,
    open: Attempt,
    metadata: Attempt,
    archive: seq<byte>,           // the bytes of deployment.tar.gz; its metadata length is their number
    scp: Attempt,
    readOk: nat -> bool,
    writeOk: nat -> bool,
    remote: nat -> Reply)         // the reply to the k-th remote command

  function Writes(ws: seq<seq<byte>>): seq<Action>
  {
    if ws == [] then [] else Writes(ws[..|ws| - 1]) + [Write(ws[|ws| - 1])]
  }

  function Remotes(commands: seq<string>): seq<Action>
  {
    if commands == [] then [] else Remotes(commands[..|commands| - 1]) + [Remote(commands[|commands| - 1])]
  }

  /** The actions before the first write: session, archive, upload channel. */
  function Prologue(host: Host, serverIp: string): seq<Action>
  {
    [Connect(Address(serverIp)), OpenArchive(Package), OpenUpload(UploadPath, UploadMode, |host.archive|)]
  }

  /** Whether every remote command runs to the end, whatever its exit status. */
  predicate AllExited(host: Host)
  {
    forall k | 0 <= k < 6 :: host.remote(k).Exited?
  }

  /**
   * execute: tar the directory, open the session, open the archive and its
   * metadata, open the scp channel, upload, then run the six remote commands.
   * Every failure before the remote commands prints a message and returns; a
   * failed remote command panics through `.unwrap()`.  A non-zero exit status
   * stops nothing.
   */
  method Execute(sh: Runner, host: Host, serverIp: string, serverUser: string, sshKey: Option<string>, deployDir: string)
    returns (trace: seq<Action>, end: End)
    modifies sh
    ensures sh.log == old(sh.log) + [Invocation("tar", ["-zcvf", Package, deployDir])]
    // where it stops
    ensures var packed := sh.succeeds(|old(sh.log)|);
            var session := GetSession(host.ssh, serverIp, serverUser, sshKey);
            var connected := packed && session.Ok?;
            var channel := connected && host.open.Pass? && host.metadata.Pass? && host.scp.Pass?;
            && (end == PackFailed <==> !packed)
            && (end.NoSession? <==> packed && session.Err?)
            && (end.NoSession? ==> end.error == session.error)
            && (end == NoArchive <==> connected && host.open.Fail?)
            && (end == NoMetadata <==> connected && host.open.Pass? && host.metadata.Fail?)
            && (end == NoUploadChannel <==> connected && host.open.Pass? && host.metadata.Pass? && host.scp.Fail?)
            && (end.UploadFailed? <==> channel && !UploadSucceeds(host.archive, host.readOk, host.writeOk))
            && (end == Deployed <==> channel && UploadSucceeds(host.archive, host.readOk, host.writeOk) && AllExited(host))
    // what it did on the way
    ensures end == PackFailed ==> trace == []
    ensures end.NoSession? ==> trace == [Connect(Address(serverIp))]
    ensures end == NoArchive || end == NoMetadata ==> trace == Prologue(host, serverIp)[..2]
    ensures end == NoUploadChannel ==> trace == Prologue(host, serverIp)
    ensures end.UploadFailed? && end.status.ReadFailed? ==>
              && end.status.read <= |Handed(host.archive, 0)|
              && trace == Prologue(host, serverIp) + Writes(Handed(host.archive, 0)[..end.status.read])
    ensures end.UploadFailed? && end.status.WriteFailed? ==>
              && end.status.write < |Handed(host.archive, 0)|
              && trace == Prologue(host, serverIp) + Writes(Handed(host.archive, 0)[..end.status.write + 1])
    ensures end.Panicked? ==>
              && end.step < 6 && !host.remote(end.step).Exited?
              && (forall k | 0 <= k < end.step :: host.remote(k).Exited?)
              && trace == Prologue(host, serverIp) + Writes(Handed(host.archive, 0))
                          + Remotes(RemoteCommands(serverUser)[..end.step + 1])
    ensures end == Deployed ==>
              trace == Prologue(host, serverIp) + Writes(Handed(host.archive, 0)) + Remotes(RemoteCommands(serverUser))
  {
    var packed := sh.Exec("tar", ["-zcvf", Package, deployDir]);
    if !packed {
      return [], PackFailed;
    }
    trace := [Connect(Address(serverIp))];
    var session := GetSession(host.ssh, serverIp, serverUser, sshKey);
    if session.Err? {
      return trace, NoSession(session.error);
    }
    trace := trace + [OpenArchive(Package)];
    if host.open.Fail? {
      return trace, NoArchive;
    }
    if host.metadata.Fail? {
      return trace, NoMetadata;
    }
    trace := trace + [OpenUpload(UploadPath, UploadMode, |host.archive|)];
    if host.scp.Fail? {
      return trace, NoUploadChannel;
    }
    var writes, status := Upload(host.archive, host.readOk, host.writeOk);
    trace := trace + Writes(writes);
    if status != Uploaded {
      assert writes == Handed(host.archive, 0)[..|writes|];
      return trace, UploadFailed(status);
    }
    var sent;
    sent, end := RunRemoteCommands(host, serverUser);
    trace := trace + Remotes(sent);
  }

  /**
   * The six remote commands of `execute`, in order, each followed by
   * `.unwrap()`: the first one that does not run to the end panics.
   */
  method RunRemoteCommands(host: Host, serverUser: string) returns (sent: seq<string>, end: End)
    ensures end == Deployed || end.Panicked?
    ensures end == Deployed <==> AllExited(host)
    ensures end == Deployed ==> sent == RemoteCommands(serverUser)
    ensures end.Panicked? ==>
              && end.step < 6 && !host.remote(end.step).Exited?
              && (forall k | 0 <= k < end.step :: host.remote(k).Exited?)
              && sent == RemoteCommands(serverUser)[..end.step + 1]
  {
    var commands := RemoteCommands(serverUser);
    sent := [];
    sent := sent + [commands[0]];
    if ExecCmdOnServer(host.remote(0)) != Return(Ok(())) {
      return sent, Panicked(0);
    }
    sent := sent + [commands[1]];
    if ExecCmdOnServer(host.remote(1)) != Return(Ok(())) {
      return sent, Panicked(1);
    }
    sent := sent + [commands[2]];
    if ExecCmdOnServer(host.remote(2)) != Return(Ok(())) {
      return sent, Panicked(2);
    }
    sent := sent + [commands[3]];
    if ExecCmdOnServer(host.remote(3)) != Return(Ok(())) {
      return sent, Panicked(3);
    }
    sent := sent + [commands[4]];
    if ExecCmdOnServer(host.remote(4)) != Return(Ok(())) {
      return sent, Panicked(4);
    }
    sent := sent + [commands[5]];
    if ExecCmdOnServer(host.remote(5)) != Return(Ok(())) {
      return sent, Panicked(5);
    }
    end := Deployed;
  }
}
