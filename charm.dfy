/**
 * The per-unit reconciliation state machine of the Kafka charm: a unit with
 * its view of the peer relation's application and unit databags, its
 * leadership, status, on-disk properties files, restart-lock requests and
 * the calls it has made to the broker service and to the SCRAM backend.
 * Every handler is one method; what the charm learns from collaborators
 * outside this model arrives in an `Env`.
 */
module Charm {
  import opened Wrappers
  import opened Literals
  import opened Credentials
  import opened Properties

  /** Why a unit is Blocked (the message wording is not modelled). */
  datatype BlockReason =
    | TlsMismatch              // TLS on for one of Kafka and ZooKeeper only
    | StorageBelowMinimum      // fewer log-data volumes than the declared minimum
    | ZooKeeperMissing         // the ZooKeeper relation is gone
    | SnapStartFailed          // the broker service did not start
    | BrokerNotConnected       // started, but not registered in ZooKeeper
    | BrokerRestartFailed      // not registered in ZooKeeper after a restart
    | ReassignmentRecommended  // a volume is detaching while the peer relation has units
    | LogDataLossRisk          // a volume is detaching without replication

  /** The note an Active status may carry. */
  datatype Notice = NoNotice | StorageReassignmentNotice

  datatype Status = Unknown | Active(notice: Notice) | Blocked(reason: BlockReason)

  /** The callback a restart-lock request names: the default `_restart` or the disable-enable override. */
  datatype Callback = DefaultCallback | DisableEnableCallback

  /** Calls made to the broker's service manager. */
  datatype ServiceOp = StartService | StopService | RestartService | DisableEnableService

  /** Why an action or a restart callback fails. */
  datatype FailReason =
    | NotLeader
    | PasswordAlreadyExists
    | UserUpdateFailed
    | NotReadyToRestart
    | RestartUnsuccessful
    | ClientPropertiesMissing
    | AdminPasswordMissing

  /** How a handler leaves its event: handled, deferred for redelivery, or failed. */
  datatype Outcome = Handled | Deferred | Failed(reason: FailReason)

  datatype SecretError = UnknownScope

  /** The verdict of `ready_to_start`, with the Blocked reason it sets, if any. */
  datatype Readiness = Ready | NotReady(blocked: Option<BlockReason>)

  /** The event that reached the generic config-changed handler. */
  datatype Trigger =
    | ConfigChanged
    | PeerRelationChanged
    | ZooKeeperRelationChanged
    | StorageAttached
    | StorageDetaching

  /** Results of the get-admin-credentials action. */
  datatype AdminCredentials = AdminCredentials(username: string, password: string, clientProperties: set<string>)

  /** What the handlers learn from collaborators outside this model, at the time of one event. */
  datatype Env = Env(
    zkConnected: bool,              // the ZooKeeper relation supplied a usable connection
    zkConfig: map<string, string>,  // the parsed ZooKeeper relation data
    tlsEnabled: bool,               // TLS is enabled for Kafka
    storageRange: Option<nat>,      // lower bound of log-data's declared multiple range, if any
    attachedStorages: nat,          // log-data volumes attached to this unit
    peerUnits: nat,                 // other units on the peer relation
    brokerActive: bool,             // the broker is registered in ZooKeeper
    snapStartOk: bool,              // starting the broker service succeeds
    backendAccepts: set<string>,    // users the SCRAM backend's add-user command succeeds for
    serverProperties: seq<string>,  // the target server properties lines
    clientProperties: seq<string>,  // the target client properties lines
    tlsProperties: seq<string>)     // the TLS lines of the client properties

  function Lookup(data: Databag, key: string): Option<string> {
    if key in data then Some(data[key]) else None
  }

  /** The storage minimum: the lower bound of the declared range, 0 without a range. */
  function MinStorages(env: Env): (n: nat)
    ensures env.storageRange.Some? ==> n == env.storageRange.value
    ensures env.storageRange.None? ==> n == 0
  {
    env.storageRange.GetOr(0)
  }

  /** ZooKeeper's `tls` entry, which defaults to disabled, says enabled. */
  function ZooKeeperTls(env: Env): (b: bool)
    ensures b <==> "tls" in env.zkConfig && env.zkConfig["tls"] == "enabled"
  {
    (if "tls" in env.zkConfig then env.zkConfig["tls"] else "disabled") == "enabled"
  }

  /** The status after `ready_to_start` ran from status `s`. */
  function AfterReadiness(r: Readiness, s: Status): Status {
    match r
    case NotReady(Some(b)) => Blocked(b)
    case _ => s
  }

  /** The status the start handler ends in once it has started the service. */
  function StartStatus(env: Env): (s: Status)
    ensures s == Active(NoNotice) <==> env.snapStartOk && env.brokerActive
    ensures s == Blocked(SnapStartFailed) <==> !env.snapStartOk
    ensures !s.Blocked? ==> s == Active(NoNotice)
    ensures s.Blocked? ==> s.reason == SnapStartFailed || s.reason == BrokerNotConnected
  {
    if !env.snapStartOk then Blocked(SnapStartFailed)
    else if env.brokerActive then Active(NoNotice)
    else Blocked(BrokerNotConnected)
  }

  /** The SCRAM backend's add-user command succeeds for credential `c`. */
  predicate Accepted(c: (string, string), env: Env) {
    c.0 in InternalUsers && c.0 in env.backendAccepts
  }

  /** Every credential would be accepted by the SCRAM backend. */
  predicate AllAccepted(creds: seq<(string, string)>, env: Env) {
    forall c :: c in creds ==> Accepted(c, env)
  }

  /** How many leading credentials the backend accepts: where the start handler's loop stops. */
  function AcceptedPrefix(creds: seq<(string, string)>, env: Env): (k: nat)
    ensures k <= |creds|
    ensures AllAccepted(creds[..k], env)
    ensures k < |creds| ==> !Accepted(creds[k], env)
  {
    if creds == [] || !Accepted(creds[0], env) then 0
    else
      var k := 1 + AcceptedPrefix(creds[1..], env);
      assert creds[..k] == [creds[0]] + creds[1..][..k - 1];
      k
  }

  /** The accepted prefix is the only prefix that is accepted and is followed by a rejection or the end. */
  lemma AcceptedPrefixUnique(creds: seq<(string, string)>, env: Env, i: nat)
    requires i <= |creds|
    requires AllAccepted(creds[..i], env)
    requires i < |creds| ==> !Accepted(creds[i], env)
    ensures AcceptedPrefix(creds, env) == i
  {
  }

  /**
   * The add-user commands the start handler's loop issues: one per accepted
   * credential, then the rejected one when it names an internal user (a
   * command for any other user is refused before it is sent).
   */
  function IssuedCommands(creds: seq<(string, string)>, env: Env): (r: seq<(string, string)>)
    ensures r <= creds
    ensures creds[..AcceptedPrefix(creds, env)] <= r
    ensures |r| <= AcceptedPrefix(creds, env) + 1
    ensures AllAccepted(creds, env) ==> r == creds
  {
    var k := AcceptedPrefix(creds, env);
    if AllAccepted(creds, env) then
      AcceptedPrefixUnique(creds, env, |creds|);
      assert creds[..|creds|] == creds;
      creds
    else if k < |creds| && creds[k].0 in InternalUsers then creds[..k + 1]
    else creds[..k]
  }

  /** The backend holds every credential of `creds`. */
  predicate AllApplied(creds: seq<(string, string)>, users: map<string, string>) {
    forall c :: c in creds ==> c.0 in users && users[c.0] == c.1
  }

  /** `after` is `before` with some credentials of `creds` added or overwritten, and nothing removed. */
  predicate OnlyGains(before: map<string, string>, after: map<string, string>, creds: seq<(string, string)>) {
    && (forall u :: u in before ==> u in after)
    && (forall u :: u in after ==> (u, after[u]) in creds || (u in before && after[u] == before[u]))
  }

  /** The backend's users after it accepted the add-user commands `creds`, in order. */
  function AddUsers(users: map<string, string>, creds: seq<(string, string)>): map<string, string>
    decreases |creds|
  {
    if creds == [] then users
    else
      var n := |creds| - 1;
      AddUsers(users, creds[..n])[creds[n].0 := creds[n].1]
  }

  /** Adding credentials with distinct user names leaves the backend holding each of them. */
  lemma {:induction false} AddUsersApplies(users: map<string, string>, creds: seq<(string, string)>)
    requires DistinctNames(creds)
    ensures AllApplied(creds, AddUsers(users, creds))
  {
    if creds != [] {
      var n := |creds| - 1;
      AddUsersApplies(users, creds[..n]);
      forall c | c in creds
        ensures c.0 in AddUsers(users, creds) && AddUsers(users, creds)[c.0] == c.1
      {
        if c != creds[n] {
          var j :| 0 <= j < |creds| && creds[j] == c;
          assert j < n && c in creds[..n];
        }
      }
    }
  }

  /** Adding a prefix of `creds` removes no user and changes only users to a password of `creds`. */
  lemma {:induction false} AddUsersOnlyGains(users: map<string, string>, prefix: seq<(string, string)>, creds: seq<(string, string)>)
    requires prefix <= creds
    ensures OnlyGains(users, AddUsers(users, prefix), creds)
  {
    if prefix != [] {
      var n := |prefix| - 1;
      assert prefix[n] == creds[n];
      AddUsersOnlyGains(users, prefix[..n], creds);
    }
  }

  /** The password the set-password action uses: the one given, else the generated one. */
  function RequestedPassword(password: Option<string>, generated: string): (p: string)
    ensures password.Some? ==> p == password.value
    ensures password.None? ==> p == generated
  {
    password.GetOr(generated)
  }

  /** The restart-lock callback the config-changed handler names: disable-enable exactly for storage events. */
  function RestartCallback(t: Trigger): (c: Callback)
    ensures c == DisableEnableCallback <==> t == StorageAttached || t == StorageDetaching
    ensures c != DisableEnableCallback ==> c == DefaultCallback
  {
    if t.StorageAttached? || t.StorageDetaching? then DisableEnableCallback else DefaultCallback
  }

  class KafkaCharm {
    /** The deployed application's name. */
    const appName: string
    /** The peer relation exists. */
    var hasPeer: bool
    /** The peer relation's application databag. */
    var appData: map<string, string>
    /** The peer relation's databag of this unit. */
    var unitData: map<string, string>
    var leader: bool
    var status: Status
    /** Lines of the server properties file on disk ([] when absent). */
    var serverProps: seq<string>
    /** Lines of the client properties file on disk ([] when absent). */
    var clientProps: seq<string>
    /** This application's databag on the ZooKeeper relation. */
    var zkAppData: map<string, string>
    /** Restart-lock requests emitted, oldest first. */
    var lockRequests: seq<Callback>
    /** Calls made to the broker's service manager, oldest first. */
    var serviceLog: seq<ServiceOp>
    /** Every add-user command issued to the SCRAM backend, oldest first. */
    var addUserCalls: seq<(string, string)>
    /** The SCRAM users the backend holds as a result of this unit's successful commands. */
    var scramUsers: map<string, string>

    constructor (appName: string, hasPeer: bool, leader: bool)
      ensures this.appName == appName && this.hasPeer == hasPeer && this.leader == leader
      ensures appData == map[] && unitData == map[] && status == Unknown
      ensures serverProps == [] && clientProps == [] && zkAppData == map[]
      ensures lockRequests == [] && serviceLog == [] && addUserCalls == [] && scramUsers == map[]
    {
      this.appName := appName;
      this.hasPeer := hasPeer;
      this.leader := leader;
      appData, unitData, status := map[], map[], Unknown;
      serverProps, clientProps, zkAppData := [], [], map[];
      lockRequests, serviceLog, addUserCalls, scramUsers := [], [], [], map[];
    }

    /** The application databag as the handlers see it: empty without a peer relation. */
    function AppPeerData(): (d: Databag)
      reads this`hasPeer, this`appData
      ensures hasPeer ==> d == appData
      ensures !hasPeer ==> d == map[]
    {
      if hasPeer then appData else map[]
    }

    /** The unit databag as the handlers see it: empty without a peer relation. */
    function UnitPeerData(): (d: Databag)
      reads this`hasPeer, this`unitData
      ensures hasPeer ==> d == unitData
      ensures !hasPeer ==> d == map[]
    {
      if hasPeer then unitData else map[]
    }

    /** `get_secret`: read `key` in the unit or app scope; any other scope is an error. */
    function GetSecret(scope: string, key: string): (r: Result<Option<string>, SecretError>)
      reads this`hasPeer, this`appData, this`unitData
      ensures r.Err? <==> scope != UnitScope && scope != AppScope
      ensures r.Ok? && r.value.Some? ==> hasPeer
      ensures scope == AppScope ==> r == Ok(if hasPeer && key in appData then Some(appData[key]) else None)
      ensures scope == UnitScope ==> r == Ok(if hasPeer && key in unitData then Some(unitData[key]) else None)
    {
      if scope == UnitScope then Ok(Lookup(UnitPeerData(), key))
      else if scope == AppScope then Ok(Lookup(AppPeerData(), key))
      else Err(UnknownScope)
    }

    /**
     * `set_secret`: write `key` in one scope, a missing or empty value as "".
     * Without a peer relation the write goes to a throw-away databag.
     */
    method SetSecret(scope: string, key: string, value: Option<string>) returns (r: Result<(), SecretError>)
      modifies this`appData, this`unitData
      ensures r.Err? <==> scope != UnitScope && scope != AppScope
      ensures r.Err? || !hasPeer ==> appData == old(appData) && unitData == old(unitData)
      ensures r.Ok? && hasPeer && scope == AppScope ==>
        appData == old(appData)[key := StoredValue(value)] && unitData == old(unitData)
      ensures r.Ok? && hasPeer && scope == UnitScope ==>
        unitData == old(unitData)[key := StoredValue(value)] && appData == old(appData)
      ensures r.Ok? && hasPeer ==> GetSecret(scope, key) == Ok(Some(StoredValue(value)))
    {
      if scope == UnitScope {
        if hasPeer {
          if value.None? || value.value == "" {
            unitData := unitData[key := ""];
          } else {
            unitData := unitData[key := value.value];
          }
        }
        r := Ok(());
      } else if scope == AppScope {
        if hasPeer {
          if value.None? || value.value == "" {
            appData := appData[key := ""];
          } else {
            appData := appData[key := value.value];
          }
        }
        r := Ok(());
      } else {
        r := Err(UnknownScope);
      }
    }

    /**
     * `ready_to_start`: the peer relation exists, TLS agrees with ZooKeeper's,
     * enough storage is attached, ZooKeeper is connected and the leader has
     * published the broker-creds marker. The first two checks that fail name
     * a Blocked reason.
     */
    function ReadyToStart(env: Env): (r: Readiness)
      reads this`hasPeer, this`appData
      ensures r == Ready <==>
        && hasPeer
        && env.tlsEnabled == ZooKeeperTls(env)
        && env.attachedStorages >= MinStorages(env)
        && env.zkConnected
        && BrokerCredsKey in appData && appData[BrokerCredsKey] != ""
      ensures r == NotReady(Some(TlsMismatch)) <==> hasPeer && env.tlsEnabled != ZooKeeperTls(env)
      ensures r == NotReady(Some(StorageBelowMinimum)) <==>
        hasPeer && env.tlsEnabled == ZooKeeperTls(env) && env.attachedStorages < MinStorages(env)
      ensures r.NotReady? && r.blocked.Some? ==> r.blocked.value == TlsMismatch || r.blocked.value == StorageBelowMinimum
    {
      if !hasPeer then NotReady(None)
      else if env.tlsEnabled != ZooKeeperTls(env) then NotReady(Some(TlsMismatch))
      else if env.attachedStorages < MinStorages(env) then NotReady(Some(StorageBelowMinimum))
      else if !env.zkConnected || Lookup(appData, BrokerCredsKey).GetOr("") == "" then NotReady(None)
      else Ready
    }

    /** Evaluate `ready_to_start`, including the Blocked status it sets. */
    method CheckReady(env: Env) returns (ready: bool)
      modifies this`status
      ensures ready <==> ReadyToStart(env) == Ready
      ensures status == AfterReadiness(ReadyToStart(env), old(status))
    {
      var r := ReadyToStart(env);
      if r.NotReady? && r.blocked.Some? {
        status := Blocked(r.blocked.value);
      }
      ready := r == Ready;
    }

    /**
     * `update_internal_user`: only the leader, and only for an internal user,
     * issues the add-user command; the result is whether the command succeeded.
     */
    method UpdateInternalUser(username: string, password: string, env: Env) returns (ok: bool)
      modifies this`addUserCalls, this`scramUsers
      ensures ok <==> leader && username in InternalUsers && username in env.backendAccepts
      ensures addUserCalls ==
        if leader && username in InternalUsers then old(addUserCalls) + [(username, password)] else old(addUserCalls)
      ensures scramUsers == if ok then old(scramUsers)[username := password] else old(scramUsers)
    {
      if !leader {
        return false;
      }
      if username !in InternalUsers {
        return false;
      }
      addUserCalls := addUserCalls + [(username, password)];
      if username in env.backendAccepts {
        scramUsers := scramUsers[username := password];
        ok := true;
      } else {
        ok := false;
      }
    }

    /** The start handler's loop: apply each credential in order, stopping at the first failure. */
    method ApplyInternalCredentials(creds: seq<(string, string)>, env: Env) returns (ok: bool)
      requires leader
      modifies this`addUserCalls, this`scramUsers
      ensures ok <==> AllAccepted(creds, env)
      ensures addUserCalls == old(addUserCalls) + IssuedCommands(creds, env)
      ensures scramUsers == AddUsers(old(scramUsers), creds[..AcceptedPrefix(creds, env)])
      ensures ok && DistinctNames(creds) ==> AllApplied(creds, scramUsers)
      ensures OnlyGains(old(scramUsers), scramUsers, creds)
    {
      var i := 0;
      while i < |creds|
        invariant 0 <= i <= |creds|
        invariant AllAccepted(creds[..i], env)
        invariant addUserCalls == old(addUserCalls) + creds[..i]
        invariant scramUsers == AddUsers(old(scramUsers), creds[..i])
      {
        var updated := UpdateInternalUser(creds[i].0, creds[i].1, env);
        assert creds[..i + 1] == creds[..i] + [creds[i]];
        if !updated {
          AcceptedPrefixUnique(creds, env, i);
          AddUsersOnlyGains(old(scramUsers), creds[..i], creds);
          return false;
        }
        assert creds[..i + 1][..i] == creds[..i];
        i := i + 1;
      }
      assert creds[..i] == creds;
      AcceptedPrefixUnique(creds, env, i);
      AddUsersOnlyGains(old(scramUsers), creds, creds);
      if DistinctNames(creds) {
        AddUsersApplies(old(scramUsers), creds);
      }
      ok := true;
    }

    /**
     * `set_internal_passwords`: on the leader, give each internal user whose
     * password is missing or empty the next generated password.
     */
    method SetInternalPasswords(generated: seq<string>)
      requires |generated| == |InternalUsers|
      modifies this`appData, this`unitData
      ensures unitData == old(unitData)
      ensures appData == if leader && hasPeer then EnsurePasswords(old(appData), InternalUsers, generated) else old(appData)
      ensures leader && hasPeer && (forall i :: 0 <= i < |generated| ==> generated[i] != "") ==>
        forall u :: u in InternalUsers ==> HasPassword(appData, u)
    {
      if !leader {
        return;
      }
      for i := 0 to |InternalUsers|
        invariant unitData == old(unitData)
        invariant appData == if hasPeer then EnsurePasswords(old(appData), InternalUsers[..i], generated[..i]) else old(appData)
      {
        var key := PasswordKey(InternalUsers[i]);
        var current := GetSecret(AppScope, key);
        var value := if current.Ok? && current.value.Some? && current.value.value != "" then current.value.value else generated[i];
        var written := SetSecret(AppScope, key, Some(value));
        assert InternalUsers[..i + 1][..i] == InternalUsers[..i];
        assert generated[..i + 1][..i] == generated[..i];
      }
      assert InternalUsers[..|InternalUsers|] == InternalUsers;
      assert generated[..|InternalUsers|] == generated;
      if hasPeer && forall i :: 0 <= i < |generated| ==> generated[i] != "" {
        EnsurePasswordsFills(old(appData), InternalUsers, generated);
      }
    }

    /** `_on_leader_elected`: defer without a peer relation, else ensure the internal passwords. */
    method OnLeaderElected(generated: seq<string>) returns (outcome: Outcome)
      requires |generated| == |InternalUsers|
      modifies this`appData, this`unitData
      ensures !hasPeer ==> outcome == Deferred && appData == old(appData)
      ensures hasPeer ==> outcome == Handled
      ensures unitData == old(unitData)
      ensures appData == if leader && hasPeer then EnsurePasswords(old(appData), InternalUsers, generated) else old(appData)
    {
      if !hasPeer {
        return Deferred;
      }
      SetInternalPasswords(generated);
      outcome := Handled;
    }

    /** `_on_zookeeper_joined`: the leader tells ZooKeeper its chroot, "/" and the application name. */
    method OnZooKeeperJoined()
      modifies this`zkAppData
      ensures zkAppData == if leader then old(zkAppData)[ChrootKey := "/" + appName] else old(zkAppData)
    {
      if leader {
        zkAppData := zkAppData[ChrootKey := "/" + appName];
      }
    }

    /** `_on_zookeeper_broken`: stop the broker and block. */
    method OnZooKeeperBroken()
      modifies this`serviceLog, this`status
      ensures serviceLog == old(serviceLog) + [StopService]
      ensures status == Blocked(ZooKeeperMissing)
    {
      serviceLog := serviceLog + [StopService];
      status := Blocked(ZooKeeperMissing);
    }

    /**
     * The leader's part of the start handler: add every internal credential
     * to the backend, stopping at the first failure, and only when all were
     * added publish the broker-creds marker.
     */
    method PublishBrokerCreds(env: Env) returns (published: bool)
      requires leader
      modifies this`appData, this`addUserCalls, this`scramUsers
      ensures published <==> AllAccepted(InternalCredentials(old(appData)), env)
      ensures published ==>
        && appData == old(appData)[BrokerCredsKey := BrokerCredsAdded]
        && AllApplied(InternalCredentials(old(appData)), scramUsers)
        && addUserCalls == old(addUserCalls) + InternalCredentials(old(appData))
      ensures !published ==> appData == old(appData)
      ensures addUserCalls == old(addUserCalls) + IssuedCommands(InternalCredentials(old(appData)), env)
      ensures var creds := InternalCredentials(old(appData));
        scramUsers == AddUsers(old(scramUsers), creds[..AcceptedPrefix(creds, env)])
      ensures OnlyGains(old(scramUsers), scramUsers, InternalCredentials(old(appData)))
    {
      var creds := InternalCredentials(appData);
      published := ApplyInternalCredentials(creds, env);
      if published {
        appData := appData[BrokerCredsKey := BrokerCredsAdded];
      }
    }

    /** The end of the start handler: defer unless ready, else start the broker and report how that went. */
    method StartWhenReady(env: Env) returns (outcome: Outcome)
      modifies this`status, this`serviceLog
      ensures outcome == Handled <==> ReadyToStart(env) == Ready
      ensures outcome != Handled ==>
        outcome == Deferred && serviceLog == old(serviceLog) && status == AfterReadiness(ReadyToStart(env), old(status))
      ensures outcome == Handled ==> serviceLog == old(serviceLog) + [StartService] && status == StartStatus(env)
    {
      var ready := CheckReady(env);
      if !ready {
        return Deferred;
      }
      serviceLog := serviceLog + [StartService];
      if !env.snapStartOk {
        status := Blocked(SnapStartFailed);
        return Handled;
      }
      if env.brokerActive {
        status := Active(NoNotice);
      } else {
        status := Blocked(BrokerNotConnected);
      }
      outcome := Handled;
    }

    /**
     * `_on_start`: write the properties files; on the leader, add every
     * internal user to the backend and only then publish the broker-creds
     * marker; start the broker only when ready.
     */
    method OnStart(env: Env) returns (outcome: Outcome)
      modifies this`serverProps, this`clientProps, this`appData, this`status, this`serviceLog
      modifies this`addUserCalls, this`scramUsers
      ensures !env.zkConnected || !hasPeer ==> outcome == Deferred && unchanged(this)
      ensures env.zkConnected && hasPeer ==> serverProps == env.serverProperties && clientProps == env.clientProperties
      // the marker is published exactly when every internal credential was added
      ensures env.zkConnected && hasPeer && leader && AllAccepted(InternalCredentials(old(appData)), env) ==>
        && appData == old(appData)[BrokerCredsKey := BrokerCredsAdded]
        && AllApplied(InternalCredentials(old(appData)), scramUsers)
        && addUserCalls == old(addUserCalls) + InternalCredentials(old(appData))
      ensures !(env.zkConnected && hasPeer && leader && AllAccepted(InternalCredentials(old(appData)), env)) ==>
        appData == old(appData)
      ensures env.zkConnected && hasPeer && leader && !AllAccepted(InternalCredentials(old(appData)), env) ==>
        outcome == Deferred && status == old(status) && serviceLog == old(serviceLog)
      ensures OnlyGains(old(scramUsers), scramUsers, InternalCredentials(old(appData)))
      ensures !leader ==> scramUsers == old(scramUsers) && addUserCalls == old(addUserCalls)
      // on the leader the loop stops at the first credential the backend rejects
      ensures env.zkConnected && hasPeer && leader ==>
        var creds := InternalCredentials(old(appData));
        && addUserCalls == old(addUserCalls) + IssuedCommands(creds, env)
        && scramUsers == AddUsers(old(scramUsers), creds[..AcceptedPrefix(creds, env)])
      // the broker is started exactly when the unit is ready
      ensures outcome == Handled <==>
        && env.zkConnected && hasPeer
        && (leader ==> AllAccepted(InternalCredentials(old(appData)), env))
        && ReadyToStart(env) == Ready
      ensures outcome == Handled ==> serviceLog == old(serviceLog) + [StartService] && status == StartStatus(env)
      ensures outcome != Handled ==> outcome == Deferred && serviceLog == old(serviceLog)
      ensures outcome == Deferred && env.zkConnected && hasPeer && (leader ==> AllAccepted(InternalCredentials(old(appData)), env)) ==>
        status == AfterReadiness(ReadyToStart(env), old(status))
    {
      if !env.zkConnected {
        return Deferred;
      }
      if !hasPeer {
        return Deferred;
      }
      serverProps := env.serverProperties;
      clientProps := env.clientProperties;
      if !leader {
        outcome := StartWhenReady(env);
        return;
      }
      var published := PublishBrokerCreds(env);
      if !published {
        return Deferred;
      }
      outcome := StartWhenReady(env);
    }

    /**
     * `_on_config_changed`: when ready and the server properties file exists,
     * rewrite both properties files and request the restart lock exactly when
     * the current and the target lines differ as sets; storage events ask for
     * the disable-enable callback.
     */
    method OnConfigChanged(env: Env, trigger: Trigger) returns (outcome: Outcome)
      modifies this`status, this`serverProps, this`clientProps, this`lockRequests
      ensures status == AfterReadiness(ReadyToStart(env), old(status))
      ensures outcome == Deferred <==> ReadyToStart(env) != Ready || old(serverProps) == []
      ensures outcome != Deferred ==> outcome == Handled
      ensures outcome == Handled && PropertiesChanged(old(serverProps), env.serverProperties) ==>
        serverProps == env.serverProperties && clientProps == env.clientProperties
        && lockRequests == old(lockRequests) + [RestartCallback(trigger)]
      ensures !(outcome == Handled && PropertiesChanged(old(serverProps), env.serverProperties)) ==>
        serverProps == old(serverProps) && clientProps == old(clientProps) && lockRequests == old(lockRequests)
    {
      var ready := CheckReady(env);
      if !ready {
        return Deferred;
      }
      var properties := serverProps;
      if properties == [] {
        return Deferred;
      }
      if PropertiesChanged(properties, env.serverProperties) {
        serverProps := env.serverProperties;
        clientProps := env.clientProperties;
        if trigger.StorageAttached? || trigger.StorageDetaching? {
          lockRequests := lockRequests + [DisableEnableCallback];
        } else {
          lockRequests := lockRequests + [DefaultCallback];
        }
      }
      outcome := Handled;
    }

    /**
     * `_on_storage_attached`: once the broker is active, note that partitions
     * may need reassigning and run the config-changed handler as a storage event.
     */
    method OnStorageAttached(env: Env) returns (outcome: Outcome)
      modifies this`status, this`serverProps, this`clientProps, this`lockRequests
      ensures !env.zkConnected || !env.brokerActive ==> outcome == Handled && unchanged(this)
      ensures env.zkConnected && env.brokerActive ==>
        status == AfterReadiness(ReadyToStart(env), Active(StorageReassignmentNotice))
        && (outcome == Deferred <==> ReadyToStart(env) != Ready || old(serverProps) == [])
      ensures outcome == Deferred || outcome == Handled
      // the config-changed rules, run as a storage event
      ensures (env.zkConnected && env.brokerActive && outcome == Handled
               && PropertiesChanged(old(serverProps), env.serverProperties)) ==>
        serverProps == env.serverProperties && clientProps == env.clientProperties
        && lockRequests == old(lockRequests) + [DisableEnableCallback]
      ensures !(env.zkConnected && env.brokerActive && outcome == Handled
                && PropertiesChanged(old(serverProps), env.serverProperties)) ==>
        serverProps == old(serverProps) && clientProps == old(clientProps) && lockRequests == old(lockRequests)
    {
      if !env.zkConnected || !env.brokerActive {
        return Handled;
      }
      status := Active(StorageReassignmentNotice);
      outcome := OnConfigChanged(env, StorageAttached);
    }

    /**
     * `_on_storage_detaching`: once the broker is active, block with a reason
     * that depends on whether other units replicate, then run the
     * config-changed handler as a storage event.
     */
    method OnStorageDetaching(env: Env) returns (outcome: Outcome)
      modifies this`status, this`serverProps, this`clientProps, this`lockRequests
      ensures !env.zkConnected || !env.brokerActive ==> outcome == Handled && unchanged(this)
      ensures env.zkConnected && env.brokerActive ==>
        var warned := if hasPeer && env.peerUnits > 0 then ReassignmentRecommended else LogDataLossRisk;
        status == AfterReadiness(ReadyToStart(env), Blocked(warned))
        && (outcome == Deferred <==> ReadyToStart(env) != Ready || old(serverProps) == [])
      ensures outcome == Deferred || outcome == Handled
      // the config-changed rules, run as a storage event
      ensures (env.zkConnected && env.brokerActive && outcome == Handled
               && PropertiesChanged(old(serverProps), env.serverProperties)) ==>
        serverProps == env.serverProperties && clientProps == env.clientProperties
        && lockRequests == old(lockRequests) + [DisableEnableCallback]
      ensures !(env.zkConnected && env.brokerActive && outcome == Handled
                && PropertiesChanged(old(serverProps), env.serverProperties)) ==>
        serverProps == old(serverProps) && clientProps == old(clientProps) && lockRequests == old(lockRequests)
    {
      if !env.zkConnected || !env.brokerActive {
        return Handled;
      }
      if hasPeer && env.peerUnits > 0 {
        status := Blocked(ReassignmentRecommended);
      } else {
        status := Blocked(LogDataLossRisk);
      }
      outcome := OnConfigChanged(env, StorageDetaching);
    }

    /** `_restart`, the default restart-lock callback: defer unless ready, else restart the broker. */
    method Restart(env: Env) returns (outcome: Outcome)
      modifies this`status, this`serviceLog
      ensures ReadyToStart(env) != Ready ==>
        outcome == Deferred && serviceLog == old(serviceLog) && status == AfterReadiness(ReadyToStart(env), old(status))
      ensures ReadyToStart(env) == Ready ==>
        outcome == Handled && serviceLog == old(serviceLog) + [RestartService]
        && status == if env.brokerActive then Active(NoNotice) else Blocked(BrokerRestartFailed)
    {
      var ready := CheckReady(env);
      if !ready {
        return Deferred;
      }
      serviceLog := serviceLog + [RestartService];
      if env.brokerActive {
        status := Active(NoNotice);
      } else {
        status := Blocked(BrokerRestartFailed);
      }
      outcome := Handled;
    }

    /** `_disable_enable_restart`, the storage callback: fail unless ready, else disable and re-enable the broker. */
    method DisableEnableRestart(env: Env) returns (outcome: Outcome)
      modifies this`status, this`serviceLog
      ensures ReadyToStart(env) != Ready ==>
        outcome == Failed(NotReadyToRestart) && serviceLog == old(serviceLog)
        && status == AfterReadiness(ReadyToStart(env), old(status))
      ensures ReadyToStart(env) == Ready ==> serviceLog == old(serviceLog) + [DisableEnableService]
      ensures ReadyToStart(env) == Ready && env.brokerActive ==> outcome == Handled && status == Active(NoNotice)
      ensures ReadyToStart(env) == Ready && !env.brokerActive ==>
        outcome == Failed(RestartUnsuccessful) && status == Blocked(BrokerRestartFailed)
    {
      var ready := CheckReady(env);
      if !ready {
        return Failed(NotReadyToRestart);
      }
      serviceLog := serviceLog + [DisableEnableService];
      if env.brokerActive {
        status := Active(NoNotice);
        outcome := Handled;
      } else {
        status := Blocked(BrokerRestartFailed);
        outcome := Failed(RestartUnsuccessful);
      }
    }

    /**
     * `_set_password_action`: on the leader, replace an internal user's
     * password with one no internal user holds, first in the backend, then in
     * the app-scope databag; without a peer relation the action is deferred.
     */
    method SetPasswordAction(username: string, password: Option<string>, generated: string, env: Env)
      returns (outcome: Outcome, results: map<string, string>)
      modifies this`appData, this`unitData, this`addUserCalls, this`scramUsers
      ensures !hasPeer ==> outcome == Deferred && results == map[] && unchanged(this)
      ensures hasPeer && !leader ==> outcome == Failed(NotLeader) && results == map[] && unchanged(this)
      ensures hasPeer && leader && PasswordInUse(old(appData), RequestedPassword(password, generated)) ==>
        outcome == Failed(PasswordAlreadyExists) && results == map[] && unchanged(this)
      ensures outcome == Failed(UserUpdateFailed) <==>
        hasPeer && leader && !PasswordInUse(old(appData), RequestedPassword(password, generated))
        && !(username in InternalUsers && username in env.backendAccepts)
      ensures outcome == Handled <==>
        hasPeer && leader && !PasswordInUse(old(appData), RequestedPassword(password, generated))
        && username in InternalUsers && username in env.backendAccepts
      ensures outcome.Failed? ==> appData == old(appData) && results == map[] && scramUsers == old(scramUsers)
      ensures outcome == Handled || outcome == Failed(UserUpdateFailed) ==>
        addUserCalls == old(addUserCalls)
          + if username in InternalUsers then [(username, RequestedPassword(password, generated))] else []
      ensures outcome == Handled ==>
        var pw := RequestedPassword(password, generated);
        && appData == old(appData)[PasswordKey(username) := pw]
        && results == map[PasswordKey(username) := pw]
        && scramUsers == old(scramUsers)[username := pw]
        && GetSecret(AppScope, PasswordKey(username)) == Ok(Some(pw))
      ensures outcome == Handled && DistinctPasswords(old(appData)) ==> DistinctPasswords(appData)
      ensures unitData == old(unitData)
    {
      results := map[];
      if !hasPeer {
        return Deferred, results;
      }
      if !leader {
        return Failed(NotLeader), results;
      }
      var newPassword := RequestedPassword(password, generated);
      if PasswordInUse(AppPeerData(), newPassword) {
        return Failed(PasswordAlreadyExists), results;
      }
      var updated := UpdateInternalUser(username, newPassword, env);
      if !updated {
        return Failed(UserUpdateFailed), results;
      }
      var written := SetSecret(AppScope, PasswordKey(username), Some(newPassword));
      results := map[PasswordKey(username) := newPassword];
      outcome := Handled;
      if DistinctPasswords(old(appData)) {
        RotationKeepsPasswordsDistinct(old(appData), username, newPassword);
      }
    }

    /**
     * `_get_admin_credentials_action`: the admin user, its password and the
     * client property lines without the TLS ones; it fails without a client
     * properties file, and without an admin password.
     */
    function GetAdminCredentialsAction(env: Env): (r: Result<AdminCredentials, FailReason>)
      reads this`hasPeer, this`appData, this`clientProps
      ensures r == Err(ClientPropertiesMissing) <==> clientProps == []
      ensures r == Err(AdminPasswordMissing) <==> clientProps != [] && !HasPassword(AppPeerData(), AdminUser)
      ensures r.Err? ==> r.error == ClientPropertiesMissing || r.error == AdminPasswordMissing
      ensures clientProps != [] && HasPassword(AppPeerData(), AdminUser) ==> r.Ok?
      ensures r.Ok? ==> r.value.password == AppPeerData()[PasswordKey(AdminUser)]
      ensures r.Ok? ==> r.value.username == AdminUser && (AdminUser, r.value.password) in InternalCredentials(AppPeerData())
      ensures r.Ok? ==> forall l :: l in r.value.clientProperties <==> l in clientProps && l !in env.tlsProperties
    {
      if clientProps == [] then Err(ClientPropertiesMissing)
      else if !HasPassword(AppPeerData(), AdminUser) then Err(AdminPasswordMissing)
      else Ok(AdminCredentials(AdminUser, AppPeerData()[PasswordKey(AdminUser)], WithoutLines(clientProps, env.tlsProperties)))
    }
  }
}
