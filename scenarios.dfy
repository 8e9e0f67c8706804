/** Properties that span several handlers of one unit. */
module Scenarios {
  import opened Wrappers
  import opened Literals
  import opened Credentials
  import opened Charm

  /**
   * A leader that is elected and then started, with a backend that accepts
   * both internal users and a unit that is otherwise ready: the marker is
   * published, the broker is started, and the backend holds exactly the
   * password each internal user has in the app-scope databag.
   */
  method LeaderBootstrap(charm: KafkaCharm, env: Env, generated: seq<string>) returns (elected: Outcome, started: Outcome)
    requires charm.leader && charm.hasPeer
    requires |generated| == |InternalUsers|
    requires forall i :: 0 <= i < |generated| ==> generated[i] != ""
    requires env.zkConnected && env.tlsEnabled == ZooKeeperTls(env) && env.attachedStorages >= MinStorages(env)
    requires forall u :: u in InternalUsers ==> u in env.backendAccepts
    modifies charm
    ensures elected == Handled && started == Handled
    ensures BrokerCredsKey in charm.appData && charm.appData[BrokerCredsKey] == BrokerCredsAdded
    ensures forall u :: u in InternalUsers ==>
      HasPassword(charm.appData, u) && u in charm.scramUsers && charm.scramUsers[u] == charm.appData[PasswordKey(u)]
    ensures charm.serviceLog == old(charm.serviceLog) + [StartService]
  {
    elected := charm.OnLeaderElected(generated);
    EnsurePasswordsFills(old(charm.appData), InternalUsers, generated);
    ghost var passwords := charm.appData;
    assert AllAccepted(InternalCredentials(passwords), env);
    started := charm.OnStart(env);
    BackendMatchesPasswords(passwords, charm.scramUsers);
  }

  /**
   * Once every internal user has a stored password and the backend holds all
   * internal credentials, the backend agrees with the app databag on each
   * internal user, also after the marker is published.
   */
  lemma BackendMatchesPasswords(passwords: Databag, users: map<string, string>)
    requires forall u :: u in InternalUsers ==> HasPassword(passwords, u)
    requires AllApplied(InternalCredentials(passwords), users)
    ensures var published := passwords[BrokerCredsKey := BrokerCredsAdded];
      forall u :: u in InternalUsers ==>
        HasPassword(published, u) && u in users && users[u] == published[PasswordKey(u)]
  {
    forall u | u in InternalUsers
      ensures HasPassword(passwords[BrokerCredsKey := BrokerCredsAdded], u)
      ensures u in users && users[u] == passwords[BrokerCredsKey := BrokerCredsAdded][PasswordKey(u)]
    {
      assert (u, passwords[PasswordKey(u)]) in InternalCredentials(passwords);
      BrokerCredsIsNotAPasswordKey(u);
    }
  }

  /**
   * Rotating the admin password on the leader to one no internal user holds
   * succeeds when the backend accepts it, and the get-admin-credentials
   * action then returns the new password.
   */
  method RotateAdminPassword(charm: KafkaCharm, password: string, generated: string, env: Env)
    returns (rotated: Outcome, read: Result<AdminCredentials, FailReason>)
    requires charm.leader && charm.hasPeer && charm.clientProps != []
    requires password != "" && !PasswordInUse(charm.appData, password)
    requires AdminUser in env.backendAccepts
    modifies charm
    ensures rotated == Handled
    ensures read.Ok? && read.value.username == AdminUser && read.value.password == password
  {
    var results;
    rotated, results := charm.SetPasswordAction(AdminUser, Some(password), generated, env);
    read := charm.GetAdminCredentialsAction(env);
  }
}
