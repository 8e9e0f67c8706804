# Kafka charm reconciliation engine, modelled in Dafny

This project models the per-unit controller of the machine charm for Apache Kafka (`KafkaCharm` in
`src/charm.py`). The controller is a unit of a Juju application. It sees the peer relation's two
databags: the application scope, which in practice only the leader writes, and this unit's own
scope. It also knows whether it is the leader and has a status (Active, Blocked, ...). Each event
handler reads these, asks collaborators for facts, and then does some of the following:

- writes the databags;
- rewrites the broker's properties files;
- adds SCRAM users to the ZooKeeper-backed authentication backend;
- asks the rolling-restart lock for a restart;
- starts, stops or restarts the broker service.

Each handler then either handles its event, defers it for redelivery, or fails it.

The model is the class `Charm.KafkaCharm`. Its fields are the peer databags, the leadership flag,
the status, the lines of the two properties files, the ZooKeeper relation's application databag,
and three logs: the restart-lock requests (with the callback each names), the calls made to the
service manager, and the add-user commands sent to the backend. A `scramUsers` map records the
users the backend accepted.

Each handler is a method. Its outcome is `Handled`, `Deferred` or `Failed(reason)`. On every
path, its contract gives the new value of each field it may change. Facts that come from code
this model does not contain arrive in the datatype `Env`:

- ZooKeeper connectivity and configuration;
- the Kafka TLS flag;
- the declared storage range and the number of attached volumes;
- the number of other units on the peer relation;
- `broker_active`, and whether the service starts;
- which users the backend's add-user command succeeds for;
- the target server and client property lines, and the TLS lines among the client lines.

The pure parts sit in their own modules:

- `Credentials`: which internal credentials exist; the leader's one-time password generation as a
  fold (`EnsurePasswords`) with its lemmas; and the uniqueness invariant that password rotation
  keeps.
- `Properties`: the set comparison that decides whether to rewrite the properties files and
  restart.
- `Literals`: the fixed user names and keys.

`Scenarios` composes handlers. One scenario is a leader's election followed by its start. The
other is a password rotation followed by the get-admin-credentials action.

Some behaviours of the code are less uniform than the handler names suggest. The model keeps each
of them as written:

- Readiness does not always block. `ready_to_start` sets Blocked only for a TLS mismatch or a
  storage shortfall. A missing peer relation, a disconnected ZooKeeper or a missing broker-creds
  marker leave the status as it was.
- Restarts compare lines, not keys. The config-changed handler compares the sets of whole
  `key=value` lines, so a changed value also triggers a rewrite and a restart request.
- Without a peer relation, writes vanish. The databag accessors then return a fresh empty mapping,
  so `get_secret` finds nothing and `set_secret` writes nowhere. `KafkaCharm.AppPeerData` models
  this.
- The leader's start loop stops at the first credential the backend rejects and defers. The
  commands issued up to that point stay issued, and the users added so far stay added.

`internal_user_credentials` belongs to `KafkaConfig`, which is not part of this model. The model
takes it to be the internal users that have a non-empty stored password
(`Credentials.InternalCredentials`). Under that choice, a leader that starts before any internal
password is stored runs an empty loop and publishes `broker-creds` without adding anyone. The
contract of `OnStart` states this consequence of the model; it is not a claim about
`KafkaConfig`.

## Model

| member | source | states |
|---|---|---|
| `Charm.KafkaCharm.AppPeerData` | src/charm.py:95-101 | With a peer relation, the application databag; without one, an empty mapping. |
| `Charm.KafkaCharm.UnitPeerData` | src/charm.py:103-109 | With a peer relation, this unit's databag; without one, an empty mapping. |
| `Charm.KafkaCharm.GetSecret` | src/charm.py:435-451 | Unit and app scope read their own databag (nothing without a peer relation); any other scope is an error. |
| `Charm.KafkaCharm.SetSecret` | src/charm.py:453-472 | An unknown scope is an error and changes nothing. A write changes only its own scope and stores a missing or empty value as "". A later `GetSecret` of that key returns the stored value. |
| `Credentials.InternalCredentials` | src/charm.py:200 | The internal credentials are exactly the internal users with a non-empty app-scope password, each paired with that password, with no user twice. |
| `Credentials.PasswordInUse` | src/charm.py:326 | True exactly when some internal user currently holds the given password. |
| `Credentials.RotationKeepsPasswordsDistinct` | src/charm.py:326-338 | Storing an unused password for an internal user keeps all internal passwords pairwise different. The new pair is then an internal credential. |
| `Credentials.EnsurePasswords` | src/charm.py:424-433 | The databag after the loop over the internal users. It keeps every existing key and adds no key other than a visited user's password key. |
| `Credentials.EnsurePasswordsFills` | src/charm.py:424-433 | With a generator that never returns "", every internal user has a non-empty password after the loop. |
| `Credentials.EnsurePasswordsKeeps` | src/charm.py:429-433 | A key that already held a non-empty value keeps exactly that value. |
| `Credentials.EnsurePasswordsFrame` | src/charm.py:429-433 | Keys other than the visited users' password keys are untouched. |
| `Credentials.EnsurePasswordsNoop` | src/charm.py:429-433 | When every user already has a password, the loop changes nothing. |
| `Credentials.EnsurePasswordsIdempotent` | src/charm.py:424-433 | Generating twice gives the same databag as generating once, whatever the second run would generate. |
| `Literals.BrokerCredsIsNotAPasswordKey` | src/charm.py:208 | Publishing the broker-creds marker never overwrites an internal password. |
| `Properties.PropertiesChangedMeansSomeLineDiffers` | src/charm.py:245 | The symmetric difference is non-empty exactly when some line is in one file and not the other, that is, when the two line sets differ. |
| `Properties.WithoutLines` | src/charm.py:385 | A line is in the result exactly when it is a client line and not a TLS line. |
| `Charm.ZooKeeperTls` | src/charm.py:353-355 | ZooKeeper counts as using TLS exactly when its `tls` entry is present and reads `enabled`. |
| `Charm.MinStorages` | src/charm.py:361-362 | The lower bound of the declared storage range, or 0 when no range is declared. |
| `Charm.KafkaCharm.ReadyToStart` | src/charm.py:341-374 | Ready exactly when all of these hold: peer relation, matching TLS, enough storage, ZooKeeper connected, non-empty marker. A TLS mismatch, and otherwise a storage shortfall, name a Blocked reason; nothing else does. |
| `Charm.KafkaCharm.CheckReady` | src/charm.py:352-367 | Returns the readiness verdict. Sets Blocked with the named reason when there is one, and otherwise leaves the status alone. |
| `Charm.KafkaCharm.UpdateInternalUser` | src/charm.py:395-422 | A non-leader or a non-internal user gets false and issues no backend command. Otherwise one command is issued, and the result is true exactly when the backend accepts it, in which case the backend then holds the password. |
| `Charm.AcceptedPrefix` | src/charm.py:200-205 | The number of leading credentials the backend accepts. All of them are accepted, and the next one, if any, is rejected. |
| `Charm.AcceptedPrefixUnique` | src/charm.py:200-205 | No other prefix has that property, so the loop's stopping point is determined. |
| `Charm.IssuedCommands` | src/charm.py:200-205 | The commands the loop sends form a prefix of the credentials. It covers at least the accepted ones and at most one more, and all of them when all are accepted. |
| `Charm.AddUsersApplies` | src/charm.py:200-205 | After adding credentials with distinct names, the backend holds each of them. |
| `Charm.AddUsersOnlyGains` | src/charm.py:200-205 | Adding a prefix of the credentials removes no user, and every changed user gets a password from the credentials. |
| `Charm.KafkaCharm.ApplyInternalCredentials` | src/charm.py:199-205 | Succeeds exactly when the backend accepts every credential. It stops at the first rejection. The commands issued are the accepted prefix, plus the rejected credential when it names an internal user. The backend gains exactly the accepted prefix, in order. On success, with distinct names, the backend holds every credential. |
| `Charm.KafkaCharm.SetInternalPasswords` | src/charm.py:424-433 | A non-leader (or no peer relation) changes nothing. The leader's app databag becomes the `EnsurePasswords` fold, so both internal users have non-empty passwords when the generator gives non-empty ones. The unit scope is untouched. |
| `Charm.KafkaCharm.OnLeaderElected` | src/charm.py:162-169 | Without a peer relation, defers and changes nothing. Otherwise ensures the internal passwords as above. |
| `Charm.KafkaCharm.OnZooKeeperJoined` | src/charm.py:171-174 | Only the leader writes chroot = "/" + application name into the ZooKeeper relation data. |
| `Charm.KafkaCharm.OnZooKeeperBroken` | src/charm.py:176-180 | Stops the broker service and blocks on the missing ZooKeeper relation. |
| `Charm.KafkaCharm.PublishBrokerCreds` | src/charm.py:198-208 | The marker is written exactly when every internal credential was accepted, and then the backend holds all of them. On any failure the app databag is unchanged. Either way, the commands issued and the users added are those of the loop, which stops at the first rejection. |
| `Charm.StartStatus` | src/charm.py:215-230 | After the start call: Active exactly when the service started and the broker is active, Blocked on a failed start, and otherwise Blocked as not connected. |
| `Charm.KafkaCharm.StartWhenReady` | src/charm.py:210-230 | The service is started exactly when `ReadyToStart` holds. The resulting status distinguishes start failure, broker not connected and Active. |
| `Charm.KafkaCharm.OnStart` | src/charm.py:182-230 | Defers and changes nothing without ZooKeeper or a peer relation. Otherwise the properties files are written. The leader publishes the marker only after every internal credential was added. On the first rejection it defers before the marker; the commands issued and users added up to then are stated. The broker starts exactly when ready. |
| `Charm.RestartCallback` | src/charm.py:256-261 | The lock request names the disable-enable callback exactly for storage events, and the default one otherwise. |
| `Charm.KafkaCharm.OnConfigChanged` | src/charm.py:232-261 | Defers when not ready or when no properties file exists, and then rewrites nothing and requests nothing. Otherwise it rewrites both files and requests the restart lock exactly when the line sets differ. Storage events name the disable-enable callback; all other events name the default one. |
| `Charm.KafkaCharm.OnStorageAttached` | src/charm.py:116-132 | Does nothing unless ZooKeeper is connected and the broker is active. Otherwise it sets the reassignment notice and runs the config-changed rules as a storage event. Once it runs those rules, both files are rewritten and one disable-enable lock request is emitted exactly when they do not defer and the line sets differ. In every other case neither file nor the lock requests change. |
| `Charm.KafkaCharm.OnStorageDetaching` | src/charm.py:134-152 | Does nothing unless ZooKeeper is connected and the broker is active. Otherwise it blocks with a replication-dependent reason and runs the config-changed rules as a storage event. Once it runs those rules, both files are rewritten and one disable-enable lock request is emitted exactly when they do not defer and the line sets differ. In every other case neither file nor the lock requests change. |
| `Charm.KafkaCharm.Restart` | src/charm.py:267-285 | When not ready, defers and leaves the service alone. Otherwise it restarts once and ends Active or Blocked, depending on broker activity. |
| `Charm.KafkaCharm.DisableEnableRestart` | src/charm.py:287-305 | When not ready, fails and leaves the service alone. Otherwise it disables and re-enables once, and fails and blocks when the broker is not active afterwards. |
| `Charm.RequestedPassword` | src/charm.py:324 | The given password when one is given, otherwise the generated one. |
| `Charm.KafkaCharm.SetPasswordAction` | src/charm.py:307-339 | Without a peer relation it defers; on a non-leader, or with a password some internal user holds, it fails; all three change nothing. It fails when the backend update fails. On that failure and on success, exactly one add-user command is issued for an internal user, and none for any other user. On success the app databag gets `<user>-password`, the results hold the same pair, a later `GetSecret` returns it, and distinct internal passwords stay distinct. |
| `Charm.KafkaCharm.GetAdminCredentialsAction` | src/charm.py:376-393 | Fails exactly when the client properties file is missing, or else when there is no admin password, and for no other reason. It succeeds whenever both are present. It then returns the admin user with its stored password, and exactly the client lines that are not TLS lines. |
| `Scenarios.LeaderBootstrap` | src/charm.py:162-230 | On a ready leader, election followed by start publishes the marker and starts the broker. The backend then holds exactly the password each internal user has in the app databag. |
| `Scenarios.BackendMatchesPasswords` | src/charm.py:198-208 | Once every internal user has a stored password and the backend holds every internal credential, the backend agrees with the app databag on each internal user, also after the marker is written. |
| `Scenarios.RotateAdminPassword` | src/charm.py:307-393 | A rotation of the admin password that succeeds is returned by the next get-admin-credentials action. |

## Left out

- `src/snap.py` is not part of this model: it is package installation and shell calls. The model
  records only which service call was made, and takes "the service started" as an input.
- `_on_install` (src/charm.py:154-160) is left out: it is the snap installation and the writing of
  the broker's environment options.
- The rolling-restart lock protocol is not modelled: it lives in a library that is not part of this
  model. The model records only that a lock request was emitted and which callback it names.
- `KafkaConfig`, `KafkaTLS`, `KafkaAuth`, `KafkaProvider`, `broker_active`, `safe_get_file` and
  `generate_password` are not part of this model. They enter as inputs: ZooKeeper connected and
  configuration, the TLS flag, the target property lines and the TLS lines, broker activity, users
  the backend accepts, and the passwords the generator returns.
- `Credentials.InternalCredentials`: `internal_user_credentials` belongs to `KafkaConfig`, which
  is not part of this model. It is modelled as the internal users whose app-scope
  `<user>-password` is non-empty, in the order inter-broker user then admin user.
- The user names "sync" and "admin" stand for constants of a module that is not part of this
  model. The proofs rely only on their being different.
- The JAAS file and the ZooKeeper connection arguments passed to the backend are not modelled.
- Client relation provisioning (src/charm.py:263-265, `update_connection_info`) is left out: it
  lives in the provider module, which is not part of this model.
- The order of the newline-joined client properties is not modelled. The order comes from
  iterating a Python set, so the model returns the set of lines.
- `Charm.KafkaCharm.GetAdminCredentialsAction`: a missing admin password raises an uncaught key
  error in the handler. The model reports it as the failure `AdminPasswordMissing`.
- `Charm.KafkaCharm.OnStart`: the marker guarantee covers the credentials of the model's
  `InternalCredentials`, the internal users that have a stored password. Under a different
  `internal_user_credentials`, it could cover other users.
- `Credentials.EnsurePasswordsIdempotent`: stated for a generator that returns non-empty
  passwords. An empty generated password would be stored as "" and regenerated on the next call.
- Status messages are reduced to their reason category. Logging, metrics and dashboard
  registration, and the dispatch of events by attribute name (src/charm.py:66-88) are left out.
  Host-side relation and leadership changes are assignments to the public fields `hasPeer` and
  `leader`.
