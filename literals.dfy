/**
 * Fixed names shared by the charm's handlers: the two internal users, the
 * scopes of the peer data and the keys the handlers read and write.
 */
module Literals {

  /** The user brokers authenticate each other with. */
  const InterBrokerUser: string := "sync"
  /** The built-in administrative user. */
  const AdminUser: string := "admin"
  /** The internal users, in the order the handlers visit them. */
  const InternalUsers: seq<string> := [InterBrokerUser, AdminUser]

  const UnitScope: string := "unit"
  const AppScope: string := "app"

  /** App-scope marker published by the leader once the internal users exist in the backend. */
  const BrokerCredsKey: string := "broker-creds"
  const BrokerCredsAdded: string := "added"
  /** Key the leader writes into the ZooKeeper relation's application data. */
  const ChrootKey: string := "chroot"

  /** The app-scope key under which `user`'s password is kept. */
  function PasswordKey(user: string): string {
    user + "-password"
  }

  /** The marker key is not the password key of an internal user. */
  lemma BrokerCredsIsNotAPasswordKey(u: string)
    requires u in InternalUsers
    ensures PasswordKey(u) != BrokerCredsKey
  {
  }
}
