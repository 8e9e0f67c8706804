/**
 * The internal credentials kept in the application-scope peer data: which of
 * them are present, the leader's one-time generation of missing passwords,
 * and the uniqueness rule that password rotation enforces.
 */
module Credentials {
  import opened Wrappers
  import opened Literals

  /** A relation databag: string keys to string values. */
  type Databag = map<string, string>

  /** What `set_secret` stores for a value: a missing value becomes "". */
  function StoredValue(value: Option<string>): string {
    value.GetOr("")
  }

  /** `user` has a truthy password entry in `data`. */
  predicate HasPassword(data: Databag, user: string) {
    PasswordKey(user) in data && data[PasswordKey(user)] != ""
  }

  predicate DistinctUsers(users: seq<string>) {
    forall i, j :: 0 <= i < j < |users| ==> users[i] != users[j]
  }

  predicate DistinctNames(creds: seq<(string, string)>) {
    forall i, j :: 0 <= i < j < |creds| ==> creds[i].0 != creds[j].0
  }

  /** The (user, password) pairs of those `users` that have a password in `data`, in order. */
  function CredentialsFrom(data: Databag, users: seq<string>): (r: seq<(string, string)>)
    ensures |r| <= |users|
    ensures forall c :: c in r <==> c.0 in users && HasPassword(data, c.0) && c.1 == data[PasswordKey(c.0)]
    ensures DistinctUsers(users) ==> DistinctNames(r)
  {
    if users == [] then []
    else
      var rest := CredentialsFrom(data, users[1..]);
      assert users == [users[0]] + users[1..];
      if HasPassword(data, users[0]) then [(users[0], data[PasswordKey(users[0])])] + rest
      else rest
  }

  /** The charm's `internal_user_credentials`: the internal users whose password is set. */
  function InternalCredentials(data: Databag): (r: seq<(string, string)>)
    ensures forall c :: c in r <==> c.0 in InternalUsers && HasPassword(data, c.0) && c.1 == data[PasswordKey(c.0)]
    ensures DistinctNames(r)
  {
    CredentialsFrom(data, InternalUsers)
  }

  /** `password` is already the password of one of the internal users. */
  function PasswordInUse(data: Databag, password: string): (r: bool)
    ensures r <==> exists u :: u in InternalUsers && HasPassword(data, u) && data[PasswordKey(u)] == password
  {
    var creds := InternalCredentials(data);
    if exists i :: 0 <= i < |creds| && creds[i].1 == password then true
    else
      assert forall u :: u in InternalUsers && HasPassword(data, u) ==> (u, data[PasswordKey(u)]) in creds;
      false
  }

  /** The internal users that have a password all have different ones. */
  predicate DistinctPasswords(data: Databag) {
    forall u, v ::
      u in InternalUsers && v in InternalUsers && u != v && HasPassword(data, u) && HasPassword(data, v)
      ==> data[PasswordKey(u)] != data[PasswordKey(v)]
  }

  /**
   * Storing a password for an internal user that no internal user holds yet
   * keeps the internal passwords pairwise different, and the new pair is then
   * one of the internal credentials.
   */
  lemma RotationKeepsPasswordsDistinct(data: Databag, user: string, password: string)
    requires user in InternalUsers
    requires DistinctPasswords(data)
    requires !PasswordInUse(data, password)
    ensures DistinctPasswords(data[PasswordKey(user) := password])
    ensures password != "" ==> (user, password) in InternalCredentials(data[PasswordKey(user) := password])
  {
  }

  /** The password kept for `key`: the current one when truthy, otherwise `candidate`. */
  function Kept(data: Databag, key: string, candidate: string): string {
    if key in data && data[key] != "" then data[key] else candidate
  }

  /**
   * The databag after the leader's `set_internal_passwords` loop has visited
   * `users`, where `generated[i]` is what the password generator returns on
   * the i-th iteration.
   */
  function EnsurePasswords(data: Databag, users: seq<string>, generated: seq<string>): (r: Databag)
    requires |generated| == |users|
    ensures forall k :: k in data ==> k in r
    ensures forall k :: k in r && k !in data ==> exists u :: u in users && k == PasswordKey(u)
    decreases |users|
  {
    if users == [] then data
    else
      var n := |users| - 1;
      var before := EnsurePasswords(data, users[..n], generated[..n]);
      var key := PasswordKey(users[n]);
      assert users == users[..n] + [users[n]];
      before[key := Kept(before, key, generated[n])]
  }

  /** With a generator that never returns "", every visited user ends up with a password. */
  lemma {:induction false} EnsurePasswordsFills(data: Databag, users: seq<string>, generated: seq<string>)
    requires |generated| == |users|
    requires forall i :: 0 <= i < |generated| ==> generated[i] != ""
    ensures forall u :: u in users ==> HasPassword(EnsurePasswords(data, users, generated), u)
  {
    if users != [] {
      var n := |users| - 1;
      EnsurePasswordsFills(data, users[..n], generated[..n]);
      forall u | u in users
        ensures HasPassword(EnsurePasswords(data, users, generated), u)
      {
        if u != users[n] {
          assert u in users[..n];
        }
      }
    }
  }

  /** A key that already holds a truthy value keeps it. */
  lemma {:induction false} EnsurePasswordsKeeps(data: Databag, users: seq<string>, generated: seq<string>, key: string)
    requires |generated| == |users|
    requires key in data && data[key] != ""
    ensures key in EnsurePasswords(data, users, generated)
    ensures EnsurePasswords(data, users, generated)[key] == data[key]
  {
    if users != [] {
      var n := |users| - 1;
      EnsurePasswordsKeeps(data, users[..n], generated[..n], key);
    }
  }

  /** Keys that are not the password key of a visited user are untouched. */
  lemma {:induction false} EnsurePasswordsFrame(data: Databag, users: seq<string>, generated: seq<string>, key: string)
    requires |generated| == |users|
    requires forall u :: u in users ==> PasswordKey(u) != key
    ensures key in EnsurePasswords(data, users, generated) <==> key in data
    ensures key in data ==> EnsurePasswords(data, users, generated)[key] == data[key]
  {
    if users != [] {
      var n := |users| - 1;
      assert forall u :: u in users[..n] ==> u in users;
      EnsurePasswordsFrame(data, users[..n], generated[..n], key);
    }
  }

  /** When every visited user already has a password, nothing changes. */
  lemma {:induction false} EnsurePasswordsNoop(data: Databag, users: seq<string>, generated: seq<string>)
    requires |generated| == |users|
    requires forall u :: u in users ==> HasPassword(data, u)
    ensures EnsurePasswords(data, users, generated) == data
  {
    if users != [] {
      var n := |users| - 1;
      assert forall u :: u in users[..n] ==> u in users;
      EnsurePasswordsNoop(data, users[..n], generated[..n]);
      assert HasPassword(data, users[n]);
    }
  }

  /** Running the generation twice is the same as running it once, whatever the second run would generate. */
  lemma EnsurePasswordsIdempotent(data: Databag, users: seq<string>, first: seq<string>, second: seq<string>)
    requires |first| == |users| && |second| == |users|
    requires forall i :: 0 <= i < |first| ==> first[i] != ""
    ensures EnsurePasswords(EnsurePasswords(data, users, first), users, second) == EnsurePasswords(data, users, first)
  {
    EnsurePasswordsFills(data, users, first);
    EnsurePasswordsNoop(EnsurePasswords(data, users, first), users, second);
  }
}
