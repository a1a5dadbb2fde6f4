/**
 * The user account registry: accounts.json maps a user id to an access
 * level and a PEM public key. Every operation reads the file, changes the
 * dictionary and writes it back; here the file is the `accounts` field.
 */
module Accounts {
  import opened Wrappers

  /** One entry: `{"level": ..., "public_key": ...}`. */
  datatype Account = Account(level: string, publicKey: string)

  /** The registry after `register_account`: the entry is (over)written. */
  function Registered(accounts: map<string, Account>, userId: string, level: string, publicKey: string): (r: map<string, Account>)
    ensures userId in r && r[userId] == Account(level, publicKey)
    ensures r.Keys == accounts.Keys + {userId}
    ensures forall u :: u in accounts && u != userId ==> r[u] == accounts[u]
  {
    accounts[userId := Account(level, publicKey)]
  }

  /** The registry after `delete_account`: the entry is gone, if it was there. */
  function Deleted(accounts: map<string, Account>, userId: string): (r: map<string, Account>)
    ensures userId !in r
    ensures r.Keys == accounts.Keys - {userId}
    ensures forall u :: u in r ==> r[u] == accounts[u]
    ensures userId !in accounts ==> r == accounts
  {
    accounts - {userId}
  }

  /** `get_account`: the entry, or None for an unknown user. */
  function Lookup(accounts: map<string, Account>, userId: string): (r: Option<Account>)
    ensures r.None? <==> userId !in accounts
    ensures r.Some? ==> r.value == accounts[userId]
  {
    if userId in accounts then Some(accounts[userId]) else None
  }

  /** Registering and then looking up gives back what was registered; other users are untouched. */
  lemma LookupRegistered(accounts: map<string, Account>, userId: string, level: string, publicKey: string, other: string)
    ensures Lookup(Registered(accounts, userId, level, publicKey), userId) == Some(Account(level, publicKey))
    ensures other != userId ==> Lookup(Registered(accounts, userId, level, publicKey), other) == Lookup(accounts, other)
  {
  }

  /** After a delete the user is unknown; registering then deleting a new user restores the registry. */
  lemma DeleteUndoesRegister(accounts: map<string, Account>, userId: string, level: string, publicKey: string)
    ensures Lookup(Deleted(accounts, userId), userId) == None
    ensures userId !in accounts ==> Deleted(Registered(accounts, userId, level, publicKey), userId) == accounts
  {
  }

  class AccountRegistry {
    /** The contents of accounts.json; a missing or unreadable file reads as `{}`. */
    var accounts: map<string, Account>

    constructor (accounts: map<string, Account>)
      ensures this.accounts == accounts
    {
      this.accounts := accounts;
    }

    method RegisterAccount(userId: string, level: string, publicKey: string)
      modifies this
      ensures accounts == Registered(old(accounts), userId, level, publicKey)
    {
      accounts := accounts[userId := Account(level, publicKey)];
    }

    method DeleteAccount(userId: string)
      modifies this
      ensures accounts == Deleted(old(accounts), userId)
    {
      if userId in accounts {
        accounts := accounts - {userId};
      }
    }

    function GetAccount(userId: string): Option<Account>
      reads this
    {
      Lookup(accounts, userId)
    }
  }

  /** Register alice, see her entry, delete her, and the registry is empty again. */
  method AccountsScenario()
  {
    var registry := new AccountRegistry(map[]);
    registry.RegisterAccount("alice", "user", "PUB");
    assert registry.accounts == map["alice" := Account("user", "PUB")];
    assert registry.GetAccount("alice") == Some(Account("user", "PUB"));
    registry.DeleteAccount("alice");
    assert registry.accounts == map[];
    assert registry.GetAccount("alice") == None;
  }
}
