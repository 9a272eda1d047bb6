/** Configuration handles an account asks for: an ordered list of paths
    (most specific first) and a named group inside such a handle. Resolving
    and persisting them belongs to the configuration service. */
module Configs {
  import opened Values

  datatype Config = Config(paths: seq<string>) {
    /** The handle of the group `name` inside this configuration. */
    function Group(name: string): ConfigGroup
    {
      ConfigGroup(this, name)
    }
  }

  datatype ConfigGroup = ConfigGroup(config: Config, name: string)

  const AccountSuffix: string := "/account"

  /** The account-specific path: "<protocolId>.<accountId>/account". */
  function AccountPath(protocolId: string, accountId: string): string
  {
    protocolId + "." + accountId + AccountSuffix
  }

  /** The path list of an account's configuration, most specific first. */
  function AccountConfigPaths(protocolId: string, accountId: string): (paths: seq<string>)
    ensures |paths| == 2 && paths[1] == protocolId
    ensures AccountIdOfPath(protocolId, paths[0]) == Some(accountId)
  {
    AccountPathRoundTrip(protocolId, accountId);
    [AccountPath(protocolId, accountId), protocolId]
  }

  /** Reads the account id back out of an account-specific path of the
      given protocol; None when the path is not of that shape. */
  function AccountIdOfPath(protocolId: string, path: string): Option<string>
  {
    var p := |protocolId|;
    var n := |path|;
    var k := |AccountSuffix|;
    if n >= p + 1 + k && path[..p] == protocolId && path[p] == '.' && path[n - k..] == AccountSuffix
    then Some(path[p + 1..n - k])
    else None
  }

  /** Building an account path and reading it back yields the account id. */
  lemma AccountPathRoundTrip(protocolId: string, accountId: string)
    ensures AccountIdOfPath(protocolId, AccountPath(protocolId, accountId)) == Some(accountId)
  {
  }

  /** Every path the reader accepts is exactly the path built from what it read. */
  lemma AccountIdOfPathSound(protocolId: string, path: string, accountId: string)
    requires AccountIdOfPath(protocolId, path) == Some(accountId)
    ensures AccountPath(protocolId, accountId) == path
  {
  }

  /** Distinct (protocol, account) pairs never share a configuration path list. */
  lemma AccountConfigPathsInjective(p1: string, a1: string, p2: string, a2: string)
    requires AccountConfigPaths(p1, a1) == AccountConfigPaths(p2, a2)
    ensures p1 == p2 && a1 == a2
  {
  }

  /** The path list for protocol "jabber" and account "alice@example.com". */
  lemma JabberExamplePaths()
    ensures AccountConfigPaths("jabber", "alice@example.com") == ["jabber.alice@example.com/account", "jabber"]
  {
    assert "jabber" + "." + "alice@example.com" + AccountSuffix == "jabber.alice@example.com/account";
  }
}
