/** The account entity of the messaging framework: identity, protocol
    back-reference, status, optional capabilities (group-chat manager,
    contacts factory, info-request factory), configuration paths and the
    parameter hooks, together with the process-wide services it touches. */
module Accounts {
  import opened Values
  import opened Statuses
  import Configs

  /** A chat target an account may redirect a session to. */
  class ChatUnit { }

  /** Capability objects an account may expose; only their identity matters here. */
  class ContactsFactory { }
  class InfoRequestFactory { }

  /** A group-chat manager is created for exactly one account. */
  class GroupChatManager {
    const account: Account

    constructor (account: Account)
      ensures this.account == account
    {
      this.account := account;
    }
  }

  /** A protocol owns an ordered list of accounts. */
  class Protocol {
    const id: string
    var accounts: seq<Account>

    constructor (id: string)
      ensures this.id == id && accounts == []
    {
      this.id := id;
      accounts := [];
    }
  }

  /** What a signal carries. */
  datatype Event =
    | StatusChanged(current: Status, previous: Status)
    | GroupChatManagerChanged(manager: GroupChatManager?)

  /** Observable effects, in the order they happen. */
  datatype Effect =
    | Notified(note: Notification)
    | Warned(message: string)
    | Emitted(sender: Account, event: Event)

  const AlreadySetWarning: string := "Account::resetGroupChatManager: the group chat manager is already set"

  /** The process-wide services of the application: the list of all
      protocols, the registry of group-chat managers, and the trace of
      notifications sent, warnings logged and signals emitted. */
  class Context {
    var protocols: seq<Protocol>
    var managers: multiset<GroupChatManager>
    var trace: seq<Effect>

    constructor ()
      ensures protocols == [] && managers == multiset{} && trace == []
    {
      protocols := [];
      managers := multiset{};
      trace := [];
    }
  }

  /** The parameter hooks of a concrete account type: either the base
      behaviour, which leaves the request untouched, or an override that
      reads the parameters and applies updated ones, reporting the names
      of parameters that need a reconnection. */
  datatype ParameterHooks =
    | BaseHooks
    | Overridden(read: () -> Parameters, update: Parameters -> seq<string>)

  /** Interface identifiers recognised by the account's capability lookup. */
  const GroupChatManagerIid: string := "org.qutim.GroupChatManager"
  const ContactsFactoryIid: string := "org.qutim.ContactsFactory"
  const InfoRequestFactoryIid: string := "org.qutim.InfoRequestFactory"

  /** The result of a capability lookup: one of the account's capability
      pointers, or whatever the base menu controller answered. */
  datatype CastResult<B> =
    | GroupChatManagerPtr(manager: GroupChatManager?)
    | ContactsFactoryPtr(contacts: ContactsFactory?)
    | InfoRequestFactoryPtr(infoRequests: InfoRequestFactory?)
    | FromBase(base: B)

  /** The notifications setting status `s` sends, as trace entries. */
  function NoticeEffects(s: Status): (r: seq<Effect>)
    ensures |r| <= 1
    ensures r != [] <==> ChangeReasonOf(s) == Some(ByAuthorizationFailed)
    ensures forall e :: e in r ==> e == Notified(AuthorizationFailedNotice)
  {
    match NotificationFor(s)
    case Some(n) => [Notified(n)]
    case None => []
  }

  /** The part of the state `resetGroupChatManager` reads and writes: the
      account's manager, the global registry and the effect trace. */
  datatype Attachment = Attachment(manager: GroupChatManager?, registry: multiset<GroupChatManager>, trace: seq<Effect>)

  /** The attachment after `owner` resets its group-chat manager to `candidate`. */
  function AfterReset(owner: Account, a: Attachment, candidate: GroupChatManager?): Attachment
  {
    if candidate == a.manager then a
    else
      var warned := if candidate != null && a.manager != null then [Warned(AlreadySetWarning)] else [];
      var registry :=
        if candidate != null then a.registry + multiset{candidate}
        else if a.manager != null then a.registry - multiset{a.manager}
        else a.registry;
      Attachment(candidate, registry, a.trace + warned + [Emitted(owner, GroupChatManagerChanged(candidate))])
  }

  /** The accounts of the protocols `ps`, protocol by protocol, each in its own order. */
  function AccountsOf(ps: seq<Protocol>): seq<Account>
    reads ps
  {
    if ps == [] then [] else AccountsOf(ps[..|ps| - 1]) + ps[|ps| - 1].accounts
  }

  /** The number of entries of trace `t` that satisfy `keep`. */
  function Count(t: seq<Effect>, keep: Effect -> bool): nat
  {
    if t == [] then 0 else Count(t[..|t| - 1], keep) + (if keep(t[|t| - 1]) then 1 else 0)
  }

  lemma {:induction false} CountAppend(s: seq<Effect>, t: seq<Effect>, keep: Effect -> bool)
    ensures Count(s + t, keep) == Count(s, keep) + Count(t, keep)
  {
    if t == [] {
      assert s + t == s;
    } else {
      assert (s + t)[..|s + t| - 1] == s + t[..|t| - 1];
      assert (s + t)[|s + t| - 1] == t[|t| - 1];
      CountAppend(s, t[..|t| - 1], keep);
    }
  }

  /** A group-chat-manager-changed signal of `owner`. */
  predicate IsManagerChange(owner: Account, e: Effect)
  {
    e.Emitted? && e.sender == owner && e.event.GroupChatManagerChanged?
  }

  /** The registry holds the attached manager, if any. */
  predicate Registered(a: Attachment)
  {
    a.manager != null ==> a.manager in a.registry
  }

  /** Resetting to the manager already attached (null included) changes nothing. */
  lemma ResetToCurrentIsNoOp(owner: Account, a: Attachment)
    ensures AfterReset(owner, a, a.manager) == a
  {
  }

  /** Resetting twice to the same manager has the effect of resetting once. */
  lemma ResetIdempotent(owner: Account, a: Attachment, candidate: GroupChatManager?)
    ensures AfterReset(owner, AfterReset(owner, a, candidate), candidate) == AfterReset(owner, a, candidate)
  {
  }

  /** A real change attaches the candidate and emits exactly one changed
      signal, carrying the candidate, after at most one warning; the warning
      is logged exactly when one manager replaces another. */
  lemma ResetSignalsOnce(owner: Account, a: Attachment, candidate: GroupChatManager?)
    requires candidate != a.manager
    ensures var r := AfterReset(owner, a, candidate);
      && r.manager == candidate
      && Count(r.trace, e => IsManagerChange(owner, e)) == Count(a.trace, e => IsManagerChange(owner, e)) + 1
      && r.trace[|r.trace| - 1] == Emitted(owner, GroupChatManagerChanged(candidate))
      && (|r.trace| == |a.trace| + 2 <==> candidate != null && a.manager != null)
      && (|r.trace| == |a.trace| + 2 ==> r.trace[|a.trace|] == Warned(AlreadySetWarning))
  {
    var r := AfterReset(owner, a, candidate);
    var keep := e => IsManagerChange(owner, e);
    var warned := if candidate != null && a.manager != null then [Warned(AlreadySetWarning)] else [];
    var signal := [Emitted(owner, GroupChatManagerChanged(candidate))];
    assert r.trace == a.trace + (warned + signal);
    CountAppend(a.trace, warned + signal, keep);
    assert (warned + signal)[..|warned + signal| - 1] == warned;
    assert Count(warned, keep) == 0 by {
      if warned != [] {
        assert warned[..0] == [];
      }
    }
  }

  /** Attaching a manager registers it once more and leaves every other
      registry entry alone. */
  lemma AttachRegisters(owner: Account, a: Attachment, m: GroupChatManager)
    requires m != a.manager
    ensures var r := AfterReset(owner, a, m);
      && r.registry[m] == a.registry[m] + 1
      && forall g :: g != m ==> r.registry[g] == a.registry[g]
  {
  }

  /** Detaching removes one registration of the previous manager and leaves
      every other registry entry alone. */
  lemma DetachUnregisters(owner: Account, a: Attachment, previous: GroupChatManager)
    requires a.manager == previous
    ensures var r := AfterReset(owner, a, null);
      && r.manager == null
      && (previous in a.registry ==> r.registry[previous] == a.registry[previous] - 1)
      && forall g :: g != previous ==> r.registry[g] == a.registry[g]
  {
  }

  /** Attaching a manager to a detached account and detaching it again
      restores the registry and leaves the account without a manager. */
  lemma AttachThenDetachRestores(owner: Account, a: Attachment, m: GroupChatManager)
    requires a.manager == null
    ensures var r := AfterReset(owner, AfterReset(owner, a, m), null);
      r.manager == null && r.registry == a.registry
  {
  }

  /** Replacing one manager directly by another does not unregister the
      first: its registrations are untouched. */
  lemma ReplacementKeepsPrevious(owner: Account, a: Attachment, previous: GroupChatManager, m: GroupChatManager)
    requires a.manager == previous && m != previous
    ensures AfterReset(owner, a, m).registry[previous] == a.registry[previous]
  {
  }

  /** Consequently a manager replaced and then detached stays registered:
      after m1, m2, null on a detached account the registry keeps m1. */
  lemma ReplacedManagerLingers(owner: Account, a: Attachment, m1: GroupChatManager, m2: GroupChatManager)
    requires a.manager == null && m1 != m2
    ensures var r := AfterReset(owner, AfterReset(owner, AfterReset(owner, a, m1), m2), null);
      r.manager == null && r.registry == a.registry + multiset{m1}
  {
  }

  /** Every reset keeps the attached manager registered. */
  lemma ResetKeepsRegistered(owner: Account, a: Attachment, candidate: GroupChatManager?)
    requires Registered(a)
    ensures Registered(AfterReset(owner, a, candidate))
  {
  }

  /** The attachment after the resets `cs`, in order. */
  function AfterResets(owner: Account, a: Attachment, cs: seq<GroupChatManager?>): Attachment
    decreases cs
  {
    if cs == [] then a else AfterResets(owner, AfterReset(owner, a, cs[0]), cs[1..])
  }

  /** Any sequence of resets keeps the attached manager registered, and
      leaves the last candidate attached. */
  lemma {:induction false} ResetsKeepRegistered(owner: Account, a: Attachment, cs: seq<GroupChatManager?>)
    requires Registered(a)
    ensures Registered(AfterResets(owner, a, cs))
    ensures cs != [] ==> AfterResets(owner, a, cs).manager == cs[|cs| - 1]
    decreases cs
  {
    if cs != [] {
      ResetKeepsRegistered(owner, a, cs[0]);
      ResetsKeepRegistered(owner, AfterReset(owner, a, cs[0]), cs[1..]);
    }
  }

  lemma {:induction false} AccountsOfAppend(ps: seq<Protocol>, qs: seq<Protocol>)
    ensures AccountsOf(ps + qs) == AccountsOf(ps) + AccountsOf(qs)
  {
    if qs == [] {
      assert ps + qs == ps;
    } else {
      assert (ps + qs)[..|ps + qs| - 1] == ps + qs[..|qs| - 1];
      assert (ps + qs)[|ps + qs| - 1] == qs[|qs| - 1];
      AccountsOfAppend(ps, qs[..|qs| - 1]);
    }
  }

  /** An account is listed exactly when one of the protocols owns it. */
  lemma {:induction false} AccountsOfMembership(ps: seq<Protocol>, x: Account)
    ensures x in AccountsOf(ps) <==> exists i :: 0 <= i < |ps| && x in ps[i].accounts
  {
    if ps != [] {
      var init := ps[..|ps| - 1];
      AccountsOfMembership(init, x);
      if x in AccountsOf(ps) && x !in ps[|ps| - 1].accounts {
        var i :| 0 <= i < |init| && x in init[i].accounts;
        assert x in ps[i].accounts;
      }
      if i :| 0 <= i < |ps| && x in ps[i].accounts {
        if i < |ps| - 1 {
          assert x in init[i].accounts;
        }
      }
    }
  }

  /** The list of the protocols `ps` starts with the accounts of the first protocol. */
  lemma AccountsOfFirst(p: Protocol, ps: seq<Protocol>)
    ensures AccountsOf([p] + ps) == p.accounts + AccountsOf(ps)
  {
    AccountsOfAppend([p], ps);
    assert [p][..0] == [];
  }

  class Account {
    const id: string
    const protocol: Protocol
    const hooks: ParameterHooks
    var status: Status
    var groupChatManager: GroupChatManager?
    var contactsFactory: ContactsFactory?
    var infoRequestFactory: InfoRequestFactory?

    /** An attached group-chat manager belongs to this account. */
    ghost predicate Valid()
      reads this
    {
      groupChatManager != null ==> groupChatManager.account == this
    }

    /** A new account of `protocol` with identity `id`, without capabilities. */
    constructor (id: string, protocol: Protocol, hooks: ParameterHooks)
      ensures Valid()
      ensures this.id == id && Name() == id
      ensures this.protocol == protocol && this.hooks == hooks
      ensures status == DefaultStatus
      ensures groupChatManager == null && contactsFactory == null && infoRequestFactory == null
    {
      this.id := id;
      this.protocol := protocol;
      this.hooks := hooks;
      status := DefaultStatus;
      groupChatManager := null;
      contactsFactory := null;
      infoRequestFactory := null;
    }

    /** A new account whose identity and status a concrete account type has
        already prepared; the capabilities still start out absent. */
    constructor WithData(id: string, status: Status, protocol: Protocol, hooks: ParameterHooks)
      ensures Valid()
      ensures this.id == id && Name() == id && this.status == status
      ensures this.protocol == protocol && this.hooks == hooks
      ensures groupChatManager == null && contactsFactory == null && infoRequestFactory == null
    {
      this.id := id;
      this.status := status;
      this.protocol := protocol;
      this.hooks := hooks;
      groupChatManager := null;
      contactsFactory := null;
      infoRequestFactory := null;
    }

    /** The display name, which is the account id. */
    function Name(): string
    {
      id
    }

    /** The configuration of this account: its own section, then the protocol's. */
    function Config(): (c: Configs.Config)
      ensures |c.paths| == 2 && c.paths[1] == protocol.id
      ensures Configs.AccountIdOfPath(protocol.id, c.paths[0]) == Some(id)
    {
      Configs.Config(Configs.AccountConfigPaths(protocol.id, id))
    }

    /** The group `name` of this account's configuration. */
    function GroupConfig(name: string): (g: Configs.ConfigGroup)
      ensures g.name == name && g.config.paths == Configs.AccountConfigPaths(protocol.id, id)
    {
      Config().Group(name)
    }

    /** The unit a chat session with `unit` is opened for: `unit` itself. */
    function GetUnitForSession(unit: ChatUnit?): (r: ChatUnit?)
      ensures r == unit
    {
      unit
    }

    /** The account's parameters: whatever the hook fills into an empty map. */
    function Parameters(): (r: Parameters)
      ensures hooks.BaseHooks? ==> r == map[]
      ensures hooks.Overridden? ==> r == hooks.read()
    {
      match hooks
      case BaseHooks => map[]
      case Overridden(read, _) => read()
    }

    /** Applies `params`; the names of the parameters needing a reconnection. */
    function UpdateParameters(params: Parameters): (r: seq<string>)
      ensures hooks.BaseHooks? ==> r == []
      ensures hooks.Overridden? ==> r == hooks.update(params)
    {
      match hooks
      case BaseHooks => []
      case Overridden(_, update) => update(params)
    }

    /** Capability lookup by interface identifier; any other identifier is
        answered by the base menu controller's lookup `baseCast`. */
    function Cast<B>(name: string, baseCast: string -> B): (r: CastResult<B>)
      reads this
      ensures r.GroupChatManagerPtr? <==> name == GroupChatManagerIid
      ensures r.ContactsFactoryPtr? <==> name == ContactsFactoryIid
      ensures r.InfoRequestFactoryPtr? <==> name == InfoRequestFactoryIid
      ensures r.GroupChatManagerPtr? ==> r.manager == groupChatManager
      ensures r.ContactsFactoryPtr? ==> r.contacts == contactsFactory
      ensures r.InfoRequestFactoryPtr? ==> r.infoRequests == infoRequestFactory
      ensures r.FromBase? ==> r.base == baseCast(name)
    {
      if name == GroupChatManagerIid then GroupChatManagerPtr(groupChatManager)
      else if name == ContactsFactoryIid then ContactsFactoryPtr(contactsFactory)
      else if name == InfoRequestFactoryIid then InfoRequestFactoryPtr(infoRequestFactory)
      else FromBase(baseCast(name))
    }

    /** Sets the status: sends the notification its change reason calls for,
        stores it, and emits the status-changed signal with (new, old). */
    method SetStatus(s: Status, ctx: Context)
      modifies this`status, ctx`trace
      ensures status == s
      ensures ctx.trace == old(ctx.trace) + NoticeEffects(s) + [Emitted(this, StatusChanged(s, old(status)))]
    {
      match ChangeReasonOf(s) {
        case Some(ByAuthorizationFailed) =>
          ctx.trace := ctx.trace + [Notified(AuthorizationFailedNotice)];
        case _ =>
      }
      var previous := status;
      status := s;
      ctx.trace := ctx.trace + [Emitted(this, StatusChanged(s, previous))];
    }

    /** Attaches `manager` (or detaches, when null), keeping the global
        registry of managers up to date and emitting the changed signal. */
    method ResetGroupChatManager(manager: GroupChatManager?, ctx: Context)
      requires Valid()
      requires manager == null || manager.account == this
      modifies this`groupChatManager, ctx`managers, ctx`trace
      ensures Valid()
      ensures Attachment(groupChatManager, ctx.managers, ctx.trace)
           == AfterReset(this, old(Attachment(groupChatManager, ctx.managers, ctx.trace)), manager)
    {
      if manager == groupChatManager {
        return;
      }
      if manager != null && groupChatManager != null {
        ctx.trace := ctx.trace + [Warned(AlreadySetWarning)];
      }
      if manager != null {
        ctx.managers := ctx.managers + multiset{manager};
      } else if groupChatManager != null {
        ctx.managers := ctx.managers - multiset{groupChatManager};
      }
      groupChatManager := manager;
      ctx.trace := ctx.trace + [Emitted(this, GroupChatManagerChanged(manager))];
    }

    method SetContactsFactory(factory: ContactsFactory?)
      modifies this`contactsFactory
      ensures contactsFactory == factory
    {
      contactsFactory := factory;
    }

    method SetInfoRequestFactory(factory: InfoRequestFactory?)
      modifies this`infoRequestFactory
      ensures infoRequestFactory == factory
    {
      infoRequestFactory := factory;
    }

    /** All accounts of all protocols, protocol by protocol. */
    static method All(ctx: Context) returns (list: seq<Account>)
      ensures list == AccountsOf(ctx.protocols)
    {
      var protocols := ctx.protocols;
      list := [];
      var i := 0;
      while i < |protocols|
        invariant 0 <= i <= |protocols|
        invariant list == AccountsOf(protocols[..i])
      {
        var accounts := protocols[i].accounts;
        var j := 0;
        while j < |accounts|
          invariant 0 <= j <= |accounts|
          invariant list == AccountsOf(protocols[..i]) + accounts[..j]
        {
          list := list + [accounts[j]];
          j := j + 1;
        }
        assert accounts[..j] == accounts;
        assert protocols[..i + 1][..i] == protocols[..i];
        i := i + 1;
      }
      assert protocols[..i] == protocols;
    }
  }
}

/** A client of the account core: what callers can conclude from the
    method contracts alone. */
module AccountClient {
  import opened Statuses
  import opened Accounts

  method AttachDetachAndStatus()
  {
    var ctx := new Context();
    var jabber := new Protocol("jabber");
    var alice := new Account("alice@example.com", jabber, BaseHooks);
    assert alice.Config().paths == ["jabber.alice@example.com/account", "jabber"] by {
      Configs.JabberExamplePaths();
    }

    // Attaching the same manager twice registers it once and signals once.
    var m := new GroupChatManager(alice);
    alice.ResetGroupChatManager(m, ctx);
    alice.ResetGroupChatManager(m, ctx);
    assert alice.groupChatManager == m;
    assert ctx.managers == multiset{m};
    assert ctx.trace == [Emitted(alice, GroupChatManagerChanged(m))];

    // Detaching unregisters it.
    alice.ResetGroupChatManager(null, ctx);
    assert alice.groupChatManager == null && ctx.managers == multiset{};
    assert |ctx.trace| == 2;

    // A failed authorization sends one notification before the signal.
    var failed := Status(Offline, map[ChangeReasonKey := Code(ByAuthorizationFailed)], map[]);
    alice.SetStatus(failed, ctx);
    assert alice.status == failed;
    assert ctx.trace[2..] == [Notified(AuthorizationFailedNotice), Emitted(alice, StatusChanged(failed, DefaultStatus))];
  }
}
