# qutIM account core in Dafny

This project models the `Account` entity of qutIM's SDK library (`core/libqutim/account.cpp`). qutIM is a multi-protocol instant-messaging client. An account gives a uniform identity (id, name, owning protocol) to every wire protocol. It holds a status and three optional capabilities: a group-chat manager, a contacts factory and an info-request factory. Generic code finds these capabilities by interface identifier.

The model has four modules:

- `Values` (values.dfy): an `Option` type, and the `Value` / `Parameters` types that stand for Qt's `QVariant` / `QVariantMap`.
- `Statuses` (status.dfy): the `Status` value and the `ChangeReason` enumeration. It also decides which notification a status change sends.
- `Configs` (config.dfy): the configuration path list of an account, with a reader that gets the account id back out of the account-specific path.
- `Accounts` (account.dfy):
  - the classes `Account`, `Protocol`, `GroupChatManager`, `ContactsFactory`, `InfoRequestFactory` and `ChatUnit`;
  - a `Context` object for the process-wide services the account touches. These are the list of all protocols (`Protocol::all()`) and the group-chat manager registry (`GroupChatManagersList`). The context also keeps one ordered trace of notifications sent, debug warnings logged and signals emitted.
  - the specification function `AfterReset` of `resetGroupChatManager`, with the lemmas about it;
  - the flattening function `AccountsOf` behind `Account::all()`.

  A small `AccountClient` module uses only the method contracts to follow one account through several calls. First it attaches the same manager twice, then detaches it, then sets a status after an authorization failure.

Design choices:

- The account's state is updated in place, so `Account` is a class. `id`, `protocol` and the parameter hooks are `const` fields, because they never change after construction. `status`, `groupChatManager`, `contactsFactory` and `infoRequestFactory` are mutable fields.
- The getters `id()`, `status()`, `protocol()`, `groupChatManager()`, `contactsFactory()` and `infoRequestFactory()` are these fields themselves. `name()` is the function `Name`, which returns the id.
- Each mutating method is specified by the new state it leaves. `ResetGroupChatManager` is specified through `AfterReset`.
- A Qt signal is one `Emitted` entry appended to the context's trace. A `NotificationRequest::send` is one `Notified` entry. A `warning()` line is one `Warned` entry.
- The registry is a multiset of managers: adding a manager adds one occurrence, and removing it takes one away.
- The base `MenuController::qt_metacast` is not part of this model. `Cast` receives it as a function parameter `baseCast`.
- `virtual_hook`, which concrete account types override, is the `ParameterHooks` value an account is constructed with. `BaseHooks` leaves the request untouched.

Three behaviours of the code are kept as written:

- The ownership check in `resetGroupChatManager` is a `Q_ASSERT` that runs after the "already set" warning. The model makes it a precondition.
- The registry is a plain add/remove list. It is not a map that enforces one manager per account.
- Replacing one non-null manager directly by another never unregisters the first one. The model keeps this behaviour: `ReplacementKeepsPrevious` and `ReplacedManagerLingers` state it.

## Model

| member | source | states |
|---|---|---|
| Statuses.ReasonFromCode | core/libqutim/account.cpp:125-139 | an integer names a change reason exactly when it is one of the five enumerator codes, and then the reason's code is that integer |
| Statuses.CodeRoundTrip | core/libqutim/account.cpp:125-139 | storing a reason as its code and reading it back gives the same reason |
| Statuses.ChangeReasonOf | core/libqutim/account.cpp:125 | the reason of a status is `ByUser` when "changeReason" is absent; otherwise it is a reason exactly when that reason's code is the stored value |
| Statuses.NotificationFor | core/libqutim/account.cpp:127-139 | a notification is sent exactly when the reason is `ByAuthorizationFailed`, and it is the System notification "Authorization failed" |
| Statuses.NoReasonIsSilent | core/libqutim/account.cpp:125-132 | a status without a change reason is a change by the user and sends nothing |
| Statuses.OnlyAuthorizationFailureNotifies | core/libqutim/account.cpp:127-139 | of `ByUser`, `ByIdle`, `ByAuthorizationFailed`, `ByNetworkError` and `ByFatalError`, only `ByAuthorizationFailed` sends a notification |
| Configs.AccountConfigPaths | core/libqutim/account.cpp:92-99 | the path list has two entries: the account path, from which the account id reads back, and then the protocol id |
| Configs.AccountPathRoundTrip | core/libqutim/account.cpp:96 | reading the account id out of "protocol.account/account" gives the account id back |
| Configs.AccountIdOfPathSound | core/libqutim/account.cpp:96 | every path the reader accepts is exactly the path built from the id it reads |
| Configs.AccountConfigPathsInjective | core/libqutim/account.cpp:92-99 | two (protocol, account) pairs have the same path list only if they are the same pair |
| Configs.JabberExamplePaths | core/libqutim/account.cpp:95-97 | protocol "jabber" and account "alice@example.com" give exactly ["jabber.alice@example.com/account", "jabber"] |
| Accounts.NoticeEffects | core/libqutim/account.cpp:133-137 | setting a status records at most one notification, exactly when the reason is `ByAuthorizationFailed`, and it is always the "Authorization failed" notice |
| Accounts.Account.constructor | core/libqutim/account.cpp:53-62 | a new account keeps its protocol and has no group-chat manager, contacts factory or info-request factory; `id` and `Name()` are both the given id |
| Accounts.Account.WithData | core/libqutim/account.cpp:64-72 | an account built from prepared data keeps that data's id and status, has its protocol set and has its three capabilities cleared |
| Accounts.Account.Config | core/libqutim/account.cpp:92-99 | the account's configuration is its own section (from which its id reads back), followed by the protocol's section |
| Accounts.Account.GroupConfig | core/libqutim/account.cpp:101-104 | `config(name)` is the group `name` of the handle over the account's two paths |
| Accounts.Account.GetUnitForSession | core/libqutim/account.cpp:146-149 | the base account opens a session with the given unit itself |
| Accounts.Account.Parameters | core/libqutim/account.cpp:151-156 | without an overriding hook the parameter map is empty; with one, it is what the hook reads |
| Accounts.Account.UpdateParameters | core/libqutim/account.cpp:158-163 | without an overriding hook no parameter requires reconnection; with one, the names are what the hook's update reports |
| Accounts.Account.Cast | core/libqutim/account.cpp:36-46 | each of the three interface identifiers, and only it, yields its capability pointer (the current field); every other identifier yields the base lookup's answer; nothing changes |
| Accounts.Account.SetStatus | core/libqutim/account.cpp:121-144 | afterwards the status is the new one; the trace gains the notification the reason calls for, if any, followed by exactly one status-changed signal carrying (new, previous) |
| Accounts.Account.ResetGroupChatManager | core/libqutim/account.cpp:189-203 | requires a null manager or one created for this account; keeps the ownership invariant; the new manager, registry and trace are `AfterReset` of the old ones |
| Accounts.Account.SetContactsFactory | core/libqutim/account.cpp:205-208 | the contacts factory becomes the given one and nothing else changes |
| Accounts.Account.SetInfoRequestFactory | core/libqutim/account.cpp:210-213 | the info-request factory becomes the given one and nothing else changes |
| Accounts.Account.All | core/libqutim/account.cpp:165-172 | the nested loops return the accounts of every registered protocol, protocol by protocol and in each protocol's order |
| Accounts.ResetToCurrentIsNoOp | core/libqutim/account.cpp:192-193 | resetting to the manager already attached (null when detached) changes neither the registry nor the trace |
| Accounts.ResetIdempotent | core/libqutim/account.cpp:189-203 | resetting twice to the same manager gives one registration and one signal, the same as resetting once |
| Accounts.ResetSignalsOnce | core/libqutim/account.cpp:194-202 | a real change attaches the candidate and emits exactly one changed signal, carrying the candidate, last; a warning comes before it exactly when one manager replaces another |
| Accounts.AttachRegisters | core/libqutim/account.cpp:197-198 | attaching a manager adds one registration of it and leaves every other registration alone |
| Accounts.DetachUnregisters | core/libqutim/account.cpp:199-200 | detaching removes one registration of the previous manager and leaves every other registration alone |
| Accounts.AttachThenDetachRestores | core/libqutim/account.cpp:197-201 | attaching and then detaching a manager restores the registry and leaves no manager attached |
| Accounts.ReplacementKeepsPrevious | core/libqutim/account.cpp:197-201 | replacing a manager directly by another leaves the registrations of the previous manager untouched |
| Accounts.ReplacedManagerLingers | core/libqutim/account.cpp:197-201 | after attaching m1, replacing it by m2 and detaching, the registry still holds m1 once |
| Accounts.ResetKeepsRegistered | core/libqutim/account.cpp:197-201 | each reset keeps the attached manager, if any, in the registry |
| Accounts.ResetsKeepRegistered | core/libqutim/account.cpp:189-203 | any sequence of resets keeps the attached manager registered and leaves the last candidate attached |
| Accounts.AccountsOfAppend | core/libqutim/account.cpp:165-172 | the account list of two protocol lists joined is the join of their account lists |
| Accounts.AccountsOfMembership | core/libqutim/account.cpp:165-172 | an account is listed exactly when one of the protocols owns it |
| Accounts.AccountsOfFirst | core/libqutim/account.cpp:165-172 | the list starts with the first protocol's accounts, followed by those of the rest |

## Left out

- `AccountHook::metaObject` and `AccountHook::qt_metacall` (lines 31-34 and 48-51) are plain delegation into Qt's meta-object system, which is not part of this model.
- The destructor has an empty body, and the model has no destruction. A manager still attached when its account is destroyed is not detached.
- Accounts.Account.SetStatus: does not state that the notification is sent before the status field is overwritten. Signal delivery to subscribers is not modelled: a signal is an entry in the trace. The status field is overwritten after the notification is sent, but only a subscriber that reads the account back while the notification is delivered could see that order. In the model this order is fixed by the body of `SetStatus`; its contract states only the order of the trace entries.
- Delivery of notifications, translation of the notification text, and the resolution and persistence of configuration belong to external services. They are recorded calls or plain values here.
- The internals of the manager registry are not part of this model. It is a multiset with add and remove-one.
- Accounts.Account.ResetGroupChatManager: in a release build `Q_ASSERT` is compiled out and a foreign manager would be accepted. The model requires the ownership condition instead.
- Status properties are integers only. Qt's conversion of other variant kinds to an integer is not modelled.
- The header that declares the status enumeration is not part of this model. The reason codes are taken as 0 to 4 in enumerator order; the proofs rely only on the codes being distinct. The status of a new account, `DefaultStatus`, is taken to be `Offline` with no properties, the default-constructed status that header declares.
- The header that declares the interface identifiers is not part of this model. The three identifier strings are stand-ins; the proofs rely only on their being distinct.
- The base `MenuController` lookup and hooks are not part of this model. They are a function parameter of `Cast` and the `BaseHooks` case of `ParameterHooks`.
