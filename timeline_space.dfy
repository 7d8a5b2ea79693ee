/** The per-account "timeline space" store: the signed-in account, the account whose
    user stream is bound, a few settings, and the actions that bind, start, stop and
    unbind the streamings and fan updates out to the per-timeline stores.
    Requests to the main process and commits to the per-timeline stores are recorded,
    in order, as `Command`s; the listener table of the user stream is kept as a multiset
    of account ids, one copy per registration. */
module TimelineSpace {

  import opened Wrappers
  import opened Entity

  /** `tootMax` when the server gives no usable limit. */
  const DefaultTootMax: int := 500

  datatype LocalAccount = LocalAccount(
    id: string, baseURL: string, domain: string, username: string,
    clientId: string, clientSecret: string,
    accessToken: Option<string>, refreshToken: Option<string>,
    accountId: Option<string>, avatar: Option<string>, order: int)

  /** The account the store starts with: every string empty, every optional field null. */
  const BlankAccount: LocalAccount := LocalAccount("", "", "", "", "", "", None, None, None, None, 0)

  datatype Emoji = Emoji(shortcode: string, url: string)

  /** Which optional timelines the user wants streamed and marked unread. */
  datatype UnreadNotification = UnreadNotification(direct: bool, local: bool, public: bool)

  datatype Sns = Mastodon | Pleroma | Misskey

  /** The streamings managed here; `UserStream` multiplexes home, notifications, mentions and deletes. */
  datatype Stream = UserStream | DirectMessagesStream | LocalStream | PublicStream

  /** The per-timeline sub-stores. */
  datatype Contents = Home | Notifications | Mentions | DirectMessages | Local | Public

  datatype Notification = Notification(id: string, kind: string, status: Option<Status>)

  datatype StreamOp = Bind | Start | Stop | Unbind

  /** An effect on a collaborator: a request about a streaming, or a commit to a sub-store. */
  datatype Command =
    | StreamRequest(op: StreamOp, stream: Stream)
    | AppendTimeline(contents: Contents, status: Status)
    | AppendNotification(contents: Contents, notification: Notification)
    | MarkUnread(contents: Contents)
    | DeleteToot(contents: Contents, id: string)
    | UpdateToot(contents: Contents, status: Status)

  datatype Outcome = Pass | Fail(message: string)

  /** `UPDATE_TOOT_MAX`: the server's limit when it is truthy, 500 when it is null or 0. */
  function EffectiveTootMax(value: Option<int>): (r: int)
    ensures r != 0
    ensures value.Some? && value.value != 0 ==> r == value.value
    ensures value.None? || value.value == 0 ==> r == DefaultTootMax
  {
    if value.Some? && value.value != 0 then value.value else DefaultTootMax
  }

  /** The optional streamings the flags enable, in the order the actions visit them. */
  function OptionalStreams(flags: UnreadNotification): (r: seq<Stream>)
    ensures UserStream !in r
    ensures DirectMessagesStream in r <==> flags.direct
    ensures LocalStream in r <==> flags.local
    ensures PublicStream in r <==> flags.public
    ensures forall i, j :: 0 <= i < j < |r| ==> r[i] != r[j]
  {
    (if flags.direct then [DirectMessagesStream] else [])
    + (if flags.local then [LocalStream] else [])
    + (if flags.public then [PublicStream] else [])
  }

  /** The three optional streamings, all of them. */
  const AllOptionalStreams: seq<Stream> := [DirectMessagesStream, LocalStream, PublicStream]

  /** The command `f` makes of each item, in order. */
  function Each<A>(f: A -> Command, xs: seq<A>): (r: seq<Command>)
    ensures |r| == |xs|
    ensures forall i :: 0 <= i < |r| ==> r[i] == f(xs[i])
  {
    if xs == [] then [] else [f(xs[0])] + Each(f, xs[1..])
  }

  /** The same request for each of the given streamings: a request names a streaming exactly
      when it is in the list. */
  function Requests(op: StreamOp, streams: seq<Stream>): (r: seq<Command>)
    ensures |r| == |streams|
    ensures forall s :: StreamRequest(op, s) in r <==> s in streams
    ensures forall c :: c in r ==> c.StreamRequest? && c.op == op
  {
    var r := Each(s => StreamRequest(op, s), streams);
    assert forall s :: s in streams ==> StreamRequest(op, s) in r by {
      forall s | s in streams ensures StreamRequest(op, s) in r {
        var i :| 0 <= i < |streams| && streams[i] == s;
        assert r[i] == StreamRequest(op, s);
      }
    }
    r
  }

  /** The timelines that hold statuses of the signed-in account's user stream. */
  const UserTimelines: seq<Contents> := [Home, Notifications, Mentions]

  /** The timelines `updateTootForAllTimelines` commits to: the three user-stream timelines
      always, then each optional timeline exactly when its flag is set. */
  function UpdateTargets(flags: UnreadNotification): (r: seq<Contents>)
    ensures |r| >= 3 && r[..3] == UserTimelines
    ensures DirectMessages in r <==> flags.direct
    ensures Local in r <==> flags.local
    ensures Public in r <==> flags.public
    ensures forall i, j :: 0 <= i < j < |r| ==> r[i] != r[j]
  {
    UserTimelines
    + (if flags.direct then [DirectMessages] else [])
    + (if flags.local then [Local] else [])
    + (if flags.public then [Public] else [])
  }

  /** One `updateToot` commit per target timeline, in order: a timeline receives the status
      exactly when it is a target. */
  function UpdateCommands(targets: seq<Contents>, status: Status): (r: seq<Command>)
    ensures |r| == |targets|
    ensures forall c :: UpdateToot(c, status) in r <==> c in targets
    ensures forall c :: c in r ==> c.UpdateToot? && c.status == status
  {
    var r := Each(c => UpdateToot(c, status), targets);
    assert forall c :: c in targets ==> UpdateToot(c, status) in r by {
      forall c | c in targets ensures UpdateToot(c, status) in r {
        var i :| 0 <= i < |targets| && targets[i] == c;
        assert r[i] == UpdateToot(c, status);
      }
    }
    r
  }

  /** One `deleteToot` commit per target timeline, in order: a timeline receives the delete
      exactly when it is a target. */
  function DeleteCommands(targets: seq<Contents>, id: string): (r: seq<Command>)
    ensures |r| == |targets|
    ensures forall c :: DeleteToot(c, id) in r <==> c in targets
    ensures forall c :: c in r ==> c.DeleteToot? && c.id == id
  {
    var r := Each(c => DeleteToot(c, id), targets);
    assert forall c :: c in targets ==> DeleteToot(c, id) in r by {
      forall c | c in targets ensures DeleteToot(c, id) in r {
        var i :| 0 <= i < |targets| && targets[i] == c;
        assert r[i] == DeleteToot(c, id);
      }
    }
    r
  }

  class Store {
    var account: LocalAccount
    var bindingAccount: Option<LocalAccount>
    var loading: bool
    var emojis: seq<Emoji>
    var tootMax: int
    var unreadNotification: UnreadNotification
    var sns: Sns
    /** Account ids with registered user-stream listeners, one copy per registration. */
    var userListeners: multiset<string>
    /** Requests and commits issued so far, oldest first. */
    var commands: seq<Command>

    /** At most one user streaming: listeners are registered exactly once, for the bound
        account, and not at all when no account is bound. */
    ghost predicate Valid()
      reads this
    {
      userListeners == if bindingAccount.Some? then multiset{bindingAccount.value.id} else multiset{}
    }

    /** The initial state; `defaults` are the default unread-notification settings. */
    constructor (defaults: UnreadNotification)
      ensures Valid()
      ensures account == BlankAccount && bindingAccount == None && !loading && emojis == []
      ensures tootMax == DefaultTootMax && unreadNotification == defaults && sns == Mastodon
      ensures userListeners == multiset{} && commands == []
    {
      account, bindingAccount, loading, emojis := BlankAccount, None, false, [];
      tootMax, unreadNotification, sns := DefaultTootMax, defaults, Mastodon;
      userListeners, commands := multiset{}, [];
    }

    // ---- Mutations: each overwrites one field and nothing else.

    method UpdateAccount(a: LocalAccount)
      modifies this`account
      ensures account == a
    {
      account := a;
    }

    method UpdateBindingAccount(a: Option<LocalAccount>)
      modifies this`bindingAccount
      ensures bindingAccount == a
    {
      bindingAccount := a;
    }

    method ChangeLoading(value: bool)
      modifies this`loading
      ensures loading == value
    {
      loading := value;
    }

    method UpdateEmojis(e: seq<Emoji>)
      modifies this`emojis
      ensures emojis == e
    {
      emojis := e;
    }

    method UpdateTootMax(value: Option<int>)
      modifies this`tootMax
      ensures tootMax == EffectiveTootMax(value)
    {
      if value.Some? && value.value != 0 {
        tootMax := value.value;
      } else {
        tootMax := DefaultTootMax;
      }
    }

    method UpdateUnreadNotification(settings: UnreadNotification)
      modifies this`unreadNotification
      ensures unreadNotification == settings
    {
      unreadNotification := settings;
    }

    method ChangeSns(value: Sns)
      modifies this`sns
      ensures sns == value
    {
      sns := value;
    }

    // ---- The user streaming.

    /** Removes the bound account's user-stream listeners and clears the binding; with no
        account bound it changes nothing (the source only logs). */
    method UnbindUserStreaming()
      requires Valid()
      modifies this`bindingAccount, this`userListeners
      ensures Valid()
      ensures bindingAccount == None && userListeners == multiset{}
    {
      if bindingAccount.Some? {
        userListeners := userListeners[bindingAccount.value.id := 0];
        UpdateBindingAccount(None);
      }
    }

    /** Retries the unbind until no account is bound, then answers true. `steps` counts the
        unbind attempts: one when an account was bound, none otherwise. */
    method WaitToUnbindUserStreaming() returns (r: bool, ghost steps: nat)
      requires Valid()
      modifies this`bindingAccount, this`userListeners
      ensures Valid()
      ensures r && bindingAccount == None && userListeners == multiset{}
      ensures steps == if old(bindingAccount).Some? then 1 else 0
    {
      steps := 0;
      while bindingAccount.Some?
        invariant Valid()
        invariant steps == if old(bindingAccount).Some? && bindingAccount.None? then 1 else 0
        invariant bindingAccount.Some? ==> bindingAccount == old(bindingAccount)
        decreases if bindingAccount.Some? then 1 else 0
      {
        UnbindUserStreaming();
        steps := steps + 1;
      }
      r := true;
    }

    /** Binds the user streaming to the signed-in account: fails when the account has no id,
        leaving everything as it was; otherwise releases any previous binding first, then
        records the account as bound and registers its listeners once. */
    method BindUserStreaming() returns (outcome: Outcome)
      requires Valid()
      modifies this`bindingAccount, this`userListeners
      ensures Valid()
      ensures account.id == "" ==>
        outcome == Fail("Account is not set") && bindingAccount == old(bindingAccount) && userListeners == old(userListeners)
      ensures account.id != "" ==>
        outcome == Pass && bindingAccount == Some(account) && userListeners == multiset{account.id}
    {
      if account.id == "" {
        return Fail("Account is not set");
      }
      var _, _ := WaitToUnbindUserStreaming();
      UpdateBindingAccount(Some(account));
      userListeners := userListeners + multiset{account.id};
      outcome := Pass;
    }

    /** A user-stream event reaches a handler only through listeners registered for its account. */
    predicate Listening(accountId: string)
      reads this
    {
      userListeners[accountId] > 0
    }

    /** A new status on the user stream: appended to the home timeline, which is marked unread. */
    method OnUserUpdate(accountId: string, status: Status)
      requires Valid()
      modifies this`commands
      ensures commands == old(commands) +
        if Listening(accountId) then [AppendTimeline(Home, status), MarkUnread(Home)] else []
    {
      if userListeners[accountId] > 0 {
        commands := commands + [AppendTimeline(Home, status), MarkUnread(Home)];
      }
    }

    /** A notification on the user stream: appended to the notifications timeline, marked unread. */
    method OnUserNotification(accountId: string, n: Notification)
      requires Valid()
      modifies this`commands
      ensures commands == old(commands) +
        if Listening(accountId) then [AppendNotification(Notifications, n), MarkUnread(Notifications)] else []
    {
      if userListeners[accountId] > 0 {
        commands := commands + [AppendNotification(Notifications, n), MarkUnread(Notifications)];
      }
    }

    /** A mention on the user stream: appended to the mentions timeline, marked unread. */
    method OnUserMention(accountId: string, n: Notification)
      requires Valid()
      modifies this`commands
      ensures commands == old(commands) +
        if Listening(accountId) then [AppendNotification(Mentions, n), MarkUnread(Mentions)] else []
    {
      if userListeners[accountId] > 0 {
        commands := commands + [AppendNotification(Mentions, n), MarkUnread(Mentions)];
      }
    }

    /** A delete on the user stream goes to exactly the home, notifications and mentions timelines. */
    method OnUserDelete(accountId: string, id: string)
      requires Valid()
      modifies this`commands
      ensures commands == old(commands) +
        if Listening(accountId) then DeleteCommands(UserTimelines, id) else []
    {
      if userListeners[accountId] > 0 {
        commands := commands + DeleteCommands(UserTimelines, id);
      }
    }

    // ---- All streamings.

    /** Binds the user streaming (whose failure is not awaited and so changes nothing further)
        and then each optional streaming whose flag is set. */
    method BindStreamings()
      requires Valid()
      modifies this`bindingAccount, this`userListeners, this`commands
      ensures Valid()
      ensures account.id != "" ==> bindingAccount == Some(account) && userListeners == multiset{account.id}
      ensures account.id == "" ==> bindingAccount == old(bindingAccount) && userListeners == old(userListeners)
      ensures commands == old(commands) + Requests(Bind, OptionalStreams(unreadNotification))
    {
      var _ := BindUserStreaming();
      commands := commands + Requests(Bind, OptionalStreams(unreadNotification));
    }

    /** Starts each optional streaming whose flag is set; the user streaming is never started here. */
    method StartStreamings()
      modifies this`commands
      ensures commands == old(commands) + Requests(Start, OptionalStreams(unreadNotification))
    {
      commands := commands + Requests(Start, OptionalStreams(unreadNotification));
    }

    /** Stops all three optional streamings, whatever the flags. */
    method StopStreamings()
      modifies this`commands
      ensures commands == old(commands) + Requests(Stop, AllOptionalStreams)
    {
      commands := commands + Requests(Stop, AllOptionalStreams);
    }

    /** Unbinds the user streaming and all three optional streamings, whatever the flags. */
    method UnbindStreamings()
      requires Valid()
      modifies this`bindingAccount, this`userListeners, this`commands
      ensures Valid()
      ensures bindingAccount == None && userListeners == multiset{}
      ensures commands == old(commands) + Requests(Unbind, AllOptionalStreams)
    {
      UnbindUserStreaming();
      commands := commands + Requests(Unbind, AllOptionalStreams);
    }

    /** Commits the refreshed status to the three user-stream timelines and to each optional
        timeline whose flag is set; always answers true. */
    method UpdateTootForAllTimelines(status: Status) returns (r: bool)
      modifies this`commands
      ensures r
      ensures commands == old(commands) + UpdateCommands(UpdateTargets(unreadNotification), status)
    {
      commands := commands + UpdateCommands(UpdateTargets(unreadNotification), status);
      r := true;
    }
  }

  /** Switching accounts: with account `a` bound, signing in as `b` and rebinding leaves only
      `b`'s listeners, so a delete arriving on `a`'s user stream no longer reaches any timeline,
      and one on `b`'s stream reaches exactly the three user-stream timelines. */
  method AccountSwitchScenario(a: LocalAccount, b: LocalAccount, id: string)
    requires a.id != "" && b.id != "" && a.id != b.id
  {
    var store := new Store(UnreadNotification(false, true, false));
    store.UpdateAccount(a);
    store.BindStreamings();
    assert store.bindingAccount == Some(a);
    store.UpdateAccount(b);
    store.BindStreamings();
    assert store.bindingAccount == Some(b) && store.userListeners == multiset{b.id};
    var before := store.commands;
    store.OnUserDelete(a.id, id);
    assert store.commands == before;
    store.OnUserDelete(b.id, id);
    assert store.commands == before + DeleteCommands(UserTimelines, id);
  }

}
