/**
 Who the room announces as having joined or left. A session token may hold several
 connections; a leave waits for a timer, and a join with the same token cancels it.
 */
module Presence {
  import opened Util

  type ClientId = string
  type Token = string

  datatype Connection = Connection(id: ClientId, token: Token)
  datatype Notice = Notice(token: Token, joined: bool)

  /** `armed` holds the timers that will still fire; `pending` remembers one timer for a token. */
  datatype Lobby = Lobby(
    users: seq<Connection>, pending: map<Token, nat>, armed: map<nat, Token>, nextTimer: nat, published: seq<Notice>)

  datatype Event = Join(user: Connection) | Leave(id: ClientId) | Fire(timer: nat)

  predicate SessionInRoom(users: seq<Connection>, token: Token, except: Option<ClientId>) {
    exists i :: 0 <= i < |users| && users[i].token == token && Some(users[i].id) != except
  }

  predicate InRoom(users: seq<Connection>, token: Token) {
    exists i :: 0 <= i < |users| && users[i].token == token
  }

  function IndexOf(users: seq<Connection>, id: ClientId): (at: nat)
    ensures at <= |users| && (at < |users| ==> users[at].id == id)
    ensures forall j :: 0 <= j < at ==> users[j].id != id
  {
    IndexWhere(users, (user: Connection) => user.id == id)
  }

  function Joined(s: Lobby, user: Connection): Lobby {
    var users := s.users + [user];
    if user.token in s.pending then
      s.(users := users, armed := s.armed - {s.pending[user.token]}, pending := s.pending - {user.token})
    else if SessionInRoom(users, user.token, Some(user.id)) then
      s.(users := users)
    else
      s.(users := users, published := s.published + [Notice(user.token, true)])
  }

  function Left(s: Lobby, id: ClientId): Lobby {
    var at := IndexOf(s.users, id);
    if at == |s.users| then s
    else
      var token := s.users[at].token;
      var users := s.users[..at] + s.users[at + 1..];
      if SessionInRoom(s.users, token, Some(id)) then s.(users := users)
      else s.(users := users, pending := s.pending[token := s.nextTimer],
              armed := s.armed[s.nextTimer := token], nextTimer := s.nextTimer + 1)
  }

  function Fired(s: Lobby, timer: nat): Lobby {
    if timer !in s.armed then s
    else
      var token := s.armed[timer];
      var t := s.(armed := s.armed - {timer}, pending := s.pending - {token});
      if SessionInRoom(s.users, token, None) then t
      else t.(published := s.published + [Notice(token, false)])
  }

  function Step(s: Lobby, e: Event): Lobby {
    match e
    case Join(user) => Joined(s, user)
    case Leave(id) => Left(s, id)
    case Fire(timer) => Fired(s, timer)
  }

  function Run(s: Lobby, events: seq<Event>): Lobby
    decreases |events|
  {
    if events == [] then s else Run(Step(s, events[0]), events[1..])
  }

  /** A connection joins once; its id is its own. */
  predicate LegalRun(s: Lobby, events: seq<Event>)
    decreases |events|
  {
    events == []
    || ((events[0].Join? ==> IndexOf(s.users, events[0].user.id) == |s.users|)
    && LegalRun(Step(s, events[0]), events[1..]))
  }

  const Empty := Lobby([], map[], map[], 0, [])

  // ---------------------------------------------------------------- the promise

  /** What one session announced, in order: true for joined, false for left. */
  function Story(published: seq<Notice>, token: Token): seq<bool> {
    if published == [] then []
    else
      var before := Story(published[..|published| - 1], token);
      var last := published[|published| - 1];
      if last.token == token then before + [last.joined] else before
  }

  predicate Alternates(story: seq<bool>) {
    forall i :: 0 <= i < |story| ==> (story[i] <==> i % 2 == 0)
  }

  predicate AnnouncedPresent(story: seq<bool>) {
    story != [] && story[|story| - 1]
  }

  /** The session is present or may still come back unnoticed. */
  predicate Around(s: Lobby, token: Token) {
    InRoom(s.users, token) || token in s.pending
  }

  predicate OneEach(users: seq<Connection>) {
    forall i, j :: 0 <= i < j < |users| ==> users[i].id != users[j].id
  }

  /** A pending leave is that of an absent session, and its timer is the one armed for it. */
  ghost predicate TimersMatch(
    users: seq<Connection>, pending: map<Token, nat>, armed: map<nat, Token>, nextTimer: nat) {
    && (forall token :: token in pending ==>
          !InRoom(users, token) && pending[token] in armed && armed[pending[token]] == token)
    && (forall timer :: timer in armed ==>
          timer < nextTimer && armed[timer] in pending && pending[armed[timer]] == timer)
  }

  ghost predicate Truthful(s: Lobby) {
    forall token :: Alternates(Story(s.published, token))
      && (AnnouncedPresent(Story(s.published, token)) <==> Around(s, token))
  }

  ghost predicate Inv(s: Lobby) {
    OneEach(s.users) && TimersMatch(s.users, s.pending, s.armed, s.nextTimer) && Truthful(s)
  }

  lemma Told(published: seq<Notice>, notice: Notice, token: Token)
    ensures Story(published + [notice], token)
            == if notice.token == token then Story(published, token) + [notice.joined] else Story(published, token)
  {
    assert (published + [notice])[..|published|] == published;
  }

  /** An alternating story goes on with the opposite of what it announced last. */
  lemma Continues(story: seq<bool>, joined: bool)
    requires Alternates(story) && joined == !AnnouncedPresent(story)
    ensures Alternates(story + [joined]) && AnnouncedPresent(story + [joined]) == joined
  {
  }

  lemma AnnounceKeeps(s: Lobby, t: Lobby, notice: Notice)
    requires Truthful(s) && t.published == s.published + [notice]
    requires forall token :: token != notice.token ==> (Around(t, token) <==> Around(s, token))
    requires Around(t, notice.token) == notice.joined && Around(s, notice.token) == !notice.joined
    ensures Truthful(t)
  {
    forall token
      ensures Alternates(Story(t.published, token))
      ensures (AnnouncedPresent(Story(t.published, token)) <==> Around(t, token))
    {
      Told(s.published, notice, token);
      if token == notice.token {
        Continues(Story(s.published, token), notice.joined);
      }
    }
  }

  lemma PushedInRoom(users: seq<Connection>, user: Connection, token: Token)
    ensures InRoom(users + [user], token) <==> InRoom(users, token) || token == user.token
  {
    if InRoom(users, token) {
      var i :| 0 <= i < |users| && users[i].token == token;
      assert (users + [user])[i].token == token;
    }
    assert (users + [user])[|users|] == user;
  }

  lemma SplicedInRoom(users: seq<Connection>, at: nat, token: Token)
    requires at < |users|
    ensures InRoom(users[..at] + users[at + 1..], token) <==>
              exists i :: 0 <= i < |users| && i != at && users[i].token == token
  {
    var left := users[..at] + users[at + 1..];
    forall i | 0 <= i < |users| && i != at
      ensures 0 <= (if i < at then i else i - 1) < |left| && left[if i < at then i else i - 1] == users[i]
    {
    }
  }

  lemma CancelledTimersMatch(
    users: seq<Connection>, pending: map<Token, nat>, armed: map<nat, Token>, nextTimer: nat, user: Connection)
    requires TimersMatch(users, pending, armed, nextTimer)
    ensures if user.token in pending
            then TimersMatch(users + [user], pending - {user.token}, armed - {pending[user.token]}, nextTimer)
            else TimersMatch(users + [user], pending, armed, nextTimer)
  {
    forall token
      ensures InRoom(users + [user], token) <==> InRoom(users, token) || token == user.token
    {
      PushedInRoom(users, user, token);
    }
  }

  lemma OtherConnections(users: seq<Connection>, user: Connection)
    requires IndexOf(users, user.id) == |users|
    ensures SessionInRoom(users + [user], user.token, Some(user.id)) <==> InRoom(users, user.token)
  {
    if InRoom(users, user.token) {
      var i :| 0 <= i < |users| && users[i].token == user.token;
      assert (users + [user])[i] == users[i];
    }
  }

  lemma JoinAround(s: Lobby, user: Connection, token: Token)
    ensures Around(Joined(s, user), token) <==> Around(s, token) || token == user.token
  {
    PushedInRoom(s.users, user, token);
  }

  lemma JoinIsTruthful(s: Lobby, user: Connection)
    requires Truthful(s) && IndexOf(s.users, user.id) == |s.users|
    ensures Truthful(Joined(s, user))
  {
    var t := Joined(s, user);
    forall token
      ensures Around(t, token) <==> Around(s, token) || token == user.token
    {
      JoinAround(s, user, token);
    }
    OtherConnections(s.users, user);
    if Around(s, user.token) {
      assert t.published == s.published;
    } else {
      AnnounceKeeps(s, t, Notice(user.token, true));
    }
  }

  lemma JoinKeeps(s: Lobby, user: Connection)
    requires Inv(s) && IndexOf(s.users, user.id) == |s.users|
    ensures Inv(Joined(s, user))
  {
    CancelledTimersMatch(s.users, s.pending, s.armed, s.nextTimer, user);
    JoinIsTruthful(s, user);
  }

  /** Who is in the room without one connection: its own session only through another connection. */
  lemma SplicedSessions(users: seq<Connection>, at: nat, token: Token)
    requires at < |users| && OneEach(users)
    ensures InRoom(users[..at] + users[at + 1..], token)
            <==> if token != users[at].token then InRoom(users, token)
                 else SessionInRoom(users, token, Some(users[at].id))
  {
    SplicedInRoom(users, at, token);
    if token != users[at].token && InRoom(users, token) {
      var i :| 0 <= i < |users| && users[i].token == token;
      assert i != at;
    }
  }

  lemma LeaveKeeps(s: Lobby, id: ClientId)
    requires Inv(s)
    ensures Inv(Left(s, id))
  {
    var at := IndexOf(s.users, id);
    if at < |s.users| {
      var token := s.users[at].token;
      assert InRoom(s.users, token);
      var t := Left(s, id);
      forall other
        ensures InRoom(t.users, other)
                <==> if other == token then SessionInRoom(s.users, token, Some(id)) else InRoom(s.users, other)
      {
        SplicedSessions(s.users, at, other);
      }
      assert OneEach(t.users);
      assert TimersMatch(t.users, t.pending, t.armed, t.nextTimer);
      assert forall other :: Around(t, other) <==> Around(s, other);
    }
  }

  lemma FireKeeps(s: Lobby, timer: nat)
    requires Inv(s)
    ensures Inv(Fired(s, timer))
  {
    if timer in s.armed {
      var token := s.armed[timer];
      assert !InRoom(s.users, token) && !SessionInRoom(s.users, token, None);
      AnnounceKeeps(s, Fired(s, timer), Notice(token, false));
    }
  }

  lemma {:induction false} RunKeeps(s: Lobby, events: seq<Event>)
    requires Inv(s) && LegalRun(s, events)
    ensures Inv(Run(s, events))
    decreases |events|
  {
    if events != [] {
      match events[0] {
        case Join(user) => JoinKeeps(s, user);
        case Leave(id) => LeaveKeeps(s, id);
        case Fire(timer) => FireKeeps(s, timer);
      }
      RunKeeps(Step(s, events[0]), events[1..]);
    }
  }

  /**
   Over any interleaving of tabs, refreshes and timers, what is announced about a session
   alternates joined and left, starting with joined; it stands at joined exactly while the
   session has a connection or a leave that has not fired.
   */
  lemma AnnouncementsAlternate(events: seq<Event>, token: Token)
    requires LegalRun(Empty, events)
    ensures var s := Run(Empty, events);
            Alternates(Story(s.published, token)) && (AnnouncedPresent(Story(s.published, token)) <==> Around(s, token))
  {
    assert forall t :: Story(Empty.published, t) == [];
    RunKeeps(Empty, events);
  }

  /** A refresh is silent: leaving and coming back before the timer fires announces nothing and leaves no timer. */
  lemma RefreshIsSilent(events: seq<Event>, id: ClientId, again: Connection)
    requires LegalRun(Empty, events)
    requires var s := Run(Empty, events);
             var at := IndexOf(s.users, id);
             at < |s.users| && s.users[at].token == again.token && IndexOf(s.users, again.id) == |s.users|
    ensures var s := Run(Empty, events);
            var t := Joined(Left(s, id), again);
            t.published == s.published && t.pending == s.pending && t.armed == s.armed
  {
    assert forall t :: Story(Empty.published, t) == [];
    RunKeeps(Empty, events);
    ReturnIsSilent(Run(Empty, events), id, again);
  }

  lemma ReturnIsSilent(s: Lobby, id: ClientId, again: Connection)
    requires Inv(s) && IndexOf(s.users, again.id) == |s.users|
    requires var at := IndexOf(s.users, id); at < |s.users| && s.users[at].token == again.token
    ensures var t := Joined(Left(s, id), again);
            t.published == s.published && t.pending == s.pending && t.armed == s.armed
  {
    var at := IndexOf(s.users, id);
    var token := again.token;
    assert InRoom(s.users, token);
    var l := Left(s, id);
    if SessionInRoom(s.users, token, Some(id)) {
      SplicedInRoom(s.users, at, token);
      assert InRoom(l.users, token);
      StillThere(s.users, at, again);
    } else {
      assert s.nextTimer !in s.armed;
      assert l.armed - {s.nextTimer} == s.armed;
      assert l.pending - {token} == s.pending;
    }
  }

  lemma StillThere(users: seq<Connection>, at: nat, again: Connection)
    requires at < |users| && IndexOf(users, again.id) == |users| && InRoom(users[..at] + users[at + 1..], again.token)
    ensures SessionInRoom(users[..at] + users[at + 1..] + [again], again.token, Some(again.id))
  {
    var left := users[..at] + users[at + 1..];
    var i :| 0 <= i < |left| && left[i].token == again.token;
    assert (left + [again])[i] == left[i];
    assert left[i] == users[if i < at then i else i + 1];
  }

  /** Joining adds the connection, leaving takes out exactly it, and a timer touches none. */
  lemma ConnectionsFollow(s: Lobby, user: Connection, id: ClientId, timer: nat)
    requires OneEach(s.users)
    ensures Joined(s, user).users == s.users + [user] && Fired(s, timer).users == s.users
    ensures forall u :: u in Left(s, id).users <==> u in s.users && u.id != id
  {
    var at := IndexOf(s.users, id);
    if at < |s.users| {
      SplicedMembers(s.users, at, Left(s, id).users);
      OnlyOneHas(s.users, at);
    } else {
      assert forall u :: u in s.users ==> u.id != id;
    }
  }

  lemma OnlyOneHas(users: seq<Connection>, at: nat)
    requires OneEach(users) && at < |users|
    ensures forall i :: 0 <= i < |users| && i != at ==> users[i].id != users[at].id
  {
  }

  /** What is published: an arrival that nobody is told of yet, and a departure whose timer fired; nothing else. */
  lemma PublishedWhen(s: Lobby, user: Connection, id: ClientId, timer: nat)
    requires Inv(s) && IndexOf(s.users, user.id) == |s.users|
    ensures Joined(s, user).published
            == if Around(s, user.token) then s.published else s.published + [Notice(user.token, true)]
    ensures Left(s, id).published == s.published
    ensures Fired(s, timer).published
            == if timer in s.armed then s.published + [Notice(s.armed[timer], false)] else s.published
  {
    OtherConnections(s.users, user);
    if timer in s.armed {
      assert !InRoom(s.users, s.armed[timer]);
    }
  }

  // ---------------------------------------------------------------- the object

  class Announcer {
    var realusers: seq<Connection>
    var pendingLeaveEvents: map<Token, nat>
    var timers: map<nat, Token>
    var nextTimer: nat
    ghost var published: seq<Notice>

    ghost function View(): Lobby
      reads this
    {
      Lobby(realusers, pendingLeaveEvents, timers, nextTimer, published)
    }

    ghost predicate Valid()
      reads this
    {
      Inv(View())
    }

    constructor ()
      ensures Valid() && View() == Empty
    {
      realusers, pendingLeaveEvents, timers, nextTimer, published := [], map[], map[], 0, [];
      new;
      assert forall t :: Story([], t) == [];
    }

    method Publish(token: Token, joined: bool)
      modifies this`published
      ensures published == old(published) + [Notice(token, joined)]
    {
      published := published + [Notice(token, joined)];
    }

    /** Remembers the session; true when it continues one that was here. */
    method NoteJoin(user: Connection) returns (resumed: bool)
      modifies this`pendingLeaveEvents, this`timers
      ensures if user.token in old(pendingLeaveEvents)
              then resumed && pendingLeaveEvents == old(pendingLeaveEvents) - {user.token}
                   && timers == old(timers) - {old(pendingLeaveEvents)[user.token]}
              else resumed == SessionInRoom(realusers, user.token, Some(user.id))
                   && pendingLeaveEvents == old(pendingLeaveEvents) && timers == old(timers)
    {
      if user.token in pendingLeaveEvents {
        timers := timers - {pendingLeaveEvents[user.token]};
        pendingLeaveEvents := pendingLeaveEvents - {user.token};
        return true;
      }
      return SessionInRoom(realusers, user.token, Some(user.id));
    }

    method JoinRoom(user: Connection)
      requires Valid() && IndexOf(realusers, user.id) == |realusers|
      modifies this
      ensures Valid() && View() == Joined(old(View()), user)
    {
      JoinKeeps(View(), user);
      Admit(user);
    }

    method Admit(user: Connection)
      modifies this
      ensures View() == Joined(old(View()), user)
    {
      realusers := realusers + [user];
      var resumed := NoteJoin(user);
      if !resumed {
        Publish(user.token, true);
      }
    }

    method LeaveRoom(id: ClientId)
      requires Valid()
      modifies this
      ensures Valid() && View() == Left(old(View()), id)
    {
      LeaveKeeps(View(), id);
      var at := IndexOf(realusers, id);
      if at == |realusers| {
        return;
      }
      var token := realusers[at].token;
      if !SessionInRoom(realusers, token, Some(id)) {
        timers := timers[nextTimer := token];
        pendingLeaveEvents := pendingLeaveEvents[token := nextTimer];
        nextTimer := nextTimer + 1;
      }
      realusers := realusers[..at] + realusers[at + 1..];
    }

    method FireTimer(timer: nat)
      requires Valid()
      modifies this
      ensures Valid() && View() == Fired(old(View()), timer)
    {
      FireKeeps(View(), timer);
      if timer !in timers {
        return;
      }
      var token := timers[timer];
      timers := timers - {timer};
      pendingLeaveEvents := pendingLeaveEvents - {token};
      if !SessionInRoom(realusers, token, None) {
        Publish(token, false);
      }
    }
  }
}
