/**
 The message budget of a connection: two buckets that refill with time and are drained one
 token a message. A chat message must pass the general bucket first and then its own.
 */
module TokenBucket {

  datatype Policy = Policy(capacity: real, refillPerSec: real)
  datatype Bucket = Bucket(tokens: real, updatedAt: int)

  const MESSAGES := Policy(40.0, 10.0)
  const CHAT := Policy(5.0, 0.5)

  function Refill(p: Policy, ms: int): real {
    (if ms < 0 then 0.0 else ms as real / 1000.0) * p.refillPerSec
  }

  /** The level an attempt finds. */
  function Level(b: Bucket, p: Policy, now: int): real {
    var level := b.tokens + Refill(p, now - b.updatedAt);
    if level < p.capacity then level else p.capacity
  }

  predicate Grants(b: Bucket, p: Policy, now: int) {
    Level(b, p, now) >= 1.0
  }

  function Taken(b: Bucket, p: Policy, now: int): Bucket {
    Bucket(if Grants(b, p, now) then Level(b, p, now) - 1.0 else Level(b, p, now), now)
  }

  // ---------------------------------------------------------------- runs of one bucket

  predicate Sane(p: Policy) {
    p.capacity >= 0.0 && p.refillPerSec >= 0.0
  }

  predicate InOrder(ts: seq<int>) {
    forall i, j :: 0 <= i <= j < |ts| ==> ts[i] <= ts[j]
  }

  /** The bucket after attempts at the given times; it is created full by the first one. */
  function After(p: Policy, ts: seq<int>): Bucket
    requires ts != []
    decreases |ts|
  {
    var now := ts[|ts| - 1];
    Taken(if |ts| == 1 then Bucket(p.capacity, now) else After(p, ts[..|ts| - 1]), p, now)
  }

  function Before(p: Policy, ts: seq<int>, now: int): Bucket {
    if ts == [] then Bucket(p.capacity, now) else After(p, ts)
  }

  /** How many of the attempts from the given index on were granted. */
  function Granted(p: Policy, ts: seq<int>, from: nat): (n: nat)
    ensures n <= |ts|
    decreases |ts|
  {
    if |ts| <= from then 0
    else
      var before, now := ts[..|ts| - 1], ts[|ts| - 1];
      Granted(p, before, from) + if Grants(Before(p, before, now), p, now) then 1 else 0
  }

  /** What a bucket full at the window's first attempt could grant by `now`. */
  function Allowance(p: Policy, ts: seq<int>, now: int, from: nat): real {
    p.capacity + Refill(p, if from < |ts| then now - ts[from] else 0)
  }

  lemma RefillAdds(p: Policy, a: int, b: int)
    requires a >= 0 && b >= 0
    ensures Refill(p, a) + Refill(p, b) == Refill(p, a + b)
  {
    var x, y := a as real / 1000.0, b as real / 1000.0;
    assert (a + b) as real / 1000.0 == x + y;
    assert (x + y) * p.refillPerSec == x * p.refillPerSec + y * p.refillPerSec;
  }

  lemma RefillGrows(p: Policy, a: int, b: int)
    requires Sane(p) && a <= b
    ensures 0.0 <= Refill(p, a) <= Refill(p, b)
  {
    if a < 0 {
      assert b < 0 || (b as real / 1000.0) * p.refillPerSec >= 0.0;
    } else {
      assert (b as real / 1000.0) - (a as real / 1000.0) >= 0.0;
      RefillAdds(p, a, b - a);
      assert ((b - a) as real / 1000.0) * p.refillPerSec >= 0.0;
      assert (a as real / 1000.0) * p.refillPerSec >= 0.0;
    }
  }

  /** Levels never leave the range from empty to full. */
  lemma {:induction false} LevelInRange(p: Policy, ts: seq<int>, now: int)
    requires Sane(p) && InOrder(ts + [now])
    ensures 0.0 <= Level(Before(p, ts, now), p, now) <= p.capacity
    ensures 0.0 <= After(p, ts + [now]).tokens <= p.capacity
    decreases |ts|
  {
    assert (ts + [now])[..|ts|] == ts;
    if ts == [] {
      RefillGrows(p, 0, 0);
    } else {
      var before, last := ts[..|ts| - 1], ts[|ts| - 1];
      assert ts == before + [last];
      assert InOrder(ts) by {
        assert forall i :: 0 <= i < |ts| ==> ts[i] == (ts + [now])[i];
      }
      LevelInRange(p, before, last);
      RefillGrows(p, 0, now - last);
    }
  }

  /** What the window starting at an attempt still allows just before `now`. */
  function Left(p: Policy, ts: seq<int>, now: int, from: nat): real {
    Allowance(p, ts, now, from) - Granted(p, ts, from) as real
  }

  /** One more attempt costs every window what it was granted, and time gives them all the same refill. */
  lemma WindowStep(p: Policy, ts: seq<int>, last: int, now: int, from: nat)
    requires from <= |ts| && (from < |ts| ==> ts[from] <= last) && last <= now
    ensures Left(p, ts + [last], now, from)
            == Left(p, ts, last, from) - (if Grants(Before(p, ts, last), p, last) then 1.0 else 0.0) + Refill(p,
              now - last)
  {
    var all := ts + [last];
    assert all[..|ts|] == ts && all[|ts|] == last;
    if from < |ts| {
      assert all[from] == ts[from];
      RefillAdds(p, last - ts[from], now - last);
    }
  }

  lemma LevelStep(p: Policy, ts: seq<int>, last: int, now: int)
    ensures var left := Level(Before(p, ts, last), p, last) - (if Grants(Before(p, ts, last), p,
            last) then 1.0 else 0.0)
                        + Refill(p, now - last);
            Level(Before(p, ts + [last], now), p, now) == if left < p.capacity then left else p.capacity
  {
    assert (ts + [last])[..|ts|] == ts;
  }

  predicate LeastLeft(p: Policy, ts: seq<int>, now: int, level: real) {
    && (forall from :: 0 <= from <= |ts| ==> level <= Left(p, ts, now, from))
    && (exists from :: 0 <= from <= |ts| && level == Left(p, ts, now, from))
  }

  lemma OrderedPrefix(ts: seq<int>, now: int)
    requires InOrder(ts + [now])
    ensures InOrder(ts) && forall i :: 0 <= i < |ts| ==> ts[i] <= now
  {
    assert forall i :: 0 <= i < |ts| ==> ts[i] == (ts + [now])[i] <= (ts + [now])[|ts|];
  }

  lemma WholeWindow(p: Policy, ts: seq<int>, now: int)
    ensures Left(p, ts, now, |ts|) == p.capacity
  {
  }

  /**
   The level an attempt finds is the least, over every window that ends with it, of what the
   window allows and has not granted yet.
   */
  lemma {:induction false} LevelIsLeastLeft(p: Policy, ts: seq<int>, now: int)
    requires Sane(p) && InOrder(ts + [now])
    ensures LeastLeft(p, ts, now, Level(Before(p, ts, now), p, now))
    decreases |ts|
  {
    OrderedPrefix(ts, now);
    WholeWindow(p, ts, now);
    if ts != [] {
      var before, last := ts[..|ts| - 1], ts[|ts| - 1];
      assert ts == before + [last];
      LevelIsLeastLeft(p, before, last);
      LevelStep(p, before, last, now);
      forall from: nat | from <= |before|
        ensures Left(p, ts, now, from)
                == Left(p, before, last, from) - (if Grants(Before(p, before, last), p,
                  last) then 1.0 else 0.0) + Refill(p, now - last)
      {
        WindowStep(p, before, last, now, from);
      }
    }
  }

  /**
   An attempt is granted exactly when every window that ends with it still has room: the
   bucket enforces the bound for all windows at once and refuses nothing more.
   */
  lemma GrantedIffEveryWindowHasRoom(p: Policy, ts: seq<int>, now: int)
    requires Sane(p) && InOrder(ts + [now])
    ensures Grants(Before(p, ts, now), p, now) <==> forall from :: 0 <= from <= |ts| ==> Left(p, ts, now, from) >= 1.0
  {
    LevelIsLeastLeft(p, ts, now);
  }

  // ---------------------------------------------------------------- any interval of time

  /** How many attempts at or after a time were granted. */
  function GrantedSince(p: Policy, ts: seq<int>, start: int): nat
    decreases |ts|
  {
    if ts == [] then 0
    else
      var before, now := ts[..|ts| - 1], ts[|ts| - 1];
      GrantedSince(p, before, start) + if now >= start && Grants(Before(p, before, now), p, now) then 1 else 0
  }

  /** In order, the attempts since a time are the ones from some index on. */
  lemma {:induction false} SinceIsFrom(p: Policy, ts: seq<int>, start: int) returns (from: nat)
    requires InOrder(ts)
    ensures from <= |ts| && (from < |ts| ==> ts[from] >= start)
    ensures GrantedSince(p, ts, start) == Granted(p, ts, from)
    ensures from == |ts| ==> forall i :: 0 <= i < |ts| ==> ts[i] < start
    decreases |ts|
  {
    if ts == [] {
      from := 0;
    } else {
      var before, last := ts[..|ts| - 1], ts[|ts| - 1];
      assert ts == before + [last];
      OrderedPrefix(before, last);
      from := SinceIsFrom(p, before, start);
      if from == |before| && last < start {
        from := |ts|;
      }
    }
  }

  /** In any interval that ends with the latest attempt, at most a full bucket and the refill is granted. */
  lemma GrantedInInterval(p: Policy, ts: seq<int>, now: int, start: int)
    requires Sane(p) && InOrder(ts + [now]) && start <= now
    ensures GrantedSince(p, ts + [now], start) as real <= p.capacity + Refill(p, now - start)
  {
    var all := ts + [now];
    assert all[..|ts|] == ts && all[|ts|] == now;
    OrderedPrefix(ts, now);
    LevelInRange(p, ts, now);
    var from := SinceIsFrom(p, all, start);
    if from <= |ts| {
      LevelIsLeastLeft(p, ts, now);
      assert Level(Before(p, ts, now), p, now) <= Left(p, ts, now, from);
      RefillGrows(p, now - all[from], now - start);
      RefillGrows(p, 0, now - start);
    } else {
      assert false;
    }
  }

  /** How many of the attempts in an interval were granted. */
  function GrantedIn(p: Policy, ts: seq<int>, start: int, stop: int): nat
    decreases |ts|
  {
    if ts == [] then 0
    else
      var before, now := ts[..|ts| - 1], ts[|ts| - 1];
      GrantedIn(p, before, start, stop) + if start <= now <= stop
        && Grants(Before(p, before, now), p, now) then 1 else 0
  }

  lemma {:induction false} AllBeforeStop(p: Policy, ts: seq<int>, start: int, stop: int)
    requires forall i :: 0 <= i < |ts| ==> ts[i] <= stop
    ensures GrantedIn(p, ts, start, stop) == GrantedSince(p, ts, start)
    decreases |ts|
  {
    if ts != [] {
      AllBeforeStop(p, ts[..|ts| - 1], start, stop);
    }
  }

  lemma {:induction false} GrantedInAnyInterval(p: Policy, ts: seq<int>, start: int, stop: int)
    requires Sane(p) && InOrder(ts) && start <= stop
    ensures GrantedIn(p, ts, start, stop) as real <= p.capacity + Refill(p, stop - start)
    decreases |ts|
  {
    RefillGrows(p, 0, stop - start);
    if ts != [] {
      var before, last := ts[..|ts| - 1], ts[|ts| - 1];
      assert ts == before + [last];
      OrderedPrefix(before, last);
      if start <= last <= stop {
        GrantedInInterval(p, before, last, start);
        AllBeforeStop(p, ts, start, stop);
        RefillGrows(p, last - start, stop - start);
      } else {
        GrantedInAnyInterval(p, before, start, stop);
      }
    }
  }

  // ---------------------------------------------------------------- a connection

  datatype Message = Message(at: int, chat: bool)

  function Times(ms: seq<Message>): (ts: seq<int>)
    ensures |ts| == |ms| && forall i :: 0 <= i < |ms| ==> ts[i] == ms[i].at
  {
    if ms == [] then [] else Times(ms[..|ms| - 1]) + [ms[|ms| - 1].at]
  }

  predicate PassesGeneral(before: seq<Message>, m: Message) {
    Grants(Before(MESSAGES, Times(before), m.at), MESSAGES, m.at)
  }

  /** When the chat bucket was asked: chat messages that the general bucket let through. */
  function ChatTimes(ms: seq<Message>): seq<int>
    decreases |ms|
  {
    if ms == [] then []
    else
      var before, m := ms[..|ms| - 1], ms[|ms| - 1];
      if m.chat && PassesGeneral(before, m) then ChatTimes(before) + [m.at] else ChatTimes(before)
  }

  predicate Accepted(before: seq<Message>, m: Message) {
    PassesGeneral(before, m) && (m.chat ==> Grants(Before(CHAT, ChatTimes(before), m.at), CHAT, m.at))
  }

  function AcceptedIn(ms: seq<Message>, start: int, stop: int, chatOnly: bool): nat
    decreases |ms|
  {
    if ms == [] then 0
    else
      var before, m := ms[..|ms| - 1], ms[|ms| - 1];
      AcceptedIn(before, start, stop, chatOnly)
      + if start <= m.at <= stop && (chatOnly ==> m.chat) && Accepted(before, m) then 1 else 0
  }

  predicate Chronological(ms: seq<Message>) {
    forall i, j :: 0 <= i <= j < |ms| ==> ms[i].at <= ms[j].at
  }

  lemma MessagePushed(before: seq<Message>, m: Message)
    ensures Times(before + [m]) == Times(before) + [m.at]
    ensures ChatTimes(before + [m]) == if m.chat
            && PassesGeneral(before, m) then ChatTimes(before) + [m.at] else ChatTimes(before)
  {
    assert (before + [m])[..|before|] == before;
  }

  lemma AttemptPushed(p: Policy, ts: seq<int>, now: int, start: int, stop: int)
    ensures After(p, ts + [now]) == Taken(Before(p, ts, now), p, now)
    ensures GrantedIn(p, ts + [now], start, stop)
            == GrantedIn(p, ts, start, stop) + if start <= now <= stop
              && Grants(Before(p, ts, now), p, now) then 1 else 0
  {
    assert (ts + [now])[..|ts|] == ts;
  }

  lemma {:induction false} AcceptedAreGranted(ms: seq<Message>, start: int, stop: int)
    ensures AcceptedIn(ms, start, stop, false) <= GrantedIn(MESSAGES, Times(ms), start, stop)
    ensures AcceptedIn(ms, start, stop, true) == GrantedIn(CHAT, ChatTimes(ms), start, stop)
    decreases |ms|
  {
    if ms != [] {
      var before, m := ms[..|ms| - 1], ms[|ms| - 1];
      AcceptedAreGranted(before, start, stop);
      assert ms == before + [m];
      MessagePushed(before, m);
      AttemptPushed(MESSAGES, Times(before), m.at, start, stop);
      AttemptPushed(CHAT, ChatTimes(before), m.at, start, stop);
    }
  }

  lemma {:induction false} ChatTimesInOrder(ms: seq<Message>)
    requires Chronological(ms)
    ensures InOrder(ChatTimes(ms))
    ensures forall i :: 0 <= i < |ChatTimes(ms)| ==> ms != [] && ChatTimes(ms)[i] <= ms[|ms| - 1].at
    decreases |ms|
  {
    if ms != [] {
      ChatTimesInOrder(ms[..|ms| - 1]);
    }
  }

  /**
   Over any interval of s seconds of any run with a clock that never goes back, a connection
   has at most 40 + 10 s messages and at most 5 + 0.5 s chat messages accepted.
   */
  lemma BudgetHolds(ms: seq<Message>, start: int, stop: int)
    requires Chronological(ms) && start <= stop
    ensures var s := (stop - start) as real / 1000.0;
            && AcceptedIn(ms, start, stop, false) as real <= 40.0 + 10.0 * s
            && AcceptedIn(ms, start, stop, true) as real <= 5.0 + 0.5 * s
  {
    AcceptedAreGranted(ms, start, stop);
    ChatTimesInOrder(ms);
    GrantedInAnyInterval(MESSAGES, Times(ms), start, stop);
    GrantedInAnyInterval(CHAT, ChatTimes(ms), start, stop);
  }

  /** What a window of attempts that began at `start` still has room for, of a bucket of `size` and `rate`. */
  ghost predicate HasRoom(size: real, rate: real, granted: nat, start: int, now: int) {
    granted as real + 1.0 <= size + (now - start) as real / 1000.0 * rate
  }

  /**
   The general bucket lets a message through exactly when every window that ends with it stays
   within 40 messages and 10 more for each of its seconds.
   */
  lemma MessagePassesIff(before: seq<Message>, m: Message)
    requires Chronological(before + [m])
    ensures PassesGeneral(before, m) <==>
              forall from :: 0 <= from <= |before| ==>
                HasRoom(40.0, 10.0, Granted(MESSAGES, Times(before), from),
                        if from < |before| then before[from].at else m.at, m.at)
  {
    InOrderTimes(before, m);
    GrantedIffEveryWindowHasRoom(MESSAGES, Times(before), m.at);
    forall from | 0 <= from <= |before|
      ensures Left(MESSAGES, Times(before), m.at, from) >= 1.0 <==>
                HasRoom(40.0, 10.0, Granted(MESSAGES, Times(before), from),
                        if from < |before| then before[from].at else m.at, m.at)
    {
    }
  }

  /** Of those, a chat message is accepted exactly within 5 chat messages and one more every two seconds. */
  lemma ChatMessageAcceptedIff(before: seq<Message>, m: Message)
    requires Chronological(before + [m]) && m.chat
    ensures Accepted(before, m) <==>
              PassesGeneral(before, m)
              && forall from :: 0 <= from <= |ChatTimes(before)| ==>
                   HasRoom(5.0, 0.5, Granted(CHAT, ChatTimes(before), from),
                           if from < |ChatTimes(before)| then ChatTimes(before)[from] else m.at, m.at)
  {
    InOrderTimes(before, m);
    ChatInOrder(before, m);
    GrantedIffEveryWindowHasRoom(CHAT, ChatTimes(before), m.at);
    forall from | 0 <= from <= |ChatTimes(before)|
      ensures Left(CHAT, ChatTimes(before), m.at, from) >= 1.0 <==>
                HasRoom(5.0, 0.5, Granted(CHAT, ChatTimes(before), from),
                        if from < |ChatTimes(before)| then ChatTimes(before)[from] else m.at, m.at)
    {
      var all := ChatTimes(before) + [m.at];
      assert from < |ChatTimes(before)| ==> all[from] <= all[|ChatTimes(before)|];
    }
  }

  lemma InOrderTimes(before: seq<Message>, m: Message)
    requires Chronological(before + [m])
    ensures InOrder(Times(before) + [m.at]) && Chronological(before)
    ensures forall i :: 0 <= i < |before| ==> before[i].at <= m.at
  {
    var all := before + [m];
    assert forall i :: 0 <= i < |before| ==> all[i] == before[i] && all[i].at <= all[|before|].at;
    forall i, j | 0 <= i <= j < |all|
      ensures (Times(before) + [m.at])[i] <= (Times(before) + [m.at])[j]
    {
      assert all[i].at <= all[j].at;
    }
  }

  lemma ChatInOrder(before: seq<Message>, m: Message)
    requires Chronological(before + [m])
    ensures InOrder(ChatTimes(before) + [m.at])
  {
    InOrderTimes(before, m);
    ChatTimesInOrder(before);
  }

  /** The two buckets hold what the messages so far left in them. */
  predicate Accounts(log: seq<Message>, general: Bucket, chat: Bucket) {
    && log != [] && general == After(MESSAGES, Times(log))
    && (if ChatTimes(log) == [] then chat.tokens == CHAT.capacity && chat.updatedAt <= log[|log| - 1].at
        else chat == After(CHAT, ChatTimes(log)))
  }

  /** An untouched bucket stays full, however long it has been there. */
  lemma FullStaysFull(p: Policy, b: Bucket, now: int)
    requires Sane(p) && b.tokens == p.capacity && b.updatedAt <= now
    ensures Level(b, p, now) == p.capacity && Level(Bucket(p.capacity, now), p, now) == p.capacity
  {
    RefillGrows(p, 0, now - b.updatedAt);
  }

  /** The buckets asked now answer what the account over the log answers. */
  lemma AccountsDecide(log: seq<Message>, general: Bucket, chat: Bucket, m: Message)
    requires Accounts(log, general, chat) && Chronological(log + [m])
    ensures Grants(general, MESSAGES, m.at) == PassesGeneral(log, m)
    ensures Grants(chat, CHAT, m.at) == Grants(Before(CHAT, ChatTimes(log), m.at), CHAT, m.at)
    ensures Taken(chat, CHAT, m.at) == Taken(Before(CHAT, ChatTimes(log), m.at), CHAT, m.at)
  {
    assert (log + [m])[|log| - 1].at <= (log + [m])[|log|].at;
    if ChatTimes(log) == [] {
      FullStaysFull(CHAT, chat, m.at);
    }
  }

  lemma AccountsStep(log: seq<Message>, general: Bucket, chat: Bucket, m: Message)
    requires Accounts(log, general, chat) && Chronological(log + [m])
    ensures Accounts(log + [m], Taken(general, MESSAGES, m.at),
                     if m.chat && PassesGeneral(log, m) then Taken(chat, CHAT, m.at) else chat)
  {
    AccountsDecide(log, general, chat, m);
    MessagePushed(log, m);
    AttemptPushed(MESSAGES, Times(log), m.at, 0, 0);
    AttemptPushed(CHAT, ChatTimes(log), m.at, 0, 0);
    assert (log + [m])[|log| - 1].at <= (log + [m])[|log|].at;
  }

  lemma AccountsStart(m: Message)
    ensures var g, c := Bucket(MESSAGES.capacity, m.at), Bucket(CHAT.capacity, m.at);
            && Grants(g, MESSAGES, m.at) == PassesGeneral([], m)
            && Grants(c, CHAT, m.at) == Grants(Before(CHAT, ChatTimes([]), m.at), CHAT, m.at)
            && Accounts([m], Taken(g, MESSAGES, m.at), if m.chat
            && PassesGeneral([], m) then Taken(c, CHAT, m.at) else c)
  {
    assert [] + [m] == [m];
    MessagePushed([], m);
    AttemptPushed(MESSAGES, [], m.at, 0, 0);
    AttemptPushed(CHAT, [], m.at, 0, 0);
    assert [] + [m.at] == [m.at];
  }

  // ---------------------------------------------------------------- the objects

  class TokenBucket {
    var tokens: real
    var updatedAt: int

    ghost function View(): Bucket
      reads this
    {
      Bucket(tokens, updatedAt)
    }

    constructor (tokens: real, updatedAt: int)
      ensures View() == Bucket(tokens, updatedAt)
    {
      this.tokens, this.updatedAt := tokens, updatedAt;
    }

    method TakeToken(p: Policy, now: int) returns (granted: bool)
      modifies this
      ensures View() == Taken(old(View()), p, now) && granted == Grants(old(View()), p, now)
    {
      var elapsedSec := (if now - updatedAt > 0 then now - updatedAt else 0) as real / 1000.0;
      tokens := tokens + elapsedSec * p.refillPerSec;
      if tokens > p.capacity {
        tokens := p.capacity;
      }
      updatedAt := now;
      if tokens < 1.0 {
        return false;
      }
      tokens := tokens - 1.0;
      return true;
    }
  }

  /** The budget of one connection; its buckets appear with the first message. */
  class MessageBudget {
    var general: TokenBucket?
    var chat: TokenBucket?
    ghost var log: seq<Message>

    ghost predicate Valid()
      reads this, general, chat
    {
      && Chronological(log)
      && (log == [] <==> general == null)
      && (general == null <==> chat == null)
      && (general != null && chat != null ==> general != chat && Accounts(log, general.View(), chat.View()))
    }

    constructor ()
      ensures Valid() && log == []
    {
      general, chat, log := null, null, [];
    }

    /** Decides the next message as the account over all earlier ones says. */
    method Consume(m: Message) returns (accepted: bool)
      requires Valid() && Chronological(log + [m])
      modifies this, general, chat
      ensures Valid() && log == old(log) + [m] && accepted == Accepted(old(log), m)
      ensures old(general) == null ==> fresh(general) && fresh(chat)
      ensures old(general) != null ==> general == old(general) && chat == old(chat)
    {
      if general == null {
        general := new TokenBucket(MESSAGES.capacity, m.at);
        chat := new TokenBucket(CHAT.capacity, m.at);
        AccountsStart(m);
      } else {
        AccountsDecide(log, general.View(), chat.View(), m);
        AccountsStep(log, general.View(), chat.View(), m);
      }
      assert log == [] ==> log + [m] == [m];
      log := log + [m];
      accepted := general.TakeToken(MESSAGES, m.at);
      if accepted && m.chat {
        accepted := chat.TakeToken(CHAT, m.at);
      }
    }
  }
}
