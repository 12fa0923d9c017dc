/**
 Which relay a voice room gets: channels are balanced by usage, equally used channels take
 turns, and inside a channel one endpoint carries the traffic until it fails or is used up.
 */
module VoiceBudget {
  import opened Util
  import StableSort

  datatype Endpoint = Endpoint(id: string, limitBytes: real)
  datatype Channel = Channel(id: string, endpoints: seq<Endpoint>)

  /** What the usage store says of an endpoint; `None` where a read failed. */
  datatype Reading = Reading(estimated: Option<real>, actual: Option<Option<real>>)

  /** The usage store, by channel and endpoint. */
  type Meter = (string, string) -> Reading

  /** Whether an endpoint yields credentials, by channel and endpoint. */
  type Credentials = (string, string) -> bool

  datatype Selection = Selection(channel: Channel, endpoint: Endpoint)

  // ---------------------------------------------------------------- usage

  /** Actual analytics win over the estimate. */
  function UsageOf(r: Reading): real {
    if r.actual.Some? && r.actual.value.Some? then r.actual.value.value else r.estimated.GetOr(0.0)
  }

  predicate Allowed(m: Meter, c: Channel, e: Endpoint) {
    var r := m(c.id, e.id);
    r.estimated.Some? && r.actual.Some? && UsageOf(r) < e.limitBytes
  }

  function TotalUsage(m: Meter, id: string, endpoints: seq<Endpoint>): real {
    if endpoints == [] then 0.0 else UsageOf(m(id, endpoints[0].id)) + TotalUsage(m, id, endpoints[1..])
  }

  function ChannelUsage(m: Meter, c: Channel): real {
    TotalUsage(m, c.id, c.endpoints)
  }

  predicate ChannelAllowed(m: Meter, c: Channel) {
    exists i :: 0 <= i < |c.endpoints| && Allowed(m, c, c.endpoints[i])
  }

  // ---------------------------------------------------------------- the order of attempts

  function Available(m: Meter, channels: seq<Channel>): seq<StableSort.Keyed<Channel>> {
    if channels == [] then []
    else (if ChannelAllowed(m, channels[0]) then [StableSort.Keyed(ChannelUsage(m, channels[0]), channels[0])] else [])
         + Available(m, channels[1..])
  }

  function OtherKeys(xs: seq<StableSort.Keyed<Channel>>, key: real): seq<Channel> {
    if xs == [] then []
    else (if xs[0].key != key then [xs[0].item] else []) + OtherKeys(xs[1..], key)
  }

  /** The channels with the least usage, in configured order. */
  function LeastUsed(m: Meter, channels: seq<Channel>): seq<Channel> {
    var sorted := StableSort.Sort(Available(m, channels));
    if sorted == [] then [] else StableSort.OfKey(sorted, sorted[0].key)
  }

  /** The cursor modulo the number of channels. */
  function Turn(cursor: nat, n: nat): (turn: nat)
    requires n > 0
    ensures turn < n
  {
    if cursor < n then cursor else Turn(cursor - n, n)
  }

  function Rotated(cs: seq<Channel>, cursor: nat): seq<Channel>
    requires cs != []
  {
    var start := Turn(cursor, |cs|);
    cs[start..] + cs[..start]
  }

  /** The least used channels starting at the cursor, then the others by usage. */
  function Attempts(m: Meter, channels: seq<Channel>, cursor: nat): seq<Channel> {
    var sorted := StableSort.Sort(Available(m, channels));
    var least := LeastUsed(m, channels);
    if sorted == [] || least == [] then []
    else Rotated(least, cursor) + OtherKeys(sorted, sorted[0].key)
  }

  predicate Works(m: Meter, creds: Credentials, c: Channel, e: Endpoint) {
    Allowed(m, c, e) && creds(c.id, e.id)
  }

  function WithId(endpoints: seq<Endpoint>, id: string, wanted: bool): (r: seq<Endpoint>)
    ensures forall e :: e in r <==> e in endpoints && (e.id == id) == wanted
  {
    if endpoints == [] then []
    else (if (endpoints[0].id == id) == wanted then [endpoints[0]] else []) + WithId(endpoints[1..], id, wanted)
  }

  /** The remembered endpoint first, then the others in configured order. */
  function OrderedEndpoints(c: Channel, active: map<string, string>): (r: seq<Endpoint>)
    ensures forall e :: e in r <==> e in c.endpoints
  {
    if c.id in active then WithId(c.endpoints, active[c.id], true) + WithId(c.endpoints, active[c.id], false)
    else c.endpoints
  }

  function FirstWorking(m: Meter, creds: Credentials, c: Channel, endpoints: seq<Endpoint>): (r: Option<Endpoint>)
    ensures r.Some? ==> r.value in endpoints && Works(m, creds, c, r.value)
    ensures r.None? <==> forall e :: e in endpoints ==> !Works(m, creds, c, e)
  {
    if endpoints == [] then None
    else if Works(m, creds, c, endpoints[0]) then Some(endpoints[0])
    else FirstWorking(m, creds, c, endpoints[1..])
  }

  function PickEndpoint(m: Meter, creds: Credentials, c: Channel, active: map<string, string>): Option<Endpoint> {
    FirstWorking(m, creds, c, OrderedEndpoints(c, active))
  }

  function FirstChannel(
    m: Meter, creds: Credentials, order: seq<Channel>, active: map<string, string>): Option<Selection> {
    if order == [] then None
    else
      var e := PickEndpoint(m, creds, order[0], active);
      if e.Some? then Some(Selection(order[0], e.value)) else FirstChannel(m, creds, order[1..], active)
  }

  function Select(
    m: Meter, creds: Credentials, channels: seq<Channel>, cursor: nat, active: map<string, string>): Option<Selection> {
    FirstChannel(m, creds, Attempts(m, channels, cursor), active)
  }

  // ---------------------------------------------------------------- which channels are tried

  predicate HasWorking(m: Meter, creds: Credentials, c: Channel) {
    exists i :: 0 <= i < |c.endpoints| && Works(m, creds, c, c.endpoints[i])
  }

  lemma {:induction false} AvailableAre(m: Meter, channels: seq<Channel>)
    ensures forall x :: x in Available(m, channels) <==>
              x.item in channels && ChannelAllowed(m, x.item) && x.key == ChannelUsage(m, x.item)
  {
    if channels != [] {
      AvailableAre(m, channels[1..]);
    }
  }

  lemma SortedAre(m: Meter, channels: seq<Channel>)
    ensures StableSort.Ordered(StableSort.Sort(Available(m, channels)))
    ensures forall x :: x in StableSort.Sort(Available(m, channels)) <==>
              x.item in channels && ChannelAllowed(m, x.item) && x.key == ChannelUsage(m, x.item)
  {
    var all := Available(m, channels);
    StableSort.SortIsStable(all, 0.0);
    AvailableAre(m, channels);
    assert forall x :: x in StableSort.Sort(all) <==> x in multiset(StableSort.Sort(all));
    assert forall x :: x in all <==> x in multiset(all);
  }

  lemma {:induction false} KeyedItems(xs: seq<StableSort.Keyed<Channel>>, key: real)
    ensures forall c :: c in StableSort.OfKey(xs, key) <==> StableSort.Keyed(key, c) in xs
    ensures forall c :: c in OtherKeys(xs, key) <==> exists i :: 0 <= i < |xs| && xs[i].item == c && xs[i].key != key
  {
    if xs != [] {
      KeyedItems(xs[1..], key);
      assert xs == [xs[0]] + xs[1..];
    }
  }

  predicate ByUsage(m: Meter, cs: seq<Channel>) {
    forall i, j :: 0 <= i <= j < |cs| ==> ChannelUsage(m, cs[i]) <= ChannelUsage(m, cs[j])
  }

  lemma {:induction false} OthersByUsage(m: Meter, xs: seq<StableSort.Keyed<Channel>>, key: real)
    requires StableSort.Ordered(xs) && forall x :: x in xs ==> x.key == ChannelUsage(m, x.item)
    ensures ByUsage(m, OtherKeys(xs, key))
  {
    if xs != [] {
      OthersByUsage(m, xs[1..], key);
      KeyedItems(xs[1..], key);
      var others := OtherKeys(xs[1..], key);
      forall j | 0 <= j < |others|
        ensures ChannelUsage(m, xs[0].item) <= ChannelUsage(m, others[j])
      {
        assert others[j] in others;
        var i :| 0 <= i < |xs[1..]| && xs[1..][i].item == others[j] && xs[1..][i].key != key;
        assert xs[0].key <= xs[i + 1].key;
      }
    }
  }

  lemma LeastUsedAre(m: Meter, channels: seq<Channel>)
    ensures forall c :: c in LeastUsed(m, channels) ==> c in channels && ChannelAllowed(m, c)
    ensures forall c, d :: c in LeastUsed(m, channels) && d in channels && ChannelAllowed(m, d) ==>
              ChannelUsage(m, c) <= ChannelUsage(m, d)
    ensures LeastUsed(m, channels) == [] <==> forall d :: d in channels ==> !ChannelAllowed(m, d)
  {
    var sorted := StableSort.Sort(Available(m, channels));
    SortedAre(m, channels);
    if sorted == [] {
      forall d | d in channels
        ensures !ChannelAllowed(m, d)
      {
        assert StableSort.Keyed(ChannelUsage(m, d), d) !in sorted;
      }
    } else {
      KeyedItems(sorted, sorted[0].key);
      assert sorted[0].item in LeastUsed(m, channels);
      forall d | d in channels && ChannelAllowed(m, d)
        ensures sorted[0].key <= ChannelUsage(m, d)
      {
        assert StableSort.Keyed(ChannelUsage(m, d), d) in sorted;
      }
    }
  }

  lemma RotatedAre(cs: seq<Channel>, cursor: nat)
    requires cs != []
    ensures |Rotated(cs, cursor)| == |cs| && Rotated(cs, cursor)[0] == cs[Turn(cursor, |cs|)]
    ensures forall c :: c in Rotated(cs, cursor) <==> c in cs
  {
    var k := Turn(cursor, |cs|);
    assert cs == cs[..k] + cs[k..];
  }

  /** Every channel with quota is tried, nothing else is, and less used ones come first. */
  lemma AttemptsAre(m: Meter, channels: seq<Channel>, cursor: nat)
    ensures forall c :: c in Attempts(m, channels, cursor) <==> c in channels && ChannelAllowed(m, c)
    ensures ByUsage(m, Attempts(m, channels, cursor))
  {
    var sorted := StableSort.Sort(Available(m, channels));
    var least := LeastUsed(m, channels);
    SortedAre(m, channels);
    LeastUsedAre(m, channels);
    if least != [] {
      assert sorted != [];
      var key := sorted[0].key;
      KeyedItems(sorted, key);
      RotatedAre(least, cursor);
      OthersByUsage(m, sorted, key);
      var rotated, others := Rotated(least, cursor), OtherKeys(sorted, key);
      forall c
        ensures c in rotated + others <==> c in channels && ChannelAllowed(m, c)
      {
        if c in channels && ChannelAllowed(m, c) {
          assert StableSort.Keyed(ChannelUsage(m, c), c) in sorted;
        }
      }
      RotatedByUsage(m, channels, rotated, others, least);
    }
  }

  lemma RotatedByUsage(
    m: Meter, channels: seq<Channel>, rotated: seq<Channel>, others: seq<Channel>, least: seq<Channel>)
    requires least == LeastUsed(m, channels) && ByUsage(m, others)
    requires forall c :: c in rotated ==> c in least
    requires forall c :: c in others ==> c in channels && ChannelAllowed(m, c)
    ensures ByUsage(m, rotated + others)
  {
    LeastUsedAre(m, channels);
    var all := rotated + others;
    forall i, j | 0 <= i <= j < |all|
      ensures ChannelUsage(m, all[i]) <= ChannelUsage(m, all[j])
    {
      assert all[i] in all && all[j] in all;
      if i < |rotated| {
        assert all[i] in rotated && (all[j] in rotated || all[j] in others);
      } else {
        assert all[i] == others[i - |rotated|] && all[j] == others[j - |rotated|];
      }
    }
  }

  lemma PickEndpointIff(m: Meter, creds: Credentials, c: Channel, active: map<string, string>)
    ensures PickEndpoint(m, creds, c, active).Some? <==> HasWorking(m, creds, c)
  {
    if HasWorking(m, creds, c) {
      var i :| 0 <= i < |c.endpoints| && Works(m, creds, c, c.endpoints[i]);
      assert c.endpoints[i] in OrderedEndpoints(c, active);
    }
  }

  lemma {:induction false} FirstChannelIs(
    m: Meter, creds: Credentials, order: seq<Channel>, active: map<string, string>)
    returns (at: nat)
    ensures at <= |order| && forall j :: 0 <= j < at ==> !HasWorking(m, creds, order[j])
    ensures at < |order| ==>
              HasWorking(m, creds, order[at])
              && FirstChannel(m, creds, order, active)
              == Some(Selection(order[at], PickEndpoint(m, creds, order[at], active).value))
    ensures at == |order| ==> FirstChannel(m, creds, order, active).None?
  {
    if order == [] {
      at := 0;
    } else {
      PickEndpointIff(m, creds, order[0], active);
      if PickEndpoint(m, creds, order[0], active).Some? {
        at := 0;
      } else {
        var rest := FirstChannelIs(m, creds, order[1..], active);
        at := rest + 1;
      }
    }
  }

  // ---------------------------------------------------------------- the promises

  /** Nothing is selected exactly when no endpoint with quota yields credentials. */
  lemma NothingSelectedIff(
    m: Meter, creds: Credentials, channels: seq<Channel>, cursor: nat, active: map<string, string>)
    ensures Select(m, creds, channels, cursor, active).None? <==> forall c :: c in channels ==> !HasWorking(m, creds, c)
  {
    AttemptsAre(m, channels, cursor);
    var order := Attempts(m, channels, cursor);
    var at := FirstChannelIs(m, creds, order, active);
    if at < |order| {
      assert order[at] in order;
    } else {
      forall c | c in channels
        ensures !HasWorking(m, creds, c)
      {
        WorkingIsAllowed(m, creds, c);
      }
    }
  }

  lemma WorkingIsAllowed(m: Meter, creds: Credentials, c: Channel)
    ensures HasWorking(m, creds, c) ==> ChannelAllowed(m, c)
  {
    if HasWorking(m, creds, c) {
      var i :| 0 <= i < |c.endpoints| && Works(m, creds, c, c.endpoints[i]);
      assert Allowed(m, c, c.endpoints[i]);
    }
  }

  /** The selected endpoint works, and no channel with a working endpoint is used less than the selected one. */
  lemma SelectedIsLeastUsed(
    m: Meter, creds: Credentials, channels: seq<Channel>, cursor: nat, active: map<string, string>)
    requires Select(m, creds, channels, cursor, active).Some?
    ensures var s := Select(m, creds, channels, cursor, active).value;
            && s.channel in channels && s.endpoint in s.channel.endpoints && Works(m, creds, s.channel, s.endpoint)
            && forall d :: d in channels && HasWorking(m, creds, d) ==> ChannelUsage(m, s.channel) <= ChannelUsage(m, d)
  {
    AttemptsAre(m, channels, cursor);
    var order := Attempts(m, channels, cursor);
    var at := FirstChannelIs(m, creds, order, active);
    assert order[at] in order;
    PickEndpointIff(m, creds, order[at], active);
    forall d | d in channels && HasWorking(m, creds, d)
      ensures ChannelUsage(m, order[at]) <= ChannelUsage(m, d)
    {
      WorkingIsAllowed(m, creds, d);
      var k :| 0 <= k < |order| && order[k] == d;
      assert k >= at;
    }
  }

  /** The remembered endpoint of a channel carries on for as long as it works. */
  lemma RememberedEndpointWins(
    m: Meter, creds: Credentials, channels: seq<Channel>, cursor: nat, active: map<string, string>, e: Endpoint)
    requires Select(m, creds, channels, cursor, active).Some?
    requires var c := Select(m, creds, channels, cursor, active).value.channel;
             && c.id in active && e in c.endpoints && e.id == active[c.id] && Works(m, creds, c, e)
             && forall f :: f in c.endpoints && f.id == e.id ==> f == e
    ensures Select(m, creds, channels, cursor, active).value.endpoint == e
  {
    AttemptsAre(m, channels, cursor);
    var order := Attempts(m, channels, cursor);
    var at := FirstChannelIs(m, creds, order, active);
    var c := order[at];
    var remembered := WithId(c.endpoints, active[c.id], true);
    assert forall f :: f in remembered ==> f == e;
    assert remembered != [] by { assert e in remembered; }
    var all := OrderedEndpoints(c, active);
    assert all[0] == remembered[0] && remembered[0] in remembered;
  }

  /** While a channel remembers no endpoint, the first working one in configured order is taken. */
  lemma {:induction false} FailoverInOrder(m: Meter, creds: Credentials, c: Channel, endpoints: seq<Endpoint>, at: nat)
    requires at < |endpoints| && Works(m, creds, c, endpoints[at])
    requires forall j :: 0 <= j < at ==> !Works(m, creds, c, endpoints[j])
    ensures FirstWorking(m, creds, c, endpoints) == Some(endpoints[at])
  {
    if at > 0 {
      FailoverInOrder(m, creds, c, endpoints[1..], at - 1);
    }
  }

  /** So the selected channel without a memory is entered at its first working endpoint. */
  lemma SelectedFailsOverInOrder(
    m: Meter, creds: Credentials, channels: seq<Channel>, cursor: nat, active: map<string, string>, at: nat)
    requires Select(m, creds, channels, cursor, active).Some?
    requires var c := Select(m, creds, channels, cursor, active).value.channel;
             && c.id !in active && at < |c.endpoints| && Works(m, creds, c, c.endpoints[at])
             && forall j :: 0 <= j < at ==> !Works(m, creds, c, c.endpoints[j])
    ensures var s := Select(m, creds, channels, cursor, active).value; s.endpoint == s.channel.endpoints[at]
  {
    var order := Attempts(m, channels, cursor);
    var k := FirstChannelIs(m, creds, order, active);
    FailoverInOrder(m, creds, order[k], order[k].endpoints, at);
  }

  /** What counts as used, and when an endpoint may be used at all. */
  lemma QuotaIff(m: Meter, c: Channel, e: Endpoint)
    ensures var r := m(c.id, e.id);
            Allowed(m, c, e) <==>
              && r.estimated.Some? && r.actual.Some?
              && (if r.actual.value.Some? then r.actual.value.value else r.estimated.value) < e.limitBytes
  {
  }

  /** The usage of a channel is the sum over its endpoints, in any split of them. */
  lemma {:induction false} UsageAdds(m: Meter, id: string, xs: seq<Endpoint>, ys: seq<Endpoint>)
    ensures TotalUsage(m, id, xs + ys) == TotalUsage(m, id, xs) + TotalUsage(m, id, ys)
  {
    if xs == [] {
      assert xs + ys == ys;
    } else {
      UsageAdds(m, id, xs[1..], ys);
      assert (xs + ys)[1..] == xs[1..] + ys;
    }
  }

  // ---------------------------------------------------------------- taking turns

  /** The allocator's memory after a number of successive calls. */
  datatype Memory = Memory(cursor: nat, active: map<string, string>)

  function Called(m: Meter, creds: Credentials, channels: seq<Channel>, memory: Memory): Memory {
    var s := Select(m, creds, channels, memory.cursor, memory.active);
    if s.None? then memory
    else Memory(memory.cursor + 1, memory.active[s.value.channel.id := s.value.endpoint.id])
  }

  function Caller(m: Meter, creds: Credentials, channels: seq<Channel>): Memory -> Memory {
    (memory: Memory) => Called(m, creds, channels, memory)
  }

  function Repeated(call: Memory -> Memory, memory: Memory, n: nat): Memory {
    if n == 0 then memory else call(Repeated(call, memory, n - 1))
  }

  function CalledTimes(m: Meter, creds: Credentials, channels: seq<Channel>, memory: Memory, n: nat): Memory {
    Repeated(Caller(m, creds, channels), memory, n)
  }

  /** A selection is remembered for its channel and for no other, and gives the next channel its turn. */
  lemma SelectionIsRemembered(m: Meter, creds: Credentials, channels: seq<Channel>, memory: Memory)
    ensures var s := Select(m, creds, channels, memory.cursor, memory.active);
            var t := Called(m, creds, channels, memory);
            if s.None? then t == memory
            else && t.cursor == memory.cursor + 1
                 && s.value.channel.id in t.active && t.active[s.value.channel.id] == s.value.endpoint.id
                 && forall id :: id != s.value.channel.id ==>
                      (id in t.active <==> id in memory.active)
                        && (id in t.active ==> t.active[id] == memory.active[id])
  {
  }

  /** So a channel selected again uses the same endpoint while it works, whatever recovered in between. */
  lemma SelectedEndpointSticks(
    m: Meter, creds: Credentials, channels: seq<Channel>, memory: Memory, later: Meter, laterCreds: Credentials)
    requires Select(m, creds, channels, memory.cursor, memory.active).Some?
    requires var t := Called(m, creds, channels, memory);
             var first := Select(m, creds, channels, memory.cursor, memory.active).value;
             var second := Select(later, laterCreds, channels, t.cursor, t.active);
             && second.Some? && second.value.channel == first.channel
             && Works(later, laterCreds, first.channel, first.endpoint)
             && forall f :: f in first.channel.endpoints && f.id == first.endpoint.id ==> f == first.endpoint
    ensures var t := Called(m, creds, channels, memory);
            Select(later, laterCreds, channels, t.cursor, t.active).value.endpoint
            == Select(m, creds, channels, memory.cursor, memory.active).value.endpoint
  {
    var t := Called(m, creds, channels, memory);
    var first := Select(m, creds, channels, memory.cursor, memory.active).value;
    SelectedIsLeastUsed(m, creds, channels, memory.cursor, memory.active);
    RememberedEndpointWins(later, laterCreds, channels, t.cursor, t.active, first.endpoint);
  }

  predicate AllWork(m: Meter, creds: Credentials, cs: seq<Channel>) {
    cs != [] && forall i :: 0 <= i < |cs| ==> HasWorking(m, creds, cs[i])
  }

  lemma TurnIsTaken(m: Meter, creds: Credentials, channels: seq<Channel>, memory: Memory)
    requires AllWork(m, creds, LeastUsed(m, channels))
    ensures var least := LeastUsed(m, channels);
            Chosen(m, creds, channels, memory, least[Turn(memory.cursor, |least|)])
  {
    var least := LeastUsed(m, channels);
    RotatedAre(least, memory.cursor);
    var order := Attempts(m, channels, memory.cursor);
    assert order[0] == least[Turn(memory.cursor, |least|)];
    PickEndpointIff(m, creds, order[0], memory.active);
  }

  /** The next call selects the channel. */
  predicate Chosen(m: Meter, creds: Credentials, channels: seq<Channel>, memory: Memory, c: Channel) {
    var s := Select(m, creds, channels, memory.cursor, memory.active);
    s.Some? && s.value.channel == c
  }

  lemma CallCounts(m: Meter, creds: Credentials, channels: seq<Channel>, memory: Memory)
    requires AllWork(m, creds, LeastUsed(m, channels))
    ensures Called(m, creds, channels, memory).cursor == memory.cursor + 1
  {
    TurnIsTaken(m, creds, channels, memory);
  }

  ghost predicate Advances(call: Memory -> Memory) {
    forall memory: Memory :: call(memory).cursor == memory.cursor + 1
  }

  lemma EveryCallCounts(m: Meter, creds: Credentials, channels: seq<Channel>)
    requires AllWork(m, creds, LeastUsed(m, channels))
    ensures Advances(Caller(m, creds, channels))
  {
    forall memory: Memory
      ensures Caller(m, creds, channels)(memory).cursor == memory.cursor + 1
    {
      CallCounts(m, creds, channels, memory);
    }
  }

  lemma {:induction false} CursorCounts(call: Memory -> Memory, memory: Memory, n: nat)
    requires Advances(call)
    ensures Repeated(call, memory, n).cursor == memory.cursor + n
  {
    if n > 0 {
      CursorCounts(call, memory, n - 1);
    }
  }

  /** With n equally used working channels, n successive calls select every one of them. */
  lemma EveryChannelGetsATurn(m: Meter, creds: Credentials, channels: seq<Channel>, memory: Memory, c: Channel)
    requires AllWork(m, creds, LeastUsed(m, channels)) && c in LeastUsed(m, channels)
    ensures exists k: nat ::
              k < |LeastUsed(m, channels)| && Chosen(m, creds, channels, CalledTimes(m, creds, channels, memory, k), c)
  {
    var least := LeastUsed(m, channels);
    var i :| 0 <= i < |least| && least[i] == c;
    var k := TurnComesUp(memory.cursor, |least|, i);
    EveryCallCounts(m, creds, channels);
    CursorCounts(Caller(m, creds, channels), memory, k);
    TurnIsTakenAt(m, creds, channels, CalledTimes(m, creds, channels, memory, k), i);
  }

  lemma TurnIsTakenAt(m: Meter, creds: Credentials, channels: seq<Channel>, memory: Memory, i: nat)
    requires AllWork(m, creds, LeastUsed(m, channels)) && i < |LeastUsed(m, channels)|
    requires Turn(memory.cursor, |LeastUsed(m, channels)|) == i
    ensures Chosen(m, creds, channels, memory, LeastUsed(m, channels)[i])
  {
    TurnIsTaken(m, creds, channels, memory);
  }

  /** Taking turns is counting modulo the number of channels. */
  lemma {:induction false} TurnIsRemainder(cursor: nat, n: nat) returns (q: nat)
    requires n > 0
    ensures cursor == q * n + Turn(cursor, n)
  {
    if cursor < n {
      q := 0;
    } else {
      var before := TurnIsRemainder(cursor - n, n);
      q := before + 1;
      assert q * n == before * n + n;
    }
  }

  lemma {:induction false} TurnAhead(cursor: nat, n: nat, k: nat)
    requires k < n
    ensures var at := Turn(cursor, n); Turn(cursor + k, n) == if at + k < n then at + k else at + k - n
  {
    if cursor >= n {
      TurnAhead(cursor - n, n, k);
    }
  }

  lemma TurnComesUp(cursor: nat, n: nat, i: nat) returns (k: nat)
    requires i < n
    ensures k < n && Turn(cursor + k, n) == i
  {
    var at := Turn(cursor, n);
    k := if i >= at then i - at else i + n - at;
    TurnAhead(cursor, n, k);
  }

  // ---------------------------------------------------------------- accounting

  datatype RoomUsage = RoomUsage(participants: int, channel: Option<string>, endpoint: Option<string>)

  type Account = (string, string)

  /** A room is charged when at least two people talk through a relay. */
  predicate Charged(room: RoomUsage) {
    room.participants >= 2 && room.channel.Some? && room.endpoint.Some?
  }

  function Bytes(room: RoomUsage, kbps: real, tickSeconds: real): real {
    (room.participants * (room.participants - 1)) as real * kbps * 1000.0 * tickSeconds / 8.0
  }

  /** What the rooms owe to one endpoint. */
  function Owed(rooms: seq<RoomUsage>, account: Account, kbps: real, tickSeconds: real): real {
    if rooms == [] then 0.0
    else
      var room := rooms[|rooms| - 1];
      Owed(rooms[..|rooms| - 1], account, kbps, tickSeconds)
      + if Charged(room) && (room.channel.value, room.endpoint.value)
        == account then Bytes(room, kbps, tickSeconds) else 0.0
  }

  /** Every participant is sent everybody else's audio: kbps * 125 bytes a second for each ordered pair. */
  lemma RelayedVolume(room: RoomUsage, kbps: real, tickSeconds: real, account: Account)
    ensures room.participants >= 2 && room.channel == Some(account.0) && room.endpoint == Some(account.1) ==>
              Owed([room], account, kbps, tickSeconds)
              == (room.participants * room.participants - room.participants) as real * (kbps * 125.0 * tickSeconds)
    ensures room.participants < 2 || room.channel.None? || room.endpoint.None? ==>
              Owed([room], account, kbps, tickSeconds) == 0.0
  {
    var pairs := (room.participants * (room.participants - 1)) as real;
    assert room.participants * (room.participants - 1) == room.participants * room.participants - room.participants;
    assert pairs * kbps * 1000.0 * tickSeconds / 8.0 == pairs * (kbps * 125.0 * tickSeconds);
    assert [room][..0] == [];
  }

  predicate Owes(rooms: seq<RoomUsage>, account: Account) {
    exists i :: 0 <= i < |rooms| && Charged(rooms[i]) && (rooms[i].channel.value, rooms[i].endpoint.value) == account
  }

  /** Accrues one tick by endpoint: an account exists for exactly the endpoints some charged room uses,
    and holds all they owe. */
  method RecordUsage(rooms: seq<RoomUsage>, kbps: real, tickSeconds: real) returns (perEndpoint: map<Account, real>)
    ensures forall account :: account in perEndpoint <==> Owes(rooms, account)
    ensures forall account :: account in perEndpoint ==> perEndpoint[account] == Owed(rooms, account, kbps, tickSeconds)
  {
    perEndpoint := map[];
    var i := 0;
    while i < |rooms|
      invariant 0 <= i <= |rooms|
      invariant forall account :: account in perEndpoint <==> Owes(rooms[..i], account)
      invariant forall account :: Owed(rooms[..i], account, kbps, tickSeconds)
                                  == if account in perEndpoint then perEndpoint[account] else 0.0
    {
      var room := rooms[i];
      ghost var done := rooms[..i];
      assert rooms[..i + 1] == done + [room];
      assert rooms[..i + 1][..i] == done;
      assert forall account :: Owes(done + [room], account) <==>
          Owes(done, account) || (Charged(room) && (room.channel.value, room.endpoint.value) == account) by {
        forall account ensures Owes(done + [room], account) <==>
            Owes(done, account) || (Charged(room) && (room.channel.value, room.endpoint.value) == account) {
          OneMoreOwes(done, room, account);
        }
      }
      if Charged(room) {
        var bytes := Bytes(room, kbps, tickSeconds);
        var key := (room.channel.value, room.endpoint.value);
        perEndpoint := perEndpoint[key := if key in perEndpoint then perEndpoint[key] + bytes else bytes];
      }
      i := i + 1;
    }
    assert rooms[..i] == rooms;
  }

  lemma OneMoreOwes(done: seq<RoomUsage>, room: RoomUsage, account: Account)
    ensures Owes(done + [room], account) <==>
              Owes(done, account) || (Charged(room) && (room.channel.value, room.endpoint.value) == account)
  {
    var all := done + [room];
    if Owes(done, account) {
      var i :| 0 <= i < |done| && Charged(done[i]) && (done[i].channel.value, done[i].endpoint.value) == account;
      assert all[i] == done[i];
    }
    assert all[|done|] == room;
  }

  // ---------------------------------------------------------------- the object

  class Allocator {
    const channels: seq<Channel>
    var channelCursor: nat
    var activeEndpoints: map<string, string>

    ghost function View(): Memory
      reads this
    {
      Memory(channelCursor, activeEndpoints)
    }

    constructor (channels: seq<Channel>)
      ensures this.channels == channels && View() == Memory(0, map[])
    {
      this.channels, channelCursor, activeEndpoints := channels, 0, map[];
    }

    method TryChannel(m: Meter, creds: Credentials, c: Channel) returns (e: Option<Endpoint>)
      ensures e == PickEndpoint(m, creds, c, activeEndpoints)
    {
      var ordered := OrderedEndpoints(c, activeEndpoints);
      var i := 0;
      while i < |ordered|
        invariant 0 <= i <= |ordered|
        invariant FirstWorking(m, creds, c, ordered) == FirstWorking(m, creds, c, ordered[i..])
      {
        if Works(m, creds, c, ordered[i]) {
          return Some(ordered[i]);
        }
        assert ordered[i..][1..] == ordered[i + 1..];
        i := i + 1;
      }
      return None;
    }

    method SelectRelayChannel(m: Meter, creds: Credentials) returns (s: Option<Selection>)
      modifies this
      ensures s == Select(m, creds, channels, old(channelCursor), old(activeEndpoints))
      ensures View() == Called(m, creds, channels, old(View()))
    {
      var order := Attempts(m, channels, channelCursor);
      var i := 0;
      while i < |order|
        invariant 0 <= i <= |order| && View() == old(View())
        invariant FirstChannel(m, creds, order, activeEndpoints) == FirstChannel(m, creds, order[i..], activeEndpoints)
      {
        var endpoint := TryChannel(m, creds, order[i]);
        if endpoint.Some? {
          s := Some(Selection(order[i], endpoint.value));
          activeEndpoints := activeEndpoints[order[i].id := endpoint.value.id];
          channelCursor := channelCursor + 1;
          return;
        }
        assert order[i..][1..] == order[i + 1..];
        i := i + 1;
      }
      return None;
    }
  }
}
