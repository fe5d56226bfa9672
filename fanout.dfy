/**
 * `distributeUpdatesToServers`: post the patch notes to every configured
 * guild channel and then to every direct-message subscriber.
 *
 * The concurrent `Promise.allSettled` over a batch is run sequentially in
 * list order, and the `setTimeout` pauses are no-ops.  The Discord client is
 * replaced by a fake transport; the result is the ordered trace of the sends
 * that went through.
 */
module Fanout {
  import opened Common
  import opened Chunking
  import opened Registry

  /** Recipients are processed ten at a time. */
  const BatchSize := 10

  /** `MessageFlags.SuppressNotifications` (1 << 12). */
  const SuppressNotifications := 4096

  const ServerAnnouncement := " **New Cities Skylines 2 Patch Notes Available!**\n"
  const DmAnnouncement := "**New Cities Skylines 2 Patch Notes!**\n"

  /** One entry of `Object.entries(serverConfigs)` or of `Object.entries(dmUserConfigs)`. */
  datatype Recipient =
    | Guild(guildId: string, server: ServerConfig)
    | DirectUser(userId: string, dm: DmConfig)

  /** Where a send goes: a guild's configured channel, or a user's direct messages. */
  datatype Destination = Channel(guildId: string, channelId: string) | User(userId: string)

  /** One message that the transport accepted. */
  datatype SendEvent = Send(to: Destination, content: string, flags: nat)

  /**
   * The fake transport: the ids that `channels.fetch`/`users.fetch` cannot
   * resolve (or throw on), and, per id, the index of the send to it that
   * throws.
   */
  datatype Transport = Transport(unresolvable: set<string>, failAt: map<string, nat>)

  /** The id the transport resolves: the configured channel, or the user. */
  function ResolveId(r: Recipient): (id: string) {
    match r
    case Guild(_, config) => config.channelId
    case DirectUser(userId, _) => userId
  }

  function DestinationOf(r: Recipient): (d: Destination) {
    match r
    case Guild(guildId, config) => Channel(guildId, config.channelId)
    case DirectUser(userId, _) => User(userId)
  }

  /**
   * `config.pingRoleId ? `<@&${config.pingRoleId}>` : ''`: the role mention
   * when a role id is set (and not empty), otherwise nothing.
   */
  function RoleMention(pingRoleId: Option<string>): (m: string)
    ensures m != "" <==> Truthy(pingRoleId)
    ensures Truthy(pingRoleId) ==>
      |m| == |pingRoleId.value| + 4 && m[..3] == "<@&" && m[3..|m| - 1] == pingRoleId.value && m[|m| - 1] == '>'
  {
    if Truthy(pingRoleId) then "<@&" + pingRoleId.value + ">" else ""
  }

  /** The announcement that precedes the notes. */
  function Header(r: Recipient, url: string): (h: string) {
    match r
    case Guild(_, config) => RoleMention(config.pingRoleId) + ServerAnnouncement + url
    case DirectUser(_, _) => DmAnnouncement + url
  }

  /**
   * The shape of a header: it ends with the thread URL; a guild's starts with
   * the role mention (or nothing), then the guild announcement; a user's
   * starts with the direct-message announcement and has no mention.
   */
  lemma HeaderShape(r: Recipient, url: string)
    ensures var h := Header(r, url);
      && |h| >= |url| && h[|h| - |url|..] == url
      && (r.Guild? ==>
            var m := RoleMention(r.server.pingRoleId);
            && |h| == |m| + |ServerAnnouncement| + |url|
            && h[..|m|] == m
            && h[|m|..|m| + |ServerAnnouncement|] == ServerAnnouncement)
      && (r.DirectUser? ==> |h| == |DmAnnouncement| + |url| && h[..|DmAnnouncement|] == DmAnnouncement)
  {
  }

  /** The flags of part `k`: in a guild every part after the first is silent; direct messages are never flagged. */
  function PartFlags(r: Recipient, k: nat): (f: nat)
    ensures f == 0 || f == SuppressNotifications
    ensures f == SuppressNotifications <==> r.Guild? && k > 0
  {
    if r.Guild? && k > 0 then SuppressNotifications else 0
  }

  /** Every send a recipient should get: the header, then each part in order. */
  function Plan(r: Recipient, url: string, parts: seq<string>): (plan: seq<SendEvent>) {
    [Send(DestinationOf(r), Header(r, url), 0)]
      + seq(|parts|, k requires 0 <= k < |parts| => Send(DestinationOf(r), parts[k], PartFlags(r, k)))
  }

  /** Whether the transport accepts the send with index `k` to `id`. */
  predicate Accepts(t: Transport, id: string, k: nat) {
    !(id in t.failAt && t.failAt[id] == k)
  }

  /**
   * The sends that reach one recipient: none when its destination cannot be
   * resolved, otherwise its plan up to the first send that throws.
   */
  function Delivered(r: Recipient, url: string, parts: seq<string>, t: Transport): (sent: seq<SendEvent>) {
    var id := ResolveId(r);
    var plan := Plan(r, url, parts);
    if id in t.unresolvable then []
    else if id in t.failAt && t.failAt[id] < |plan| then plan[..t.failAt[id]]
    else plan
  }

  /** The sends to a list of recipients, one recipient after the other. */
  function Trace(rs: seq<Recipient>, url: string, parts: seq<string>, t: Transport): (trace: seq<SendEvent>) {
    if rs == [] then [] else Delivered(rs[0], url, parts, t) + Trace(rs[1..], url, parts, t)
  }

  function Guilds(entries: seq<(string, ServerConfig)>): (rs: seq<Recipient>)
    ensures |rs| == |entries|
    ensures forall i :: 0 <= i < |rs| ==> rs[i] == Guild(entries[i].0, entries[i].1)
  {
    seq(|entries|, i requires 0 <= i < |entries| => Guild(entries[i].0, entries[i].1))
  }

  function DirectUsers(entries: seq<(string, DmConfig)>): (rs: seq<Recipient>)
    ensures |rs| == |entries|
    ensures forall i :: 0 <= i < |rs| ==> rs[i] == DirectUser(entries[i].0, entries[i].1)
  {
    seq(|entries|, i requires 0 <= i < |entries| => DirectUser(entries[i].0, entries[i].1))
  }

  /** Everything one distribution sends: all guilds first, then all direct messages. */
  function DistributionTrace(url: string, content: string, servers: seq<(string, ServerConfig)>,
                             dms: seq<(string, DmConfig)>, t: Transport): (trace: seq<SendEvent>)
  {
    Trace(Guilds(servers), url, Chunks(content), t) + Trace(DirectUsers(dms), url, Chunks(content), t)
  }

  /** The contents of a list of sends. */
  function Contents(events: seq<SendEvent>): (texts: seq<string>)
    ensures |texts| == |events|
    ensures forall i :: 0 <= i < |events| ==> texts[i] == events[i].content
  {
    seq(|events|, i requires 0 <= i < |events| => events[i].content)
  }

  /** The sends of a trace addressed to `d`, in order. */
  function ForDestination(events: seq<SendEvent>, d: Destination): (mine: seq<SendEvent>) {
    if events == [] then []
    else (if events[0].to == d then [events[0]] else []) + ForDestination(events[1..], d)
  }

  // ---------------------------------------------------------------------------
  // The distribution, step by step

  /**
   * The body of one `batch.map(async ...)` callback: resolve the destination,
   * send the header, then each part, and stop at the first send that throws.
   */
  method SendTo(r: Recipient, url: string, parts: seq<string>, t: Transport) returns (sent: seq<SendEvent>)
    ensures sent == Delivered(r, url, parts, t)
  {
    var id := ResolveId(r);
    if id in t.unresolvable {
      return [];
    }
    ghost var plan := Plan(r, url, parts);
    var to := DestinationOf(r);
    if !Accepts(t, id, 0) {
      return [];
    }
    sent := [Send(to, Header(r, url), 0)];
    var k := 0;
    while k < |parts|
      invariant 0 <= k <= |parts|
      invariant sent == plan[..k + 1]
      invariant id in t.failAt ==> t.failAt[id] > k
    {
      if !Accepts(t, id, k + 1) {
        return;
      }
      sent := sent + [Send(to, parts[k], PartFlags(r, k))];
      k := k + 1;
    }
  }

  /**
   * `Promise.allSettled(batch.map(...))`, run in list order: each member of
   * the batch gets its own delivery, whatever happened to the others.
   */
  method DeliverBatch(batch: seq<Recipient>, url: string, parts: seq<string>, t: Transport) returns (sent: seq<SendEvent>)
    ensures sent == Trace(batch, url, parts, t)
  {
    sent := [];
    var j := 0;
    while j < |batch|
      invariant 0 <= j <= |batch|
      invariant sent == Trace(batch[..j], url, parts, t)
    {
      var one := SendTo(batch[j], url, parts, t);
      assert batch[..j + 1] == batch[..j] + [batch[j]];
      TraceSnoc(batch[..j], batch[j], url, parts, t);
      sent := sent + one;
      j := j + 1;
    }
    assert batch[..j] == batch;
  }

  /**
   * The `for (let i = 0; i < entries.length; i += batchSize)` loop: slice a
   * batch with `slice(i, i + batchSize)`, deliver to it, move on.
   */
  method DeliverInBatches(rs: seq<Recipient>, url: string, parts: seq<string>, t: Transport)
    returns (trace: seq<SendEvent>, batches: seq<seq<Recipient>>)
    ensures trace == Trace(rs, url, parts, t)
    ensures batches == Slices(rs, BatchSize)
  {
    var n := |rs|;
    trace, batches := [], [];
    var i := 0;
    ghost var done := 0;
    while i < n
      invariant 0 <= i && done == Min(i, n)
      invariant batches + Slices(rs[done..], BatchSize) == Slices(rs, BatchSize)
      invariant trace == Trace(rs[..done], url, parts, t)
      decreases n - i
    {
      var end := Min(i + BatchSize, n);
      var batch := rs[i..end];
      var sent := DeliverBatch(batch, url, parts, t);
      TraceStep(rs, i, end, url, parts, t);
      BatchListStep(rs, i, end, batches);
      trace := trace + sent;
      batches := batches + [batch];
      i := i + BatchSize;
      done := end;
    }
    assert rs[..n] == rs;
  }

  /**
   * The whole distribution: guild batches, then direct-message batches, both
   * over the same chunks of the notes.
   */
  method Distribute(url: string, content: string, servers: seq<(string, ServerConfig)>,
                    dms: seq<(string, DmConfig)>, t: Transport)
    returns (trace: seq<SendEvent>, serverBatches: seq<seq<Recipient>>, dmBatches: seq<seq<Recipient>>)
    ensures trace == DistributionTrace(url, content, servers, dms, t)
    ensures serverBatches == Slices(Guilds(servers), BatchSize)
    ensures dmBatches == Slices(DirectUsers(dms), BatchSize)
  {
    var parts := Chunks(content);
    var serverTrace, dmTrace;
    serverTrace, serverBatches := DeliverInBatches(Guilds(servers), url, parts, t);
    dmTrace, dmBatches := DeliverInBatches(DirectUsers(dms), url, parts, t);
    trace := serverTrace + dmTrace;
  }

  // ---------------------------------------------------------------------------
  // Lemmas

  /** The trace of two lists of recipients is the trace of the first followed by that of the second. */
  lemma {:induction false} TraceAppend(a: seq<Recipient>, b: seq<Recipient>, url: string, parts: seq<string>, t: Transport)
    ensures Trace(a + b, url, parts, t) == Trace(a, url, parts, t) + Trace(b, url, parts, t)
  {
    if a == [] {
      assert a + b == b;
    } else {
      assert (a + b)[1..] == a[1..] + b;
      TraceAppend(a[1..], b, url, parts, t);
    }
  }

  /** One more recipient at the end adds its own delivery at the end. */
  lemma TraceSnoc(rs: seq<Recipient>, r: Recipient, url: string, parts: seq<string>, t: Transport)
    ensures Trace(rs + [r], url, parts, t) == Trace(rs, url, parts, t) + Delivered(r, url, parts, t)
  {
    TraceAppend(rs, [r], url, parts, t);
    assert [r][1..] == [];
  }

  /** The trace invariant of the batch loop survives one batch. */
  lemma TraceStep(rs: seq<Recipient>, i: nat, end: nat, url: string, parts: seq<string>, t: Transport)
    requires i <= end <= |rs|
    ensures Trace(rs[..end], url, parts, t) == Trace(rs[..i], url, parts, t) + Trace(rs[i..end], url, parts, t)
  {
    assert rs[..end] == rs[..i] + rs[i..end];
    TraceAppend(rs[..i], rs[i..end], url, parts, t);
  }

  /** The batch-list invariant of the batch loop survives one batch. */
  lemma BatchListStep(rs: seq<Recipient>, i: nat, end: nat, batches: seq<seq<Recipient>>)
    requires i < end == Min(i + BatchSize, |rs|)
    ensures batches + Slices(rs[i..], BatchSize) == (batches + [rs[i..end]]) + Slices(rs[end..], BatchSize)
  {
    SlicesFrom(rs, i, end);
  }

  /** Slicing from a batch boundary: one batch, then the slices of what follows it. */
  lemma SlicesFrom(rs: seq<Recipient>, i: nat, end: nat)
    requires i < end == Min(i + BatchSize, |rs|)
    ensures Slices(rs[i..], BatchSize) == [rs[i..end]] + Slices(rs[end..], BatchSize)
  {
    if |rs| - i <= BatchSize {
      assert rs[i..] == rs[i..end];
      assert rs[end..] == [];
    } else {
      assert rs[i..][..BatchSize] == rs[i..end];
      assert rs[i..][BatchSize..] == rs[end..];
    }
  }

  /**
   * Batching: N recipients make ceil(N / 10) batches of at most ten, the
   * batches in order are exactly the recipients, and no recipient means no
   * batch.
   */
  lemma BatchesPartition(rs: seq<Recipient>)
    ensures |Slices(rs, BatchSize)| == (|rs| + BatchSize - 1) / BatchSize
    ensures Flatten(Slices(rs, BatchSize)) == rs
    ensures forall i :: 0 <= i < |Slices(rs, BatchSize)| ==> 0 < |Slices(rs, BatchSize)[i]| <= BatchSize
    ensures rs == [] <==> Slices(rs, BatchSize) == []
  {
    var m := |Slices(rs, BatchSize)|;
    assert (m - 1) * BatchSize < |rs| <= m * BatchSize;
  }

  /** Every send in a recipient's trace goes to that recipient. */
  lemma DeliveredAddressed(r: Recipient, url: string, parts: seq<string>, t: Transport)
    ensures forall e :: e in Delivered(r, url, parts, t) ==> e.to == DestinationOf(r)
  {
    var plan := Plan(r, url, parts);
    assert forall e :: e in plan ==> e.to == DestinationOf(r);
  }

  /** Filtering distributes over concatenation. */
  lemma {:induction false} ForDestinationAppend(a: seq<SendEvent>, b: seq<SendEvent>, d: Destination)
    ensures ForDestination(a + b, d) == ForDestination(a, d) + ForDestination(b, d)
  {
    if a == [] {
      assert a + b == b;
    } else {
      var ab := a + b;
      var h := if a[0].to == d then [a[0]] else [];
      assert ab[0] == a[0];
      assert ab[1..] == a[1..] + b;
      assert ForDestination(ab, d) == h + ForDestination(a[1..] + b, d);
      assert ForDestination(a, d) == h + ForDestination(a[1..], d);
      ForDestinationAppend(a[1..], b, d);
    }
  }

  /** Filtering sends that all go to `e`: everything when `e` is `d`, nothing otherwise. */
  lemma {:induction false} ForDestinationUniform(events: seq<SendEvent>, e: Destination, d: Destination)
    requires forall x :: x in events ==> x.to == e
    ensures ForDestination(events, d) == if e == d then events else []
  {
    if events != [] {
      assert events[0] in events;
      ForDestinationUniform(events[1..], e, d);
      assert events == [events[0]] + events[1..];
    }
  }

  /** No two recipients of the list share a destination (the registry's keys are unique). */
  predicate DistinctDestinations(rs: seq<Recipient>) {
    forall i, j :: 0 <= i < j < |rs| ==> DestinationOf(rs[i]) != DestinationOf(rs[j])
  }

  /** A destination that no recipient of the list has receives nothing. */
  lemma {:induction false} TraceMissesOthers(rs: seq<Recipient>, d: Destination, url: string, parts: seq<string>, t: Transport)
    requires forall i :: 0 <= i < |rs| ==> DestinationOf(rs[i]) != d
    ensures ForDestination(Trace(rs, url, parts, t), d) == []
  {
    if rs != [] {
      TraceFilterHead(rs, d, url, parts, t);
      TraceMissesOthers(rs[1..], d, url, parts, t);
    }
  }

  /** Filtering a trace: the first recipient's delivery when it is addressed to `d`, then the rest filtered. */
  lemma TraceFilterHead(rs: seq<Recipient>, d: Destination, url: string, parts: seq<string>, t: Transport)
    requires rs != []
    ensures ForDestination(Trace(rs, url, parts, t), d)
      == (if DestinationOf(rs[0]) == d then Delivered(rs[0], url, parts, t) else [])
         + ForDestination(Trace(rs[1..], url, parts, t), d)
  {
    var head := Delivered(rs[0], url, parts, t);
    var tail := Trace(rs[1..], url, parts, t);
    assert Trace(rs, url, parts, t) == head + tail;
    ForDestinationAppend(head, tail, d);
    DeliveredAddressed(rs[0], url, parts, t);
    ForDestinationUniform(head, DestinationOf(rs[0]), d);
  }

  /**
   * Failure isolation: what a recipient receives is exactly its own
   * delivery, whatever the transport does for the others; an unresolvable
   * destination or a throwing send ends only that recipient's sends.
   */
  lemma {:induction false} FailureIsolation(rs: seq<Recipient>, k: nat, url: string, parts: seq<string>, t: Transport)
    requires DistinctDestinations(rs)
    requires k < |rs|
    ensures ForDestination(Trace(rs, url, parts, t), DestinationOf(rs[k])) == Delivered(rs[k], url, parts, t)
  {
    var d := DestinationOf(rs[k]);
    TraceFilterHead(rs, d, url, parts, t);
    if k == 0 {
      TraceMissesOthers(rs[1..], d, url, parts, t);
    } else {
      FailureIsolation(rs[1..], k - 1, url, parts, t);
    }
  }

  /** A recipient's delivery depends only on how the transport treats that recipient's own id. */
  lemma DeliveryDependsOnOwnIdOnly(r: Recipient, url: string, parts: seq<string>, t1: Transport, t2: Transport)
    requires (ResolveId(r) in t1.unresolvable) == (ResolveId(r) in t2.unresolvable)
    requires (ResolveId(r) in t1.failAt) == (ResolveId(r) in t2.failAt)
    requires ResolveId(r) in t1.failAt ==> t1.failAt[ResolveId(r)] == t2.failAt[ResolveId(r)]
    ensures Delivered(r, url, parts, t1) == Delivered(r, url, parts, t2)
  {
  }

  /**
   * A failure stops the remaining sends of that recipient: the sends that
   * went through are the first ones of its plan, up to the send that threw.
   */
  lemma DeliveredStopsAtFailure(r: Recipient, url: string, parts: seq<string>, t: Transport)
    ensures var sent := Delivered(r, url, parts, t);
      var plan := Plan(r, url, parts);
      var id := ResolveId(r);
      && sent == plan[..|sent|]
      && (id in t.unresolvable ==> sent == [])
      && (id !in t.unresolvable && id in t.failAt && t.failAt[id] <= |parts| ==> |sent| == t.failAt[id])
      && (id !in t.unresolvable && (id !in t.failAt || t.failAt[id] > |parts|) ==> |sent| == 1 + |parts|)
  {
  }

  /** A recipient's plan: the header, then part `k` as send `k + 1`, all to the recipient. */
  lemma PlanShape(r: Recipient, url: string, parts: seq<string>)
    ensures var plan := Plan(r, url, parts);
      && |plan| == 1 + |parts|
      && plan[0] == Send(DestinationOf(r), Header(r, url), 0)
      && forall k :: 0 <= k < |parts| ==> plan[k + 1] == Send(DestinationOf(r), parts[k], PartFlags(r, k))
  {
  }

  /**
   * The sends a guild receives when nothing fails for its channel: the
   * header with the optional role mention and the thread URL, then every
   * chunk of the notes in order, the first unflagged and the others silent;
   * the chunks put back together give the notes.
   */
  lemma ServerSendSequence(guildId: string, config: ServerConfig, url: string, content: string, t: Transport)
    requires config.channelId !in t.unresolvable
    requires config.channelId in t.failAt ==> t.failAt[config.channelId] > |Chunks(content)|
    ensures var sent := Delivered(Guild(guildId, config), url, Chunks(content), t);
      && |sent| == 1 + |Chunks(content)|
      && (forall e :: e in sent ==> e.to == Channel(guildId, config.channelId))
      && (Truthy(config.pingRoleId) ==> sent[0].content == "<@&" + config.pingRoleId.value + ">" + ServerAnnouncement + url)
      && (!Truthy(config.pingRoleId) ==> sent[0].content == ServerAnnouncement + url)
      && sent[0].flags == 0
      && (forall k :: 0 <= k < |Chunks(content)| ==> sent[k + 1].content == Chunks(content)[k])
      && (forall k :: 1 <= k < |sent| ==> sent[k].flags == if k == 1 then 0 else SuppressNotifications)
      && Flatten(Contents(sent[1..])) == content
  {
    var r := Guild(guildId, config);
    var parts := Chunks(content);
    var sent := Delivered(r, url, parts, t);
    assert sent == Plan(r, url, parts);
    PlanShape(r, url, parts);
    DeliveredAddressed(r, url, parts, t);
    assert Contents(sent[1..]) == parts;
  }

  /**
   * The sends a direct-message user receives when nothing fails for them:
   * a header without a mention, then every chunk in order, all unflagged.
   */
  lemma DmSendSequence(userId: string, config: DmConfig, url: string, content: string, t: Transport)
    requires userId !in t.unresolvable
    requires userId in t.failAt ==> t.failAt[userId] > |Chunks(content)|
    ensures var sent := Delivered(DirectUser(userId, config), url, Chunks(content), t);
      && |sent| == 1 + |Chunks(content)|
      && (forall e :: e in sent ==> e.to == User(userId) && e.flags == 0)
      && sent[0].content == DmAnnouncement + url
      && (forall k :: 0 <= k < |Chunks(content)| ==> sent[k + 1].content == Chunks(content)[k])
      && Flatten(Contents(sent[1..])) == content
  {
    var r := DirectUser(userId, config);
    var parts := Chunks(content);
    var sent := Delivered(r, url, parts, t);
    assert sent == Plan(r, url, parts);
    PlanShape(r, url, parts);
    DeliveredAddressed(r, url, parts, t);
    assert Contents(sent[1..]) == parts;
  }

  /** Every send of a trace over guilds goes to a channel. */
  lemma {:induction false} GuildTraceToChannels(rs: seq<Recipient>, url: string, parts: seq<string>, t: Transport)
    requires forall i :: 0 <= i < |rs| ==> rs[i].Guild?
    ensures forall e :: e in Trace(rs, url, parts, t) ==> e.to.Channel?
  {
    if rs != [] {
      DeliveredAddressed(rs[0], url, parts, t);
      GuildTraceToChannels(rs[1..], url, parts, t);
    }
  }

  /** Every send of a trace over direct-message users goes to a user. */
  lemma {:induction false} UserTraceToUsers(rs: seq<Recipient>, url: string, parts: seq<string>, t: Transport)
    requires forall i :: 0 <= i < |rs| ==> rs[i].DirectUser?
    ensures forall e :: e in Trace(rs, url, parts, t) ==> e.to.User?
  {
    if rs != [] {
      DeliveredAddressed(rs[0], url, parts, t);
      UserTraceToUsers(rs[1..], url, parts, t);
    }
  }

  /** All guild sends happen before any direct-message send. */
  lemma ServersBeforeDms(url: string, content: string, servers: seq<(string, ServerConfig)>,
                         dms: seq<(string, DmConfig)>, t: Transport)
    ensures var trace := DistributionTrace(url, content, servers, dms, t);
      forall i, j :: 0 <= i < |trace| && 0 <= j < |trace| && trace[i].to.User? && trace[j].to.Channel? ==> j < i
  {
    var parts := Chunks(content);
    GuildTraceToChannels(Guilds(servers), url, parts, t);
    UserTraceToUsers(DirectUsers(dms), url, parts, t);
    ChannelsThenUsers(Trace(Guilds(servers), url, parts, t), Trace(DirectUsers(dms), url, parts, t));
  }

  /** Channel sends followed by user sends: every channel send precedes every user send. */
  lemma ChannelsThenUsers(a: seq<SendEvent>, b: seq<SendEvent>)
    requires forall e :: e in a ==> e.to.Channel?
    requires forall e :: e in b ==> e.to.User?
    ensures forall i, j :: 0 <= i < |a + b| && 0 <= j < |a + b| && (a + b)[i].to.User? && (a + b)[j].to.Channel? ==> j < i
  {
    assert forall i :: 0 <= i < |a| ==> (a + b)[i] == a[i] && a[i] in a;
    assert forall i :: |a| <= i < |a + b| ==> (a + b)[i] == b[i - |a|] && b[i - |a|] in b;
  }

  /** The sends each configured guild and each subscribed user receives in one distribution. */
  lemma DistributionPerRecipient(url: string, content: string, servers: seq<(string, ServerConfig)>,
                                 dms: seq<(string, DmConfig)>, t: Transport)
    requires forall i, j :: 0 <= i < j < |servers| ==> servers[i].0 != servers[j].0
    requires forall i, j :: 0 <= i < j < |dms| ==> dms[i].0 != dms[j].0
    ensures forall k :: 0 <= k < |servers| ==>
      ForDestination(DistributionTrace(url, content, servers, dms, t), Channel(servers[k].0, servers[k].1.channelId))
        == Delivered(Guild(servers[k].0, servers[k].1), url, Chunks(content), t)
    ensures forall k :: 0 <= k < |dms| ==>
      ForDestination(DistributionTrace(url, content, servers, dms, t), User(dms[k].0))
        == Delivered(DirectUser(dms[k].0, dms[k].1), url, Chunks(content), t)
  {
    var parts := Chunks(content);
    var gs, us := Guilds(servers), DirectUsers(dms);
    var a, b := Trace(gs, url, parts, t), Trace(us, url, parts, t);
    assert DistinctDestinations(gs);
    assert DistinctDestinations(us);
    forall k | 0 <= k < |servers|
      ensures ForDestination(a + b, Channel(servers[k].0, servers[k].1.channelId))
              == Delivered(Guild(servers[k].0, servers[k].1), url, parts, t)
    {
      var d := DestinationOf(gs[k]);
      ForDestinationAppend(a, b, d);
      FailureIsolation(gs, k, url, parts, t);
      TraceMissesOthers(us, d, url, parts, t);
    }
    forall k | 0 <= k < |dms|
      ensures ForDestination(a + b, User(dms[k].0)) == Delivered(DirectUser(dms[k].0, dms[k].1), url, parts, t)
    {
      var d := DestinationOf(us[k]);
      ForDestinationAppend(a, b, d);
      FailureIsolation(us, k, url, parts, t);
      TraceMissesOthers(gs, d, url, parts, t);
    }
  }

  /** With no guilds and no users nothing is sent. */
  lemma NoRecipientsNoSends(url: string, content: string, t: Transport)
    ensures DistributionTrace(url, content, [], [], t) == []
    ensures Slices(Guilds([]), BatchSize) == [] && Slices(DirectUsers([]), BatchSize) == []
  {
  }

  /** The `enabled` flag of a direct-message entry plays no part: every entry is sent to. */
  lemma {:induction false} DmEnabledIgnored(a: seq<(string, DmConfig)>, b: seq<(string, DmConfig)>,
                                            url: string, parts: seq<string>, t: Transport)
    requires |a| == |b|
    requires forall i :: 0 <= i < |a| ==> a[i].0 == b[i].0
    ensures Trace(DirectUsers(a), url, parts, t) == Trace(DirectUsers(b), url, parts, t)
  {
    if a != [] {
      var ra, rb := DirectUsers(a), DirectUsers(b);
      assert ra[1..] == DirectUsers(a[1..]);
      assert rb[1..] == DirectUsers(b[1..]);
      DmEnabledIgnored(a[1..], b[1..], url, parts, t);
      DeliveredIgnoresDmConfig(a[0].0, a[0].1, b[0].1, url, parts, t);
      assert Trace(ra, url, parts, t) == Delivered(ra[0], url, parts, t) + Trace(ra[1..], url, parts, t);
      assert Trace(rb, url, parts, t) == Delivered(rb[0], url, parts, t) + Trace(rb[1..], url, parts, t);
    }
  }

  /** One direct-message user's delivery is the same whatever the entry's configuration. */
  lemma DeliveredIgnoresDmConfig(userId: string, c1: DmConfig, c2: DmConfig, url: string, parts: seq<string>, t: Transport)
    ensures Delivered(DirectUser(userId, c1), url, parts, t) == Delivered(DirectUser(userId, c2), url, parts, t)
  {
    assert Plan(DirectUser(userId, c1), url, parts) == Plan(DirectUser(userId, c2), url, parts);
  }
}
