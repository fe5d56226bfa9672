/**
 * Change detection and the patch-notes cache: the module-level
 * `latestThreadUrl` and `lastPatchNotesData`, updated by `checkForUpdates`
 * (every two minutes), by the `/forceupdate` and `/test` commands, and once
 * when the bot becomes ready.
 *
 * The browser scraping and the formatting service are parameters: a URL
 * fetch resolves to a thread URL or `null`, a content fetch resolves to the
 * formatted notes or `null`, and either may throw.
 */
module Monitor {
  import opened Common
  import opened Retry
  import opened Chunking
  import opened Registry
  import opened Fanout

  /** `{ url, content }` as returned by `getLatestPatchNotesContent(url)`. */
  datatype PatchNotes = PatchNotes(url: string, content: string)

  /** The two cached values. */
  datatype Cache = Cache(latestThreadUrl: Option<string>, lastPatchNotes: Option<PatchNotes>)

  /** What call `i` of `getLatestThreadUrl()` does. */
  type UrlFetch = nat -> Attempt<Option<string>, string>

  /** What call `i` of `getLatestPatchNotesContent(url)` does: the formatted content, or `null`. */
  type ContentFetch = nat -> Attempt<Option<string>, string>

  /**
   * The outcome of one `checkForUpdates`: the new cache, how many times each
   * fetcher was called, and the notes that were distributed, if any.
   */
  datatype Poll = Poll(cache: Cache, urlCalls: nat, contentCalls: nat, distributed: Option<PatchNotes>)

  /** `entries` lists each key of `m` once, with its value (some order of `Object.entries(m)`). */
  ghost predicate Enumerates<V>(entries: seq<(string, V)>, m: map<string, V>) {
    && (forall i, j :: 0 <= i < j < |entries| ==> entries[i].0 != entries[j].0)
    && (forall i :: 0 <= i < |entries| ==> entries[i].0 in m && m[entries[i].0] == entries[i].1)
    && (forall k :: k in m ==> exists i :: 0 <= i < |entries| && entries[i].0 == k)
  }

  /**
   * `checkForUpdates`: skip when no guild is configured; otherwise fetch the
   * latest thread URL (with retry); on a URL that is present and differs
   * from the cached one, record it at once, fetch its notes (with retry) and,
   * when they have content, cache and distribute them.  A thrown error ends
   * the poll and keeps what was already updated.
   */
  function PollStep(c: Cache, configured: bool, fetchUrl: UrlFetch, fetchContent: ContentFetch): (p: Poll)
    // with no guild configured nothing is fetched and nothing changes, whatever DM users exist
    ensures !configured ==> p == Poll(c, 0, 0, None)
    ensures p.urlCalls <= DefaultRetries && p.contentCalls <= DefaultRetries
    ensures p.contentCalls > 0 ==> Truthy(p.cache.latestThreadUrl) && p.cache.latestThreadUrl != c.latestThreadUrl
    ensures p.distributed.Some? ==>
      && p.distributed.value.content != ""
      && p.cache == Cache(Some(p.distributed.value.url), p.distributed)
      && p.contentCalls > 0
    ensures p.distributed.None? ==> p.cache.lastPatchNotes == c.lastPatchNotes
  {
    if !configured then Poll(c, 0, 0, None)
    else
      RetryCharacterized(fetchUrl, DefaultRetries);
      RetryCharacterized(fetchContent, DefaultRetries);
      var u := RetrySpec(fetchUrl, DefaultRetries);
      if u.result.Returned? && Truthy(u.result.value) && u.result.value != c.latestThreadUrl then
        var url := u.result.value.value;
        var advanced := c.(latestThreadUrl := Some(url));
        var f := RetrySpec(fetchContent, DefaultRetries);
        if f.result.Returned? && Truthy(f.result.value) then
          var notes := PatchNotes(url, f.result.value.value);
          Poll(advanced.(lastPatchNotes := Some(notes)), u.calls, f.calls, Some(notes))
        else
          Poll(advanced, u.calls, f.calls, None)
      else
        Poll(c, u.calls, 0, None)
  }

  /** The replies of `/forceupdate`. */
  datatype ForceReply = FetchFailed | UpToDate | ContentFailed | CacheUpdated | ForceError

  /** The outcome of one `/forceupdate`. */
  datatype Force = Force(cache: Cache, reply: ForceReply)

  /**
   * `/forceupdate`: overwrite the cached URL with whatever the (single, not
   * retried) fetch returns, `null` included; when it is present and new,
   * fetch its notes and cache them.  Nothing is distributed.
   */
  function ForceStep(c: Cache, fetchedUrl: Attempt<Option<string>, string>,
                     fetchedContent: Attempt<Option<string>, string>): (f: Force)
    ensures f.reply == FetchFailed <==> fetchedUrl.Success? && !Truthy(fetchedUrl.value)
    ensures f.reply == UpToDate <==>
      fetchedUrl.Success? && Truthy(fetchedUrl.value) && fetchedUrl.value == c.latestThreadUrl
    ensures f.reply == ContentFailed <==>
      && fetchedUrl.Success? && Truthy(fetchedUrl.value) && fetchedUrl.value != c.latestThreadUrl
      && fetchedContent.Success? && !Truthy(fetchedContent.value)
    ensures f.reply == ForceError <==>
      || fetchedUrl.Failure?
      || (Truthy(fetchedUrl.value) && fetchedUrl.value != c.latestThreadUrl && fetchedContent.Failure?)
    ensures f.reply == CacheUpdated ==>
      f.cache == Cache(fetchedUrl.value, Some(PatchNotes(fetchedUrl.value.value, fetchedContent.value.value)))
  {
    match fetchedUrl
    case Failure(_) => Force(c, ForceError)
    case Success(latest) =>
      var c1 := c.(latestThreadUrl := latest);
      if !Truthy(latest) then Force(c1, FetchFailed)
      else if latest == c.latestThreadUrl then Force(c1, UpToDate)
      else match fetchedContent
        case Failure(_) => Force(c1, ForceError)
        case Success(content) =>
          if !Truthy(content) then Force(c1, ContentFailed)
          else Force(c1.(lastPatchNotes := Some(PatchNotes(latest.value, content.value))), CacheUpdated)
  }

  /** The replies of `/test`. */
  datatype TestReply = UrlFetchFailed | ContentFetchFailed | Distributed | TestError

  class Monitor {
    var latestThreadUrl: Option<string>
    var lastPatchNotes: Option<PatchNotes>

    function State(): (c: Cache)
      reads this
    {
      Cache(latestThreadUrl, lastPatchNotes)
    }

    /** Both values start as `null`. */
    constructor ()
      ensures latestThreadUrl == None && lastPatchNotes == None
    {
      latestThreadUrl := None;
      lastPatchNotes := None;
    }

    /**
     * `checkForUpdates`, with the registry snapshot the distribution reads
     * given as `servers` and `dms`.
     */
    method CheckForUpdates(registry: Registry, servers: seq<(string, ServerConfig)>, dms: seq<(string, DmConfig)>,
                           fetchUrl: UrlFetch, fetchContent: ContentFetch, t: Transport)
      returns (urlCalls: nat, contentCalls: nat, trace: seq<SendEvent>)
      requires Enumerates(servers, registry.servers) && Enumerates(dms, registry.dmUsers)
      modifies this
      ensures var p := PollStep(old(State()), |registry.servers| != 0, fetchUrl, fetchContent);
        && State() == p.cache
        && urlCalls == p.urlCalls && contentCalls == p.contentCalls
        && trace == match p.distributed
                    case None => []
                    case Some(notes) => DistributionTrace(notes.url, notes.content, servers, dms, t)
    {
      urlCalls, contentCalls, trace := 0, 0, [];
      if |registry.servers| == 0 {
        return;
      }
      var latest, calls, waited := RunRetry(fetchUrl, DefaultRetries, DefaultDelay);
      urlCalls := calls;
      if latest.Returned? && Truthy(latest.value) && latest.value != latestThreadUrl {
        var url := latest.value.value;
        latestThreadUrl := Some(url);
        var data, fetches, waitedAgain := RunRetry(fetchContent, DefaultRetries, DefaultDelay);
        contentCalls := fetches;
        if data.Returned? && Truthy(data.value) {
          var notes := PatchNotes(url, data.value.value);
          lastPatchNotes := Some(notes);
          var serverBatches, dmBatches;
          trace, serverBatches, dmBatches := Distribute(notes.url, notes.content, servers, dms, t);
        }
      }
    }

    /** `/forceupdate`. */
    method ForceUpdate(fetchedUrl: Attempt<Option<string>, string>, fetchedContent: Attempt<Option<string>, string>)
      returns (reply: ForceReply)
      modifies this
      ensures var f := ForceStep(old(State()), fetchedUrl, fetchedContent);
        State() == f.cache && reply == f.reply
    {
      if fetchedUrl.Failure? {
        return ForceError;
      }
      var oldUrl := latestThreadUrl;
      latestThreadUrl := fetchedUrl.value;
      if !Truthy(latestThreadUrl) {
        return FetchFailed;
      }
      if latestThreadUrl == oldUrl {
        return UpToDate;
      }
      if fetchedContent.Failure? {
        return ForceError;
      }
      if !Truthy(fetchedContent.value) {
        return ContentFailed;
      }
      lastPatchNotes := Some(PatchNotes(latestThreadUrl.value, fetchedContent.value.value));
      return CacheUpdated;
    }

    /**
     * `/test`: fetch the latest thread and its notes once, cache the notes
     * and distribute them to everyone.  The cached URL is not touched.
     */
    method TestDistribution(registry: Registry, servers: seq<(string, ServerConfig)>, dms: seq<(string, DmConfig)>,
                            fetchedUrl: Attempt<Option<string>, string>, fetchedContent: Attempt<Option<string>, string>,
                            t: Transport)
      returns (reply: TestReply, trace: seq<SendEvent>)
      requires Enumerates(servers, registry.servers) && Enumerates(dms, registry.dmUsers)
      modifies this
      ensures latestThreadUrl == old(latestThreadUrl)
      ensures reply == Distributed <==>
        fetchedUrl.Success? && Truthy(fetchedUrl.value) && fetchedContent.Success? && Truthy(fetchedContent.value)
      ensures reply == Distributed ==>
        var notes := PatchNotes(fetchedUrl.value.value, fetchedContent.value.value);
        lastPatchNotes == Some(notes) && trace == DistributionTrace(notes.url, notes.content, servers, dms, t)
      ensures reply != Distributed ==> lastPatchNotes == old(lastPatchNotes) && trace == []
    {
      trace := [];
      if fetchedUrl.Failure? {
        return TestError, trace;
      }
      if !Truthy(fetchedUrl.value) {
        return UrlFetchFailed, trace;
      }
      if fetchedContent.Failure? {
        return TestError, trace;
      }
      if !Truthy(fetchedContent.value) {
        return ContentFetchFailed, trace;
      }
      var notes := PatchNotes(fetchedUrl.value.value, fetchedContent.value.value);
      lastPatchNotes := Some(notes);
      var serverBatches, dmBatches;
      trace, serverBatches, dmBatches := Distribute(notes.url, notes.content, servers, dms, t);
      reply := Distributed;
    }

    /**
     * The initial fill when the bot becomes ready: cache the fetched URL, and
     * when it is present cache whatever the content fetch returns, `null`
     * included.  A thrown error stops the fill.
     */
    method Startup(fetchedUrl: Attempt<Option<string>, string>, fetchedContent: Attempt<Option<string>, string>)
      modifies this
      ensures fetchedUrl.Failure? ==> State() == old(State())
      ensures fetchedUrl.Success? ==> latestThreadUrl == fetchedUrl.value
      ensures fetchedUrl.Success? && Truthy(fetchedUrl.value) && fetchedContent.Success? ==>
        lastPatchNotes == match fetchedContent.value
                          case None => None
                          case Some(content) => Some(PatchNotes(fetchedUrl.value.value, content))
      ensures !(fetchedUrl.Success? && Truthy(fetchedUrl.value) && fetchedContent.Success?) ==>
        lastPatchNotes == old(lastPatchNotes)
    {
      if fetchedUrl.Failure? {
        return;
      }
      latestThreadUrl := fetchedUrl.value;
      if Truthy(latestThreadUrl) && fetchedContent.Success? {
        lastPatchNotes := match fetchedContent.value
                          case None => None
                          case Some(content) => Some(PatchNotes(latestThreadUrl.value, content));
      }
    }
  }

  // ---------------------------------------------------------------------------
  // Lemmas about the cache

  /** A `null` URL, an error, or the cached URL leaves the cache as it was and fetches no notes. */
  lemma PollKeepsCacheOnKnownUrl(c: Cache, fetchUrl: UrlFetch, fetchContent: ContentFetch)
    requires var u := RetrySpec(fetchUrl, DefaultRetries).result;
      !(u.Returned? && Truthy(u.value)) || u.value == c.latestThreadUrl
    ensures var p := PollStep(c, true, fetchUrl, fetchContent);
      p.cache == c && p.contentCalls == 0 && p.distributed == None
  {
  }

  /**
   * A new URL is recorded before its notes are fetched: it is cached
   * whether or not the notes arrive, and the notes are cached and
   * distributed exactly when they have content.
   */
  lemma PollRecordsNewUrl(c: Cache, fetchUrl: UrlFetch, fetchContent: ContentFetch, url: string)
    requires RetrySpec(fetchUrl, DefaultRetries).result == Returned(Some(url))
    requires url != "" && Some(url) != c.latestThreadUrl
    ensures var p := PollStep(c, true, fetchUrl, fetchContent);
      var f := RetrySpec(fetchContent, DefaultRetries).result;
      && p.cache.latestThreadUrl == Some(url)
      && 1 <= p.contentCalls <= DefaultRetries
      && (p.distributed.Some? <==> f.Returned? && Truthy(f.value))
      && (p.distributed.Some? ==>
            p.distributed == Some(PatchNotes(url, f.value.value)) && p.cache.lastPatchNotes == p.distributed)
      && (p.distributed.None? ==> p.cache.lastPatchNotes == c.lastPatchNotes)
  {
    RetryCharacterized(fetchContent, DefaultRetries);
  }

  /**
   * No reprocessing: after any poll that saw URL `url`, a poll that sees the
   * same URL again fetches no notes, distributes nothing and keeps the
   * cache, even when the first poll failed to fetch the notes.
   */
  lemma NoReprocessing(c: Cache, fetchUrl1: UrlFetch, fetchContent1: ContentFetch,
                       fetchUrl2: UrlFetch, fetchContent2: ContentFetch, url: string)
    requires url != ""
    requires RetrySpec(fetchUrl1, DefaultRetries).result == Returned(Some(url))
    requires RetrySpec(fetchUrl2, DefaultRetries).result == Returned(Some(url))
    ensures var p1 := PollStep(c, true, fetchUrl1, fetchContent1);
      var p2 := PollStep(p1.cache, true, fetchUrl2, fetchContent2);
      p1.cache.latestThreadUrl == Some(url) && p2 == Poll(p1.cache, p2.urlCalls, 0, None)
  {
  }

  /** The polls of a run, one after another, each from the cache the previous one left. */
  function PollSeries(c: Cache, fetches: seq<(UrlFetch, ContentFetch)>): (polls: seq<Poll>)
    ensures |polls| == |fetches|
    decreases |fetches|
  {
    if fetches == [] then []
    else
      var p := PollStep(c, true, fetches[0].0, fetches[0].1);
      [p] + PollSeries(p.cache, fetches[1..])
  }

  /**
   * Once `url` is the cached URL, no later poll that keeps seeing `url`
   * fetches notes, distributes anything or changes the cache, however many
   * polls there are and whether or not the notes of `url` were ever fetched.
   */
  lemma {:induction false} SameUrlNeverDistributed(c: Cache, url: string, fetches: seq<(UrlFetch, ContentFetch)>)
    requires c.latestThreadUrl == Some(url)
    requires forall i :: 0 <= i < |fetches| ==> RetrySpec(fetches[i].0, DefaultRetries).result == Returned(Some(url))
    ensures forall i :: 0 <= i < |fetches| ==>
      && PollSeries(c, fetches)[i].cache == c
      && PollSeries(c, fetches)[i].contentCalls == 0
      && PollSeries(c, fetches)[i].distributed == None
  {
    if fetches != [] {
      var p := PollStep(c, true, fetches[0].0, fetches[0].1);
      assert p == Poll(c, p.urlCalls, 0, None);
      SameUrlNeverDistributed(c, url, fetches[1..]);
      assert PollSeries(c, fetches) == [p] + PollSeries(c, fetches[1..]);
    }
  }

  /** A fetcher whose every call resolves with `v`. */
  function Always(v: Option<string>): (fetch: nat -> Attempt<Option<string>, string>) {
    (i: nat) => Success(v)
  }

  /**
   * The poll sequence A, A, B with working fetchers: the notes of A are
   * fetched and distributed on the first poll, nothing happens on the
   * second, and the notes of B are fetched and distributed on the third.
   */
  lemma PollScenarioAAB(c: Cache, notesA: string, notesB: string)
    requires c.latestThreadUrl == None
    requires notesA != "" && notesB != ""
    ensures var p1 := PollStep(c, true, Always(Some("A")), Always(Some(notesA)));
      var p2 := PollStep(p1.cache, true, Always(Some("A")), Always(Some(notesA)));
      var p3 := PollStep(p2.cache, true, Always(Some("B")), Always(Some(notesB)));
      && p1.distributed == Some(PatchNotes("A", notesA)) && p1.contentCalls == 1
      && p2.distributed == None && p2.contentCalls == 0
      && p3.distributed == Some(PatchNotes("B", notesB)) && p3.contentCalls == 1
      && p3.cache == Cache(Some("B"), Some(PatchNotes("B", notesB)))
  {
    FirstAttemptSucceeds(Always(Some("A")), DefaultRetries);
    FirstAttemptSucceeds(Always(Some(notesA)), DefaultRetries);
    FirstAttemptSucceeds(Always(Some("B")), DefaultRetries);
    FirstAttemptSucceeds(Always(Some(notesB)), DefaultRetries);
  }

  /**
   * `/forceupdate` stores the fetched URL even when it is `null`; a URL
   * equal to the cached one leaves the cached notes untouched; a thrown
   * error changes nothing.
   */
  lemma ForceOverwritesUrl(c: Cache, fetchedUrl: Attempt<Option<string>, string>,
                           fetchedContent: Attempt<Option<string>, string>)
    ensures var f := ForceStep(c, fetchedUrl, fetchedContent);
      && (fetchedUrl.Failure? ==> f.cache == c)
      && (fetchedUrl.Success? ==> f.cache.latestThreadUrl == fetchedUrl.value)
      && (fetchedUrl.Success? && fetchedUrl.value == c.latestThreadUrl ==> f.cache.lastPatchNotes == c.lastPatchNotes)
      && (f.reply == CacheUpdated <==>
            fetchedUrl.Success? && Truthy(fetchedUrl.value) && fetchedUrl.value != c.latestThreadUrl
            && fetchedContent.Success? && Truthy(fetchedContent.value))
      && (f.cache.lastPatchNotes != c.lastPatchNotes ==> f.reply == CacheUpdated)
  {
  }

  /**
   * A thread first seen by `/forceupdate` is not distributed by the
   * following poll: the poll finds its URL already cached.
   */
  lemma ForceUpdatePreemptsPoll(c: Cache, url: string, fetchedContent: Attempt<Option<string>, string>,
                                fetchUrl: UrlFetch, fetchContent: ContentFetch)
    requires url != ""
    requires RetrySpec(fetchUrl, DefaultRetries).result == Returned(Some(url))
    ensures var f := ForceStep(c, Success(Some(url)), fetchedContent);
      PollStep(f.cache, true, fetchUrl, fetchContent).distributed == None
  {
  }

  /**
   * A `/forceupdate` whose URL fetch resolves to `null` clears the cached URL,
   * so the next poll treats the thread already cached, and possibly already
   * distributed, as new: it fetches and distributes its notes again.
   */
  lemma ForceNullThenPollRedistributes(c: Cache, url: string, notes: string,
                                       fetchedContent: Attempt<Option<string>, string>)
    requires c.latestThreadUrl == Some(url)
    requires url != "" && notes != ""
    ensures var f := ForceStep(c, Success(None), fetchedContent);
      var p := PollStep(f.cache, true, Always(Some(url)), Always(Some(notes)));
      && f.reply == FetchFailed && f.cache.latestThreadUrl == None
      && p.distributed == Some(PatchNotes(url, notes))
  {
    FirstAttemptSucceeds(Always(Some(url)), DefaultRetries);
    FirstAttemptSucceeds(Always(Some(notes)), DefaultRetries);
  }

  /**
   * Each configured guild and each DM subscriber receives, from the
   * distribution a poll triggers, exactly its own delivery.
   */
  lemma PollDeliversToEachRecipient(c: Cache, servers: seq<(string, ServerConfig)>, dms: seq<(string, DmConfig)>,
                                    registry: map<string, ServerConfig>, dmUsers: map<string, DmConfig>,
                                    fetchUrl: UrlFetch, fetchContent: ContentFetch, t: Transport)
    requires Enumerates(servers, registry) && Enumerates(dms, dmUsers)
    requires PollStep(c, true, fetchUrl, fetchContent).distributed.Some?
    ensures var notes := PollStep(c, true, fetchUrl, fetchContent).distributed.value;
      forall k :: 0 <= k < |servers| ==>
        ForDestination(DistributionTrace(notes.url, notes.content, servers, dms, t), Channel(servers[k].0, servers[k].1.channelId))
          == Delivered(Guild(servers[k].0, registry[servers[k].0]), notes.url, Chunks(notes.content), t)
    ensures var notes := PollStep(c, true, fetchUrl, fetchContent).distributed.value;
      forall k :: 0 <= k < |dms| ==>
        ForDestination(DistributionTrace(notes.url, notes.content, servers, dms, t), User(dms[k].0))
          == Delivered(DirectUser(dms[k].0, dmUsers[dms[k].0]), notes.url, Chunks(notes.content), t)
  {
    var notes := PollStep(c, true, fetchUrl, fetchContent).distributed.value;
    DistributionPerRecipient(notes.url, notes.content, servers, dms, t);
  }
}
