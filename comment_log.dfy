/** The comment log of app/lib/commentManager.ts. Comments and per-video index
    documents live on a pinning service that can only be queried by tags; a
    `CommentManager` keeps a cache from video id to the newest index it knows.

    Every call to the pinning service or to a gateway is an oracle value
    handed in by the caller; the methods return the calls they issued, in
    order, so that "issues no request" is something a contract can say. */
module CommentLog {
  import opened Wrappers
  import opened Net
  import opened JsStrings

  /** commentManager.ts:1-8. `id` is the comment's own CID once published. */
  datatype Comment = Comment(
    id: Option<string>,
    videoId: string,
    author: string,
    text: string,
    timestamp: int,
    signature: Option<string>)

  /** commentManager.ts:10-14 */
  datatype CommentIndex = CommentIndex(videoId: string, commentCIDs: seq<string>, lastUpdated: int)

  /** A cache entry `{cid, data}`. `cid` is what the pinning service reported,
      which after a publish may be missing. */
  datatype IndexEntry = IndexEntry(cid: Option<string>, data: CommentIndex)

  /** One row of the pin listing: its hash and its `timestamp` field. */
  datatype Pin = Pin(ipfsPinHash: string, timestamp: int)

  /** The listing's `rows` field; `None` when it is absent (read as `[]`). */
  type PinListing = Option<seq<Pin>>

  /** The errors the manager throws. */
  datatype ManagerError =
    | MissingJwt                      // 'Pinata JWT is required'
    | QueryFailed                     // the pin listing answered non-ok
    | IndexUpdateFailed               // publishing the new index answered non-ok
    | CommentPinFailed                // pinning the comment answered non-ok
    | MissingIpfsHash                 // 'IPFS hash not found in Pinata response'
    | AllGatewaysFailed(cid: string)  // 'Failed to fetch comment <cid> from all gateways.'
    | Thrown(reason: string)          // `fetch` itself threw
    | InvalidJson                     // `response.json()` threw

  /** The error a request that was not delivered turns into. */
  function Undelivered<T>(h: HttpResult<T>, notOk: ManagerError): ManagerError
  {
    if h.NetworkError? then Thrown(h.reason) else if !h.ok then notOk else InvalidJson
  }

  datatype PinContent = CommentContent(comment: Comment) | IndexContent(index: CommentIndex)

  /** The body of a `pinJSONToIPFS` request. */
  datatype PinRequest = PinRequest(cidVersion: int, name: string, keyvalues: map<string, string>, content: PinContent)

  /** A request to the outside world. */
  datatype Call =
    | QueryPins(filter: map<string, string>)
    | FetchUrl(url: string)
    | PinJson(request: PinRequest)

  const IndexGateway: string := "https://gateway.pinata.cloud/ipfs/"

  /** The gateways `fetchCommentFromIPFS` tries, in order. */
  const Gateways: seq<string> := [IndexGateway, "https://ipfs.io/ipfs/"]

  // ---------------------------------------------------------------------
  // Tags: how index documents are published and found

  /** The key/value filter of the index query (line 78). */
  function IndexFilter(videoId: string): map<string, string>
  {
    map["videoId" := videoId, "type" := "comment-index"]
  }

  /** A pin's key values satisfy an equality filter. */
  predicate Matches(filter: map<string, string>, keyvalues: map<string, string>)
  {
    forall k :: k in filter ==> k in keyvalues && keyvalues[k] == filter[k]
  }

  /** The request that publishes a comment (lines 193-207). */
  function CommentPinRequest(c: Comment): PinRequest
  {
    PinRequest(1, "Comment for video " + c.videoId + " by " + c.author,
      map["videoId" := c.videoId, "author" := c.author,
          "timestamp" := IntToDecimal(c.timestamp), "type" := "comment"],
      CommentContent(c))
  }

  /** The request that publishes an index document (lines 141-154); the tag
      `lastUpdated` reads the clock a second time. */
  function IndexPinRequest(videoId: string, index: CommentIndex, tagTime: int): PinRequest
  {
    PinRequest(1, "Comment index for video " + videoId,
      map["videoId" := videoId, "type" := "comment-index", "lastUpdated" := IntToDecimal(tagTime)],
      IndexContent(index))
  }

  /** A published index is found by the index query for its own video and by
      no other video's; a published comment is found by none. This is about
      the tag layout only: the listing a lookup receives is an oracle answer,
      not computed from these tags. */
  lemma IndexTagsSelectTheirVideo(videoId: string, index: CommentIndex, tagTime: int, other: string, c: Comment)
    ensures Matches(IndexFilter(videoId), IndexPinRequest(videoId, index, tagTime).keyvalues)
    ensures other != videoId ==> !Matches(IndexFilter(other), IndexPinRequest(videoId, index, tagTime).keyvalues)
    ensures !Matches(IndexFilter(other), CommentPinRequest(c).keyvalues)
  {
    assert "videoId" in IndexFilter(other) && "type" in IndexFilter(other);
  }

  // ---------------------------------------------------------------------
  // Pure parts: the newest pin and the appended index

  /** The rows of a pin listing, or the error `queryPinata` throws (lines 32-63). */
  function ListedPins(h: HttpResult<PinListing>): (r: Result<seq<Pin>, ManagerError>)
    ensures r.Failure? <==> !Delivered(h)
    ensures r.Failure? ==> r.error == Undelivered(h, QueryFailed)
    ensures Delivered(h) ==> r == Success(if h.body.value.Some? then h.body.value.value else [])
  {
    if !Delivered(h) then Failure(Undelivered(h, QueryFailed))
    else if h.body.value.None? then Success([])
    else Success(h.body.value.value)
  }

  /** `k` is where a newest pin stands, and no earlier pin is as new. */
  ghost predicate IsLatestPin(pins: seq<Pin>, k: nat)
  {
    && k < |pins|
    && (forall j :: 0 <= j < |pins| ==> pins[j].timestamp <= pins[k].timestamp)
    && (forall j :: 0 <= j < k ==> pins[j].timestamp < pins[k].timestamp)
  }

  /** The `reduce` of lines 88-90: keep the current pin only if it is strictly
      newer, so the first of several equally new pins wins. */
  function LatestPinIndex(pins: seq<Pin>): (k: nat)
    requires |pins| > 0
    ensures IsLatestPin(pins, k)
  {
    if |pins| == 1 then 0
    else
      var k := LatestPinIndex(pins[..|pins| - 1]);
      if pins[|pins| - 1].timestamp > pins[k].timestamp then |pins| - 1 else k
  }

  /** The selection rule leaves no choice: one position satisfies it. */
  lemma LatestPinIsUnique(pins: seq<Pin>, k: nat, k': nat)
    requires IsLatestPin(pins, k) && IsLatestPin(pins, k')
    ensures k == k'
  {
    assert pins[k].timestamp == pins[k'].timestamp;
  }

  /** The index document `createOrUpdateIndex` builds (lines 132-138): a new
      document for the video, the old CIDs with the new one appended. */
  function NewIndex(existing: Option<CommentIndex>, videoId: string, newCID: string, now: int): (r: CommentIndex)
    ensures r.videoId == videoId && r.lastUpdated == now
    ensures existing.None? ==> r.commentCIDs == [newCID]
    ensures existing.Some? ==>
      |r.commentCIDs| == |existing.value.commentCIDs| + 1
      && r.commentCIDs[..|existing.value.commentCIDs|] == existing.value.commentCIDs
      && r.commentCIDs[|existing.value.commentCIDs|] == newCID
  {
    CommentIndex(videoId, (if existing.Some? then existing.value.commentCIDs else []) + [newCID], now)
  }

  /** Appending CIDs one after another, each to the document the previous
      append produced. */
  function AppendEach(prior: Option<CommentIndex>, videoId: string, cids: seq<string>, now: int): Option<CommentIndex>
    decreases |cids|
  {
    if cids == [] then prior
    else AppendEach(Some(NewIndex(prior, videoId, cids[0], now)), videoId, cids[1..], now)
  }

  /** Single-writer appends lose nothing and keep their order: after appending
      `cids` in turn, the index lists the old CIDs followed by exactly `cids`. */
  lemma {:induction false} AppendEachKeepsOrder(prior: Option<CommentIndex>, videoId: string, cids: seq<string>, now: int)
    requires cids != []
    decreases |cids|
    ensures AppendEach(prior, videoId, cids, now).Some?
    ensures AppendEach(prior, videoId, cids, now).value.videoId == videoId
    ensures AppendEach(prior, videoId, cids, now).value.commentCIDs
            == (if prior.Some? then prior.value.commentCIDs else []) + cids
  {
    var next := Some(NewIndex(prior, videoId, cids[0], now));
    if |cids| > 1 {
      AppendEachKeepsOrder(next, videoId, cids[1..], now);
      assert [cids[0]] + cids[1..] == cids;
    }
  }

  // ---------------------------------------------------------------------
  // The state transitions, on values

  /** What a manager operation yields: its result, the cache afterwards and
      the requests it issued. */
  datatype Step<T> = Step(result: Result<T, ManagerError>, cache: map<string, IndexEntry>, calls: seq<Call>)

  /** `findCommentIndex` (lines 65-118). The listing error is not caught; a
      failed fetch of the index body is, and yields `null`. */
  function FindIndexStep(cache: map<string, IndexEntry>, videoId: string,
                         query: HttpResult<PinListing>, indexFile: HttpResult<CommentIndex>): (s: Step<Option<IndexEntry>>)
    ensures videoId in cache ==> s == Step(Success(Some(cache[videoId])), cache, [])
    ensures videoId !in cache ==> |s.calls| >= 1 && s.calls[0] == QueryPins(IndexFilter(videoId))
    ensures videoId !in cache ==> (s.result.Failure? <==> !Delivered(query))
    ensures videoId !in cache && ListedPins(query) == Success([]) ==> s == Step(Success(None), cache, s.calls)
    ensures videoId !in cache && !Delivered(indexFile) ==> s.result.Success? ==> s.result.value.None?
    ensures videoId !in cache && s.result.Success? && s.result.value.Some? ==>
      exists k: nat :: IsLatestPin(ListedPins(query).value, k)
        && s.calls == [QueryPins(IndexFilter(videoId)), FetchUrl(IndexGateway + ListedPins(query).value[k].ipfsPinHash)]
        && s.result.value.value == IndexEntry(Some(ListedPins(query).value[k].ipfsPinHash), indexFile.body.value)
    ensures s.cache == if s.result.Success? && s.result.value.Some? then cache[videoId := s.result.value.value] else cache
  {
    if videoId in cache then Step(Success(Some(cache[videoId])), cache, [])
    else
      var q := [QueryPins(IndexFilter(videoId))];
      match ListedPins(query)
      case Failure(e) => Step(Failure(e), cache, q)
      case Success(pins) =>
        if |pins| == 0 then Step(Success(None), cache, q)
        else
          var latest := pins[LatestPinIndex(pins)];
          var calls := q + [FetchUrl(IndexGateway + latest.ipfsPinHash)];
          if Delivered(indexFile) then
            var entry := IndexEntry(Some(latest.ipfsPinHash), indexFile.body.value);
            Step(Success(Some(entry)), cache[videoId := entry], calls)
          else Step(Success(None), cache, calls)
  }

  /** Looking the same video up twice with no write in between gives the same
      index the second time, from the cache and without any request. */
  lemma RepeatedLookupIsStable(cache: map<string, IndexEntry>, videoId: string,
                               q1: HttpResult<PinListing>, f1: HttpResult<CommentIndex>,
                               q2: HttpResult<PinListing>, f2: HttpResult<CommentIndex>)
    requires FindIndexStep(cache, videoId, q1, f1).result.Success?
    requires FindIndexStep(cache, videoId, q1, f1).result.value.Some?
    ensures var s1 := FindIndexStep(cache, videoId, q1, f1);
            FindIndexStep(s1.cache, videoId, q2, f2) == Step(s1.result, s1.cache, [])
  {
  }

  /** The document an existing entry contributes to an append. */
  function DataOf(found: Option<IndexEntry>): Option<CommentIndex>
  {
    if found.Some? then Some(found.value.data) else None
  }

  /** `createOrUpdateIndex` (lines 120-189): look the index up, publish the
      appended document, and on success point the cache at it. */
  function IndexUpdateStep(cache: map<string, IndexEntry>, videoId: string, newCID: string,
                           indexTime: int, tagTime: int,
                           query: HttpResult<PinListing>, indexFile: HttpResult<CommentIndex>,
                           publish: HttpResult<PinReceipt>): (s: Step<Option<string>>)
    ensures var f := FindIndexStep(cache, videoId, query, indexFile);
      && (f.result.Failure? ==> s == Step(Failure(f.result.error), cache, f.calls))
      && (f.result.Success? ==>
            var updated := NewIndex(DataOf(f.result.value), videoId, newCID, indexTime);
            && s.calls == f.calls + [PinJson(IndexPinRequest(videoId, updated, tagTime))]
            && (Delivered(publish) ==>
                  s.result == Success(publish.body.value.ipfsHash)
                  && s.cache == f.cache[videoId := IndexEntry(publish.body.value.ipfsHash, updated)])
            && (!Delivered(publish) ==>
                  s.result == Failure(Undelivered(publish, IndexUpdateFailed)) && s.cache == f.cache))
    ensures s.result.Success? ==>
      videoId in s.cache && s.cache[videoId].data.videoId == videoId
      && |s.cache[videoId].data.commentCIDs| >= 1
      && s.cache[videoId].data.commentCIDs[|s.cache[videoId].data.commentCIDs| - 1] == newCID
    ensures forall k :: k != videoId ==> (k in s.cache <==> k in cache) && (k in cache ==> s.cache[k] == cache[k])
  {
    var f := FindIndexStep(cache, videoId, query, indexFile);
    if f.result.Failure? then Step(Failure(f.result.error), cache, f.calls)
    else
      var updated := NewIndex(DataOf(f.result.value), videoId, newCID, indexTime);
      var calls := f.calls + [PinJson(IndexPinRequest(videoId, updated, tagTime))];
      if Delivered(publish) then
        var newIndexCID := publish.body.value.ipfsHash;
        Step(Success(newIndexCID), f.cache[videoId := IndexEntry(newIndexCID, updated)], calls)
      else Step(Failure(Undelivered(publish, IndexUpdateFailed)), f.cache, calls)
  }

  /** Once an append succeeded, the next append for the same video reads the
      cache and extends exactly the list the first one wrote. */
  lemma SecondAppendExtendsFirst(cache: map<string, IndexEntry>, videoId: string, cid1: string, cid2: string,
                                 t1: int, t2: int, u1: int, u2: int,
                                 q1: HttpResult<PinListing>, f1: HttpResult<CommentIndex>, p1: HttpResult<PinReceipt>,
                                 q2: HttpResult<PinListing>, f2: HttpResult<CommentIndex>, p2: HttpResult<PinReceipt>)
    requires IndexUpdateStep(cache, videoId, cid1, t1, u1, q1, f1, p1).result.Success?
    ensures var s1 := IndexUpdateStep(cache, videoId, cid1, t1, u1, q1, f1, p1);
            var s2 := IndexUpdateStep(s1.cache, videoId, cid2, t2, u2, q2, f2, p2);
            s2.result.Success? ==>
              s2.cache[videoId].data.commentCIDs == s1.cache[videoId].data.commentCIDs + [cid2]
              && |s2.calls| == 1
  {
    var s1 := IndexUpdateStep(cache, videoId, cid1, t1, u1, q1, f1, p1);
    assert videoId in s1.cache;
    var f := FindIndexStep(s1.cache, videoId, q2, f2);
    assert f == Step(Success(Some(s1.cache[videoId])), s1.cache, []);
  }

  /** `uploadCommentToIPFS` (lines 191-252): pin the comment, then append its
      CID to the video's index; the result is the comment's own CID. */
  function UploadCommentStep(cache: map<string, IndexEntry>, comment: Comment,
                             commentPin: HttpResult<PinReceipt>, indexTime: int, tagTime: int,
                             query: HttpResult<PinListing>, indexFile: HttpResult<CommentIndex>,
                             publish: HttpResult<PinReceipt>): (s: Step<string>)
    ensures |s.calls| >= 1 && s.calls[0] == PinJson(CommentPinRequest(comment))
    ensures !Delivered(commentPin) ==>
      s == Step(Failure(Undelivered(commentPin, CommentPinFailed)), cache, [PinJson(CommentPinRequest(comment))])
    ensures Delivered(commentPin) && !HasHash(commentPin.body.value) ==>
      s == Step(Failure(MissingIpfsHash), cache, [PinJson(CommentPinRequest(comment))])
    ensures Delivered(commentPin) && HasHash(commentPin.body.value) ==>
      var u := IndexUpdateStep(cache, comment.videoId, commentPin.body.value.ipfsHash.value,
                               indexTime, tagTime, query, indexFile, publish);
      && s.cache == u.cache
      && s.calls == [PinJson(CommentPinRequest(comment))] + u.calls
      && s.result == (if u.result.Success? then Success(commentPin.body.value.ipfsHash.value) else Failure(u.result.error))
  {
    var first := [PinJson(CommentPinRequest(comment))];
    if !Delivered(commentPin) then Step(Failure(Undelivered(commentPin, CommentPinFailed)), cache, first)
    else if !HasHash(commentPin.body.value) then Step(Failure(MissingIpfsHash), cache, first)
    else
      var cid := commentPin.body.value.ipfsHash.value;
      var u := IndexUpdateStep(cache, comment.videoId, cid, indexTime, tagTime, query, indexFile, publish);
      Step(if u.result.Success? then Success(cid) else Failure(u.result.error), u.cache, first + u.calls)
  }

  /** A comment that was pinned and appended is the last CID of its video's
      cached index, and the returned CID is that comment's. */
  lemma UploadedCommentIsIndexed(cache: map<string, IndexEntry>, comment: Comment,
                                 commentPin: HttpResult<PinReceipt>, indexTime: int, tagTime: int,
                                 query: HttpResult<PinListing>, indexFile: HttpResult<CommentIndex>,
                                 publish: HttpResult<PinReceipt>)
    requires UploadCommentStep(cache, comment, commentPin, indexTime, tagTime, query, indexFile, publish).result.Success?
    ensures var s := UploadCommentStep(cache, comment, commentPin, indexTime, tagTime, query, indexFile, publish);
      && Delivered(commentPin) && commentPin.body.value.ipfsHash == Some(s.result.value)
      && comment.videoId in s.cache
      && var cids := s.cache[comment.videoId].data.commentCIDs;
         |cids| >= 1 && cids[|cids| - 1] == s.result.value
  {
  }

  /** `getCommentCIDsForVideo` (lines 254-260): the index's CIDs, `[]` when
      there is no index. */
  function CommentCidsStep(cache: map<string, IndexEntry>, videoId: string,
                           query: HttpResult<PinListing>, indexFile: HttpResult<CommentIndex>): (s: Step<seq<string>>)
    ensures var f := FindIndexStep(cache, videoId, query, indexFile);
      && s.cache == f.cache && s.calls == f.calls
      && (f.result.Failure? ==> s.result == Failure(f.result.error))
      && (f.result.Success? && f.result.value.None? ==> s.result == Success([]))
      && (f.result.Success? && f.result.value.Some? ==> s.result == Success(f.result.value.value.data.commentCIDs))
  {
    var f := FindIndexStep(cache, videoId, query, indexFile);
    match f.result
    case Failure(e) => Step(Failure(e), f.cache, f.calls)
    case Success(found) => Step(Success(if found.Some? then found.value.data.commentCIDs else []), f.cache, f.calls)
  }

  // ---------------------------------------------------------------------
  // Gateway fallback

  /** The URLs `fetchCommentFromIPFS` may request for `cid`, in order. */
  function GatewayUrls(cid: string): (urls: seq<string>)
    ensures |urls| == |Gateways|
    ensures forall i :: 0 <= i < |urls| ==> urls[i] == Gateways[i] + cid
  {
    seq(|Gateways|, i requires 0 <= i < |Gateways| => Gateways[i] + cid)
  }

  /** The position of the first URL whose response is delivered, or `|urls|`
      when none is. */
  function FirstDelivered(urls: seq<string>, fetch: string -> HttpResult<Comment>): (k: nat)
    ensures k <= |urls|
    ensures forall j :: 0 <= j < k ==> !Delivered(fetch(urls[j]))
    ensures k < |urls| ==> Delivered(fetch(urls[k]))
  {
    if urls == [] then 0
    else if Delivered(fetch(urls[0])) then 0
    else 1 + FirstDelivered(urls[1..], fetch)
  }

  // ---------------------------------------------------------------------
  // The manager object

  class CommentManager {
    const pinataJWT: string
    var indexCache: map<string, IndexEntry>

    constructor (pinataJWT: string)
      requires pinataJWT != ""
      ensures this.pinataJWT == pinataJWT && indexCache == map[]
    {
      this.pinataJWT := pinataJWT;
      indexCache := map[];
    }

    /** `new CommentManager(pinataJWT)` (lines 21-30): throws on an empty JWT. */
    static method Create(pinataJWT: string) returns (r: Result<CommentManager, ManagerError>)
      ensures pinataJWT == "" <==> r.Failure?
      ensures r.Failure? ==> r.error == MissingJwt
      ensures r.Success? ==> fresh(r.value) && r.value.pinataJWT == pinataJWT && r.value.indexCache == map[]
    {
      if pinataJWT == "" {
        return Failure(MissingJwt);
      }
      var m := new CommentManager(pinataJWT);
      r := Success(m);
    }

    /** `findCommentIndex` (lines 65-118), as `FindIndexStep` describes it. */
    method FindCommentIndex(videoId: string, query: HttpResult<PinListing>, indexFile: HttpResult<CommentIndex>)
      returns (r: Result<Option<IndexEntry>, ManagerError>, calls: seq<Call>)
      modifies this
      ensures Step(r, indexCache, calls) == FindIndexStep(old(indexCache), videoId, query, indexFile)
    {
      if videoId in indexCache {
        return Success(Some(indexCache[videoId])), [];
      }
      calls := [QueryPins(IndexFilter(videoId))];
      var listed := ListedPins(query);
      if listed.Failure? {
        return Failure(listed.error), calls;
      }
      var pins := listed.value;
      if |pins| == 0 {
        return Success(None), calls;
      }
      var latestPin := pins[LatestPinIndex(pins)];
      calls := calls + [FetchUrl(IndexGateway + latestPin.ipfsPinHash)];
      if !Delivered(indexFile) {
        return Success(None), calls;
      }
      var result := IndexEntry(Some(latestPin.ipfsPinHash), indexFile.body.value);
      indexCache := indexCache[videoId := result];
      r := Success(Some(result));
    }

    /** `createOrUpdateIndex` (lines 120-189), as `IndexUpdateStep` describes it. */
    method CreateOrUpdateIndex(videoId: string, newCommentCID: string, indexTime: int, tagTime: int,
                               query: HttpResult<PinListing>, indexFile: HttpResult<CommentIndex>,
                               publish: HttpResult<PinReceipt>)
      returns (r: Result<Option<string>, ManagerError>, calls: seq<Call>)
      modifies this
      ensures Step(r, indexCache, calls)
              == IndexUpdateStep(old(indexCache), videoId, newCommentCID, indexTime, tagTime, query, indexFile, publish)
    {
      var existing;
      existing, calls := FindCommentIndex(videoId, query, indexFile);
      if existing.Failure? {
        return Failure(existing.error), calls;
      }
      var updatedIndex := NewIndex(DataOf(existing.value), videoId, newCommentCID, indexTime);
      calls := calls + [PinJson(IndexPinRequest(videoId, updatedIndex, tagTime))];
      if !Delivered(publish) {
        return Failure(Undelivered(publish, IndexUpdateFailed)), calls;
      }
      var newIndexCID := publish.body.value.ipfsHash;
      indexCache := indexCache[videoId := IndexEntry(newIndexCID, updatedIndex)];
      r := Success(newIndexCID);
    }

    /** `uploadCommentToIPFS` (lines 191-252), as `UploadCommentStep` describes it;
        the comment has no `id` yet. */
    method UploadCommentToIPFS(comment: Comment, commentPin: HttpResult<PinReceipt>, indexTime: int, tagTime: int,
                               query: HttpResult<PinListing>, indexFile: HttpResult<CommentIndex>,
                               publish: HttpResult<PinReceipt>)
      returns (r: Result<string, ManagerError>, calls: seq<Call>)
      requires comment.id.None?
      modifies this
      ensures Step(r, indexCache, calls)
              == UploadCommentStep(old(indexCache), comment, commentPin, indexTime, tagTime, query, indexFile, publish)
    {
      calls := [PinJson(CommentPinRequest(comment))];
      if !Delivered(commentPin) {
        return Failure(Undelivered(commentPin, CommentPinFailed)), calls;
      }
      var result := commentPin.body.value;
      if !HasHash(result) {
        return Failure(MissingIpfsHash), calls;
      }
      var indexed, indexCalls := CreateOrUpdateIndex(comment.videoId, result.ipfsHash.value, indexTime, tagTime,
                                                     query, indexFile, publish);
      calls := calls + indexCalls;
      if indexed.Failure? {
        return Failure(indexed.error), calls;
      }
      r := Success(result.ipfsHash.value);
    }

    /** `getCommentCIDsForVideo` (lines 254-260), as `CommentCidsStep` describes it. */
    method GetCommentCIDsForVideo(videoId: string, query: HttpResult<PinListing>, indexFile: HttpResult<CommentIndex>)
      returns (r: Result<seq<string>, ManagerError>, calls: seq<Call>)
      modifies this
      ensures Step(r, indexCache, calls) == CommentCidsStep(old(indexCache), videoId, query, indexFile)
    {
      var index;
      index, calls := FindCommentIndex(videoId, query, indexFile);
      if index.Failure? {
        return Failure(index.error), calls;
      }
      r := Success(if index.value.Some? then index.value.value.data.commentCIDs else []);
    }

    /** `fetchCommentFromIPFS` (lines 262-292): try each gateway in order,
        skipping non-ok answers and thrown errors; return the first parsed
        body with `id` set to the requested CID, or throw once all failed. */
    method FetchCommentFromIPFS(cid: string, fetch: string -> HttpResult<Comment>)
      returns (r: Result<Comment, ManagerError>, tried: seq<string>)
      ensures var urls := GatewayUrls(cid);
              var k := FirstDelivered(urls, fetch);
        && (k < |urls| ==> r == Success(fetch(urls[k]).body.value.(id := Some(cid))) && tried == urls[..k + 1])
        && (k == |urls| ==> r == Failure(AllGatewaysFailed(cid)) && tried == urls)
    {
      ghost var urls := GatewayUrls(cid);
      tried := [];
      var i := 0;
      while i < |Gateways|
        invariant 0 <= i <= |Gateways|
        invariant tried == urls[..i]
        invariant forall j :: 0 <= j < i ==> !Delivered(fetch(urls[j]))
      {
        var url := Gateways[i] + cid;
        tried := tried + [url];
        var response := fetch(url);
        if response.Reply? && response.ok && response.body.Some? {
          FirstDeliveredIs(urls, fetch, i);
          return Success(response.body.value.(id := Some(cid))), tried;
        }
        i := i + 1;
      }
      FirstDeliveredIs(urls, fetch, |urls|);
      r := Failure(AllGatewaysFailed(cid));
    }
  }

  /** The first delivered position is the one before which nothing was
      delivered and at which something is (or the end). */
  lemma {:induction false} FirstDeliveredIs(urls: seq<string>, fetch: string -> HttpResult<Comment>, k: nat)
    requires k <= |urls|
    requires forall j :: 0 <= j < k ==> !Delivered(fetch(urls[j]))
    requires k < |urls| ==> Delivered(fetch(urls[k]))
    ensures FirstDelivered(urls, fetch) == k
  {
    if urls != [] && k > 0 {
      FirstDeliveredIs(urls[1..], fetch, k - 1);
    }
  }

  /** Two lookups of one video on the same manager, with no write in
      between: once the first found an index, the second returns it again
      without a request. */
  method LookupTwice(m: CommentManager, videoId: string,
                     q1: HttpResult<PinListing>, f1: HttpResult<CommentIndex>,
                     q2: HttpResult<PinListing>, f2: HttpResult<CommentIndex>)
    returns (r1: Result<Option<IndexEntry>, ManagerError>, r2: Result<Option<IndexEntry>, ManagerError>, calls2: seq<Call>)
    modifies m
    ensures r1.Success? && r1.value.Some? ==> r2 == r1 && calls2 == []
  {
    var calls1;
    r1, calls1 := m.FindCommentIndex(videoId, q1, f1);
    r2, calls2 := m.FindCommentIndex(videoId, q2, f2);
  }
}
