/** The video hook of app/hooks/usePinata.ts: reading a video's metadata
    document, listing the metadata group newest first, the three-step upload
    with its progress bar, and the metadata document it publishes. Every
    answer from the proxy route is a parameter. */
module PinataHook {
  import opened Wrappers
  import opened Js
  import opened Net
  import opened JsStrings
  import opened PinataProxy

  /** The group every metadata document is filed under (line 21). */
  const MetadataGroupId: string := "5c16e640-afc1-4b43-a7cb-110b568fba50"

  const DefaultTitle: string := "未命名视频"
  const DefaultDescription: string := "无描述"
  const DefaultTimestamp: string := "2023-01-01T00:00:00.000Z"
  /** `DefaultTimestamp` in milliseconds since the epoch. */
  const DefaultCreatedAt: int := 1672531200000

  /** `VideoMetadata` (lines 24-34) as `fetchMetadata` builds it; the members
      copied from the document keep whatever JSON value they hold. */
  datatype VideoMetadata = VideoMetadata(
    cid: string,
    title: JsValue,
    description: JsValue,
    coverImageCid: JsValue,
    videoCid: JsValue,
    timestamp: JsValue,
    author: JsValue,
    isPublic: bool,
    dataToEncryptHash: JsValue)

  // ---------------------------------------------------------------------
  // Reading one metadata document

  /** The shape check of lines 86-92. */
  predicate IsValidMetadata(j: JsValue) {
    && Truthy(j) && IsObject(j)
    && (Has(j, "title") || Has(j, "description"))
    && Has(j, "coverImageCid") && Has(j, "videoCid")
  }

  /** `fetchMetadata` (lines 75-120): `None` for a failed request, an
      unreadable body or a document of the wrong shape; otherwise the
      document with defaults for its falsy members. */
  function FetchMetadata(cid: string, reply: HttpResult<JsValue>): (r: Option<VideoMetadata>)
    ensures r.Some? <==> Delivered(reply) && IsValidMetadata(reply.body.value)
    ensures r.Some? ==>
      var j := reply.body.value;
      && r.value.cid == cid
      && r.value.title == (if Truthy(Get(j, "title")) then Get(j, "title") else JStr(DefaultTitle))
      && r.value.description == (if Truthy(Get(j, "description")) then Get(j, "description") else JStr(DefaultDescription))
      && r.value.timestamp == (if Truthy(Get(j, "timestamp")) then Get(j, "timestamp") else JStr(DefaultTimestamp))
      && r.value.author == (if Truthy(Get(j, "author")) then Get(j, "author") else JStr(""))
      && r.value.dataToEncryptHash == (if Truthy(Get(j, "dataToEncryptHash")) then Get(j, "dataToEncryptHash") else JStr(""))
      && r.value.coverImageCid == Get(j, "coverImageCid") && r.value.videoCid == Get(j, "videoCid")
      && (r.value.isPublic <==> Get(j, "isPublic") != JBool(false))
  {
    if !Delivered(reply) then None
    else
      var jsonContent := reply.body.value;
      if !IsValidMetadata(jsonContent) then None
      else
        var isPublic := Get(jsonContent, "isPublic");
        Some(VideoMetadata(
          cid,
          Or(Get(jsonContent, "title"), JStr(DefaultTitle)),
          Or(Get(jsonContent, "description"), JStr(DefaultDescription)),
          Get(jsonContent, "coverImageCid"),
          Get(jsonContent, "videoCid"),
          Or(Get(jsonContent, "timestamp"), JStr(DefaultTimestamp)),
          Or(Get(jsonContent, "author"), JStr("")),
          if isPublic == JBool(false) then false else if isPublic == JBool(true) then true else true,
          Or(Get(jsonContent, "dataToEncryptHash"), JStr(""))))
  }

  // ---------------------------------------------------------------------
  // Listing the metadata group

  /** A listed pin as `getFiles` reads it; `date_pinned` is abstracted to its
      instant in milliseconds, and `None` stands for a missing or empty member. */
  datatype PinRow = PinRow(ipfsPinHash: Option<string>, datePinned: Option<int>)

  /** The listing's `rows` member: missing, falsy or not an array, or the
      array (with `None` for a `null` element). */
  datatype RowsField = NoRows | Rows(items: seq<Option<PinRow>>)

  /** `PinataFileItem` as `getFiles` produces it, `created_at` in milliseconds. */
  datatype FileItem = FileItem(cid: string, createdAt: int)

  /** Where `slice(0, end)` stops on a sequence of length `len`. */
  function SliceEnd(len: nat, end: int): (e: nat)
    ensures e <= len
    ensures 0 <= end ==> e == (if end < len then end else len)
    ensures end < 0 ==> e == (if len + end < 0 then 0 else len + end)
  {
    if end < 0 then (if len + end < 0 then 0 else len + end)
    else if end < len then end else len
  }

  function ToFileItem(row: PinRow): FileItem {
    FileItem(if row.ipfsPinHash.Some? then row.ipfsPinHash.value else "",
             if row.datePinned.Some? then row.datePinned.value else DefaultCreatedAt)
  }

  /** `getFiles` (lines 123-183): errors of any kind give `[]`, and so does a
      `null` among the rows kept, whose member access throws. */
  function GetFiles(pageLimit: int, reply: HttpResult<RowsField>): (r: seq<FileItem>)
    ensures !Delivered(reply) || reply.body.value.NoRows? ==> r == []
    ensures pageLimit >= 0 ==> |r| <= pageLimit
    ensures r != [] ==>
      && Delivered(reply) && reply.body.value.Rows?
      && var kept := reply.body.value.items[..SliceEnd(|reply.body.value.items|, pageLimit)];
         && |r| == |kept|
         && forall i :: 0 <= i < |r| ==> kept[i].Some? && r[i] == ToFileItem(kept[i].value)
    ensures Delivered(reply) && reply.body.value.Rows? ==>
      var kept := reply.body.value.items[..SliceEnd(|reply.body.value.items|, pageLimit)];
      (forall i :: 0 <= i < |kept| ==> kept[i].Some?) ==> |r| == |kept|
  {
    if !Delivered(reply) then []
    else match reply.body.value
      case NoRows => []
      case Rows(rows) =>
        var kept := rows[..SliceEnd(|rows|, pageLimit)];
        if exists i :: 0 <= i < |kept| && kept[i].None? then []
        else seq(|kept|, i requires 0 <= i < |kept| => ToFileItem(kept[i].value))
  }

  predicate SortedNewestFirst(s: seq<FileItem>) {
    forall i, j :: 0 <= i < j < |s| ==> s[i].createdAt >= s[j].createdAt
  }

  /** Puts `x` before the first item that is not newer than it. */
  function InsertNewest(x: FileItem, s: seq<FileItem>): (r: seq<FileItem>)
    ensures |r| == |s| + 1
    ensures r[0] == x || (s != [] && r[0] == s[0])
    ensures multiset(r) == multiset(s) + multiset{x}
  {
    if s == [] || s[0].createdAt <= x.createdAt then
      [x] + s
    else
      assert s == [s[0]] + s[1..];
      [s[0]] + InsertNewest(x, s[1..])
  }

  /** The `sort` of lines 330-336: by `created_at`, newest first; the
      built-in sort is stable, so items pinned at the same instant keep their
      order. */
  function SortByNewest(s: seq<FileItem>): (r: seq<FileItem>)
    ensures SortedNewestFirst(r)
    ensures multiset(r) == multiset(s)
  {
    if s == [] then []
    else
      assert s == [s[0]] + s[1..];
      InsertKeepsSorted(s[0], SortByNewest(s[1..]));
      InsertNewest(s[0], SortByNewest(s[1..]))
  }

  lemma {:induction false} InsertKeepsSorted(x: FileItem, s: seq<FileItem>)
    requires SortedNewestFirst(s)
    ensures SortedNewestFirst(InsertNewest(x, s))
    decreases |s|
  {
    if s != [] && s[0].createdAt > x.createdAt {
      var rest := InsertNewest(x, s[1..]);
      InsertKeepsSorted(x, s[1..]);
      assert rest[0] == x || rest[0] == s[1];
      assert InsertNewest(x, s) == [s[0]] + rest;
    }
  }

  /** The items pinned at instant `t`, in order. */
  function PinnedAt(s: seq<FileItem>, t: int): seq<FileItem>
  {
    if s == [] then [] else (if s[0].createdAt == t then [s[0]] else []) + PinnedAt(s[1..], t)
  }

  lemma {:induction false} InsertKeepsTies(x: FileItem, s: seq<FileItem>, t: int)
    ensures PinnedAt(InsertNewest(x, s), t) == (if x.createdAt == t then [x] else []) + PinnedAt(s, t)
  {
    var r := InsertNewest(x, s);
    assert PinnedAt(r, t) == (if r[0].createdAt == t then [r[0]] else []) + PinnedAt(r[1..], t);
    if s == [] || s[0].createdAt <= x.createdAt {
      assert r[0] == x && r[1..] == s;
    } else {
      var rest := InsertNewest(x, s[1..]);
      assert r[0] == s[0] && r[1..] == rest;
      InsertKeepsTies(x, s[1..], t);
      assert PinnedAt(s, t) == (if s[0].createdAt == t then [s[0]] else []) + PinnedAt(s[1..], t);
      if x.createdAt == t {
        assert s[0].createdAt != t;
        assert PinnedAt(s, t) == PinnedAt(s[1..], t);
        assert PinnedAt(r, t) == PinnedAt(rest, t) == [x] + PinnedAt(s[1..], t);
      } else {
        assert PinnedAt(rest, t) == PinnedAt(s[1..], t);
      }
    }
  }

  /** The sort is stable: for every instant, the items pinned then appear in
      the same order before and after sorting. */
  lemma {:induction false} SortIsStable(s: seq<FileItem>, t: int)
    ensures PinnedAt(SortByNewest(s), t) == PinnedAt(s, t)
  {
    if s != [] {
      InsertKeepsTies(s[0], SortByNewest(s[1..]), t);
      SortIsStable(s[1..], t);
    }
  }

  /** `sortedFiles.slice(0, pageLimit).map(file => file.cid)` (lines 338-340). */
  function LatestCids(files: seq<FileItem>, pageLimit: int): (cids: seq<string>)
    ensures var sorted := SortByNewest(files);
      && |cids| == SliceEnd(|files|, pageLimit)
      && forall i :: 0 <= i < |cids| ==> cids[i] == sorted[i].cid
  {
    var sorted := SortByNewest(files);
    assert |sorted| == |multiset(sorted)| == |files|;
    var kept := sorted[..SliceEnd(|sorted|, pageLimit)];
    seq(|kept|, i requires 0 <= i < |kept| => kept[i].cid)
  }

  /** The newest listed item comes first. */
  lemma NewestComesFirst(files: seq<FileItem>, i: nat)
    requires i < |files|
    ensures |SortByNewest(files)| == |files|
    ensures SortByNewest(files)[0].createdAt >= files[i].createdAt
  {
    var sorted := SortByNewest(files);
    assert |sorted| == |multiset(sorted)| == |files|;
    assert files[i] in multiset(sorted);
    var k :| 0 <= k < |sorted| && sorted[k] == files[i];
  }

  /** `filter(item => item !== null)` (lines 348-350): the documents that
      were read, in order. */
  function Present(s: seq<Option<VideoMetadata>>): (r: seq<VideoMetadata>)
    ensures |r| <= |s|
    ensures forall v :: v in r <==> Some(v) in s
  {
    if s == [] then [] else (if s[0].Some? then [s[0].value] else []) + Present(s[1..])
  }

  /** Filtering a concatenation filters each part in turn, so no document
      that was read is dropped and their order is kept. */
  lemma {:induction false} PresentAppend(s: seq<Option<VideoMetadata>>, t: seq<Option<VideoMetadata>>)
    decreases |s|
    ensures Present(s + t) == Present(s) + Present(t)
  {
    if s != [] {
      var head := if s[0].Some? then [s[0].value] else [];
      assert (s + t)[0] == s[0] && (s + t)[1..] == s[1..] + t;
      PresentAppend(s[1..], t);
      assert Present(s + t) == head + (Present(s[1..]) + Present(t));
      assert head + (Present(s[1..]) + Present(t)) == (head + Present(s[1..])) + Present(t);
    } else {
      assert s + t == t;
    }
  }

  /** A single answer is kept exactly when it was read. */
  lemma PresentSingle(o: Option<VideoMetadata>)
    ensures Present([o]) == (if o.Some? then [o.value] else [])
  {
  }

  /** `Promise.all(latestCIDs.map(fetchMetadata))` (lines 346-347): what each
      chosen CID reads to, in order. */
  function ReadEach(cids: seq<string>, fetchMeta: string -> HttpResult<JsValue>): seq<Option<VideoMetadata>>
  {
    seq(|cids|, i requires 0 <= i < |cids| => FetchMetadata(cids[i], fetchMeta(cids[i])))
  }

  /** The messages `getLatestCIDs` throws: nothing listed, nothing picked,
      or no document read. */
  const NoListingMessage: string := "无法获取元数据文件列表"
  const NoPinsMessage: string := "没有找到有效的元数据文件"
  const NoMetadataMessage: string := "所有元数据获取失败，请检查 IPFS 网关或 CID 有效性"

  /** The load of `getLatestCIDs` (lines 324-356): the ten first listed
      items, the `pageLimit` newest of them, and the documents among those
      that read, in that order; or the message of the error it throws. */
  function LatestVideos(pageLimit: int, listing: HttpResult<RowsField>, fetchMeta: string -> HttpResult<JsValue>)
    : (r: Result<seq<VideoMetadata>, string>)
    ensures GetFiles(10, listing) == [] ==> r == Failure(NoListingMessage)
    ensures GetFiles(10, listing) != [] && LatestCids(GetFiles(10, listing), pageLimit) == [] ==>
      r == Failure(NoPinsMessage)
    ensures var cids := LatestCids(GetFiles(10, listing), pageLimit);
      GetFiles(10, listing) != [] && cids != [] ==>
        r == (if Present(ReadEach(cids, fetchMeta)) == [] then Failure(NoMetadataMessage)
              else Success(Present(ReadEach(cids, fetchMeta))))
    ensures r.Success? ==>
      && 0 < |r.value| <= 10
      && (pageLimit >= 0 ==> |r.value| <= pageLimit)
      && forall v :: v in r.value ==>
           v.cid in LatestCids(GetFiles(10, listing), pageLimit) && FetchMetadata(v.cid, fetchMeta(v.cid)) == Some(v)
  {
    var files := GetFiles(10, listing);
    if |files| == 0 then Failure(NoListingMessage)
    else
      var latestCIDs := LatestCids(files, pageLimit);
      if |latestCIDs| == 0 then Failure(NoPinsMessage)
      else
        var metadataResults := ReadEach(latestCIDs, fetchMeta);
        var validMetadata := Present(metadataResults);
        if |validMetadata| == 0 then Failure(NoMetadataMessage)
        else
          assert forall v :: v in validMetadata ==> v.cid in latestCIDs && FetchMetadata(v.cid, fetchMeta(v.cid)) == Some(v) by {
            forall v | v in validMetadata
              ensures v.cid in latestCIDs && FetchMetadata(v.cid, fetchMeta(v.cid)) == Some(v)
            {
              var i :| 0 <= i < |metadataResults| && metadataResults[i] == Some(v);
            }
          }
          Success(validMetadata)
  }

  /** The list loads exactly when the document of some chosen CID reads. */
  lemma LoadsIffSomeDocumentReads(pageLimit: int, listing: HttpResult<RowsField>,
                                  fetchMeta: string -> HttpResult<JsValue>)
    ensures LatestVideos(pageLimit, listing, fetchMeta).Success?
            <==> exists c :: c in LatestCids(GetFiles(10, listing), pageLimit) && FetchMetadata(c, fetchMeta(c)).Some?
  {
    var files := GetFiles(10, listing);
    var cids := LatestCids(files, pageLimit);
    var answers := ReadEach(cids, fetchMeta);
    if exists c :: c in cids && FetchMetadata(c, fetchMeta(c)).Some? {
      var c :| c in cids && FetchMetadata(c, fetchMeta(c)).Some?;
      var i :| 0 <= i < |cids| && cids[i] == c;
      assert answers[i] == FetchMetadata(c, fetchMeta(c));
      assert FetchMetadata(c, fetchMeta(c)).value in Present(answers);
    }
    if LatestVideos(pageLimit, listing, fetchMeta).Success? {
      var v := LatestVideos(pageLimit, listing, fetchMeta).value[0];
      assert v in Present(answers);
      var i :| 0 <= i < |answers| && answers[i] == Some(v);
      assert cids[i] in cids && FetchMetadata(cids[i], fetchMeta(cids[i])).Some?;
    }
  }

  // ---------------------------------------------------------------------
  // Uploading

  /** The cover's share of the progress bar, `max(0, min(20, round(p * 0.2)))`
      (line 398); `round(x)` is `floor(x + 1/2)`. */
  function CoverProgress(p: int): (r: int)
    ensures 0 <= r <= 20
  {
    var raw := (2 * p + 5) / 10;
    if raw < 0 then 0 else if raw > 20 then 20 else raw
  }

  /** The video's share, `20 + max(0, min(75, round(p * 0.75)))` (lines 410-412). */
  function VideoProgress(p: int): (r: int)
    ensures 20 <= r <= 95
  {
    var raw := (3 * p + 2) / 4;
    20 + (if raw < 0 then 0 else if raw > 75 then 75 else raw)
  }

  /** The bar never moves back while a file progresses, and the cover's
      range ends where the video's begins. */
  lemma ProgressIsMonotone(p: int, q: int)
    requires p <= q
    ensures CoverProgress(p) <= CoverProgress(q) && VideoProgress(p) <= VideoProgress(q)
    ensures CoverProgress(100) == 20 == VideoProgress(0) && VideoProgress(100) == 95
  {
    assert (2 * p + 5) / 10 <= (2 * q + 5) / 10;
    assert (3 * p + 2) / 4 <= (3 * q + 2) / 4;
  }

  /** The metadata document `uploadFile` publishes (lines 421-430). A private
      video carries `dataToEncryptHash`, `undefined` when none was given; a
      public one has no such member. */
  function BuildMetadata(title: string, desc: string, coverCid: string, videoCid: string, timestamp: string,
                         author: string, isPublic: bool, dataToEncryptHash: Option<string>): (m: JsValue)
    ensures m.JObject?
    ensures "dataToEncryptHash" in m.fields <==> !isPublic
    ensures forall k :: k in m.fields ==>
      k in {"title", "description", "coverImageCid", "videoCid", "timestamp", "author", "isPublic", "dataToEncryptHash"}
  {
    var base := map["title" := JStr(title), "description" := JStr(desc), "coverImageCid" := JStr(coverCid),
                    "videoCid" := JStr(videoCid), "timestamp" := JStr(timestamp), "author" := JStr(author),
                    "isPublic" := JBool(isPublic)];
    JObject(if !isPublic then base["dataToEncryptHash" := if dataToEncryptHash.Some? then JStr(dataToEncryptHash.value) else JUndefined]
            else base)
  }

  /** What `JSON.stringify` and `JSON.parse` make of a flat object: its
      `undefined` members are dropped. */
  function Stored(v: JsValue): JsValue {
    if v.JObject? then JObject(map k | k in v.fields && v.fields[k] != JUndefined :: v.fields[k]) else v
  }

  /** The stored form of a metadata document, member by member. */
  lemma StoredMetadata(title: string, desc: string, coverCid: string, videoCid: string, timestamp: string,
                       author: string, isPublic: bool, dataToEncryptHash: Option<string>)
    ensures var stored := Stored(BuildMetadata(title, desc, coverCid, videoCid, timestamp, author, isPublic, dataToEncryptHash));
      && stored.JObject?
      && Get(stored, "title") == JStr(title) && Get(stored, "description") == JStr(desc)
      && Get(stored, "coverImageCid") == JStr(coverCid) && Get(stored, "videoCid") == JStr(videoCid)
      && Get(stored, "timestamp") == JStr(timestamp) && Get(stored, "author") == JStr(author)
      && Get(stored, "isPublic") == JBool(isPublic)
      && Get(stored, "dataToEncryptHash")
         == (if !isPublic && dataToEncryptHash.Some? then JStr(dataToEncryptHash.value) else JUndefined)
  {
    var m := BuildMetadata(title, desc, coverCid, videoCid, timestamp, author, isPublic, dataToEncryptHash);
    var base := map["title" := JStr(title), "description" := JStr(desc), "coverImageCid" := JStr(coverCid),
                    "videoCid" := JStr(videoCid), "timestamp" := JStr(timestamp), "author" := JStr(author),
                    "isPublic" := JBool(isPublic)];
    assert m.fields == if !isPublic then base["dataToEncryptHash" := Get(m, "dataToEncryptHash")] else base;
    StoredKeepsMembers(m, "title");
    StoredKeepsMembers(m, "description");
    StoredKeepsMembers(m, "coverImageCid");
    StoredKeepsMembers(m, "videoCid");
    StoredKeepsMembers(m, "timestamp");
    StoredKeepsMembers(m, "author");
    StoredKeepsMembers(m, "isPublic");
    StoredKeepsMembers(m, "dataToEncryptHash");
  }

  /** Dropping the `undefined` members changes no member's value. */
  lemma StoredKeepsMembers(v: JsValue, k: string)
    ensures Get(Stored(v), k) == Get(v, k)
  {
  }

  /** A published metadata document reads back through `fetchMetadata` with
      the values that were uploaded, an empty title, description or
      timestamp replaced by its default, and `isPublic` preserved. */
  lemma MetadataReadsBack(cid: string, title: string, desc: string, coverCid: string, videoCid: string,
                          timestamp: string, author: string, isPublic: bool, dataToEncryptHash: Option<string>)
    ensures var stored := Stored(BuildMetadata(title, desc, coverCid, videoCid, timestamp, author, isPublic, dataToEncryptHash));
      FetchMetadata(cid, Reply(true, Some(stored))) == Some(VideoMetadata(
        cid,
        JStr(if title != "" then title else DefaultTitle),
        JStr(if desc != "" then desc else DefaultDescription),
        JStr(coverCid), JStr(videoCid),
        JStr(if timestamp != "" then timestamp else DefaultTimestamp),
        JStr(author),
        isPublic,
        JStr(if !isPublic && dataToEncryptHash.Some? && dataToEncryptHash.value != "" then dataToEncryptHash.value else "")))
  {
    StoredMetadata(title, desc, coverCid, videoCid, timestamp, author, isPublic, dataToEncryptHash);
  }

  /** `uploadJsonToPinata`'s request body (lines 260-284): the document, a
      fixed name and, with a group, a pin policy and the group tag. */
  function UploadJsonRequest(jsonData: JsValue, groupId: Option<string>): JsValue {
    JObject(map[
      "data" := jsonData,
      "options" := JObject(map[
        "metadata" := JObject(map["name" := JStr("Video Metadata")]),
        "pinataOptions" := if Truthful(groupId) then GroupPinOptions(groupId.value) else JObject(map[])])])
  }

  function GroupPinOptions(groupId: string): JsValue {
    JObject(map[
      "customPinPolicy" := JObject(map["regions" := JArray([
        JObject(map["id" := JStr("FRA1"), "desiredReplicationCount" := JNum(1)])])]),
      "pinataMetadata" := JObject(map["keyvalues" := JObject(map["group" := JStr(groupId)])])])
  }

  /** Through the proxy, a grouped upload is pinned under the fixed name with
      the group as its only key value, and an ungrouped one under the name
      alone; the document is forwarded unchanged. */
  lemma ProxyTagsUploadWithGroup(jsonData: JsValue, groupId: Option<string>)
    ensures var doc := UpstreamDocument(UploadJsonRequest(jsonData, groupId));
      && doc.JObject? && "pinataContent" in doc.fields && "pinataMetadata" in doc.fields
      && doc.fields["pinataContent"] == jsonData
      && doc.fields["pinataMetadata"] == JObject(
           if Truthful(groupId)
           then map["name" := JStr("Video Metadata"), "keyvalues" := JObject(map["group" := JStr(groupId.value)])]
           else map["name" := JStr("Video Metadata")])
  {
    var options := Get(UploadJsonRequest(jsonData, groupId), "options");
    if Truthful(groupId) {
      assert GroupOf(options) == JStr(groupId.value);
    } else {
      assert GroupOf(options) == JUndefined;
    }
  }

  /** The CID of a successful upload: the response is ok, its body parsed,
      and it names a non-empty `IpfsHash` (lines 225-246, 295-309). */
  function UploadedCid(h: HttpResult<PinReceipt>): (r: Option<string>)
    ensures r.Some? <==> Delivered(h) && HasHash(h.body.value)
    ensures r.Some? ==> r.value != ""
  {
    if Delivered(h) && HasHash(h.body.value) then Some(h.body.value.ipfsHash.value) else None
  }

  predicate Monotone(s: seq<int>) {
    forall i, j :: 0 <= i < j < |s| ==> s[i] <= s[j]
  }

  predicate Percentages(s: seq<int>) {
    forall i :: 0 <= i < |s| ==> 0 <= s[i] <= 100
  }

  datatype UploadStage = Idle | CoverStage | VideoStage | MetadataStage | Complete

  /** Every value `uploadFile` gives the progress bar, in order (lines
      387-442): the cover's callbacks report 0, and 100 once the response
      body parsed; the video's likewise; the fixed values 20, 95 and 100 mark
      the ends of the stages. (The simulated ticks of the timer are not
      modelled.) */
  function ProgressTrace(cover: HttpResult<PinReceipt>, video: HttpResult<PinReceipt>,
                         metadata: HttpResult<PinReceipt>): seq<int>
  {
    var t1 := [0] + [0] + PinTrace(CoverProgress(0), cover, CoverProgress(100));
    if UploadedCid(cover).None? then t1 else
    var t2 := t1 + [20] + PinTrace(VideoProgress(0), video, VideoProgress(100));
    if UploadedCid(video).None? then t2 else
    var t3 := t2 + [95];
    if UploadedCid(metadata).None? then t3 else t3 + [100]
  }

  /** What one tracked upload reports: `start` when it begins, `done` once
      its reply has been read. */
  function PinTrace(start: int, answer: HttpResult<PinReceipt>, done: int): seq<int>
  {
    if Delivered(answer) then [start, done] else [start]
  }

  /** The stage `uploadFile` is left in: the one whose upload failed, or
      `Complete`. */
  function StageReached(cover: HttpResult<PinReceipt>, video: HttpResult<PinReceipt>,
                        metadata: HttpResult<PinReceipt>): UploadStage
  {
    if UploadedCid(cover).None? then CoverStage
    else if UploadedCid(video).None? then VideoStage
    else if UploadedCid(metadata).None? then MetadataStage
    else Complete
  }

  lemma PinTraceIsRun(start: int, answer: HttpResult<PinReceipt>, done: int)
    requires 0 <= start <= done <= 100
    ensures var t := PinTrace(start, answer, done);
      && t != [] && t[0] == start && t[|t| - 1] == (if Delivered(answer) then done else start)
      && Monotone(t) && Percentages(t)
  {
  }

  /** Two non-decreasing runs of percentages, the second starting no lower
      than the first ends, make one. */
  lemma JoinMonotone(s: seq<int>, u: seq<int>)
    requires s != [] && Monotone(s) && Monotone(u) && Percentages(s) && Percentages(u)
    requires u != [] ==> s[|s| - 1] <= u[0]
    ensures Monotone(s + u) && Percentages(s + u)
  {
    forall i, j | 0 <= i < j < |s + u|
      ensures (s + u)[i] <= (s + u)[j]
    {
      if j >= |s| {
        assert (s + u)[j] == u[j - |s|];
        if i < |s| {
          assert s[i] <= s[|s| - 1];
          assert u[0] <= u[j - |s|];
        }
      }
    }
  }

  /** The progress bar starts at 0, never moves back and stays a
      percentage. */
  lemma ProgressTraceIsMonotone(cover: HttpResult<PinReceipt>, video: HttpResult<PinReceipt>,
                                metadata: HttpResult<PinReceipt>)
    ensures var t := ProgressTrace(cover, video, metadata);
      && |t| >= 3 && t[0] == 0 && Monotone(t) && Percentages(t)
  {
    ProgressIsMonotone(0, 100);
    var t := ProgressTrace(cover, video, metadata);
    var c := PinTrace(CoverProgress(0), cover, CoverProgress(100));
    PinTraceIsRun(CoverProgress(0), cover, CoverProgress(100));
    var t1 := [0] + [0] + c;
    JoinMonotone([0] + [0], c);
    if UploadedCid(cover).None? {
      assert t == t1;
      return;
    }
    var v := PinTrace(VideoProgress(0), video, VideoProgress(100));
    PinTraceIsRun(VideoProgress(0), video, VideoProgress(100));
    var t2 := t1 + [20] + v;
    JoinMonotone(t1, [20]);
    JoinMonotone(t1 + [20], v);
    if UploadedCid(video).None? {
      assert t == t2;
      return;
    }
    JoinMonotone(t2, [95]);
    if UploadedCid(metadata).None? {
      assert t == t2 + [95];
    } else {
      JoinMonotone(t2 + [95], [100]);
      assert t == t2 + [95] + [100];
    }
  }


  /** The progress bar ends at 100 exactly when all three uploads succeed. */
  lemma ProgressIsFullIffComplete(cover: HttpResult<PinReceipt>, video: HttpResult<PinReceipt>,
                                  metadata: HttpResult<PinReceipt>)
    ensures var t := ProgressTrace(cover, video, metadata);
      && t != [] && (t[|t| - 1] == 100 <==> StageReached(cover, video, metadata) == Complete)
  {
    ProgressIsMonotone(0, 100);
    var t := ProgressTrace(cover, video, metadata);
    var c := PinTrace(CoverProgress(0), cover, CoverProgress(100));
    PinTraceIsRun(CoverProgress(0), cover, CoverProgress(100));
    var t1 := [0] + [0] + c;
    if UploadedCid(cover).None? {
      assert t == t1 && t1[|t1| - 1] == c[|c| - 1];
      return;
    }
    var v := PinTrace(VideoProgress(0), video, VideoProgress(100));
    PinTraceIsRun(VideoProgress(0), video, VideoProgress(100));
    var t2 := t1 + [20] + v;
    if UploadedCid(video).None? {
      assert t == t2 && t2[|t2| - 1] == v[|v| - 1];
      return;
    }
    if UploadedCid(metadata).None? {
      assert t == t2 + [95];
    } else {
      assert t == t2 + [95] + [100];
    }
  }

  /** The messages the hook shows when listing or uploading fails. */
  const LoadFailedMessage: string := "视频加载失败，请刷新页面重试"
  const UploadFailedMessage: string := "上传失败，请重试"
  const NoSdkMessage: string := "Pinata SDK 未初始化"
  const NoWalletMessage: string := "缺少作者钱包地址"

  /** The state behind the video list and the upload form. */
  class PinataState {
    const limit: int
    var videos: seq<VideoMetadata>
    var loading: bool
    var error: Option<string>
    var uploading: bool
    var ipfsHash: Option<string>
    var uploadProgress: int
    var uploadStage: UploadStage

    /** `usePinata(limit)`'s initial state (lines 48-57). */
    constructor (limit: int)
      ensures this.limit == limit && videos == [] && loading && error.None? && !uploading
      ensures ipfsHash.None? && uploadProgress == 0 && uploadStage == Idle
    {
      this.limit := limit;
      videos := [];
      loading := true;
      error := None;
      uploading := false;
      ipfsHash := None;
      uploadProgress := 0;
      uploadStage := Idle;
    }

    /** `getLatestCIDs` (lines 317-365): replaces the list on success, shows
        one fixed message on any failure, and always ends loading. */
    method GetLatestCIDs(pageLimit: int, listing: HttpResult<RowsField>, fetchMeta: string -> HttpResult<JsValue>)
      modifies this
      ensures !loading
      ensures var r := LatestVideos(pageLimit, listing, fetchMeta);
        && videos == (if r.Success? then r.value else old(videos))
        && error == (if r.Success? then None else Some(LoadFailedMessage))
      ensures uploading == old(uploading) && ipfsHash == old(ipfsHash)
      ensures uploadProgress == old(uploadProgress) && uploadStage == old(uploadStage)
    {
      loading := true;
      error := None;
      var r := LatestVideos(pageLimit, listing, fetchMeta);
      if r.Success? {
        videos := r.value;
      } else {
        error := Some(LoadFailedMessage);
      }
      loading := false;
    }

    /** `uploadFile` (lines 368-472). `sdkReady` is `!isServer && !!pinata`;
        `cover`, `video` and `metadata` answer the three uploads; `now` is
        `new Date().toISOString()`; `listing` and `fetchMeta` answer the
        refresh that follows. Returns every value the progress bar took and
        the metadata upload request, if one was made. */
    method UploadFile(title: string, desc: string, walletAddress: string, isPublic: bool,
                      dataToEncryptHash: Option<string>, sdkReady: bool,
                      cover: HttpResult<PinReceipt>, video: HttpResult<PinReceipt>, metadata: HttpResult<PinReceipt>,
                      now: string, listing: HttpResult<RowsField>, fetchMeta: string -> HttpResult<JsValue>)
      returns (progress: seq<int>, request: Option<JsValue>)
      modifies this
      ensures !sdkReady ==>
        && error == Some(NoSdkMessage) && progress == [] && request.None?
        && uploading == old(uploading) && uploadProgress == old(uploadProgress) && uploadStage == old(uploadStage)
        && ipfsHash == old(ipfsHash) && videos == old(videos) && loading == old(loading)
      ensures sdkReady && walletAddress == "" ==>
        && error == Some(NoWalletMessage) && progress == [] && request.None?
        && uploading == old(uploading) && uploadProgress == old(uploadProgress) && uploadStage == old(uploadStage)
        && ipfsHash == old(ipfsHash) && videos == old(videos) && loading == old(loading)
      ensures sdkReady && walletAddress != "" ==>
        && !uploading
        && progress == ProgressTrace(cover, video, metadata) && uploadProgress == progress[|progress| - 1]
        && uploadStage == StageReached(cover, video, metadata)
        && request == (if UploadedCid(cover).Some? && UploadedCid(video).Some?
                       then Some(UploadJsonRequest(
                              BuildMetadata(title, desc, UploadedCid(cover).value, UploadedCid(video).value, now,
                                            walletAddress, isPublic, dataToEncryptHash),
                              Some(MetadataGroupId)))
                       else None)
        && (uploadStage == Complete ==>
              && ipfsHash == UploadedCid(metadata) && !loading
              && var r := LatestVideos(limit, listing, fetchMeta);
                 && videos == (if r.Success? then r.value else old(videos))
                 && error == (if r.Success? then None else Some(LoadFailedMessage)))
        && (uploadStage != Complete ==>
              && error == Some(UploadFailedMessage) && ipfsHash == old(ipfsHash)
              && videos == old(videos) && loading == old(loading))
    {
      progress := [];
      request := None;
      if !sdkReady {
        error := Some(NoSdkMessage);
        return;
      }
      if walletAddress == "" {
        error := Some(NoWalletMessage);
        return;
      }
      progress, request := RunUpload(title, desc, walletAddress, isPublic, dataToEncryptHash,
                                     cover, video, metadata, now, listing, fetchMeta);
    }

    /** The part of `uploadFile` after its two guards (lines 387-471). */
    method RunUpload(title: string, desc: string, walletAddress: string, isPublic: bool,
                      dataToEncryptHash: Option<string>,
                      cover: HttpResult<PinReceipt>, video: HttpResult<PinReceipt>, metadata: HttpResult<PinReceipt>,
                      now: string, listing: HttpResult<RowsField>, fetchMeta: string -> HttpResult<JsValue>)
      returns (progress: seq<int>, request: Option<JsValue>)
      modifies this
      ensures !uploading
      ensures progress == ProgressTrace(cover, video, metadata) && uploadProgress == progress[|progress| - 1]
      ensures uploadStage == StageReached(cover, video, metadata)
      ensures request == (if UploadedCid(cover).Some? && UploadedCid(video).Some?
                          then Some(UploadJsonRequest(
                                 BuildMetadata(title, desc, UploadedCid(cover).value, UploadedCid(video).value, now,
                                               walletAddress, isPublic, dataToEncryptHash),
                                 Some(MetadataGroupId)))
                          else None)
      ensures uploadStage == Complete ==>
        && ipfsHash == UploadedCid(metadata) && !loading
        && var r := LatestVideos(limit, listing, fetchMeta);
           && videos == (if r.Success? then r.value else old(videos))
           && error == (if r.Success? then None else Some(LoadFailedMessage))
      ensures uploadStage != Complete ==>
        && error == Some(UploadFailedMessage) && ipfsHash == old(ipfsHash)
        && videos == old(videos) && loading == old(loading)
    {
      request := None;
      uploading := true;
      error := None;
      uploadProgress, progress := 0, [0];
      uploadStage := CoverStage;
      uploadProgress, progress := 0, progress + [0];
      var imageResult;
      progress, imageResult := PinFile(progress, CoverProgress(0), cover, CoverProgress(100));
      if imageResult.None? {
        return;
      }
      progress, request := PinVideoAndMetadata(progress, title, desc, imageResult.value, walletAddress, isPublic,
                                               dataToEncryptHash, video, metadata, now, listing, fetchMeta);
    }

    /** The video and metadata stages of `uploadFile` (lines 401-471), once
        the cover is pinned under `coverCid`. */
    method PinVideoAndMetadata(before: seq<int>, title: string, desc: string, coverCid: string,
                               walletAddress: string, isPublic: bool, dataToEncryptHash: Option<string>,
                               video: HttpResult<PinReceipt>, metadata: HttpResult<PinReceipt>,
                               now: string, listing: HttpResult<RowsField>, fetchMeta: string -> HttpResult<JsValue>)
      returns (progress: seq<int>, request: Option<JsValue>)
      modifies this
      ensures !uploading
      ensures var afterVideo := before + [20] + PinTrace(VideoProgress(0), video, VideoProgress(100));
        progress == (if UploadedCid(video).None? then afterVideo
                     else if UploadedCid(metadata).None? then afterVideo + [95]
                     else afterVideo + [95] + [100])
      ensures uploadProgress == progress[|progress| - 1]
      ensures uploadStage == (if UploadedCid(video).None? then VideoStage
                              else if UploadedCid(metadata).None? then MetadataStage
                              else Complete)
      ensures request == (if UploadedCid(video).Some?
                          then Some(UploadJsonRequest(
                                 BuildMetadata(title, desc, coverCid, UploadedCid(video).value, now,
                                               walletAddress, isPublic, dataToEncryptHash),
                                 Some(MetadataGroupId)))
                          else None)
      ensures uploadStage == Complete ==>
        && ipfsHash == UploadedCid(metadata) && !loading
        && var r := LatestVideos(limit, listing, fetchMeta);
           && videos == (if r.Success? then r.value else old(videos))
           && error == (if r.Success? then None else Some(LoadFailedMessage))
      ensures uploadStage != Complete ==>
        && error == Some(UploadFailedMessage) && ipfsHash == old(ipfsHash)
        && videos == old(videos) && loading == old(loading)
    {
      request := None;
      uploadProgress, progress := 20, before + [20];
      uploadStage := VideoStage;
      var videoResult;
      progress, videoResult := PinFile(progress, VideoProgress(0), video, VideoProgress(100));
      if videoResult.None? {
        return;
      }
      var metadataDocument := BuildMetadata(title, desc, coverCid, videoResult.value, now,
                                            walletAddress, isPublic, dataToEncryptHash);
      request := Some(UploadJsonRequest(metadataDocument, Some(MetadataGroupId)));
      progress := PinMetadata(progress, metadata, listing, fetchMeta);
    }

    /** One tracked file upload (`uploadFileToPinata`, lines 186-251, with
        the callback of lines 396-399 or 408-413): the bar shows `start`, and
        `done` once the response body parsed; a failure ends the upload. */
    method PinFile(before: seq<int>, start: int, answer: HttpResult<PinReceipt>, done: int)
      returns (progress: seq<int>, cid: Option<string>)
      modifies this
      ensures progress == before + PinTrace(start, answer, done) && uploadProgress == progress[|progress| - 1]
      ensures cid == UploadedCid(answer)
      ensures cid.None? ==> error == Some(UploadFailedMessage) && !uploading
      ensures cid.Some? ==> error == old(error) && uploading == old(uploading)
      ensures videos == old(videos) && loading == old(loading) && ipfsHash == old(ipfsHash)
      ensures uploadStage == old(uploadStage)
    {
      var steps := PinTrace(start, answer, done);
      uploadProgress, progress := steps[|steps| - 1], before + steps;
      cid := UploadedCid(answer);
      if cid.None? {
        error := Some(UploadFailedMessage);
        uploading := false;
      }
    }

    /** The metadata stage of `uploadFile` and what follows it (lines
        415-471): the JSON itself goes to the proxy, then on success the
        list is refreshed. */
    method PinMetadata(before: seq<int>, metadata: HttpResult<PinReceipt>,
                       listing: HttpResult<RowsField>, fetchMeta: string -> HttpResult<JsValue>)
      returns (progress: seq<int>)
      modifies this
      ensures progress == before + [95] + (if UploadedCid(metadata).Some? then [100] else [])
      ensures uploadProgress == progress[|progress| - 1] && !uploading
      ensures uploadStage == (if UploadedCid(metadata).Some? then Complete else MetadataStage)
      ensures UploadedCid(metadata).Some? ==>
        && ipfsHash == UploadedCid(metadata) && !loading
        && var r := LatestVideos(limit, listing, fetchMeta);
           && videos == (if r.Success? then r.value else old(videos))
           && error == (if r.Success? then None else Some(LoadFailedMessage))
      ensures UploadedCid(metadata).None? ==>
        && error == Some(UploadFailedMessage) && ipfsHash == old(ipfsHash)
        && videos == old(videos) && loading == old(loading)
    {
      uploadProgress, progress := 95, before + [95];
      uploadStage := MetadataStage;
      var metadataResult := UploadedCid(metadata);
      if metadataResult.None? {
        error := Some(UploadFailedMessage);
        uploading := false;
        return;
      }
      uploadProgress, progress := 100, progress + [100];
      uploadStage := Complete;
      ipfsHash := metadataResult;
      GetLatestCIDs(limit, listing, fetchMeta);
      uploading := false;
    }
  }
}
