/** The proxy route of app/api/pinata/route.ts: `GET` lists a group's pins or
    relays a gateway document, `POST` forwards a file or a JSON document to
    the pinning service. The upstream service is an oracle from the request
    it is sent to its answer. */
module PinataProxy {
  import opened Wrappers
  import opened Js
  import opened Net
  import opened JsStrings

  /** The query parameters `cid`, `action` and `groupId`; `None` is absent. */
  datatype GetRequest = GetRequest(cid: Option<string>, action: Option<string>, groupId: Option<string>)

  /** A reply: status, JSON body, and the `Cache-Control` header when one is
      set (the CORS headers are on every reply). */
  datatype ProxyReply = ProxyReply(status: int, body: JsValue, cacheControl: Option<string>)

  const ListCache: string := "public, max-age=60, stale-while-revalidate=300"
  const ContentCache: string := "public, max-age=300, stale-while-revalidate=600"

  /** The messages of the three `GET` failures. */
  const ListFailedMessage: string := "获取文件列表失败"
  const MissingCidMessage: string := "缺少CID参数"
  const ContentFailedMessage: string := "获取IPFS内容失败"

  function ErrorBody(message: string): JsValue {
    JObject(map["error" := JStr(message)])
  }

  /** The pin listing of one group (line 36). */
  function ListUrl(groupId: string): string {
    ListUrlStart + groupId + ListUrlEnd
  }

  const ListUrlStart: string := "https://api.pinata.cloud/data/pinList?status=pinned&metadata[keyvalues][group]={\"value\":\""
  const ListUrlEnd: string := "\",\"op\":\"eq\"}"

  /** A document on the configured gateway (line 84). */
  function ContentUrl(gateway: string, cid: string): string {
    "https://" + gateway + "/ipfs/" + cid
  }

  predicate Truthful(s: Option<string>) {
    s.Some? && s.value != ""
  }

  /** The list branch is taken exactly for `action=list` with a non-empty
      group (line 33). */
  predicate IsListRequest(r: GetRequest) {
    r.action == Some("list") && Truthful(r.groupId)
  }

  /** A `GET` reply, and the upstream URL fetched for it, if any. */
  datatype GetOutcome = GetOutcome(reply: ProxyReply, fetched: Option<string>)

  /** `GET` (lines 26-117). An upstream answer that is not ok, or whose body
      does not parse, is a 500 with that branch's message. */
  function HandleGet(r: GetRequest, gateway: string, upstream: string -> HttpResult<JsValue>): (o: GetOutcome)
    ensures IsListRequest(r) ==> o.fetched == Some(ListUrl(r.groupId.value))
    ensures IsListRequest(r) && Delivered(upstream(ListUrl(r.groupId.value))) ==>
      o.reply == ProxyReply(200, upstream(ListUrl(r.groupId.value)).body.value, Some(ListCache))
    ensures IsListRequest(r) && !Delivered(upstream(ListUrl(r.groupId.value))) ==>
      o.reply == ProxyReply(500, ErrorBody(ListFailedMessage), None)
    ensures !IsListRequest(r) && !Truthful(r.cid) ==>
      o == GetOutcome(ProxyReply(400, ErrorBody(MissingCidMessage), None), None)
    ensures !IsListRequest(r) && Truthful(r.cid) ==>
      && o.fetched == Some(ContentUrl(gateway, r.cid.value))
      && (Delivered(upstream(ContentUrl(gateway, r.cid.value))) ==>
            o.reply == ProxyReply(200, upstream(ContentUrl(gateway, r.cid.value)).body.value, Some(ContentCache)))
      && (!Delivered(upstream(ContentUrl(gateway, r.cid.value))) ==>
            o.reply == ProxyReply(500, ErrorBody(ContentFailedMessage), None))
    ensures o.reply.status in {200, 400, 500}
    ensures o.reply.status == 200 <==> o.reply.cacheControl.Some?
  {
    if IsListRequest(r) then
      var pinataUrl := ListUrl(r.groupId.value);
      var response := upstream(pinataUrl);
      if Delivered(response) then GetOutcome(ProxyReply(200, response.body.value, Some(ListCache)), Some(pinataUrl))
      else GetOutcome(ProxyReply(500, ErrorBody(ListFailedMessage), None), Some(pinataUrl))
    else if !Truthful(r.cid) then
      GetOutcome(ProxyReply(400, ErrorBody(MissingCidMessage), None), None)
    else
      var pinataUrl := ContentUrl(gateway, r.cid.value);
      var response := upstream(pinataUrl);
      if Delivered(response) then GetOutcome(ProxyReply(200, response.body.value, Some(ContentCache)), Some(pinataUrl))
      else GetOutcome(ProxyReply(500, ErrorBody(ContentFailedMessage), None), Some(pinataUrl))
  }

  /** A list request is served from the list whatever `cid` says. */
  lemma ListBranchIgnoresCid(cid1: Option<string>, cid2: Option<string>, groupId: string, gateway: string,
                             upstream: string -> HttpResult<JsValue>)
    requires groupId != ""
    ensures HandleGet(GetRequest(cid1, Some("list"), Some(groupId)), gateway, upstream)
            == HandleGet(GetRequest(cid2, Some("list"), Some(groupId)), gateway, upstream)
  {
  }

  // ---------------------------------------------------------------------
  // POST

  /** What `request.formData()` gave: it threw, or the `file` field (`None`
      when absent). Files are opaque, named by a reference. */
  datatype FormAnswer = FormThrew | Form(file: Option<string>)

  /** The body of the forwarded request. */
  datatype UpstreamBody = FileForm(file: string) | JsonText(document: JsValue)

  /** A request the proxy sends upstream. */
  datatype UpstreamRequest = UpstreamRequest(url: string, headers: map<string, string>, body: UpstreamBody)

  /** The messages of the two `POST` failures. */
  const PinFailedMessage: string := "上传到IPFS失败"
  const NoFileMessage: string := "未找到文件"

  const PinFileUrl: string := "https://api.pinata.cloud/pinning/pinFileToIPFS"
  const PinJsonUrl: string := "https://api.pinata.cloud/pinning/pinJSONToIPFS"

  /** `options?.pinataOptions?.pinataMetadata?.keyvalues?.group` (line 181). */
  function GroupOf(options: JsValue): JsValue {
    Get(Get(Get(Get(options, "pinataOptions"), "pinataMetadata"), "keyvalues"), "group")
  }

  /** The `pinataMetadata` forwarded for a JSON upload (lines 177-188). */
  function MergedMetadata(options: JsValue): (m: JsValue)
    ensures !Truthy(GroupOf(options)) ==> m == Or(Get(options, "metadata"), JObject(map[]))
    ensures Truthy(GroupOf(options)) ==>
      && m.JObject? && "keyvalues" in m.fields
      && m.fields["keyvalues"] == JObject(map["group" := GroupOf(options)])
      && forall k :: k != "keyvalues" ==>
           (k in m.fields <==> k in Spread(Or(Get(options, "metadata"), JObject(map[]))))
           && (k in m.fields ==> m.fields[k] == Spread(Or(Get(options, "metadata"), JObject(map[])))[k])
  {
    var pinataMetadata := Or(Get(options, "metadata"), JObject(map[]));
    var group := GroupOf(options);
    if Truthy(group) then JObject(Spread(pinataMetadata)["keyvalues" := JObject(map["group" := group])])
    else pinataMetadata
  }

  /** The document forwarded for a JSON upload body `{data, options}` (lines 168-194). */
  function UpstreamDocument(requestBody: JsValue): JsValue {
    var options := Get(requestBody, "options");
    JObject(map["pinataContent" := Get(requestBody, "data"),
                "pinataMetadata" := MergedMetadata(options),
                "pinataOptions" := Or(Get(options, "pinataOptions"), JObject(map[]))])
  }

  /** `POST` (lines 133-222). `readJson` is what `request.json()` gave
      (`None` when it threw); `upstream` answers the forwarded request. */
  method HandlePost(contentType: Option<string>, form: FormAnswer, readJson: Option<JsValue>, jwt: string,
              upstream: UpstreamRequest -> HttpResult<JsValue>)
    returns (reply: ProxyReply, sent: Option<UpstreamRequest>)
    ensures var multipart := contentType.Some? && Contains(contentType.value, "multipart/form-data");
      && (multipart && form.Form? && form.file.Some? && form.file.value != "" ==>
            sent == Some(UpstreamRequest(PinFileUrl, map["Authorization" := "Bearer " + jwt], FileForm(form.file.value))))
      && (multipart && !(form.Form? && form.file.Some? && form.file.value != "") ==>
            sent.None? && reply == (if form.FormThrew? then ProxyReply(500, ErrorBody(PinFailedMessage), None)
                                    else ProxyReply(400, ErrorBody(NoFileMessage), None)))
      && (!multipart && (readJson.None? || readJson.value.JNull? || readJson.value.JUndefined?) ==>
            sent.None? && reply == ProxyReply(500, ErrorBody(PinFailedMessage), None))
      && (!multipart && readJson.Some? && !readJson.value.JNull? && !readJson.value.JUndefined? ==>
            sent == Some(UpstreamRequest(PinJsonUrl,
                           map["Authorization" := "Bearer " + jwt, "Content-Type" := "application/json"],
                           JsonText(UpstreamDocument(readJson.value)))))
    ensures sent.Some? && Delivered(upstream(sent.value)) ==> reply == ProxyReply(200, upstream(sent.value).body.value, None)
    ensures sent.Some? && !Delivered(upstream(sent.value)) ==> reply == ProxyReply(500, ErrorBody(PinFailedMessage), None)
  {
    var pinataUrl: string;
    var headers: map<string, string> := map["Authorization" := "Bearer " + jwt];
    var body: UpstreamBody;
    var kind := if contentType.Some? then contentType.value else "";
    if Contains(kind, "multipart/form-data") {
      if form.FormThrew? {
        return ProxyReply(500, ErrorBody(PinFailedMessage), None), None;
      }
      if form.file.None? || form.file.value == "" {
        return ProxyReply(400, ErrorBody(NoFileMessage), None), None;
      }
      pinataUrl := PinFileUrl;
      body := FileForm(form.file.value);
    } else {
      if readJson.None? || readJson.value.JNull? || readJson.value.JUndefined? {
        return ProxyReply(500, ErrorBody(PinFailedMessage), None), None;
      }
      pinataUrl := PinJsonUrl;
      headers := headers["Content-Type" := "application/json"];
      body := JsonText(UpstreamDocument(readJson.value));
    }
    var request := UpstreamRequest(pinataUrl, headers, body);
    sent := Some(request);
    var response := upstream(request);
    if Delivered(response) {
      reply := ProxyReply(200, response.body.value, None);
    } else {
      reply := ProxyReply(500, ErrorBody(PinFailedMessage), None);
    }
  }
}
