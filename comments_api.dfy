/** The add-comment handler of app/api/comments/route.ts: an early-return
    chain of configuration, shape, timestamp and signature checks in front of
    the comment log. Signer recovery (`ethers.verifyMessage`) is an oracle. */
module CommentsApi {
  import opened Wrappers
  import opened Js
  import opened Net
  import opened JsStrings
  import opened Json
  import opened CommentLog

  /** The signed fields of a comment, in the order they are serialised. */
  datatype CommentPayload = CommentPayload(videoId: string, author: string, text: string, timestamp: int)

  const VideoIdKey: string := "{\"videoId\":"
  const AuthorKey: string := ",\"author\":"
  const TextKey: string := ",\"text\":"
  const TimestampKey: string := ",\"timestamp\":"

  /** `JSON.stringify({videoId, author, text, timestamp})` (lines 25-31), the
      message whose signature is checked. */
  function CanonicalMessage(p: CommentPayload): (m: string)
    ensures |m| > |VideoIdKey| && m[..|VideoIdKey| + 1] == VideoIdKey + "\""
    ensures m[|m| - 1] == '}'
  {
    VideoIdKey + Quote(p.videoId)
      + (AuthorKey + Quote(p.author)
      + (TextKey + Quote(p.text)
      + (TimestampKey + IntToDecimal(p.timestamp) + "}")))
  }

  /** Reads `key` followed by a JSON string: its text and what follows it. */
  function ReadString(key: string, r: string): Option<(string, string)>
  {
    if StartsWith(r, key + "\"") then Unescape(r[|key| + 1..]) else None
  }

  /** Reads a canonical message back into its payload. */
  function ParseCanonical(m: string): Option<CommentPayload>
  {
    match ReadString(VideoIdKey, m)
    case None => None
    case Some((v, r1)) =>
      match ReadString(AuthorKey, r1)
      case None => None
      case Some((a, r2)) =>
        match ReadString(TextKey, r2)
        case None => None
        case Some((t, r3)) =>
          if StartsWith(r3, TimestampKey) && |r3| > |TimestampKey| && r3[|r3| - 1] == '}' then
            match DecimalValue(r3[|TimestampKey|..|r3| - 1])
            case None => None
            case Some(n) => Some(CommentPayload(v, a, t, n))
          else None
  }

  lemma ReadStringQuoted(key: string, s: string, rest: string)
    ensures ReadString(key, key + Quote(s) + rest) == Some((s, rest))
  {
    var m := key + Quote(s) + rest;
    assert m == (key + "\"") + (EscapeAll(s) + "\"" + rest);
    assert m[|key| + 1..] == EscapeAll(s) + "\"" + rest;
    UnescapeEscapeAll(s, rest);
  }

  /** The canonical message determines the payload: it reads back to exactly
      the fields it was written from, whatever characters they hold. */
  lemma CanonicalMessageRoundTrip(p: CommentPayload)
    ensures ParseCanonical(CanonicalMessage(p)) == Some(p)
  {
    var digits := IntToDecimal(p.timestamp);
    var r3 := TimestampKey + digits + "}";
    var r2 := TextKey + Quote(p.text) + r3;
    var r1 := AuthorKey + Quote(p.author) + r2;
    ReadStringQuoted(VideoIdKey, p.videoId, r1);
    ReadStringQuoted(AuthorKey, p.author, r2);
    ReadStringQuoted(TextKey, p.text, r3);
    DecimalValueOfDecimal(p.timestamp);
    assert r3[|TimestampKey|..|r3| - 1] == digits;
  }

  /** So two different payloads never share a message, and a signature over
      one payload's message is never checked against another's. */
  lemma CanonicalMessageInjective(p: CommentPayload, q: CommentPayload)
    requires CanonicalMessage(p) == CanonicalMessage(q)
    ensures p == q
  {
    CanonicalMessageRoundTrip(p);
    CanonicalMessageRoundTrip(q);
  }

  /** `verifySignature` (lines 13-47): the recovered signer, compared with the
      author ignoring ASCII case; a recovery that throws is `None`, a failed
      check. */
  function VerifySignature(message: string, signature: string, authorAddress: string,
                           recover: (string, string) -> Option<string>): (ok: bool)
    ensures ok <==> recover(message, signature).Some?
                    && ToLower(recover(message, signature).value) == ToLower(authorAddress)
  {
    match recover(message, signature)
    case None => false
    case Some(signerAddr) => ToLower(signerAddr) == ToLower(authorAddress)
  }

  /** The author's letter case does not matter (line 36): an author given
      already lower-cased verifies exactly as the author as given. */
  lemma VerifyIgnoresAuthorCase(message: string, signature: string, authorAddress: string,
                                recover: (string, string) -> Option<string>)
    ensures VerifySignature(message, signature, ToLower(authorAddress), recover)
            == VerifySignature(message, signature, authorAddress, recover)
  {
    ToLowerIdempotent(authorAddress);
  }

  /** `process.env.PINATA_JWT || process.env.NEXT_PUBLIC_PINATA_JWT` (line 6);
      `None` is an unset variable. */
  function ServerJwt(pinataJwt: Option<string>, publicJwt: Option<string>): (r: Option<string>)
    ensures pinataJwt.Some? && pinataJwt.value != "" ==> r == pinataJwt
    ensures !(pinataJwt.Some? && pinataJwt.value != "") ==> r == publicJwt
  {
    if pinataJwt.Some? && pinataJwt.value != "" then pinataJwt else publicJwt
  }

  predicate Configured(jwt: Option<string>) {
    jwt.Some? && jwt.value != ""
  }

  /** `const {videoId, author, text, timestamp, signature} = await request.json()`:
      the body could not be read or destructured (with the thrown message), or
      its members; `None` is a missing member. */
  datatype PostBody =
    | Unreadable(message: string)
    | Fields(videoId: Option<string>, author: Option<string>, text: Option<string>,
             timestamp: JsValue, signature: Option<string>)

  /** Why the handler answered 500 from its `catch`: the body, or the comment log. */
  datatype Cause = BodyError(message: string) | StoreError(error: ManagerError)

  datatype ReplyBody =
    | ErrorReply(error: string)
    | FailureReply(error: string, details: Cause)
    | Added(message: string, cid: string)

  /** The answers the pinning service and the clock give one upload. */
  datatype StoreAnswers = StoreAnswers(
    commentPin: HttpResult<PinReceipt>, indexTime: int, tagTime: int,
    query: HttpResult<PinListing>, indexFile: HttpResult<CommentIndex>, publish: HttpResult<PinReceipt>)

  datatype PostOutcome = PostOutcome(status: int, reply: ReplyBody, calls: seq<Call>)

  function Truthful(s: Option<string>): bool {
    s.Some? && s.value != ""
  }

  /** The messages `POST` answers with. */
  const ConfigErrorMessage: string := "Server configuration error: Pinata JWT not set."
  const MissingFieldsMessage: string := "Missing required comment fields"
  const BadTimestampMessage: string := "Invalid timestamp format"
  const BadSignatureMessage: string := "Invalid signature"
  const AddFailedMessage: string := "Failed to add comment"
  const AddedMessage: string := "Comment added successfully"

  /** The fields are present and truthy (line 73). */
  predicate HasRequiredFields(b: PostBody)
    requires b.Fields?
  {
    Truthful(b.videoId) && Truthful(b.author) && Truthful(b.text) && Truthy(b.timestamp)
  }

  /** The comment the handler hands to the log (lines 96-101, 128-131): the
      parsed timestamp, and the signature exactly as given. */
  function CommentToUpload(b: PostBody, numericTimestamp: int): Comment
    requires b.Fields? && HasRequiredFields(b)
  {
    Comment(None, b.videoId.value, b.author.value, b.text.value, numericTimestamp, b.signature)
  }

  /** The checks of `POST` before anything is stored (lines 53-126): the
      comment to store, or the reply that ends the request. */
  function Admit(jwt: Option<string>, body: PostBody, recover: (string, string) -> Option<string>): (r: Result<Comment, PostOutcome>)
    ensures !Configured(jwt) ==>
      r == Failure(PostOutcome(500, ErrorReply(ConfigErrorMessage), []))
    ensures Configured(jwt) && body.Unreadable? ==>
      r == Failure(PostOutcome(500, FailureReply(AddFailedMessage, BodyError(body.message)), []))
    ensures Configured(jwt) && body.Fields? && !HasRequiredFields(body) ==>
      r == Failure(PostOutcome(400, ErrorReply(MissingFieldsMessage), []))
    ensures Configured(jwt) && body.Fields? && HasRequiredFields(body) && ParseIntValue(body.timestamp).None? ==>
      r == Failure(PostOutcome(400, ErrorReply(BadTimestampMessage), []))
    ensures Configured(jwt) && body.Fields? && HasRequiredFields(body) && ParseIntValue(body.timestamp).Some?
            && Truthful(body.signature)
            && !VerifySignature(CanonicalMessage(CommentPayload(body.videoId.value, body.author.value, body.text.value,
                                                                ParseIntValue(body.timestamp).value)),
                                body.signature.value, body.author.value, recover) ==>
      r == Failure(PostOutcome(401, ErrorReply(BadSignatureMessage), []))
    ensures r.Failure? ==> r.error.calls == [] && r.error.status in {400, 401, 500}
    ensures r.Failure? && r.error.status == 401 ==> r.error.reply == ErrorReply(BadSignatureMessage)
    ensures r.Success? <==>
      && Configured(jwt) && body.Fields? && HasRequiredFields(body) && ParseIntValue(body.timestamp).Some?
      && var payload := CommentPayload(body.videoId.value, body.author.value, body.text.value,
                                       ParseIntValue(body.timestamp).value);
         (Truthful(body.signature) ==>
            VerifySignature(CanonicalMessage(payload), body.signature.value, body.author.value, recover))
    ensures r.Success? ==> r.value == CommentToUpload(body, ParseIntValue(body.timestamp).value)
  {
    if !Configured(jwt) then
      Failure(PostOutcome(500, ErrorReply(ConfigErrorMessage), []))
    else match body
      case Unreadable(m) => Failure(PostOutcome(500, FailureReply(AddFailedMessage, BodyError(m)), []))
      case Fields(videoId, author, text, timestamp, signature) =>
        CheckFields(videoId, author, text, Truthy(timestamp), ParseIntValue(timestamp), signature, recover)
  }

  /** The checks on the destructured members (lines 73-126). The timestamp
      is seen only through its truthiness and what `parseInt` makes of it. */
  function CheckFields(videoId: Option<string>, author: Option<string>, text: Option<string>,
                       timestampTruthy: bool, parsed: Option<int>, signature: Option<string>,
                       recover: (string, string) -> Option<string>): Result<Comment, PostOutcome>
  {
    if !(Truthful(videoId) && Truthful(author) && Truthful(text) && timestampTruthy) then
      Failure(PostOutcome(400, ErrorReply(MissingFieldsMessage), []))
    else match parsed
      case None => Failure(PostOutcome(400, ErrorReply(BadTimestampMessage), []))
      case Some(numericTimestamp) =>
        var newCommentData := CommentPayload(videoId.value, author.value, text.value, numericTimestamp);
        if Truthful(signature)
           && !VerifySignature(CanonicalMessage(newCommentData), signature.value, author.value, recover)
        then Failure(PostOutcome(401, ErrorReply(BadSignatureMessage), []))
        else Success(Comment(None, videoId.value, author.value, text.value, numericTimestamp, signature))
  }

  /** `POST` (lines 49-154). A fresh `CommentManager` is made for every
      request, so the upload always starts from an empty index cache. */
  function Post(jwt: Option<string>, body: PostBody, recover: (string, string) -> Option<string>,
                store: StoreAnswers): (o: PostOutcome)
    ensures o.status in {201, 400, 401, 500}
    ensures o.status == 400 || o.status == 401 ==> o.calls == []
    ensures Admit(jwt, body, recover).Failure? ==> o == Admit(jwt, body, recover).error
    ensures Admit(jwt, body, recover).Success? ==>
      var s := UploadCommentStep(map[], Admit(jwt, body, recover).value, store.commentPin,
                                 store.indexTime, store.tagTime, store.query, store.indexFile, store.publish);
      && o.calls == s.calls
      && o.calls[0] == PinJson(CommentPinRequest(Admit(jwt, body, recover).value))
      && (o.status == 201 <==> s.result.Success?)
      && (s.result.Success? ==> o.reply == Added(AddedMessage, s.result.value))
      && (s.result.Failure? ==> o.reply == FailureReply(AddFailedMessage, StoreError(s.result.error)))
  {
    match Admit(jwt, body, recover)
    case Failure(rejected) => rejected
    case Success(comment) =>
      var s := UploadCommentStep(map[], comment, store.commentPin,
                                 store.indexTime, store.tagTime, store.query, store.indexFile, store.publish);
      match s.result
      case Success(cid) => PostOutcome(201, Added(AddedMessage, cid), s.calls)
      case Failure(e) => PostOutcome(500, FailureReply(AddFailedMessage, StoreError(e)), s.calls)
  }

  /** A comment whose signer matches its author (in any letter case) is
      stored under the CID the pinning service gave it, with its signature. */
  lemma SignedByAuthorIsAccepted(jwt: Option<string>, p: CommentPayload, signature: string,
                                 recover: (string, string) -> Option<string>, store: StoreAnswers)
    requires Configured(jwt) && p.videoId != "" && p.author != "" && p.text != "" && p.timestamp != 0
    requires recover(CanonicalMessage(p), signature).Some?
    requires ToLower(recover(CanonicalMessage(p), signature).value) == ToLower(p.author)
    requires Delivered(store.commentPin) && HasHash(store.commentPin.body.value)
    requires Delivered(store.query) && Delivered(store.publish)
    ensures var body := Fields(Some(p.videoId), Some(p.author), Some(p.text), JNum(p.timestamp), Some(signature));
            Post(jwt, body, recover, store)
            == PostOutcome(201, Added(AddedMessage, store.commentPin.body.value.ipfsHash.value),
                           Post(jwt, body, recover, store).calls)
  {
    assert ParseIntValue(JNum(p.timestamp)) == Some(p.timestamp) by { ParseIntValueOfNumber(p.timestamp); }
    var body := Fields(Some(p.videoId), Some(p.author), Some(p.text), JNum(p.timestamp), Some(signature));
    var comment := Comment(None, p.videoId, p.author, p.text, p.timestamp, Some(signature));
    assert VerifySignature(CanonicalMessage(p), signature, p.author, recover);
    assert Admit(jwt, body, recover)
           == CheckFields(Some(p.videoId), Some(p.author), Some(p.text), true, Some(p.timestamp), Some(signature), recover)
           == Success(comment);
    StoreAccepts(comment, store);
  }

  /** When the pinning service accepts the comment, lists the video's index
      pins and accepts the new index, the upload succeeds with the comment's
      CID, whatever the listing held. */
  lemma StoreAccepts(comment: Comment, store: StoreAnswers)
    requires Delivered(store.commentPin) && HasHash(store.commentPin.body.value)
    requires Delivered(store.query) && Delivered(store.publish)
    ensures UploadCommentStep(map[], comment, store.commentPin, store.indexTime, store.tagTime,
                              store.query, store.indexFile, store.publish).result
            == Success(store.commentPin.body.value.ipfsHash.value)
  {
    var cid := store.commentPin.body.value.ipfsHash.value;
    var f := FindIndexStep(map[], comment.videoId, store.query, store.indexFile);
    assert f.result.Success?;
    var u := IndexUpdateStep(map[], comment.videoId, cid, store.indexTime, store.tagTime,
                             store.query, store.indexFile, store.publish);
    assert u.result.Success?;
  }

  /** The same payload with a signer other than its author is refused before
      anything is stored. */
  lemma SignedByOtherIsRefused(jwt: Option<string>, p: CommentPayload, signature: string,
                               recover: (string, string) -> Option<string>, store: StoreAnswers)
    requires Configured(jwt) && p.videoId != "" && p.author != "" && p.text != "" && p.timestamp != 0
    requires signature != ""
    requires recover(CanonicalMessage(p), signature).None?
             || ToLower(recover(CanonicalMessage(p), signature).value) != ToLower(p.author)
    ensures var body := Fields(Some(p.videoId), Some(p.author), Some(p.text), JNum(p.timestamp), Some(signature));
            Post(jwt, body, recover, store) == PostOutcome(401, ErrorReply(BadSignatureMessage), [])
  {
    assert ParseIntValue(JNum(p.timestamp)) == Some(p.timestamp) by { ParseIntValueOfNumber(p.timestamp); }
    var body := Fields(Some(p.videoId), Some(p.author), Some(p.text), JNum(p.timestamp), Some(signature));
    assert !VerifySignature(CanonicalMessage(p), signature, p.author, recover);
    assert Admit(jwt, body, recover)
           == CheckFields(Some(p.videoId), Some(p.author), Some(p.text), true, Some(p.timestamp), Some(signature), recover)
           == Failure(PostOutcome(401, ErrorReply(BadSignatureMessage), []));
  }

  /** A comment without a signature is not verified at all: it is stored
      whatever the recovery oracle would say. */
  lemma UnsignedIsNotVerified(jwt: Option<string>, p: CommentPayload, signature: Option<string>,
                              r1: (string, string) -> Option<string>, r2: (string, string) -> Option<string>,
                              store: StoreAnswers)
    requires !Truthful(signature)
    ensures var body := Fields(Some(p.videoId), Some(p.author), Some(p.text), JNum(p.timestamp), signature);
            Post(jwt, body, r1, store) == Post(jwt, body, r2, store)
  {
  }

  /** A timestamp sent as a numeric string is treated like the number. */
  lemma NumericStringTimestamp(jwt: Option<string>, v: Option<string>, a: Option<string>, t: Option<string>,
                               n: int, signature: Option<string>,
                               recover: (string, string) -> Option<string>, store: StoreAnswers)
    requires n != 0
    ensures Post(jwt, Fields(v, a, t, JStr(IntToDecimal(n)), signature), recover, store)
            == Post(jwt, Fields(v, a, t, JNum(n), signature), recover, store)
  {
    ParseIntValueOfNumber(n);
    var asText := Fields(v, a, t, JStr(IntToDecimal(n)), signature);
    var asNumber := Fields(v, a, t, JNum(n), signature);
    assert Truthy(asText.timestamp) && Truthy(asNumber.timestamp);
    if Configured(jwt) {
      assert Admit(jwt, asText, recover) == CheckFields(v, a, t, true, Some(n), signature, recover);
      assert Admit(jwt, asNumber, recover) == CheckFields(v, a, t, true, Some(n), signature, recover);
    }
  }
}
