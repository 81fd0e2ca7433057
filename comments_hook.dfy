/** The comment hook of app/hooks/useComments.ts: the list, loading flag and
    error message a video's comment section shows, the listing fetch and the
    sign-then-post flow of a new comment. The wallet, the clock and the HTTP
    answers are parameters; each method returns the requests it made. */
module CommentsHook {
  import opened Wrappers
  import opened Js
  import opened JsStrings
  import opened CommentLog
  import opened CommentsApi

  /** A request the hook makes. */
  datatype ClientCall =
    | ListComments(videoId: string)                          // GET /api/comments/<videoId>
    | RequestSignature(message: string)                      // signMessageAsync({message})
    | PostComment(payload: CommentPayload, signature: string) // POST /api/comments

  /** How the listing request ended: it threw (including an unreadable body),
      answered non-ok with the `error` member of its body, or listed comments. */
  datatype ListAnswer = ListThrew(message: string) | ListFailed(errorField: JsValue) | Listed(comments: seq<Comment>)

  /** How the wallet answered: a signature, or a rejection with its `code`. */
  datatype SignAnswer = Signed(signature: string) | SignRejected(code: Option<int>, message: string)

  /** How the post request ended: it threw, or a response with its `ok` flag
      and the `error` member of its body. */
  datatype PostAnswer = PostThrew(message: string) | PostReplied(ok: bool, errorField: JsValue)

  /** `err.message || 'An unknown error occurred'` (line 41). */
  function Shown(message: string): (r: string)
    ensures r != ""
    ensures message != "" ==> r == message
    ensures message == "" ==> r == "An unknown error occurred"
  {
    if message != "" then message else "An unknown error occurred"
  }

  /** The error `fetchComments` leaves (lines 29-42); `None` after a listing. */
  function FetchError(answer: ListAnswer): (r: Option<string>)
    ensures r.None? <==> answer.Listed?
    ensures answer.ListFailed? && !Truthy(answer.errorField) ==> r == Some("Failed to fetch comments")
    ensures answer.ListFailed? && answer.errorField.JStr? && answer.errorField.s != "" ==> r == Some(answer.errorField.s)
    ensures answer.ListThrew? ==> r == Some(Shown(answer.message))
  {
    match answer
    case Listed(_) => None
    case ListFailed(e) => Some(Shown(JsToString(Or(e, JStr("Failed to fetch comments")))))
    case ListThrew(m) => Some(Shown(m))
  }

  /** The message of the error a post failure throws (lines 123-145). */
  function PostFailureMessage(answer: PostAnswer): string
    requires !(answer.PostReplied? && answer.ok)
  {
    match answer
    case PostThrew(m) => m
    case PostReplied(_, e) => JsToString(Or(e, JStr(AddFailedMessage)))
  }

  /** The text by which `addComment` recognises a signing failure. */
  const SignatureNotObtained: string := "Signature was not obtained"

  /** What `addComment` shows for a wallet rejection, and the prefix it puts
      before any other failure. */
  const WalletRejectedMessage: string := "Please sign the message to submit your comment."
  const AddFailedPrefix: string := "Failed to add comment: "

  /** The message `addComment`'s `catch` shows (lines 156-169): a wallet
      rejection (code 4001) has its own text, a message about a missing
      signature is shown as it is, anything else is prefixed. */
  function AddCommentError(code: Option<int>, message: string): (r: string)
    ensures code == Some(4001) ==> r == WalletRejectedMessage
    ensures code != Some(4001) && Contains(message, SignatureNotObtained) ==> r == message
    ensures code != Some(4001) && !Contains(message, SignatureNotObtained) ==>
      r == AddFailedPrefix + (if message != "" then message else "Unknown error")
  {
    if code == Some(4001) then WalletRejectedMessage
    else if message != "" && Contains(message, SignatureNotObtained) then message
    else AddFailedPrefix + (if message != "" then message else "Unknown error")
  }

  /** The payload `addComment` signs and posts (lines 77-83). */
  function ClientPayload(videoId: string, address: string, text: string, now: int): CommentPayload
  {
    CommentPayload(videoId, address, text, now)
  }

  /** What the server destructures from the posted `{...commentPayload, signature}`. */
  function ServerView(p: CommentPayload, signature: string): PostBody
  {
    Fields(Some(p.videoId), Some(p.author), Some(p.text), JNum(p.timestamp), Some(signature))
  }

  /** What the hook sees of the server's reply. */
  function ClientView(o: PostOutcome): PostAnswer
  {
    match o.reply
    case ErrorReply(e) => PostReplied(o.status == 201, JStr(e))
    case FailureReply(e, _) => PostReplied(o.status == 201, JStr(e))
    case Added(_, _) => PostReplied(o.status == 201, JUndefined)
  }

  /** The message the wallet signs is the message the server checks: the
      server rebuilds the payload from the posted body, parsing the timestamp
      back to the same number, so it is accepted exactly when the recovered
      signer is the connected address. */
  lemma ServerChecksWhatClientSigned(jwt: Option<string>, videoId: string, address: string, text: string,
                                     now: int, signature: string, recover: (string, string) -> Option<string>)
    requires Configured(jwt) && videoId != "" && address != "" && text != "" && now != 0 && signature != ""
    ensures var p := ClientPayload(videoId, address, text, now);
            Admit(jwt, ServerView(p, signature), recover).Success?
            <==> VerifySignature(CanonicalMessage(p), signature, address, recover)
  {
    assert ParseIntValue(JNum(now)) == Some(now) by { ParseIntValueOfNumber(now); }
    var p := ClientPayload(videoId, address, text, now);
    assert Admit(jwt, ServerView(p, signature), recover)
           == CheckFields(Some(videoId), Some(address), Some(text), true, Some(now), Some(signature), recover);
  }

  /** An empty comment is signed but refused by the server, and the hook
      shows the server's reason. */
  lemma EmptyTextIsRefused(jwt: Option<string>, videoId: string, address: string, now: int, signature: string,
                           recover: (string, string) -> Option<string>, store: StoreAnswers)
    requires Configured(jwt)
    ensures var o := Post(jwt, ServerView(ClientPayload(videoId, address, "", now), signature), recover, store);
            && o.status == 400
            && AddCommentError(None, PostFailureMessage(ClientView(o)))
               == AddFailedPrefix + MissingFieldsMessage
  {
    var body := ServerView(ClientPayload(videoId, address, "", now), signature);
    assert !HasRequiredFields(body);
    assert Admit(jwt, body, recover) == Failure(PostOutcome(400, ErrorReply(MissingFieldsMessage), []));
    var o := Post(jwt, body, recover, store);
    assert ClientView(o) == PostReplied(false, JStr(MissingFieldsMessage));
    assert PostFailureMessage(ClientView(o)) == MissingFieldsMessage;
    MissingFieldsIsNotSignatureError();
  }

  /** The server's missing-fields reason is not mistaken for a lost
      signature. */
  lemma MissingFieldsIsNotSignatureError()
    ensures !Contains(MissingFieldsMessage, SignatureNotObtained)
  {
    LacksFirstChar(MissingFieldsMessage, SignatureNotObtained);
  }

  /** The messages `addComment` shows when it cannot start or gets an
      empty signature. */
  const NoSignerMessage: string := "Signing function not available. Please try again later."
  const NotConnectedMessage: string := "User not connected or videoId missing."
  const EmptySignatureMessage: string := "Failed to obtain signature. The signing process might have been interrupted."

  /** The state behind a video's comment section. */
  class CommentsState {
    const videoId: string
    var comments: seq<Comment>
    var isLoading: bool
    var error: Option<string>

    constructor (videoId: string)
      ensures this.videoId == videoId && comments == [] && !isLoading && error.None?
    {
      this.videoId := videoId;
      comments := [];
      isLoading := false;
      error := None;
    }

    /** `fetchComments` (lines 25-45): nothing at all without a video id;
        otherwise one listing request, after which the list is replaced only
        on success and the loading flag is down. */
    method FetchComments(answer: ListAnswer) returns (calls: seq<ClientCall>)
      modifies this
      ensures videoId == "" ==>
        calls == [] && comments == old(comments) && isLoading == old(isLoading) && error == old(error)
      ensures videoId != "" ==>
        && calls == [ListComments(videoId)]
        && !isLoading
        && comments == (if answer.Listed? then answer.comments else old(comments))
        && error == FetchError(answer)
    {
      if videoId == "" {
        return [];
      }
      isLoading := true;
      error := None;
      calls := [ListComments(videoId)];
      match answer {
        case Listed(data) =>
          comments := data;
        case ListFailed(e) =>
          error := Some(Shown(JsToString(Or(e, JStr("Failed to fetch comments")))));
        case ListThrew(m) =>
          error := Some(Shown(m));
      }
      isLoading := false;
    }

    /** `addComment` (lines 51-174). `signerReady` is `!!signMessageAsync`;
        `now` is `Date.now()`; `refetch` answers the listing made after a
        successful post. */
    method AddComment(text: string, signerReady: bool, isConnected: bool, address: Option<string>, now: int,
                      sign: SignAnswer, post: PostAnswer, refetch: ListAnswer)
      returns (ok: bool, calls: seq<ClientCall>)
      modifies this
      ensures !signerReady ==>
        && !ok && calls == [] && error == Some(NoSignerMessage)
        && comments == old(comments) && isLoading == old(isLoading)
      ensures signerReady && (videoId == "" || !isConnected || address.None? || address.value == "") ==>
        && !ok && calls == [] && error == Some(NotConnectedMessage)
        && comments == old(comments) && isLoading == old(isLoading)
      ensures signerReady && videoId != "" && isConnected && address.Some? && address.value != "" ==>
        var payload := ClientPayload(videoId, address.value, text, now);
        && !isLoading
        && |calls| >= 1 && calls[0] == RequestSignature(CanonicalMessage(payload))
        && (sign.SignRejected? ==>
              !ok && calls == [calls[0]] && comments == old(comments)
              && error == Some(AddCommentError(sign.code, sign.message)))
        && (sign.Signed? && sign.signature == "" ==>
              !ok && calls == [calls[0]] && comments == old(comments)
              && error == Some(EmptySignatureMessage))
        && (sign.Signed? && sign.signature != "" ==>
              |calls| >= 2 && calls[1] == PostComment(payload, sign.signature)
              && (post.PostReplied? && post.ok ==>
                    ok && calls == [calls[0], calls[1], ListComments(videoId)]
                    && comments == (if refetch.Listed? then refetch.comments else old(comments))
                    && error == FetchError(refetch))
              && (!(post.PostReplied? && post.ok) ==>
                    !ok && calls == [calls[0], calls[1]] && comments == old(comments)
                    && error == Some(AddCommentError(None, PostFailureMessage(post)))))
    {
      if !signerReady {
        error := Some(NoSignerMessage);
        return false, [];
      }
      if videoId == "" || !isConnected || address.None? || address.value == "" {
        error := Some(NotConnectedMessage);
        return false, [];
      }
      ok, calls := Submit(ClientPayload(videoId, address.value, text, now), sign, post, refetch);
    }

    /** `addComment` once its guards passed (lines 74-173): the canonical
        message is signed, and only a non-empty signature is posted. */
    method Submit(payload: CommentPayload, sign: SignAnswer, post: PostAnswer, refetch: ListAnswer)
      returns (ok: bool, calls: seq<ClientCall>)
      requires videoId != "" && payload.videoId == videoId
      modifies this
      ensures !isLoading
      ensures |calls| >= 1 && calls[0] == RequestSignature(CanonicalMessage(payload))
      ensures sign.SignRejected? ==>
        !ok && calls == [calls[0]] && comments == old(comments)
        && error == Some(AddCommentError(sign.code, sign.message))
      ensures sign.Signed? && sign.signature == "" ==>
        !ok && calls == [calls[0]] && comments == old(comments)
        && error == Some(EmptySignatureMessage)
      ensures sign.Signed? && sign.signature != "" ==>
        && (ok <==> post.PostReplied? && post.ok)
        && (ok ==>
              && calls == [calls[0], PostComment(payload, sign.signature), ListComments(videoId)]
              && comments == (if refetch.Listed? then refetch.comments else old(comments))
              && error == FetchError(refetch))
        && (!ok ==>
              && calls == [calls[0], PostComment(payload, sign.signature)] && comments == old(comments)
              && error == Some(AddCommentError(None, PostFailureMessage(post))))
    {
      isLoading := true;
      error := None;
      var messageToSign := CanonicalMessage(payload);
      calls := [RequestSignature(messageToSign)];
      match sign {
        case SignRejected(code, message) =>
          error := Some(AddCommentError(code, message));
          ok := false;
        case Signed(signature) =>
          if signature == "" {
            error := Some(EmptySignatureMessage);
            isLoading := false;
            return false, calls;
          }
          var postCalls;
          ok, postCalls := PostSigned(payload, signature, post, refetch);
          calls := calls + postCalls;
      }
      isLoading := false;
    }

    /** The part of `addComment` after a signature was obtained (lines
        120-155): one post, then, only when the server accepted it, the
        list is fetched again. */
    method PostSigned(payload: CommentPayload, signature: string, post: PostAnswer, refetch: ListAnswer)
      returns (ok: bool, calls: seq<ClientCall>)
      requires videoId != ""
      modifies this
      ensures ok <==> post.PostReplied? && post.ok
      ensures ok ==>
        && calls == [PostComment(payload, signature), ListComments(videoId)]
        && comments == (if refetch.Listed? then refetch.comments else old(comments))
        && error == FetchError(refetch)
      ensures !ok ==>
        && calls == [PostComment(payload, signature)] && comments == old(comments)
        && error == Some(AddCommentError(None, PostFailureMessage(post)))
    {
      calls := [PostComment(payload, signature)];
      if post.PostReplied? && post.ok {
        var refetchCalls := FetchComments(refetch);
        calls := calls + refetchCalls;
        ok := true;
      } else {
        error := Some(AddCommentError(None, PostFailureMessage(post)));
        ok := false;
      }
    }
  }
}
