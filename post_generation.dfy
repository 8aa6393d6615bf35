/**
 * The batch pipeline of the `usePostGeneration` hook (src/hooks/usePostGeneration.ts).
 *
 * The hook's state is the published list `posts` and the banner `error`. `generatePosts` checks the
 * key, publishes one pending record per brief, then calls the client once per brief, strictly in
 * index order, and applies each settled call to its own record before issuing the next one.
 * The network is not modelled: `replies[i]` is what the transport hands back to call i.
 */
module PostGeneration {
  import opened Types
  import ApiClient

  const MissingKeyMessage: string := "Please set your OpenAI API key in the settings panel"
  const GenericFailureMessage: string := "Failed to generate post"

  /** What the hook makes observable, in order: every list it publishes and every client call it issues. */
  datatype Event = Published(posts: seq<GeneratedPost>) | Requested(options: ApiClient.GeneratePostOptions)

  /** The record a brief starts with. */
  function PendingPost(brief: Brief): GeneratedPost {
    GeneratedPost(brief.id, brief.content, "", Pending, None)
  }

  predicate Settled(post: GeneratedPost) {
    post.status == Generated || post.status == Error
  }

  /** The message shown for a failed call: an `APIError`'s own message, anything else a fixed one. */
  function ErrorMessage(result: ApiClient.Generation): (m: string)
    ensures result.ApiError? ==> m == result.message
    ensures !result.ApiError? ==> m == GenericFailureMessage
  {
    if result.ApiError? then result.message else GenericFailureMessage
  }

  /** Apply one settled call to its record: the id and brief text never change. */
  function Settle(post: GeneratedPost, result: ApiClient.Generation): (p: GeneratedPost)
    ensures p.id == post.id && p.brief == post.brief
    ensures Settled(p)
    ensures p.status == Generated <==> result.Content?
    ensures result.Content? ==> p.content == result.text && p.error == post.error
    ensures !result.Content? ==> p.content == post.content && p.error == Some(ErrorMessage(result))
  {
    match result
    case Content(text) => post.(content := text, status := Generated)
    case _ => post.(status := Error, error := Some(ErrorMessage(result)))
  }

  /** The options of the call for one brief, with the key and prompt captured when the batch started. */
  function OptionsFor(brief: Brief, apiKey: string, systemPrompt: string): ApiClient.GeneratePostOptions {
    ApiClient.GeneratePostOptions(brief.content, apiKey, systemPrompt)
  }

  function Outcome(brief: Brief, apiKey: string, systemPrompt: string, reply: ApiClient.Reply): ApiClient.Generation {
    ApiClient.GeneratePost(OptionsFor(brief, apiKey, systemPrompt), reply).result
  }

  /** The list published once the first `k` calls have settled. */
  function Snapshot(briefs: seq<Brief>, apiKey: string, systemPrompt: string, replies: seq<ApiClient.Reply>, k: nat)
    : (posts: seq<GeneratedPost>)
    requires |replies| == |briefs| && k <= |briefs|
    ensures |posts| == |briefs|
  {
    seq(|briefs|, i requires 0 <= i < |briefs| =>
      if i < k then Settle(PendingPost(briefs[i]), Outcome(briefs[i], apiKey, systemPrompt, replies[i]))
      else PendingPost(briefs[i]))
  }

  /** Every published list keeps one record per brief, in order; the first `k` have settled and the rest are pending. */
  lemma SnapshotShape(briefs: seq<Brief>, apiKey: string, systemPrompt: string, replies: seq<ApiClient.Reply>, k: nat)
    requires |replies| == |briefs| && k <= |briefs|
    ensures var posts := Snapshot(briefs, apiKey, systemPrompt, replies, k);
      && (forall i :: 0 <= i < |briefs| ==> posts[i].id == briefs[i].id && posts[i].brief == briefs[i].content)
      && (forall i :: 0 <= i < k ==> Settled(posts[i]))
      && (forall i :: k <= i < |briefs| ==> posts[i] == PendingPost(briefs[i]))
  {
  }

  /** Settling call `k` rewrites record `k` of the published list and nothing else. */
  lemma SnapshotStep(briefs: seq<Brief>, apiKey: string, systemPrompt: string, replies: seq<ApiClient.Reply>, k: nat)
    requires |replies| == |briefs| && k < |briefs|
    ensures var before := Snapshot(briefs, apiKey, systemPrompt, replies, k);
      Snapshot(briefs, apiKey, systemPrompt, replies, k + 1)
        == before[k := Settle(before[k], Outcome(briefs[k], apiKey, systemPrompt, replies[k]))]
  {
  }

  /** The events of one started batch after `k` calls: the pending list, then for each call its request and the list it produced. */
  function BatchEvents(briefs: seq<Brief>, apiKey: string, systemPrompt: string, replies: seq<ApiClient.Reply>, k: nat)
    : (events: seq<Event>)
    requires |replies| == |briefs| && k <= |briefs|
    ensures |events| == 2 * k + 1
  {
    if k == 0 then [Published(Snapshot(briefs, apiKey, systemPrompt, replies, 0))]
    else
      BatchEvents(briefs, apiKey, systemPrompt, replies, k - 1)
      + [Requested(OptionsFor(briefs[k - 1], apiKey, systemPrompt)),
         Published(Snapshot(briefs, apiKey, systemPrompt, replies, k))]
  }

  /** Events alternate: list j is published at position 2j, and call j is requested right after it. */
  lemma {:induction false} BatchEventsLayout(
    briefs: seq<Brief>, apiKey: string, systemPrompt: string, replies: seq<ApiClient.Reply>, k: nat)
    requires |replies| == |briefs| && k <= |briefs|
    ensures var events := BatchEvents(briefs, apiKey, systemPrompt, replies, k);
      && |events| == 2 * k + 1
      && (forall j :: 0 <= j <= k ==> events[2 * j] == Published(Snapshot(briefs, apiKey, systemPrompt, replies, j)))
      && (forall j :: 0 <= j < k ==> events[2 * j + 1] == Requested(OptionsFor(briefs[j], apiKey, systemPrompt)))
  {
    if k > 0 {
      BatchEventsLayout(briefs, apiKey, systemPrompt, replies, k - 1);
    }
  }

  /**
   * Strict sequencing: call j is issued right after a list in which records 0..j-1 have settled and
   * records j.. are still pending, and the next list differs from that one only at record j.
   */
  lemma StrictSequencing(briefs: seq<Brief>, apiKey: string, systemPrompt: string, replies: seq<ApiClient.Reply>, j: nat)
    requires |replies| == |briefs| && j < |briefs|
    ensures var events := BatchEvents(briefs, apiKey, systemPrompt, replies, |briefs|);
      && |events| == 2 * |briefs| + 1
      && events[2 * j + 1] == Requested(ApiClient.GeneratePostOptions(briefs[j].content, apiKey, systemPrompt))
      && events[2 * j].Published? && events[2 * j + 2].Published?
      && |events[2 * j].posts| == |briefs|
      && (forall i :: 0 <= i < j ==> Settled(events[2 * j].posts[i]))
      && (forall i :: j <= i < |briefs| ==> events[2 * j].posts[i].status == Pending)
      && events[2 * j + 2].posts
           == events[2 * j].posts[j := Settle(events[2 * j].posts[j], Outcome(briefs[j], apiKey, systemPrompt, replies[j]))]
  {
    BatchEventsLayout(briefs, apiKey, systemPrompt, replies, |briefs|);
    assert 2 * (j + 1) == 2 * j + 2;
    SnapshotShape(briefs, apiKey, systemPrompt, replies, j);
    SnapshotStep(briefs, apiKey, systemPrompt, replies, j);
  }

  /**
   * The final record of brief i: it has settled, keeps its id and brief text, is generated exactly
   * when the reply was ok with non-empty content (and then holds that content), and otherwise
   * failed with its content still empty and a non-empty message.
   */
  lemma FinalRecord(briefs: seq<Brief>, apiKey: string, systemPrompt: string, replies: seq<ApiClient.Reply>, i: nat)
    requires |replies| == |briefs| && i < |briefs| && apiKey != ""
    ensures var post := Snapshot(briefs, apiKey, systemPrompt, replies, |briefs|)[i];
      var reply := replies[i];
      && post.id == briefs[i].id && post.brief == briefs[i].content && Settled(post)
      && (post.status == Generated <==> reply.HttpReply? && reply.ok && Truthy(reply.payload.content))
      && (post.status == Generated ==> reply.payload.content == Some(post.content) && post.content != "" && post.error == None)
      && (post.status == Error ==> post.content == "" && post.error.Some? && post.error.value != "")
      && (reply.HttpReply? && reply.ok && !Truthy(reply.payload.content) ==>
            post.status == Error && post.error == Some(ApiClient.NoContentMessage))
      && (reply.HttpReply? && !reply.ok ==> post.error == Some(ApiClient.ErrorOrDefault(reply.payload.error)))
      && (reply.TransportFailure? ==> post.error == Some(GenericFailureMessage))
  {
    SnapshotShape(briefs, apiKey, systemPrompt, replies, |briefs|);
  }

  /** Error isolation: record i depends on reply i alone, whatever the other calls did. */
  lemma ErrorIsolation(
    briefs: seq<Brief>, apiKey: string, systemPrompt: string, replies: seq<ApiClient.Reply>, others: seq<ApiClient.Reply>, i: nat)
    requires |replies| == |briefs| && |others| == |briefs| && i < |briefs| && replies[i] == others[i]
    ensures Snapshot(briefs, apiKey, systemPrompt, replies, |briefs|)[i] == Snapshot(briefs, apiKey, systemPrompt, others, |briefs|)[i]
  {
  }

  /** One success followed by a transport failure: the first record is generated, the second failed. */
  lemma MixedBatchExample(apiKey: string, systemPrompt: string)
    requires apiKey != ""
    ensures var briefs := [Brief("b1", "Topic A"), Brief("b2", "Topic B")];
      var replies := [ApiClient.HttpReply(true, ApiClient.Payload(Some("Hello A"), None)), ApiClient.TransportFailure];
      Snapshot(briefs, apiKey, systemPrompt, replies, 2)
        == [GeneratedPost("b1", "Topic A", "Hello A", Generated, None),
            GeneratedPost("b2", "Topic B", "", Error, Some(GenericFailureMessage))]
  {
  }

  /** The hook's state. */
  class PostGenerationHook {
    var posts: seq<GeneratedPost>
    var error: Option<string>
    /** Everything published and requested so far, in order. */
    ghost var events: seq<Event>

    constructor ()
      ensures posts == [] && error == None && events == []
    {
      posts := [];
      error := None;
      events := [];
    }

    /** `setError`, handed out to the page for its own messages. */
    method SetError(message: Option<string>)
      modifies this
      ensures error == message && posts == old(posts) && events == old(events)
    {
      error := message;
    }

    /**
     * `generatePosts(briefs)` with the key and prompt read when the batch starts. Without a key it
     * only sets the banner; otherwise it clears the banner and runs the whole batch.
     */
    method GeneratePosts(briefs: seq<Brief>, apiKey: string, systemPrompt: string, replies: seq<ApiClient.Reply>)
      requires |replies| == |briefs|
      modifies this
      ensures apiKey == "" ==> error == Some(MissingKeyMessage) && posts == old(posts) && events == old(events)
      ensures apiKey != "" ==>
        && error == None
        && posts == Snapshot(briefs, apiKey, systemPrompt, replies, |briefs|)
        && events == old(events) + BatchEvents(briefs, apiKey, systemPrompt, replies, |briefs|)
    {
      if apiKey == "" {
        error := Some(MissingKeyMessage);
        return;
      }

      error := None;
      posts := seq(|briefs|, i requires 0 <= i < |briefs| => PendingPost(briefs[i]));
      events := events + [Published(posts)];

      var index := 0;
      while index < |briefs|
        invariant 0 <= index <= |briefs|
        invariant error == None
        invariant posts == Snapshot(briefs, apiKey, systemPrompt, replies, index)
        invariant events == old(events) + BatchEvents(briefs, apiKey, systemPrompt, replies, index)
      {
        var options := ApiClient.GeneratePostOptions(briefs[index].content, apiKey, systemPrompt);
        events := events + [Requested(options)];
        var call := ApiClient.GeneratePost(options, replies[index]);
        var current := posts;
        var settled: GeneratedPost;
        match call.result {
          case Content(content) =>
            settled := current[index].(content := content, status := Generated);
          case _ =>
            var errorMessage := ErrorMessage(call.result);
            settled := current[index].(status := Error, error := Some(errorMessage));
        }
        posts := seq(|current|, i requires 0 <= i < |current| => if i == index then settled else current[i]);
        assert settled == Settle(current[index], Outcome(briefs[index], apiKey, systemPrompt, replies[index]));
        SnapshotStep(briefs, apiKey, systemPrompt, replies, index);
        events := events + [Published(posts)];
        index := index + 1;
      }
    }
  }
}
