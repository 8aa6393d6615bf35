/**
 * The preview of one record (src/components/PostPreview.tsx): the character counter with its
 * LinkedIn limit bands, and which of the three views a record's status selects.
 */
module PostPreview {
  import opened Strings
  import opened Types

  /** LinkedIn's limit for one post. */
  const MaxLinkedInChars: nat := 3000

  /** `post.content?.length ?? 0`: `content` is always a string in this model, so it is its UTF-16 length. */
  function ContentLength(post: GeneratedPost): (n: nat)
    ensures |post.content| <= n <= 2 * |post.content|
  {
    Utf16Length(post.content)
  }

  function IsOverLimit(length: nat): bool {
    length > MaxLinkedInChars
  }

  /** The 90% band, `length > 3000 * 0.9`, computed over the reals as the source does over doubles. */
  function IsNearLimit(length: nat): (near: bool)
    ensures near <==> 2701 <= length <= 3000
  {
    !IsOverLimit(length) && length as real > MaxLinkedInChars as real * 0.9
  }

  /** The counter's three bands: over is 3001 and up, near is 2701 to 3000, and they never overlap. */
  lemma LimitBands(length: nat)
    ensures IsOverLimit(length) <==> length >= 3001
    ensures IsNearLimit(length) <==> 2701 <= length <= 3000
    ensures !(IsOverLimit(length) && IsNearLimit(length))
  {
  }

  /** The colour of the counter. */
  datatype Tone = Red | Yellow | Gray

  function CounterTone(length: nat): (t: Tone)
    ensures t == Red <==> length > 3000
    ensures t == Yellow <==> 2700 < length <= 3000
    ensures t == Gray <==> length <= 2700
  {
    LimitBands(length);
    if IsOverLimit(length) then Red else if IsNearLimit(length) then Yellow else Gray
  }

  /** What is rendered: the error box with its message, the pending placeholder, or the post with its counter. */
  datatype View =
    | ErrorView(message: Option<string>)
    | PendingView
    | PostView(brief: string, content: string, length: nat, limit: nat, tone: Tone)

  function Render(post: GeneratedPost): (v: View)
    ensures v.ErrorView? <==> post.status == Error
    ensures v.ErrorView? ==> v.message == post.error
    ensures v.PendingView? <==> post.status == Pending
    ensures v.PostView? <==> post.status == Generated
    ensures v.PostView? ==>
      && v.brief == post.brief && v.content == post.content
      && v.length == Utf16Length(post.content) && v.limit == 3000
      && (v.tone == Red <==> Utf16Length(post.content) > 3000)
      && (v.tone == Yellow <==> 2700 < Utf16Length(post.content) <= 3000)
  {
    match post.status
    case Error => ErrorView(post.error)
    case Pending => PendingView
    case Generated =>
      var length := ContentLength(post);
      PostView(post.brief, post.content, length, MaxLinkedInChars, CounterTone(length))
  }

  /**
   * The counter counts UTF-16 code units: 1400 rockets (U+1F680) and 300 letters are 1700
   * characters but 3100 units, so the post shows 3100/3000 in red.
   */
  lemma SurrogatePairsCountTwice(id: string, brief: string)
    ensures var content := seq(1400, i => '\U{1F680}') + seq(300, i => 'a');
      var v := Render(GeneratedPost(id, brief, content, Generated, None));
      && |content| == 1700
      && v.PostView? && v.length == 3100 && v.tone == Red
  {
    var rockets, letters := seq(1400, i => '\U{1F680}'), seq(300, i => 'a');
    Utf16LengthRepeat('\U{1F680}', 1400);
    Utf16LengthRepeat('a', 300);
    Utf16LengthAppend(rockets, letters);
  }
}
