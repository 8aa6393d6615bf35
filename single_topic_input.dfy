/**
 * The single-topic form (src/components/SingleTopicInput.tsx): its `topic` field and the submit
 * handler, which trims the topic, rejects a blank one through `onError`, or emits exactly one
 * brief through `onBriefsLoaded` and then clears the field. `Date.now()` is the parameter `now`.
 */
module SingleTopicInput {
  import opened Strings
  import opened Types

  const EmptyTopicMessage: string := "Please enter or paste a topic."
  const SingleIdPrefix: string := "brief-single-"

  /** Which callback a submission reaches, and with what. */
  datatype Submission = Emitted(briefs: seq<Brief>) | Rejected(message: string)

  /** The pure part of `handleSubmit`. */
  function Submit(topic: string, now: nat): (s: Submission)
    ensures s.Rejected? <==> AllWhitespace(topic)
    ensures s.Rejected? ==> s.message == EmptyTopicMessage
    ensures s.Emitted? ==>
      && |s.briefs| == 1
      && s.briefs[0].content == Trim(topic)
      && s.briefs[0].content != "" && IsTrimmed(s.briefs[0].content)
      && s.briefs[0].id == SingleIdPrefix + NatToString(now)
      && s.briefs[0].id[..|SingleIdPrefix|] == SingleIdPrefix
  {
    TrimEmptyIff(topic);
    var trimmed := Trim(topic);
    if trimmed == "" then Rejected(EmptyTopicMessage)
    else Emitted([Brief(SingleIdPrefix + NatToString(now), trimmed)])
  }

  /** Padding around a topic does not change the brief it becomes. */
  lemma SubmitIgnoresPadding(lead: string, topic: string, trail: string, now: nat)
    requires AllWhitespace(lead) && AllWhitespace(trail) && IsTrimmed(topic) && topic != ""
    ensures Submit(lead + topic + trail, now) == Emitted([Brief(SingleIdPrefix + NatToString(now), topic)])
  {
    TrimPadded(lead, topic, trail);
    TrimEmptyIff(lead + topic + trail);
  }

  /** Submissions at different instants carry different ids. */
  lemma DistinctInstantsDistinctIds(topic: string, now: nat, later: nat)
    requires !AllWhitespace(topic) && now != later
    ensures Submit(topic, now).briefs[0].id != Submit(topic, later).briefs[0].id
  {
    var a, b := SingleIdPrefix + NatToString(now), SingleIdPrefix + NatToString(later);
    if a == b {
      assert NatToString(now) == a[|SingleIdPrefix|..];
      assert NatToString(later) == b[|SingleIdPrefix|..];
      NatToStringInjective(now, later);
    }
  }

  /** The form's state. */
  class TopicForm {
    var topic: string

    constructor ()
      ensures topic == ""
    {
      topic := "";
    }

    /** The input's `onChange`. */
    method SetTopic(value: string)
      modifies this
      ensures topic == value
    {
      topic := value;
    }

    /** `handleSubmit`: the field is cleared only after a brief was emitted; a rejected topic is kept. */
    method HandleSubmit(now: nat) returns (s: Submission)
      modifies this
      ensures s == Submit(old(topic), now)
      ensures s.Emitted? ==> topic == ""
      ensures s.Rejected? ==> topic == old(topic)
    {
      s := Submit(topic, now);
      if s.Emitted? {
        topic := "";
      }
    }
  }
}
