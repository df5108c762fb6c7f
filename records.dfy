/**
 * Record normalisation (classes `Reaction`, `Media` and `Message` of conversation.py).
 *
 * A raw record is the already-parsed JSON object; every field the source reads is
 * present in the datatype, so a missing key cannot arise here. Normalisation turns
 * the raw names into `Name`s (which can fail), divides the millisecond timestamp by
 * 1000 rounding down, and keeps at most the first media entry. `isUnsent` is accepted
 * and ignored, as in the source.
 */
module Records {
  import opened Base
  import opened Names
  import opened Clock

  datatype RawReaction = RawReaction(actor: string, reaction: string)

  datatype RawMedia = RawMedia(uri: string)

  datatype RawMessage = RawMessage(
    senderName: string,
    messageType: string,
    text: string,
    reactions: seq<RawReaction>,
    timestamp: int,            // milliseconds since the epoch
    media: seq<RawMedia>,
    isUnsent: bool)

  datatype Reaction = Reaction(actor: Name, reaction: string)

  datatype Media = Media(uri: Option<string>)

  datatype Message = Message(
    sender: Name,
    messageType: string,
    text: string,
    reactions: seq<Reaction>,
    timeStamp: int,            // whole seconds since the epoch
    media: Media)

  /** A string the `Name` constructor accepts. */
  predicate IsFullName(s: string) {
    |Words(s)| == 2
  }

  /** `Reaction(actor, reaction)`: the actor becomes a `Name`, the glyph is kept verbatim. */
  function MakeReaction(raw: RawReaction): (r: Result<Reaction>)
    ensures r.Ok? <==> IsFullName(raw.actor)
    ensures r.Ok? ==> r.value.actor.fullName == raw.actor && r.value.reaction == raw.reaction
    ensures r.Err? ==> r.error == ValueError(raw.actor)
  {
    var actor :- MakeName(raw.actor);
    Ok(Reaction(actor, raw.reaction))
  }

  /**
   * `Message.to_reactions`: one `Reaction` per raw reaction, in order; the list
   * comprehension stops at the first actor that is not a full name.
   */
  function ToReactions(raws: seq<RawReaction>): (r: Result<seq<Reaction>>)
    ensures r.Ok? <==> forall i :: 0 <= i < |raws| ==> IsFullName(raws[i].actor)
    ensures r.Ok? ==> |r.value| == |raws|
    ensures r.Ok? ==> forall i :: 0 <= i < |raws| ==>
      r.value[i].actor.fullName == raws[i].actor && r.value[i].reaction == raws[i].reaction
    ensures r.Err? ==>
      exists i :: 0 <= i < |raws| && !IsFullName(raws[i].actor) && r.error == ValueError(raws[i].actor)
                  && forall j :: 0 <= j < i ==> IsFullName(raws[j].actor)
  {
    if raws == [] then Ok([])
    else
      var first :- MakeReaction(raws[0]);
      var rest :- ToReactions(raws[1..]);
      Ok([first] + rest)
  }

  /** `Message.to_date_time`: `time_stamp // 1000`, the whole seconds of a millisecond count. */
  function ToDateTime(ms: int): (t: int)
    ensures t * 1000 <= ms < t * 1000 + 1000
  {
    ms / 1000
  }

  /** `Message.to_media`: the first entry's uri, or no uri for an empty list. */
  function ToMedia(media: seq<RawMedia>): (m: Media)
    ensures m.uri.None? <==> media == []
    ensures m.uri.Some? ==> m.uri.value == media[0].uri
  {
    if media != [] then Media(Some(media[0].uri)) else Media(None)
  }

  /**
   * `Message(...)`: the sender is converted first, then the reactions; type and
   * text are passed through unchanged.
   */
  function NormalizeMessage(raw: RawMessage): (r: Result<Message>)
    ensures r.Ok? <==> IsFullName(raw.senderName) && ToReactions(raw.reactions).Ok?
    ensures r.Ok? ==>
      && r.value.sender.fullName == raw.senderName
      && r.value.messageType == raw.messageType
      && r.value.text == raw.text
      && r.value.reactions == ToReactions(raw.reactions).value
      && r.value.timeStamp == ToDateTime(raw.timestamp)
      && r.value.media == ToMedia(raw.media)
    ensures r.Err? ==> r.error == if IsFullName(raw.senderName) then ToReactions(raw.reactions).error
                                 else ValueError(raw.senderName)
  {
    var sender :- MakeName(raw.senderName);
    var reactions :- ToReactions(raw.reactions);
    Ok(Message(sender, raw.messageType, raw.text, reactions, ToDateTime(raw.timestamp), ToMedia(raw.media)))
  }

  /** Every name in a message is one the `Name` constructor accepts. */
  predicate WellNamed(m: Message) {
    IsFullName(m.sender.fullName) && forall i :: 0 <= i < |m.reactions| ==> IsFullName(m.reactions[i].actor.fullName)
  }

  /** A raw record that normalises to `m`: the partner of `NormalizeMessage`. */
  function ToRaw(m: Message): RawMessage {
    RawMessage(
      m.sender.fullName,
      m.messageType,
      m.text,
      seq(|m.reactions|, i requires 0 <= i < |m.reactions| => RawReaction(m.reactions[i].actor.fullName, m.reactions[i].reaction)),
      m.timeStamp * 1000,
      if m.media.uri.Some? then [RawMedia(m.media.uri.value)] else [],
      false)
  }

  /** Normalisation loses nothing a normalised message holds. */
  lemma NormalizeToRaw(m: Message)
    requires WellNamed(m)
    ensures NormalizeMessage(ToRaw(m)) == Ok(m)
  {
    var raw := ToRaw(m);
    var rs := ToReactions(raw.reactions);
    assert rs.Ok?;
    assert rs.value == m.reactions;
  }

  /** `Conversation.to_messages`: every record normalised, stopping at the first failure. */
  function ToMessages(raws: seq<RawMessage>): (r: Result<seq<Message>>)
    ensures r.Ok? <==> forall i :: 0 <= i < |raws| ==> NormalizeMessage(raws[i]).Ok?
    ensures r.Ok? ==> |r.value| == |raws| && forall i :: 0 <= i < |raws| ==> NormalizeMessage(raws[i]) == Ok(r.value[i])
    ensures r.Err? ==>
      exists i :: 0 <= i < |raws| && NormalizeMessage(raws[i]) == Err(r.error)
                  && forall j :: 0 <= j < i ==> NormalizeMessage(raws[j]).Ok?
  {
    if raws == [] then Ok([])
    else
      var first :- NormalizeMessage(raws[0]);
      var rest :- ToMessages(raws[1..]);
      Ok([first] + rest)
  }

  /** `Conversation.to_names`: every participant name converted, stopping at the first failure. */
  function ToNames(raws: seq<string>): (r: Result<seq<Name>>)
    ensures r.Ok? <==> forall i :: 0 <= i < |raws| ==> IsFullName(raws[i])
    ensures r.Ok? ==> |r.value| == |raws| && forall i :: 0 <= i < |raws| ==> r.value[i].fullName == raws[i]
    ensures r.Err? ==>
      exists i :: 0 <= i < |raws| && !IsFullName(raws[i]) && r.error == ValueError(raws[i])
                  && forall j :: 0 <= j < i ==> IsFullName(raws[j])
  {
    if raws == [] then Ok([])
    else
      var first :- MakeName(raws[0]);
      var rest :- ToNames(raws[1..]);
      Ok([first] + rest)
  }
}
