/**
 * `preprocess` of messenger_wrapped.py: build the conversation from the raw records,
 * then, when a start time is given, keep only the messages sent strictly after it.
 *
 * The start time is an instant in the same whole seconds as `Message.timeStamp`.
 * As written, `preprocess` reassigns `conversation.messages` only; the four counters
 * the constructor computed keep describing every message (`Preprocess`). The
 * corrected version filters before the counters are computed (`PreprocessFiltered`).
 */
module Wrapped {
  import opened Base
  import opened Dicts
  import opened Names
  import opened Records
  import opened Conversations

  /** `comp` of `date_filter(date)`: a message passes when it was sent strictly after `cutoff`. */
  predicate After(cutoff: int, m: Message) {
    m.timeStamp > cutoff
  }

  /** `list(filter(date_filter(cutoff), msgs))`: the passing messages, in their order. */
  function DateFilter(msgs: seq<Message>, cutoff: int): (r: seq<Message>)
    ensures |r| <= |msgs|
    ensures forall i :: 0 <= i < |r| ==> After(cutoff, r[i])
  {
    if msgs == [] then []
    else
      var m := msgs[|msgs| - 1];
      DateFilter(msgs[..|msgs| - 1], cutoff) + if After(cutoff, m) then [m] else []
  }

  /** The positions in `msgs` of the messages that pass, in increasing order. */
  function Kept(msgs: seq<Message>, cutoff: int): seq<int> {
    if msgs == [] then []
    else Kept(msgs[..|msgs| - 1], cutoff) + if After(cutoff, msgs[|msgs| - 1]) then [|msgs| - 1] else []
  }

  /**
   * The filter keeps an order-preserving subsequence: its `k`-th message is the
   * message at position `Kept(msgs, cutoff)[k]`, those positions increase, and a
   * position is kept exactly when its message is strictly after the cutoff (so a
   * message is dropped exactly when it is at or before the cutoff).
   */
  lemma {:induction false} DateFilterSelects(msgs: seq<Message>, cutoff: int)
    ensures var r := DateFilter(msgs, cutoff);
      var ix := Kept(msgs, cutoff);
      && |ix| == |r|
      && (forall k :: 0 <= k < |ix| ==> 0 <= ix[k] < |msgs| && r[k] == msgs[ix[k]])
      && (forall k, l :: 0 <= k < l < |ix| ==> ix[k] < ix[l])
      && (forall i :: 0 <= i < |msgs| ==> (i in ix <==> After(cutoff, msgs[i])))
  {
    if msgs != [] {
      var front := msgs[..|msgs| - 1];
      DateFilterSelects(front, cutoff);
      var ix0 := Kept(front, cutoff);
      assert forall k :: 0 <= k < |ix0| ==> ix0[k] < |front|;
      forall i | 0 <= i < |front|
        ensures msgs[i] == front[i]
      {
      }
    }
  }

  /** A message of the list is kept exactly when it is after the cutoff. */
  lemma DateFilterMembers(msgs: seq<Message>, cutoff: int, m: Message)
    ensures m in DateFilter(msgs, cutoff) <==> m in msgs && After(cutoff, m)
  {
    DateFilterSelects(msgs, cutoff);
    var r := DateFilter(msgs, cutoff);
    var ix := Kept(msgs, cutoff);
    if m in msgs && After(cutoff, m) {
      var i :| 0 <= i < |msgs| && msgs[i] == m;
      var k :| 0 <= k < |ix| && ix[k] == i;
      assert r[k] == m;
    }
    if m in r {
      var k :| 0 <= k < |r| && r[k] == m;
      assert msgs[ix[k]] == m;
    }
  }

  /** A list whose every message is after the cutoff passes the filter whole. */
  lemma {:induction false} DateFilterKeepsAll(msgs: seq<Message>, cutoff: int)
    requires forall i :: 0 <= i < |msgs| ==> After(cutoff, msgs[i])
    ensures DateFilter(msgs, cutoff) == msgs
  {
    if msgs != [] {
      DateFilterKeepsAll(msgs[..|msgs| - 1], cutoff);
      assert msgs == msgs[..|msgs| - 1] + [msgs[|msgs| - 1]];
    }
  }

  /** Filtering twice with the same cutoff is filtering once. */
  lemma DateFilterIdempotent(msgs: seq<Message>, cutoff: int)
    ensures DateFilter(DateFilter(msgs, cutoff), cutoff) == DateFilter(msgs, cutoff)
  {
    DateFilterKeepsAll(DateFilter(msgs, cutoff), cutoff);
  }

  /** A list whose every message is at or before the cutoff is filtered out whole. */
  lemma {:induction false} DateFilterDropsAll(msgs: seq<Message>, cutoff: int)
    requires forall i :: 0 <= i < |msgs| ==> !After(cutoff, msgs[i])
    ensures DateFilter(msgs, cutoff) == []
  {
    if msgs != [] {
      DateFilterDropsAll(msgs[..|msgs| - 1], cutoff);
    }
  }

  /**
   * On messages in chronological order the filter keeps a suffix: everything from
   * the first message after the cutoff on, so the filtered list is chronological too.
   */
  lemma {:induction false} DateFilterSuffix(msgs: seq<Message>, cutoff: int)
    requires Chronological(msgs)
    ensures var r := DateFilter(msgs, cutoff);
      r == msgs[|msgs| - |r|..] && Chronological(r)
  {
    if msgs != [] {
      var front := msgs[..|msgs| - 1];
      var m := msgs[|msgs| - 1];
      if After(cutoff, m) {
        assert Chronological(front);
        DateFilterSuffix(front, cutoff);
        var r0 := DateFilter(front, cutoff);
        assert msgs[|msgs| - (|r0| + 1)..] == front[|front| - |r0|..] + [m];
      } else {
        assert forall i :: 0 <= i < |msgs| ==> msgs[i].timeStamp <= m.timeStamp;
        DateFilterDropsAll(msgs, cutoff);
      }
    }
  }

  /** Every message passes the filter exactly when it is in the list and after the cutoff. */
  lemma DateFilterMembership(msgs: seq<Message>, cutoff: int)
    ensures forall m :: m in DateFilter(msgs, cutoff) <==> m in msgs && After(cutoff, m)
  {
    forall m
      ensures m in DateFilter(msgs, cutoff) <==> m in msgs && After(cutoff, m)
    {
      DateFilterMembers(msgs, cutoff, m);
    }
  }

  /**
   * What `preprocess` leaves in `conversation.messages`: no more messages than
   * before, and a message stays exactly when no start time is given or it was
   * sent after the start time.
   */
  function Window(msgs: seq<Message>, startTime: Option<int>): (r: seq<Message>)
    ensures |r| <= |msgs|
    ensures forall m :: m in r <==> m in msgs && (startTime.None? || After(startTime.value, m))
  {
    match startTime
    case None => msgs
    case Some(cutoff) => DateFilterMembership(msgs, cutoff); DateFilter(msgs, cutoff)
  }

  /**
   * `preprocess(raw_names, raw_messages, start_time)` as written: the conversation
   * is built from every message, then only `messages` is reassigned; participants
   * and all four counters keep the values computed from every message.
   */
  method Preprocess(rawNames: seq<string>, rawMessages: seq<RawMessage>, startTime: Option<int>,
                    utcOffset: int, demojize: string -> string, analyze: string -> seq<string>)
    returns (r: Result<Conversation>)
    ensures r.Ok? <==> ToMessages(rawMessages).Ok? && ToNames(rawNames).Ok?
    ensures r.Err? ==> r.error == if ToMessages(rawMessages).Err? then ToMessages(rawMessages).error
                                  else ToNames(rawNames).error
    ensures r.Ok? ==>
      var all := ToMessages(rawMessages).value;
      && fresh(r.value)
      && r.value.messages == Window(all, startTime)
      && r.value.participants == ToNames(rawNames).value
      && r.value.messagesCounter == MessageCounter(all)
      && r.value.wordCounter == WordCounter(all)
      && r.value.emojiCounter == EmojiCounter(all, analyze, demojize)
      && r.value.reactionCounter == ReactionCounter(all, demojize)
      && r.value.utcOffset == utcOffset && r.value.demojize == demojize && r.value.analyze == analyze
    ensures r.Ok? && startTime.None? ==> r.value.Consistent()
  {
    r := Conversation.FromRaw(rawNames, rawMessages, utcOffset, demojize, analyze);
    if r.Ok? && startTime.Some? {
      var conversation := r.value;
      conversation.messages := DateFilter(conversation.messages, startTime.value);
    }
  }

  /**
   * The counters `Preprocess` leaves behind can describe messages the conversation
   * no longer holds: one message at the cutoff is filtered out, yet `tot_messages()`
   * still counts it.
   */
  lemma StaleCounters()
    ensures var m := Message(Name("Ada Lovelace"), "text", "hi", [], 0, Media(None));
      && DateFilter([m], 0) == []
      && Total(MessageCounter([m])) == 1
      && Total(MessageCounter([m])) != |DateFilter([m], 0)|
  {
    var m := Message(Name("Ada Lovelace"), "text", "hi", [], 0, Media(None));
    MessageCounterCounts([m]);
  }

  /**
   * `preprocess` with the counters computed after filtering: the same errors, the
   * same messages, and every counter describes the messages the conversation holds.
   */
  method PreprocessFiltered(rawNames: seq<string>, rawMessages: seq<RawMessage>, startTime: Option<int>,
                            utcOffset: int, demojize: string -> string, analyze: string -> seq<string>)
    returns (r: Result<Conversation>)
    ensures r.Ok? <==> ToMessages(rawMessages).Ok? && ToNames(rawNames).Ok?
    ensures r.Err? ==> r.error == if ToMessages(rawMessages).Err? then ToMessages(rawMessages).error
                                  else ToNames(rawNames).error
    ensures r.Ok? ==>
      && fresh(r.value)
      && r.value.messages == Window(ToMessages(rawMessages).value, startTime)
      && r.value.participants == ToNames(rawNames).value
      && r.value.utcOffset == utcOffset && r.value.demojize == demojize && r.value.analyze == analyze
      && r.value.Consistent()
    ensures r.Ok? ==>
      && r.value.TotMessages() == |Window(ToMessages(rawMessages).value, startTime)|
      && r.value.TotWords() == TextWords(Window(ToMessages(rawMessages).value, startTime))
  {
    var messages := ToMessages(rawMessages);
    if messages.Err? {
      return Err(messages.error);
    }
    var names := ToNames(rawNames);
    if names.Err? {
      return Err(names.error);
    }
    var c := new Conversation(names.value, Window(messages.value, startTime), utcOffset, demojize, analyze);
    return Ok(c);
  }
}
