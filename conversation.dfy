/**
 * The analytics engine of conversation.py: class `Conversation` and the counters it
 * derives from its messages.
 *
 * Each counter is specified twice. A reference function says what the counter
 * counts (`Sent`, `WordsBy`, `TaggedReactions`, `TaggedEmojis`); a fold through the
 * dictionary model (`Tally`, `NestedTally`) builds the dictionary the source's loop
 * builds, insertion order included. The functions `MessageCounter`, `WordCounter`,
 * `ReactionCounter` and `EmojiCounter` tie the two together, and the methods of
 * `Conversation` are proved to compute exactly those dictionaries.
 *
 * The emoji library is not part of this model: `demojize` (glyph to `:name:`
 * text) and `analyze` (the emoji glyphs found in a text, in order) are parameters
 * of the conversation.
 */
module Conversations {
  import opened Base
  import opened Dicts
  import opened Names
  import opened Clock
  import opened Records

  // ---------------------------------------------------------------------------
  // Messages per participant (count_messages, tot_messages)

  /** The number of messages `p` sent. */
  function Sent(msgs: seq<Message>, p: Name): nat {
    if msgs == [] then 0
    else Sent(msgs[..|msgs| - 1], p) + (if msgs[|msgs| - 1].sender == p then 1 else 0)
  }

  /** The increments `count_messages` performs: 1 for the sender of each message. */
  function SenderIncrements(msgs: seq<Message>): seq<(Name, int)> {
    if msgs == [] then []
    else SenderIncrements(msgs[..|msgs| - 1]) + [(msgs[|msgs| - 1].sender, 1)]
  }

  lemma {:induction false} SenderIncrementsCount(msgs: seq<Message>)
    ensures forall p :: Weight(SenderIncrements(msgs), p) == Sent(msgs, p)
    ensures forall p :: p in KeysOf(SenderIncrements(msgs)) <==> Sent(msgs, p) > 0
    ensures WeightAll(SenderIncrements(msgs)) == |msgs|
  {
    if msgs != [] {
      var front := msgs[..|msgs| - 1];
      var ps := SenderIncrements(msgs);
      SenderIncrementsCount(front);
      assert ps[..|ps| - 1] == SenderIncrements(front);
    }
  }

  lemma SenderIncrementsNext(msgs: seq<Message>, i: nat)
    requires i < |msgs|
    ensures SenderIncrements(msgs[..i + 1]) == SenderIncrements(msgs[..i]) + [(msgs[i].sender, 1)]
  {
    assert msgs[..i + 1][..i] == msgs[..i];
  }

  /**
   * The dictionary `count_messages` returns: every sender, in order of first
   * message, mapped to the number of messages they sent; the counts add up to the
   * number of messages.
   */
  function MessageCounter(msgs: seq<Message>): (d: Dict<Name, int>)
    ensures Total(d) == |msgs|
  {
    SenderIncrementsCount(msgs);
    TallyTotal(SenderIncrements(msgs));
    Tally(SenderIncrements(msgs))
  }

  lemma MessageCounterCounts(msgs: seq<Message>)
    ensures var d := MessageCounter(msgs);
      && WellFormed(d)
      && (forall p :: Count(d, p) == Sent(msgs, p))
      && (forall p :: p in d.vals <==> Sent(msgs, p) > 0)
      && Total(d) == |msgs|
  {
    SenderIncrementsCount(msgs);
    TallyCounts(SenderIncrements(msgs));
    TallyKeys(SenderIncrements(msgs));
    TallyTotal(SenderIncrements(msgs));
  }

  // ---------------------------------------------------------------------------
  // Words per participant (count_words, tot_words)

  /** Only messages of type "text" have their words counted. */
  predicate IsText(m: Message) {
    m.messageType == "text"
  }

  /** The number of text messages `p` sent. */
  function TextSent(msgs: seq<Message>, p: Name): nat {
    if msgs == [] then 0
    else
      var m := msgs[|msgs| - 1];
      TextSent(msgs[..|msgs| - 1], p) + (if IsText(m) && m.sender == p then 1 else 0)
  }

  /** The number of `str.split()` tokens in the text messages `p` sent. */
  function WordsBy(msgs: seq<Message>, p: Name): nat {
    if msgs == [] then 0
    else
      var m := msgs[|msgs| - 1];
      WordsBy(msgs[..|msgs| - 1], p) + (if IsText(m) && m.sender == p then |Words(m.text)| else 0)
  }

  /** The number of `str.split()` tokens in all text messages. */
  function TextWords(msgs: seq<Message>): nat {
    if msgs == [] then 0
    else
      var m := msgs[|msgs| - 1];
      TextWords(msgs[..|msgs| - 1]) + (if IsText(m) then |Words(m.text)| else 0)
  }

  /** The increments `count_words` performs: the word count of each text message. */
  function WordIncrements(msgs: seq<Message>): seq<(Name, int)> {
    if msgs == [] then []
    else
      var m := msgs[|msgs| - 1];
      WordIncrements(msgs[..|msgs| - 1]) + (if IsText(m) then [(m.sender, |Words(m.text)|)] else [])
  }

  lemma {:induction false} WordIncrementsCount(msgs: seq<Message>)
    ensures forall p :: Weight(WordIncrements(msgs), p) == WordsBy(msgs, p)
    ensures forall p :: p in KeysOf(WordIncrements(msgs)) <==> TextSent(msgs, p) > 0
    ensures WeightAll(WordIncrements(msgs)) == TextWords(msgs)
  {
    if msgs != [] {
      var front := msgs[..|msgs| - 1];
      var m := msgs[|msgs| - 1];
      var ps := WordIncrements(msgs);
      WordIncrementsCount(front);
      if IsText(m) {
        assert ps[..|ps| - 1] == WordIncrements(front);
      } else {
        assert ps == WordIncrements(front);
      }
    }
  }

  lemma WordIncrementsNext(msgs: seq<Message>, i: nat)
    requires i < |msgs|
    ensures IsText(msgs[i]) ==>
      WordIncrements(msgs[..i + 1]) == WordIncrements(msgs[..i]) + [(msgs[i].sender, |Words(msgs[i].text)|)]
    ensures !IsText(msgs[i]) ==> WordIncrements(msgs[..i + 1]) == WordIncrements(msgs[..i])
  {
    assert msgs[..i + 1][..i] == msgs[..i];
    assert WordIncrements(msgs[..i]) + [] == WordIncrements(msgs[..i]);
  }

  /**
   * The dictionary `count_words` returns: every participant who sent a text
   * message, in order of their first one (even when it holds no words), mapped to
   * the number of words in their text messages; the counts add up to all words.
   */
  function WordCounter(msgs: seq<Message>): (d: Dict<Name, int>)
    ensures Total(d) == TextWords(msgs)
  {
    WordIncrementsCount(msgs);
    TallyTotal(WordIncrements(msgs));
    Tally(WordIncrements(msgs))
  }

  lemma WordCounterCounts(msgs: seq<Message>)
    ensures var d := WordCounter(msgs);
      && WellFormed(d)
      && (forall p :: Count(d, p) == WordsBy(msgs, p))
      && (forall p :: p in d.vals <==> TextSent(msgs, p) > 0)
      && Total(d) == TextWords(msgs)
  {
    WordIncrementsCount(msgs);
    TallyCounts(WordIncrements(msgs));
    TallyKeys(WordIncrements(msgs));
    TallyTotal(WordIncrements(msgs));
  }

  // ---------------------------------------------------------------------------
  // Sorting a table by participant

  /**
   * `{k: v for k, v in sorted(t.items(), key=lambda item: item[0])}`: the same
   * entries, the keys reordered by `Name.__lt__`.
   */
  function SortKeys<V>(t: Dict<Name, V>): (r: Dict<Name, V>)
    ensures r.vals == t.vals
    ensures Ordered(r.keys) && multiset(r.keys) == multiset(t.keys)
    ensures Distinct(t.keys) ==> Distinct(r.keys)
  {
    Dict(SortNames(t.keys), t.vals)
  }

  /** Sorting the keys keeps a table well formed, keeps every count and keeps the grand total. */
  lemma SortKeysKeepsTable(t: Table<Name, string>, r: Table<Name, string>)
    requires NestedWellFormed(t) && r == SortKeys(t)
    ensures NestedWellFormed(r) && Ordered(r.keys)
    ensures forall a, g :: NestedCount(r, a, g) == NestedCount(t, a, g)
    ensures r.vals.Keys == t.vals.Keys
    ensures GrandTotal(r) == GrandTotal(t)
  {
    forall k
      ensures k in r.vals <==> k in r.keys
    {
      assert k in r.keys <==> k in multiset(r.keys);
      assert k in t.keys <==> k in multiset(t.keys);
    }
    GrandSumPermuted(r.keys, t.keys, t.vals);
  }

  /** The keys of a sorted table run in strictly descending order of full name. */
  lemma SortedKeysDescend(t: Table<Name, string>)
    requires NestedWellFormed(t)
    ensures forall i, j :: 0 <= i < j < |SortKeys(t).keys| ==>
      StrLess(SortKeys(t).keys[j].fullName, SortKeys(t).keys[i].fullName)
  {
    OrderedIsDescending(SortKeys(t).keys);
  }

  // ---------------------------------------------------------------------------
  // Reactions per actor (count_reactions)

  /** The increments for the reactions `rs`: each credited to its actor, under its demojized glyph. */
  function ReactionIncrements(rs: seq<Reaction>, demojize: string -> string): seq<(Name, string, int)> {
    if rs == [] then []
    else
      var r := rs[|rs| - 1];
      ReactionIncrements(rs[..|rs| - 1], demojize) + [(r.actor, demojize(r.reaction), 1)]
  }

  /** The increments `count_reactions` performs, message after message. */
  function AllReactionIncrements(msgs: seq<Message>, demojize: string -> string): seq<(Name, string, int)> {
    if msgs == [] then []
    else AllReactionIncrements(msgs[..|msgs| - 1], demojize) + ReactionIncrements(msgs[|msgs| - 1].reactions, demojize)
  }

  /** The number of reactions in `rs` given by `a`. */
  function GivenIn(rs: seq<Reaction>, a: Name): nat {
    if rs == [] then 0 else GivenIn(rs[..|rs| - 1], a) + (if rs[|rs| - 1].actor == a then 1 else 0)
  }

  /** The number of reactions in `rs` given by `a` whose glyph demojizes to `g`. */
  function TaggedIn(rs: seq<Reaction>, a: Name, g: string, demojize: string -> string): nat {
    if rs == [] then 0
    else
      var r := rs[|rs| - 1];
      TaggedIn(rs[..|rs| - 1], a, g, demojize) + (if r.actor == a && demojize(r.reaction) == g then 1 else 0)
  }

  /** The number of reactions `a` gave, on anyone's messages. */
  function ReactionsGiven(msgs: seq<Message>, a: Name): nat {
    if msgs == [] then 0 else ReactionsGiven(msgs[..|msgs| - 1], a) + GivenIn(msgs[|msgs| - 1].reactions, a)
  }

  /** The number of reactions `a` gave, on anyone's messages, whose glyph demojizes to `g`. */
  function TaggedReactions(msgs: seq<Message>, a: Name, g: string, demojize: string -> string): nat {
    if msgs == [] then 0
    else TaggedReactions(msgs[..|msgs| - 1], a, g, demojize) + TaggedIn(msgs[|msgs| - 1].reactions, a, g, demojize)
  }

  /** The number of reactions on all messages. */
  function ReactionTotal(msgs: seq<Message>): nat {
    if msgs == [] then 0 else ReactionTotal(msgs[..|msgs| - 1]) + |msgs[|msgs| - 1].reactions|
  }

  lemma ReactionIncrementsNext(rs: seq<Reaction>, j: nat, demojize: string -> string)
    requires j < |rs|
    ensures ReactionIncrements(rs[..j + 1], demojize)
         == ReactionIncrements(rs[..j], demojize) + [(rs[j].actor, demojize(rs[j].reaction), 1)]
  {
    assert rs[..j + 1][..j] == rs[..j];
  }

  /** One pass of the inner loop of `count_reactions`. */
  lemma ReactionStep(before: seq<(Name, string, int)>, rs: seq<Reaction>, j: nat, demojize: string -> string)
    requires j < |rs|
    ensures NestedTally(before + ReactionIncrements(rs[..j + 1], demojize))
         == NestedAdd(NestedTally(before + ReactionIncrements(rs[..j], demojize)), rs[j].actor, demojize(rs[j].reaction), 1)
  {
    var x := (rs[j].actor, demojize(rs[j].reaction), 1);
    ReactionIncrementsNext(rs, j, demojize);
    assert before + ReactionIncrements(rs[..j + 1], demojize) == (before + ReactionIncrements(rs[..j], demojize)) + [x];
    NestedTallyNext(before + ReactionIncrements(rs[..j], demojize), x);
  }

  lemma AllReactionIncrementsNext(msgs: seq<Message>, i: nat, demojize: string -> string)
    requires i < |msgs|
    ensures AllReactionIncrements(msgs[..i + 1], demojize)
         == AllReactionIncrements(msgs[..i], demojize) + ReactionIncrements(msgs[i].reactions, demojize)
  {
    assert msgs[..i + 1][..i] == msgs[..i];
  }

  lemma {:induction false} ReactionIncrementsCount(rs: seq<Reaction>, demojize: string -> string)
    ensures forall a, g :: Weight2(ReactionIncrements(rs, demojize), a, g) == TaggedIn(rs, a, g, demojize)
    ensures forall a :: a in OuterKeysOf(ReactionIncrements(rs, demojize)) <==> GivenIn(rs, a) > 0
    ensures WeightAll3(ReactionIncrements(rs, demojize)) == |rs|
  {
    if rs != [] {
      var ts := ReactionIncrements(rs, demojize);
      ReactionIncrementsCount(rs[..|rs| - 1], demojize);
      assert ts[..|ts| - 1] == ReactionIncrements(rs[..|rs| - 1], demojize);
    }
  }

  lemma {:induction false} AllReactionIncrementsCount(msgs: seq<Message>, demojize: string -> string)
    ensures forall a, g :: Weight2(AllReactionIncrements(msgs, demojize), a, g) == TaggedReactions(msgs, a, g, demojize)
    ensures forall a :: a in OuterKeysOf(AllReactionIncrements(msgs, demojize)) <==> ReactionsGiven(msgs, a) > 0
    ensures WeightAll3(AllReactionIncrements(msgs, demojize)) == ReactionTotal(msgs)
  {
    if msgs != [] {
      var front := msgs[..|msgs| - 1];
      var ts := AllReactionIncrements(front, demojize);
      var us := ReactionIncrements(msgs[|msgs| - 1].reactions, demojize);
      AllReactionIncrementsCount(front, demojize);
      ReactionIncrementsCount(msgs[|msgs| - 1].reactions, demojize);
      OuterKeysConcat(ts, us);
      forall a, g
        ensures Weight2(ts + us, a, g) == Weight2(ts, a, g) + Weight2(us, a, g)
      {
        Weight2Concat(ts, us, a, g);
      }
      Weight2Concat(ts, us, msgs[0].sender, "");
    }
  }

  /** The dictionary `count_reactions` returns: the table of the increments, its keys sorted. */
  function ReactionCounter(msgs: seq<Message>, demojize: string -> string): (t: Table<Name, string>)
    ensures Ordered(t.keys)
    ensures GrandTotal(t) == ReactionTotal(msgs)
  {
    var ts := AllReactionIncrements(msgs, demojize);
    AllReactionIncrementsCount(msgs, demojize);
    NestedTallyTotal(ts);
    SortKeysKeepsTable(NestedTally(ts), SortKeys(NestedTally(ts)));
    SortKeys(NestedTally(ts))
  }

  /**
   * What `count_reactions` counts: each reaction is credited to the participant who
   * reacted (not to the author of the message), under its demojized glyph; exactly
   * the participants who reacted are keys, in sorted order; the grand total is the
   * number of reactions.
   */
  lemma ReactionCounterCounts(msgs: seq<Message>, demojize: string -> string)
    ensures var t := ReactionCounter(msgs, demojize);
      && NestedWellFormed(t) && Ordered(t.keys)
      && (forall a, g :: NestedCount(t, a, g) == TaggedReactions(msgs, a, g, demojize))
      && (forall a :: a in t.vals <==> ReactionsGiven(msgs, a) > 0)
      && GrandTotal(t) == ReactionTotal(msgs)
  {
    var ts := AllReactionIncrements(msgs, demojize);
    var t := ReactionCounter(msgs, demojize);
    AllReactionIncrementsCount(msgs, demojize);
    NestedTallyCounts(ts);
    NestedTallyKeys(ts);
    NestedTallyTotal(ts);
    SortKeysKeepsTable(NestedTally(ts), t);
    forall a
      ensures a in t.vals <==> ReactionsGiven(msgs, a) > 0
    {
      assert a in t.vals <==> a in OuterKeysOf(ts);
    }
  }

  // ---------------------------------------------------------------------------
  // Emojis per sender (count_emojis)

  /** The increments for the emojis `es` found in a message by `k`. */
  function EmojiIncrements(k: Name, es: seq<string>, demojize: string -> string): seq<(Name, string, int)> {
    if es == [] then []
    else EmojiIncrements(k, es[..|es| - 1], demojize) + [(k, demojize(es[|es| - 1]), 1)]
  }

  /** The increments `count_emojis` performs, message after message. */
  function AllEmojiIncrements(msgs: seq<Message>, analyze: string -> seq<string>, demojize: string -> string)
    : seq<(Name, string, int)>
  {
    if msgs == [] then []
    else
      var m := msgs[|msgs| - 1];
      AllEmojiIncrements(msgs[..|msgs| - 1], analyze, demojize) + EmojiIncrements(m.sender, analyze(m.text), demojize)
  }

  /** The number of emojis in `es` that demojize to `g`. */
  function GlyphsTagged(es: seq<string>, g: string, demojize: string -> string): nat {
    if es == [] then 0
    else GlyphsTagged(es[..|es| - 1], g, demojize) + (if demojize(es[|es| - 1]) == g then 1 else 0)
  }

  /** The number of emojis in the texts `p` sent. */
  function EmojisSent(msgs: seq<Message>, p: Name, analyze: string -> seq<string>): nat {
    if msgs == [] then 0
    else
      var m := msgs[|msgs| - 1];
      EmojisSent(msgs[..|msgs| - 1], p, analyze) + (if m.sender == p then |analyze(m.text)| else 0)
  }

  /** The number of emojis in the texts `p` sent that demojize to `g`. */
  function TaggedEmojis(msgs: seq<Message>, p: Name, g: string, analyze: string -> seq<string>, demojize: string -> string): nat {
    if msgs == [] then 0
    else
      var m := msgs[|msgs| - 1];
      TaggedEmojis(msgs[..|msgs| - 1], p, g, analyze, demojize)
        + (if m.sender == p then GlyphsTagged(analyze(m.text), g, demojize) else 0)
  }

  /** The number of emojis in all texts. */
  function EmojiTotal(msgs: seq<Message>, analyze: string -> seq<string>): nat {
    if msgs == [] then 0
    else EmojiTotal(msgs[..|msgs| - 1], analyze) + |analyze(msgs[|msgs| - 1].text)|
  }

  lemma EmojiIncrementsNext(k: Name, es: seq<string>, j: nat, demojize: string -> string)
    requires j < |es|
    ensures EmojiIncrements(k, es[..j + 1], demojize) == EmojiIncrements(k, es[..j], demojize) + [(k, demojize(es[j]), 1)]
  {
    assert es[..j + 1][..j] == es[..j];
  }

  /** One pass of the inner loop of `count_emojis`. */
  lemma EmojiStep(before: seq<(Name, string, int)>, k: Name, es: seq<string>, j: nat, demojize: string -> string)
    requires j < |es|
    ensures NestedTally(before + EmojiIncrements(k, es[..j + 1], demojize))
         == NestedAdd(NestedTally(before + EmojiIncrements(k, es[..j], demojize)), k, demojize(es[j]), 1)
  {
    var x := (k, demojize(es[j]), 1);
    EmojiIncrementsNext(k, es, j, demojize);
    assert before + EmojiIncrements(k, es[..j + 1], demojize) == (before + EmojiIncrements(k, es[..j], demojize)) + [x];
    NestedTallyNext(before + EmojiIncrements(k, es[..j], demojize), x);
  }

  lemma AllEmojiIncrementsNext(msgs: seq<Message>, i: nat, analyze: string -> seq<string>, demojize: string -> string)
    requires i < |msgs|
    ensures AllEmojiIncrements(msgs[..i + 1], analyze, demojize)
         == AllEmojiIncrements(msgs[..i], analyze, demojize) + EmojiIncrements(msgs[i].sender, analyze(msgs[i].text), demojize)
  {
    assert msgs[..i + 1][..i] == msgs[..i];
  }

  lemma {:induction false} EmojiIncrementsCount(k: Name, es: seq<string>, demojize: string -> string)
    ensures forall a, g :: Weight2(EmojiIncrements(k, es, demojize), a, g) == if a == k then GlyphsTagged(es, g, demojize) else 0
    ensures forall a :: a in OuterKeysOf(EmojiIncrements(k, es, demojize)) <==> a == k && es != []
    ensures WeightAll3(EmojiIncrements(k, es, demojize)) == |es|
  {
    if es != [] {
      var ts := EmojiIncrements(k, es, demojize);
      EmojiIncrementsCount(k, es[..|es| - 1], demojize);
      assert ts[..|ts| - 1] == EmojiIncrements(k, es[..|es| - 1], demojize);
    }
  }

  lemma {:induction false} AllEmojiIncrementsCount(msgs: seq<Message>, analyze: string -> seq<string>, demojize: string -> string)
    ensures forall p, g :: Weight2(AllEmojiIncrements(msgs, analyze, demojize), p, g) == TaggedEmojis(msgs, p, g, analyze, demojize)
    ensures forall p :: p in OuterKeysOf(AllEmojiIncrements(msgs, analyze, demojize)) <==> EmojisSent(msgs, p, analyze) > 0
    ensures WeightAll3(AllEmojiIncrements(msgs, analyze, demojize)) == EmojiTotal(msgs, analyze)
  {
    if msgs != [] {
      var front := msgs[..|msgs| - 1];
      var m := msgs[|msgs| - 1];
      var ts := AllEmojiIncrements(front, analyze, demojize);
      var us := EmojiIncrements(m.sender, analyze(m.text), demojize);
      AllEmojiIncrementsCount(front, analyze, demojize);
      EmojiIncrementsCount(m.sender, analyze(m.text), demojize);
      OuterKeysConcat(ts, us);
      forall p, g
        ensures Weight2(ts + us, p, g) == Weight2(ts, p, g) + Weight2(us, p, g)
      {
        Weight2Concat(ts, us, p, g);
      }
      Weight2Concat(ts, us, m.sender, "");
    }
  }

  /** The dictionary `count_emojis` returns: the table of the increments, its keys sorted. */
  function EmojiCounter(msgs: seq<Message>, analyze: string -> seq<string>, demojize: string -> string)
    : (t: Table<Name, string>)
    ensures Ordered(t.keys)
    ensures GrandTotal(t) == EmojiTotal(msgs, analyze)
  {
    var ts := AllEmojiIncrements(msgs, analyze, demojize);
    AllEmojiIncrementsCount(msgs, analyze, demojize);
    NestedTallyTotal(ts);
    SortKeysKeepsTable(NestedTally(ts), SortKeys(NestedTally(ts)));
    SortKeys(NestedTally(ts))
  }

  /**
   * What `count_emojis` counts: each emoji found in a message's text is credited to
   * the message's sender, under its demojized name; exactly the senders of at least
   * one emoji are keys, in sorted order; the grand total is the number of emojis
   * found.
   */
  lemma EmojiCounterCounts(msgs: seq<Message>, analyze: string -> seq<string>, demojize: string -> string)
    ensures var t := EmojiCounter(msgs, analyze, demojize);
      && NestedWellFormed(t) && Ordered(t.keys)
      && (forall p, g :: NestedCount(t, p, g) == TaggedEmojis(msgs, p, g, analyze, demojize))
      && (forall p :: p in t.vals <==> EmojisSent(msgs, p, analyze) > 0)
      && GrandTotal(t) == EmojiTotal(msgs, analyze)
  {
    var ts := AllEmojiIncrements(msgs, analyze, demojize);
    var t := EmojiCounter(msgs, analyze, demojize);
    AllEmojiIncrementsCount(msgs, analyze, demojize);
    NestedTallyCounts(ts);
    NestedTallyKeys(ts);
    NestedTallyTotal(ts);
    SortKeysKeepsTable(NestedTally(ts), t);
    forall p
      ensures p in t.vals <==> EmojisSent(msgs, p, analyze) > 0
    {
      assert p in t.vals <==> p in OuterKeysOf(ts);
    }
  }

  // ---------------------------------------------------------------------------
  // Time span (time_interval, num_days)

  /** Every message is no earlier than any message before it. */
  predicate Chronological(msgs: seq<Message>) {
    forall i, j :: 0 <= i <= j < |msgs| ==> msgs[i].timeStamp <= msgs[j].timeStamp
  }

  /**
   * `time_interval()`: the time stamps of the first and the last message, in list
   * order; `IndexError` when there are no messages.
   */
  function TimeInterval(msgs: seq<Message>): (r: Result<(int, int)>)
    ensures r.Ok? <==> msgs != []
    ensures r.Err? ==> r.error == IndexError
    ensures r.Ok? && Chronological(msgs) ==>
      r.value.0 <= r.value.1 && forall i :: 0 <= i < |msgs| ==> r.value.0 <= msgs[i].timeStamp <= r.value.1
  {
    if msgs == [] then Err(IndexError) else Ok((msgs[0].timeStamp, msgs[|msgs| - 1].timeStamp))
  }

  /** `num_days()`: the calendar span of the conversation, both ends counted. */
  function DaysSpanned(msgs: seq<Message>): (r: Result<int>)
    ensures r.Ok? <==> msgs != []
    ensures r.Err? ==> r.error == IndexError
    ensures r.Ok? && Chronological(msgs) ==> r.value >= 1
  {
    var (start, end) :- TimeInterval(msgs);
    if start <= end then NumDaysPositive(start, end); Ok(NumDays(start, end)) else Ok(NumDays(start, end))
  }

  // ---------------------------------------------------------------------------
  // Activity timeline (timeline)

  /** The three breakdowns of `timeline()`: hour of day, weekday, day since the first message. */
  datatype Axis = ByHour | ByWeekday | ByDay

  /** The three dictionaries `timeline()` returns, each from participant to a list of counts. */
  datatype Activity = Activity(hours: Dict<Name, seq<int>>, weekdays: Dict<Name, seq<int>>, days: Dict<Name, seq<int>>)
  {
    function Along(axis: Axis): Dict<Name, seq<int>> {
      match axis
      case ByHour => hours
      case ByWeekday => weekdays
      case ByDay => days
    }
  }

  /** The length of the lists along `axis`; `[0] * n` is empty for `n <= 0`. */
  function Width(axis: Axis, numDays: int): nat {
    match axis
    case ByHour => 24
    case ByWeekday => 7
    case ByDay => Max0(numDays)
  }

  /** The list index a message sent at `t` bumps along `axis`. */
  function Slot(axis: Axis, t: int, start: int, tz: int): int {
    match axis
    case ByHour => Hour(t, tz)
    case ByWeekday => Weekday(t, tz)
    case ByDay => DayOffset(t, start)
  }

  /** `{p: list(v) for p in participants}`: a repeated participant keeps its first position. */
  function FromKeys(ps: seq<Name>, v: seq<int>): (d: Dict<Name, seq<int>>)
    ensures WellFormed(d)
    ensures forall p :: p in d.vals <==> p in ps
    ensures forall p :: p in d.vals ==> d.vals[p] == v
  {
    if ps == [] then Dict([], map[])
    else
      var d := FromKeys(ps[..|ps| - 1], v);
      var p := ps[|ps| - 1];
      assert forall q :: q in ps <==> q in ps[..|ps| - 1] || q == p by {
        assert ps == ps[..|ps| - 1] + [p];
      }
      Dict(if p in d.vals then d.keys else d.keys + [p], d.vals[p := v])
  }

  /** Every participant's list along an axis has the same length `w`. */
  ghost predicate Shape(d: Dict<Name, seq<int>>, w: int) {
    WellFormed(d) && forall p :: p in d.vals ==> |d.vals[p]| == w
  }

  /**
   * `d[k][i] += 1`: `KeyError` for a participant with no list, `IndexError` for an
   * index outside `-len .. len - 1`; a negative index counts from the end.
   */
  function Bump(d: Dict<Name, seq<int>>, k: Name, i: int): (r: Result<Dict<Name, seq<int>>>)
    ensures r.Ok? <==> k in d.vals && PyIndex(|d.vals[k]|, i).Some?
    ensures r.Err? ==> r.error == if k in d.vals then IndexError else KeyError(k.fullName)
    ensures r.Ok? ==> r.value.keys == d.keys && r.value.vals.Keys == d.vals.Keys
    ensures r.Ok? ==> forall p :: p in d.vals ==> |r.value.vals[p]| == |d.vals[p]|
    ensures r.Ok? ==> forall p, j :: p in d.vals && 0 <= j < |d.vals[p]| ==>
      r.value.vals[p][j] == d.vals[p][j] + if p == k && PyIndex(|d.vals[p]|, i) == Some(j) then 1 else 0
    ensures r.Ok? ==> forall p :: p in d.vals ==> Sum(r.value.vals[p]) == Sum(d.vals[p]) + if p == k then 1 else 0
  {
    if k !in d.vals then Err(KeyError(k.fullName))
    else
      match PyIndex(|d.vals[k]|, i)
      case None => Err(IndexError)
      case Some(j) =>
        var v := d.vals[k];
        SumBumped(v, j, 1);
        Ok(Dict(d.keys, d.vals[k := v[j := v[j] + 1]]))
  }

  /** One pass of the loop body of `timeline()`: bump the hour, then the weekday, then the day. */
  function Record(tl: Activity, m: Message, start: int, tz: int): (r: Result<Activity>)
    ensures m.sender !in tl.hours.vals ==> r == Err(KeyError(m.sender.fullName))
    ensures r.Ok? ==> m.sender in tl.hours.vals && m.sender in tl.weekdays.vals && m.sender in tl.days.vals
    ensures r.Ok? ==>
      && r.value.hours.keys == tl.hours.keys
      && r.value.weekdays.keys == tl.weekdays.keys
      && r.value.days.keys == tl.days.keys
  {
    var hours :- Bump(tl.hours, m.sender, Slot(ByHour, m.timeStamp, start, tz));
    var weekdays :- Bump(tl.weekdays, m.sender, Slot(ByWeekday, m.timeStamp, start, tz));
    var days :- Bump(tl.days, m.sender, Slot(ByDay, m.timeStamp, start, tz));
    Ok(Activity(hours, weekdays, days))
  }

  /** The loop of `timeline()` over `msgs`, stopping at the first exception. */
  function Fold(tl: Activity, msgs: seq<Message>, start: int, tz: int): Result<Activity> {
    if msgs == [] then Ok(tl)
    else
      var front :- Fold(tl, msgs[..|msgs| - 1], start, tz);
      Record(front, msgs[|msgs| - 1], start, tz)
  }

  /** Once the loop has raised, the whole loop raises the same exception. */
  lemma {:induction false} FoldStops(tl: Activity, msgs: seq<Message>, i: nat, start: int, tz: int)
    requires i <= |msgs| && Fold(tl, msgs[..i], start, tz).Err?
    ensures Fold(tl, msgs, start, tz) == Fold(tl, msgs[..i], start, tz)
    decreases |msgs| - i
  {
    if i < |msgs| {
      assert msgs[..i + 1][..i] == msgs[..i];
      FoldStops(tl, msgs, i + 1, start, tz);
    } else {
      assert msgs[..i] == msgs;
    }
  }

  /** The lists `timeline()` starts from: zeros for every participant. */
  function Initial(ps: seq<Name>, numDays: int): Activity {
    Activity(FromKeys(ps, Zeros(24)), FromKeys(ps, Zeros(7)), FromKeys(ps, Zeros(numDays)))
  }

  /** `timeline()` on the participants `ps` and the messages `msgs`. */
  function TimelineOf(ps: seq<Name>, msgs: seq<Message>, tz: int): (r: Result<Activity>)
    ensures msgs == [] ==> r == Err(IndexError)
  {
    var (start, _) :- TimeInterval(msgs);
    var numDays :- DaysSpanned(msgs);
    Fold(Initial(ps, numDays), msgs, start, tz)
  }

  /** One more message is one more pass of the loop body. */
  lemma FoldNext(tl: Activity, msgs: seq<Message>, i: nat, start: int, tz: int, mid: Activity)
    requires i < |msgs| && Fold(tl, msgs[..i], start, tz) == Ok(mid)
    ensures Fold(tl, msgs[..i + 1], start, tz) == Record(mid, msgs[i], start, tz)
  {
    assert msgs[..i + 1][..i] == msgs[..i];
  }

  /** The number of messages of `p` whose index along `axis` addresses position `j` of a list of length `w`. */
  function Hits(msgs: seq<Message>, p: Name, axis: Axis, j: int, start: int, tz: int, w: int): nat {
    if msgs == [] then 0
    else
      var m := msgs[|msgs| - 1];
      Hits(msgs[..|msgs| - 1], p, axis, j, start, tz, w)
        + if m.sender == p && PyIndex(w, Slot(axis, m.timeStamp, start, tz)) == Some(j) then 1 else 0
  }

  /** The loop of `timeline()` seen along one axis only. */
  function Tick(d: Dict<Name, seq<int>>, msgs: seq<Message>, axis: Axis, start: int, tz: int): Result<Dict<Name, seq<int>>> {
    if msgs == [] then Ok(d)
    else
      var front :- Tick(d, msgs[..|msgs| - 1], axis, start, tz);
      var m := msgs[|msgs| - 1];
      Bump(front, m.sender, Slot(axis, m.timeStamp, start, tz))
  }

  /** A successful loop does along each axis what `Tick` does. */
  lemma {:induction false} FoldProjects(tl: Activity, msgs: seq<Message>, start: int, tz: int, axis: Axis)
    requires Fold(tl, msgs, start, tz).Ok?
    ensures Tick(tl.Along(axis), msgs, axis, start, tz) == Ok(Fold(tl, msgs, start, tz).value.Along(axis))
  {
    if msgs != [] {
      var front := msgs[..|msgs| - 1];
      var m := msgs[|msgs| - 1];
      FoldProjects(tl, front, start, tz, axis);
      RecordProjects(Fold(tl, front, start, tz).value, m, start, tz, axis);
    }
  }

  /** A successful pass of the loop body bumps each axis as `Bump` does. */
  lemma RecordProjects(tl: Activity, m: Message, start: int, tz: int, axis: Axis)
    requires Record(tl, m, start, tz).Ok?
    ensures Bump(tl.Along(axis), m.sender, Slot(axis, m.timeStamp, start, tz)) == Ok(Record(tl, m, start, tz).value.Along(axis))
  {
  }

  /** Along one axis the loop keeps the participants and the list lengths, and needs every sender to be a participant. */
  lemma {:induction false} TickKeepsShape(d: Dict<Name, seq<int>>, msgs: seq<Message>, axis: Axis, start: int, tz: int, w: int)
    requires Shape(d, w) && Tick(d, msgs, axis, start, tz).Ok?
    ensures var out := Tick(d, msgs, axis, start, tz).value;
      Shape(out, w) && out.keys == d.keys && out.vals.Keys == d.vals.Keys
    ensures forall i :: 0 <= i < |msgs| ==> msgs[i].sender in d.vals
  {
    if msgs != [] {
      var front := msgs[..|msgs| - 1];
      TickKeepsShape(d, front, axis, start, tz, w);
      forall i | 0 <= i < |msgs| - 1
        ensures msgs[i].sender in d.vals
      {
        assert msgs[i] == front[i];
      }
    }
  }

  /** Along one axis each list grows in total by the number of messages of its participant. */
  lemma {:induction false} TickSums(d: Dict<Name, seq<int>>, msgs: seq<Message>, axis: Axis, start: int, tz: int)
    requires Tick(d, msgs, axis, start, tz).Ok?
    ensures var out := Tick(d, msgs, axis, start, tz).value;
      forall p :: p in d.vals ==> p in out.vals && Sum(out.vals[p]) == Sum(d.vals[p]) + Sent(msgs, p)
  {
    if msgs != [] {
      TickSums(d, msgs[..|msgs| - 1], axis, start, tz);
    }
  }

  /** Along one axis position `j` of each list grows by the messages of its participant that address it. */
  lemma {:induction false} TickHits(d: Dict<Name, seq<int>>, msgs: seq<Message>, axis: Axis, start: int, tz: int, w: int)
    requires Shape(d, w) && Tick(d, msgs, axis, start, tz).Ok?
    ensures var out := Tick(d, msgs, axis, start, tz).value;
      forall p, j :: p in d.vals && 0 <= j < w ==>
        p in out.vals && |out.vals[p]| == w && out.vals[p][j] == d.vals[p][j] + Hits(msgs, p, axis, j, start, tz, w)
  {
    if msgs != [] {
      var front := msgs[..|msgs| - 1];
      TickKeepsShape(d, front, axis, start, tz, w);
      TickHits(d, front, axis, start, tz, w);
    }
  }

  lemma InitialAlong(ps: seq<Name>, numDays: int, axis: Axis)
    ensures Initial(ps, numDays).Along(axis) == FromKeys(ps, Zeros(Width(axis, numDays)))
  {
  }

  /** A successful `timeline()` is, along each axis, `Tick` from lists of zeros. */
  lemma TimelineAlong(ps: seq<Name>, msgs: seq<Message>, tz: int, axis: Axis)
    requires TimelineOf(ps, msgs, tz).Ok?
    ensures msgs != []
    ensures var w := Width(axis, DaysSpanned(msgs).value);
      Tick(FromKeys(ps, Zeros(w)), msgs, axis, TimeInterval(msgs).value.0, tz) == Ok(TimelineOf(ps, msgs, tz).value.Along(axis))
  {
    var n := DaysSpanned(msgs).value;
    var start := TimeInterval(msgs).value.0;
    assert TimelineOf(ps, msgs, tz) == Fold(Initial(ps, n), msgs, start, tz);
    FoldProjects(Initial(ps, n), msgs, start, tz, axis);
    InitialAlong(ps, n, axis);
  }

  /**
   * The shape of a successful `timeline()`: there were messages and every sender
   * is a participant; along each axis every participant, and nobody else, has a
   * list of the axis's length (24, 7, or `num_days()`).
   */
  lemma TimelineShape(ps: seq<Name>, msgs: seq<Message>, tz: int, axis: Axis)
    requires TimelineOf(ps, msgs, tz).Ok?
    ensures msgs != [] && forall i :: 0 <= i < |msgs| ==> msgs[i].sender in ps
    ensures var d := TimelineOf(ps, msgs, tz).value.Along(axis);
      && WellFormed(d)
      && (forall p :: p in d.vals <==> p in ps)
      && (forall p :: p in d.vals ==> |d.vals[p]| == Width(axis, DaysSpanned(msgs).value))
  {
    TimelineAlong(ps, msgs, tz, axis);
    var w := Width(axis, DaysSpanned(msgs).value);
    TickKeepsShape(FromKeys(ps, Zeros(w)), msgs, axis, TimeInterval(msgs).value.0, tz, w);
  }

  /** Starting from zeros, each list adds up to the messages of its participant. */
  lemma TickTotals(ps: seq<Name>, msgs: seq<Message>, axis: Axis, start: int, tz: int, w: nat, out: Dict<Name, seq<int>>)
    requires Tick(FromKeys(ps, Zeros(w)), msgs, axis, start, tz) == Ok(out)
    ensures forall p :: p in out.vals ==> Sum(out.vals[p]) == Sent(msgs, p)
  {
    var d0 := FromKeys(ps, Zeros(w));
    TickKeepsShape(d0, msgs, axis, start, tz, w);
    TickSums(d0, msgs, axis, start, tz);
    SumZeros(w);
  }

  /**
   * Each list of a successful `timeline()` adds up to the number of messages its
   * participant sent, which is the count `count_messages` records for them.
   */
  lemma TimelineSums(ps: seq<Name>, msgs: seq<Message>, tz: int, axis: Axis)
    requires TimelineOf(ps, msgs, tz).Ok?
    ensures var d := TimelineOf(ps, msgs, tz).value.Along(axis);
      forall p :: p in d.vals ==> Sum(d.vals[p]) == Sent(msgs, p) == Count(MessageCounter(msgs), p)
  {
    TimelineAlong(ps, msgs, tz, axis);
    TickTotals(ps, msgs, axis, TimeInterval(msgs).value.0, tz, Width(axis, DaysSpanned(msgs).value),
               TimelineOf(ps, msgs, tz).value.Along(axis));
    MessageCounterCounts(msgs);
  }

  /** Starting from zeros, position `j` of a list counts the messages addressing it. */
  lemma TickSlots(ps: seq<Name>, msgs: seq<Message>, axis: Axis, start: int, tz: int, w: nat, out: Dict<Name, seq<int>>)
    requires Tick(FromKeys(ps, Zeros(w)), msgs, axis, start, tz) == Ok(out)
    ensures forall p, j :: p in out.vals && 0 <= j < |out.vals[p]| ==> out.vals[p][j] == Hits(msgs, p, axis, j, start, tz, w)
  {
    var d0 := FromKeys(ps, Zeros(w));
    TickKeepsShape(d0, msgs, axis, start, tz, w);
    TickHits(d0, msgs, axis, start, tz, w);
  }

  /**
   * Position `j` of the list of `p` in a successful `timeline()` counts the
   * messages of `p` whose index along the axis addresses that position.
   */
  lemma TimelineSlots(ps: seq<Name>, msgs: seq<Message>, tz: int, axis: Axis)
    requires TimelineOf(ps, msgs, tz).Ok?
    ensures var d := TimelineOf(ps, msgs, tz).value.Along(axis);
      var w := Width(axis, DaysSpanned(msgs).value);
      forall p, j :: p in d.vals && 0 <= j < |d.vals[p]| ==>
        d.vals[p][j] == Hits(msgs, p, axis, j, TimeInterval(msgs).value.0, tz, w)
  {
    TimelineAlong(ps, msgs, tz, axis);
    TickSlots(ps, msgs, axis, TimeInterval(msgs).value.0, tz, Width(axis, DaysSpanned(msgs).value),
              TimelineOf(ps, msgs, tz).value.Along(axis));
  }

  /**
   * `timeline()` raises nothing when there are messages, every sender is a
   * participant and the messages are in chronological order.
   */
  lemma TimelineSucceeds(ps: seq<Name>, msgs: seq<Message>, tz: int)
    requires msgs != [] && forall i :: 0 <= i < |msgs| ==> msgs[i].sender in ps
    requires Chronological(msgs)
    ensures TimelineOf(ps, msgs, tz).Ok?
  {
    var (start, end) := TimeInterval(msgs).value;
    var n := NumDays(start, end);
    NumDaysPositive(start, end);
    FoldSucceeds(Initial(ps, n), msgs, start, end, tz, ps);
  }

  /** Along one axis a successful loop keeps the participants and the list lengths. */
  lemma FoldKeepsShape(tl: Activity, msgs: seq<Message>, start: int, tz: int, axis: Axis, w: int)
    requires Fold(tl, msgs, start, tz).Ok? && Shape(tl.Along(axis), w)
    ensures Shape(Fold(tl, msgs, start, tz).value.Along(axis), w)
    ensures Fold(tl, msgs, start, tz).value.Along(axis).vals.Keys == tl.Along(axis).vals.Keys
  {
    FoldProjects(tl, msgs, start, tz, axis);
    TickKeepsShape(tl.Along(axis), msgs, axis, start, tz, w);
  }

  /** The loop body raises nothing for a participant's message inside the span. */
  lemma RecordSucceeds(tl: Activity, m: Message, start: int, end: int, tz: int)
    requires start <= m.timeStamp <= end
    requires Shape(tl.hours, 24) && Shape(tl.weekdays, 7) && Shape(tl.days, NumDays(start, end))
    requires m.sender in tl.hours.vals && m.sender in tl.weekdays.vals && m.sender in tl.days.vals
    ensures Record(tl, m, start, tz).Ok?
  {
    DayOffsetInSpan(m.timeStamp, start, end);
  }

  lemma {:induction false} FoldSucceeds(tl: Activity, msgs: seq<Message>, start: int, end: int, tz: int, ps: seq<Name>)
    requires start <= end
    requires forall i :: 0 <= i < |msgs| ==> msgs[i].sender in ps && start <= msgs[i].timeStamp <= end
    requires Shape(tl.hours, 24) && Shape(tl.weekdays, 7) && Shape(tl.days, NumDays(start, end))
    requires forall p :: p in ps ==> p in tl.hours.vals && p in tl.weekdays.vals && p in tl.days.vals
    ensures Fold(tl, msgs, start, tz).Ok?
  {
    if msgs != [] {
      var front := msgs[..|msgs| - 1];
      var m := msgs[|msgs| - 1];
      assert forall i :: 0 <= i < |front| ==> front[i] == msgs[i];
      FoldSucceeds(tl, front, start, end, tz, ps);
      var mid := Fold(tl, front, start, tz).value;
      FoldKeepsShape(tl, front, start, tz, ByHour, 24);
      FoldKeepsShape(tl, front, start, tz, ByWeekday, 7);
      FoldKeepsShape(tl, front, start, tz, ByDay, NumDays(start, end));
      RecordSucceeds(mid, m, start, end, tz);
    }
  }

  // ---------------------------------------------------------------------------
  // The conversation object

  /** `q` is `a` divided by `b`: `q * b == a`. */
  predicate Scales(q: real, b: int, a: int) {
    q * b as real == a as real
  }

  /** `a / b` on integers in Python 3: true division. */
  function Quotient(a: int, b: int): (r: Result<real>)
    ensures r.Err? <==> b == 0
    ensures r.Err? ==> r.error == ZeroDivisionError
    ensures r.Ok? ==> Scales(r.value, b, a)
  {
    if b == 0 then Err(ZeroDivisionError) else Ok(a as real / b as real)
  }

  /**
   * `Conversation`: the participants, the messages and the four counters computed
   * once by the constructor. `utcOffset` fixes the local time zone; `demojize` and
   * `analyze` stand for the emoji library.
   */
  class Conversation {
    var messages: seq<Message>
    var participants: seq<Name>
    var messagesCounter: Dict<Name, int>
    var wordCounter: Dict<Name, int>
    var emojiCounter: Table<Name, string>
    var reactionCounter: Table<Name, string>
    const utcOffset: int
    const demojize: string -> string
    const analyze: string -> seq<string>

    /** The counters are those of the current messages. */
    ghost predicate Consistent()
      reads this
    {
      && messagesCounter == MessageCounter(messages)
      && wordCounter == WordCounter(messages)
      && emojiCounter == EmojiCounter(messages, analyze, demojize)
      && reactionCounter == ReactionCounter(messages, demojize)
    }

    /**
     * `__init__` once the names and messages are normalised: all four counters
     * computed from the messages the object is given.
     */
    constructor (participants: seq<Name>, messages: seq<Message>, utcOffset: int,
                 demojize: string -> string, analyze: string -> seq<string>)
      ensures this.participants == participants && this.messages == messages
      ensures this.utcOffset == utcOffset && this.demojize == demojize && this.analyze == analyze
      ensures Consistent()
    {
      this.participants := participants;
      this.messages := messages;
      this.utcOffset := utcOffset;
      this.demojize := demojize;
      this.analyze := analyze;
      var mc := CountMessages(messages);
      var wc := CountWords(messages);
      var ec := CountEmojis(messages, analyze, demojize);
      var rc := CountReactions(messages, demojize);
      messagesCounter, wordCounter, emojiCounter, reactionCounter := mc, wc, ec, rc;
    }

    /**
     * `__init__` on raw records: the messages are normalised before the names, so
     * a bad sender or actor is reported before a bad participant name.
     */
    static method FromRaw(rawNames: seq<string>, rawMessages: seq<RawMessage>, utcOffset: int,
                          demojize: string -> string, analyze: string -> seq<string>)
      returns (r: Result<Conversation>)
      ensures r.Ok? <==> ToMessages(rawMessages).Ok? && ToNames(rawNames).Ok?
      ensures r.Err? ==> r.error == if ToMessages(rawMessages).Err? then ToMessages(rawMessages).error
                                    else ToNames(rawNames).error
      ensures r.Ok? ==>
        && fresh(r.value) && r.value.Consistent()
        && r.value.messages == ToMessages(rawMessages).value && r.value.participants == ToNames(rawNames).value
        && r.value.utcOffset == utcOffset && r.value.demojize == demojize && r.value.analyze == analyze
    {
      var messages := ToMessages(rawMessages);
      if messages.Err? {
        return Err(messages.error);
      }
      var names := ToNames(rawNames);
      if names.Err? {
        return Err(names.error);
      }
      var c := new Conversation(names.value, messages.value, utcOffset, demojize, analyze);
      return Ok(c);
    }

    /** `count_messages()`, on the messages of the conversation passed in. */
    static method CountMessages(messages: seq<Message>) returns (counter: Dict<Name, int>)
      ensures counter == MessageCounter(messages)
    {
      counter := Empty();
      var i := 0;
      while i < |messages|
        invariant 0 <= i <= |messages|
        invariant counter == Tally(SenderIncrements(messages[..i]))
      {
        SenderIncrementsNext(messages, i);
        TallyNext(SenderIncrements(messages[..i]), (messages[i].sender, 1));
        counter := Add(counter, messages[i].sender, 1);
        i := i + 1;
      }
      assert messages[..i] == messages;
    }

    /** `count_words()`, on the messages of the conversation passed in. */
    static method CountWords(messages: seq<Message>) returns (counter: Dict<Name, int>)
      ensures counter == WordCounter(messages)
    {
      counter := Empty();
      var i := 0;
      while i < |messages|
        invariant 0 <= i <= |messages|
        invariant counter == Tally(WordIncrements(messages[..i]))
      {
        var m := messages[i];
        WordIncrementsNext(messages, i);
        if IsText(m) {
          var numWords := |Words(m.text)|;
          TallyNext(WordIncrements(messages[..i]), (m.sender, numWords));
          counter := Add(counter, m.sender, numWords);
        }
        i := i + 1;
      }
      assert messages[..i] == messages;
    }

    /** `count_reactions()` on the messages passed in: the nested loop, then the keys sorted. */
    static method CountReactions(messages: seq<Message>, demojize: string -> string) returns (counter: Table<Name, string>)
      ensures counter == ReactionCounter(messages, demojize)
    {
      var table: Table<Name, string> := Empty();
      var i := 0;
      while i < |messages|
        invariant 0 <= i <= |messages|
        invariant table == NestedTally(AllReactionIncrements(messages[..i], demojize))
      {
        var rs := messages[i].reactions;
        var before := AllReactionIncrements(messages[..i], demojize);
        var j := 0;
        assert before + ReactionIncrements(rs[..0], demojize) == before;
        while j < |rs|
          invariant 0 <= j <= |rs|
          invariant table == NestedTally(before + ReactionIncrements(rs[..j], demojize))
        {
          ReactionStep(before, rs, j, demojize);
          table := NestedAdd(table, rs[j].actor, demojize(rs[j].reaction), 1);
          j := j + 1;
        }
        assert rs[..j] == rs;
        AllReactionIncrementsNext(messages, i, demojize);
        i := i + 1;
      }
      assert messages[..i] == messages;
      counter := SortKeys(table);
    }

    /** `count_emojis()` on the messages passed in: the nested loop, then the keys sorted. */
    static method CountEmojis(messages: seq<Message>, analyze: string -> seq<string>, demojize: string -> string) returns (counter: Table<Name, string>)
      ensures counter == EmojiCounter(messages, analyze, demojize)
    {
      var table: Table<Name, string> := Empty();
      var i := 0;
      while i < |messages|
        invariant 0 <= i <= |messages|
        invariant table == NestedTally(AllEmojiIncrements(messages[..i], analyze, demojize))
      {
        var m := messages[i];
        var es := analyze(m.text);
        var before := AllEmojiIncrements(messages[..i], analyze, demojize);
        var j := 0;
        assert before + EmojiIncrements(m.sender, es[..0], demojize) == before;
        while j < |es|
          invariant 0 <= j <= |es|
          invariant table == NestedTally(before + EmojiIncrements(m.sender, es[..j], demojize))
        {
          EmojiStep(before, m.sender, es, j, demojize);
          table := NestedAdd(table, m.sender, demojize(es[j]), 1);
          j := j + 1;
        }
        assert es[..j] == es;
        AllEmojiIncrementsNext(messages, i, analyze, demojize);
        i := i + 1;
      }
      assert messages[..i] == messages;
      counter := SortKeys(table);
    }

    /** `tot_messages()`: the sum of the message counter, the number of messages while it is current. */
    function TotMessages(): (n: int)
      reads this
      ensures Consistent() ==> n == |messages|
    {
      MessageCounterCounts(messages);
      Total(messagesCounter)
    }

    /** `tot_words()`: the sum of the word counter, the words of all text messages while it is current. */
    function TotWords(): (n: int)
      reads this
      ensures Consistent() ==> n == TextWords(messages)
    {
      WordCounterCounts(messages);
      Total(wordCounter)
    }

    /** `average_message_length()` before rounding: words per message. */
    function AverageMessageLength(): (r: Result<real>)
      reads this
      ensures r.Err? <==> TotMessages() == 0
      ensures r.Err? ==> r.error == ZeroDivisionError
      ensures r.Ok? ==> Scales(r.value, TotMessages(), TotWords())
    {
      Quotient(TotWords(), TotMessages())
    }

    /**
     * `average_messages_day()` before rounding: messages per day of the span;
     * `IndexError` without messages, `ZeroDivisionError` for a span of zero days.
     */
    function AverageMessagesPerDay(): (r: Result<real>)
      reads this
      ensures messages == [] ==> r == Err(IndexError)
      ensures messages != [] ==> (r.Err? <==> DaysSpanned(messages).value == 0)
      ensures messages != [] && DaysSpanned(messages).value == 0 ==> r == Err(ZeroDivisionError)
      ensures r.Ok? ==> Scales(r.value, DaysSpanned(messages).value, TotMessages())
    {
      var days :- DaysSpanned(messages);
      Quotient(TotMessages(), days)
    }

    /** `timeline()` */
    method Timeline() returns (r: Result<Activity>)
      ensures r == TimelineOf(participants, messages, utcOffset)
    {
      var interval := TimeInterval(messages);
      if interval.Err? {
        return Err(interval.error);
      }
      var start := interval.value.0;
      var numDays := DaysSpanned(messages).value;
      var init := Initial(participants, numDays);
      var tl := init;
      var i := 0;
      while i < |messages|
        invariant 0 <= i <= |messages|
        invariant Fold(init, messages[..i], start, utcOffset) == Ok(tl)
      {
        FoldNext(init, messages, i, start, utcOffset, tl);
        var step := Record(tl, messages[i], start, utcOffset);
        if step.Err? {
          FoldStops(init, messages, i + 1, start, utcOffset);
          return Err(step.error);
        }
        tl := step.value;
        i := i + 1;
      }
      assert messages[..i] == messages;
      return Ok(tl);
    }
  }
}
