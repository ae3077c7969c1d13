/** What the response mapper says of raw entries, and that what a provider says comes back. */
module DeepgramRoundTrips {
  import opened Transcripts
  import opened Deepgram

  /** Which raw values count as a speaker: integers, and booleans, which are integers to the language. */
  predicate SpeakerValue(fields: map<string, Json>) {
    "speaker" in fields && (fields["speaker"].JInt? || fields["speaker"].JBool?)
  }

  /** Which raw values count as a time. */
  predicate TimeValue(fields: map<string, Json>, key: string) {
    key in fields && (fields[key].JInt? || fields[key].JBool? || fields[key].JFloat?)
  }

  /** An entry parses exactly when it is an object with a speaker and two times, and an utterance
      also with a text that is a string. */
  lemma EntriesParseExactly(entry: Json)
    ensures GoodWord(entry) <==>
      entry.JObject? && SpeakerValue(entry.fields) && TimeValue(entry.fields, "start") && TimeValue(entry.fields, "end")
    ensures GoodUtterance(entry) <==>
      && entry.JObject? && SpeakerValue(entry.fields) && TimeValue(entry.fields, "start") && TimeValue(entry.fields, "end")
      && "transcript" in entry.fields && entry.fields["transcript"].JString?
  {
  }

  lemma TimesConvert(n: int, b: bool, r: real)
    ensures JInt(n).AsReal() == n as real && JFloat(r).AsReal() == r
    ensures JBool(b).AsReal() == if b then 1.0 else 0.0
  {
  }

  /** The text of a word: the punctuated form if it is there and not empty, else the bare form, else nothing. */
  lemma PunctuatedWordsComeFirst(lang: Rendering, fields: map<string, Json>, punctuated: string, bare: string)
    ensures "punctuated_word" in fields && fields["punctuated_word"] == JString(punctuated) && punctuated != "" ==>
      WordText(lang, JObject(fields)) == punctuated
    ensures (("punctuated_word" !in fields || fields["punctuated_word"] in {JNull, JString("")})
             && "word" in fields && fields["word"] == JString(bare)) ==>
      WordText(lang, JObject(fields)) == bare
    ensures "punctuated_word" !in fields && "word" !in fields ==> WordText(lang, JObject(fields)) == ""
  {
  }

  /** What was said: the provider's view of one utterance or one word. */
  datatype Spoken = Spoken(speaker: int, start: real, end: real, text: string, bare: string)

  function UtteranceEntry(u: Spoken): Json {
    JObject(map["speaker" := JInt(u.speaker), "start" := JFloat(u.start), "end" := JFloat(u.end),
                "transcript" := JString(u.text)])
  }

  function WordEntry(u: Spoken): Json {
    JObject(map["speaker" := JInt(u.speaker), "start" := JFloat(u.start), "end" := JFloat(u.end),
                "punctuated_word" := JString(u.text), "word" := JString(u.bare)])
  }

  function UtteranceEntries(us: seq<Spoken>): (r: seq<Json>)
    ensures |r| == |us|
  {
    if us == [] then [] else UtteranceEntries(us[..|us| - 1]) + [UtteranceEntry(us[|us| - 1])]
  }

  function WordEntries(us: seq<Spoken>): (r: seq<Json>)
    ensures |r| == |us|
  {
    if us == [] then [] else WordEntries(us[..|us| - 1]) + [WordEntry(us[|us| - 1])]
  }

  /** The segment that the provider meant. */
  function SaidSegment(lang: Rendering, u: Spoken): SpeakerSegment {
    SpeakerSegment("S" + lang.show(JInt(u.speaker)), u.start, u.end, u.text)
  }

  lemma UtteranceEntryParses(lang: Rendering, u: Spoken)
    ensures GoodUtterance(UtteranceEntry(u)) && UtteranceSegment(lang, UtteranceEntry(u)) == SaidSegment(lang, u)
  {
  }

  lemma GoodUtterancesStep(us: seq<Json>, u: Json)
    ensures GoodUtterances(us + [u]) == GoodUtterances(us) + if GoodUtterance(u) then [u] else []
  {
    assert (us + [u])[..|us|] == us;
  }

  /** The word that the provider meant. */
  function SaidWord(lang: Rendering, u: Spoken): Word {
    Word("S" + lang.show(JInt(u.speaker)), u.start, u.end, if u.text != "" then u.text else u.bare)
  }

  lemma WordEntryParses(lang: Rendering, u: Spoken)
    ensures GoodWord(WordEntry(u)) && ParseWord(lang, WordEntry(u)) == SaidWord(lang, u)
  {
  }

  /** Round trip of utterances: every one that was said comes back, in order, with its own speaker,
      times and text. */
  lemma {:induction false} UtterancesRoundTrip(lang: Rendering, us: seq<Spoken>)
    ensures |GoodUtterances(UtteranceEntries(us))| == |us|
    ensures forall i :: 0 <= i < |us| ==>
      UtteranceSegment(lang, GoodUtterances(UtteranceEntries(us))[i]) == SaidSegment(lang, us[i])
  {
    if us != [] {
      var front, last := us[..|us| - 1], us[|us| - 1];
      UtterancesRoundTrip(lang, front);
      UtteranceEntryParses(lang, last);
      GoodUtterancesStep(UtteranceEntries(front), UtteranceEntry(last));
    }
  }

  lemma WordsStep(lang: Rendering, us: seq<Spoken>)
    requires us != []
    ensures Kept(lang, WordEntries(us)) == Kept(lang, WordEntries(us[..|us| - 1])) + [SaidWord(lang, us[|us| - 1])]
  {
    WordEntryParses(lang, us[|us| - 1]);
    KeptStep(lang, WordEntries(us[..|us| - 1]), WordEntry(us[|us| - 1]));
  }

  /** Round trip of words: the merger works on exactly the words that were said, in order. */
  lemma {:induction false} WordsRoundTrip(lang: Rendering, us: seq<Spoken>)
    ensures |Kept(lang, WordEntries(us))| == |us|
    ensures forall i :: 0 <= i < |us| ==> Kept(lang, WordEntries(us))[i] == SaidWord(lang, us[i])
  {
    if us != [] {
      var front := us[..|us| - 1];
      WordsRoundTrip(lang, front);
      WordsStep(lang, us);
      forall i | 0 <= i < |us| ensures Kept(lang, WordEntries(us))[i] == SaidWord(lang, us[i]) {
        if i < |us| - 1 {
          assert Kept(lang, WordEntries(us))[i] == Kept(lang, WordEntries(front))[i];
        }
      }
    }
  }

  function Flat(parts: seq<seq<Json>>): seq<Json> {
    if parts == [] then [] else parts[0] + Flat(parts[1..])
  }

  function AlternativeEntry(words: seq<Json>): Json {
    JObject(map["words" := JList(words)])
  }

  function AlternativeEntries(alternatives: seq<seq<Json>>): (r: seq<Json>)
    ensures |r| == |alternatives|
  {
    if alternatives == [] then []
    else AlternativeEntries(alternatives[..|alternatives| - 1]) + [AlternativeEntry(alternatives[|alternatives| - 1])]
  }

  lemma {:induction false} FlatEnd(parts: seq<seq<Json>>)
    requires parts != []
    ensures Flat(parts) == Flat(parts[..|parts| - 1]) + parts[|parts| - 1]
  {
    if |parts| > 1 {
      FlatEnd(parts[1..]);
      assert parts[1..][..|parts| - 2] == parts[..|parts| - 1][1..];
    }
  }

  /** The words of all alternatives are taken in the order of the response, none left out. */
  lemma {:induction false} WordsInOrder(alternatives: seq<seq<Json>>)
    ensures AllWords(AlternativeEntries(alternatives)) == Flat(alternatives)
  {
    if alternatives != [] {
      var front, last := alternatives[..|alternatives| - 1], alternatives[|alternatives| - 1];
      WordsInOrder(front);
      FlatEnd(alternatives);
      assert AlternativeEntries(alternatives)[..|alternatives| - 1] == AlternativeEntries(front);
      assert AlternativeEntry(last).Get("words") == JList(last);
    }
  }

  function ChannelEntry(alternatives: seq<Json>): Json {
    JObject(map["alternatives" := JList(alternatives)])
  }

  function ChannelEntries(channels: seq<seq<Json>>): (r: seq<Json>)
    ensures |r| == |channels| && forall i :: 0 <= i < |r| ==> r[i].JObject?
  {
    if channels == [] then []
    else ChannelEntries(channels[..|channels| - 1]) + [ChannelEntry(channels[|channels| - 1])]
  }

  predicate AllObjects(items: seq<Json>) {
    forall i :: 0 <= i < |items| ==> items[i].JObject?
  }

  lemma {:induction false} ObjectsStay(items: seq<Json>)
    requires AllObjects(items)
    ensures Dicts(JList(items)) == items
  {
    if items != [] {
      ObjectsStay(items[..|items| - 1]);
    }
  }

  /** What is not an object is skipped where a list of objects is expected. */
  lemma OthersAreSkipped(items: seq<Json>, item: Json)
    ensures Dicts(JList(items + [item])) == Dicts(JList(items)) + if item.JObject? then [item] else []
    ensures !item.JList? ==> Dicts(item) == []
  {
    assert (items + [item])[..|items|] == items;
  }

  lemma ChannelStep(front: seq<Json>, alternatives: seq<Json>)
    requires AllObjects(alternatives)
    ensures Alternatives(front + [ChannelEntry(alternatives)]) == Alternatives(front) + alternatives
  {
    assert (front + [ChannelEntry(alternatives)])[..|front|] == front;
    ObjectsStay(alternatives);
  }

  /** The alternatives of all channels are taken in order, none left out. */
  lemma {:induction false} AlternativesInOrder(channels: seq<seq<Json>>)
    requires forall i :: 0 <= i < |channels| ==> AllObjects(channels[i])
    ensures Alternatives(Dicts(JList(ChannelEntries(channels)))) == Flat(channels)
  {
    ObjectsStay(ChannelEntries(channels));
    if channels != [] {
      var front, last := channels[..|channels| - 1], channels[|channels| - 1];
      AlternativesInOrder(front);
      ObjectsStay(ChannelEntries(front));
      FlatEnd(channels);
      ChannelStep(ChannelEntries(front), last);
    }
  }
}
