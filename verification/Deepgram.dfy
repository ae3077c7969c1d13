/** Mapping a provider response to a transcript: the utterance path and the word-run merger. */
module Deepgram {
  import opened Common
  import opened Transcripts

  datatype Json =
    | JNull
    | JBool(b: bool)
    | JInt(n: int)
    | JFloat(r: real)
    | JString(s: string)
    | JList(items: seq<Json>)
    | JObject(fields: map<string, Json>)
  {
    function Get(key: string): Json {
      if JObject? && key in fields then fields[key] else JNull
    }

    /** Booleans are integers to the language's instance check. */
    predicate IsInt() {
      JInt? || JBool?
    }

    predicate IsNumber() {
      IsInt() || JFloat?
    }

    predicate Truthy() {
      match this
      case JNull => false
      case JBool(b) => b
      case JInt(n) => n != 0
      case JFloat(r) => r != 0.0
      case JString(s) => s != ""
      case JList(items) => items != []
      case JObject(fields) => fields != map[]
    }

    function AsReal(): real
      requires IsNumber()
    {
      match this
      case JBool(b) => if b then 1.0 else 0.0
      case JInt(n) => n as real
      case JFloat(r) => r
    }
  }

  /** How the language renders text: a value that is not a string, and which characters count
      as white space. */
  datatype Rendering = Rendering(show: Json -> string, space: char -> bool)
  {
    function Str(v: Json): string {
      if v.JString? then v.s else show(v)
    }

    function Strip(s: string): string
      decreases |s|
    {
      if s == "" then s
      else if space(s[0]) then Strip(s[1..])
      else if space(s[|s| - 1]) then Strip(s[..|s| - 1])
      else s
    }

    predicate Trimmed(s: string) {
      s == "" || (!space(s[0]) && !space(s[|s| - 1]))
    }
  }

  function SpeakerLabel(lang: Rendering, speaker: Json): string {
    "S" + lang.Str(speaker)
  }

  // Utterances

  predicate GoodUtterance(u: Json) {
    && u.JObject?
    && u.Get("speaker").IsInt() && u.Get("start").IsNumber() && u.Get("end").IsNumber()
    && u.Get("transcript").JString?
  }

  function UtteranceSegment(lang: Rendering, u: Json): SpeakerSegment
    requires GoodUtterance(u)
  {
    SpeakerSegment(SpeakerLabel(lang, u.Get("speaker")), u.Get("start").AsReal(), u.Get("end").AsReal(),
                   u.Get("transcript").s)
  }

  function GoodUtterances(us: seq<Json>): (r: seq<Json>)
    ensures forall u :: u in r ==> GoodUtterance(u)
    ensures |r| <= |us|
  {
    if us == [] then []
    else
      var rest := GoodUtterances(us[..|us| - 1]);
      if GoodUtterance(us[|us| - 1]) then rest + [us[|us| - 1]] else rest
  }

  method SegmentsFromUtterances(lang: Rendering, utterances: seq<Json>)
    returns (segments: seq<SpeakerSegment>, dropped: nat)
    ensures |segments| == |GoodUtterances(utterances)|
    ensures forall i :: 0 <= i < |segments| ==> segments[i] == UtteranceSegment(lang, GoodUtterances(utterances)[i])
    ensures |segments| + dropped == |utterances|
  {
    segments, dropped := [], 0;
    for k := 0 to |utterances|
      invariant |segments| == |GoodUtterances(utterances[..k])|
      invariant forall i :: 0 <= i < |segments| ==>
                  segments[i] == UtteranceSegment(lang, GoodUtterances(utterances[..k])[i])
      invariant |segments| + dropped == k
    {
      assert utterances[..k + 1][..k] == utterances[..k];
      var utterance := utterances[k];
      if !utterance.JObject? {
        dropped := dropped + 1;
        continue;
      }
      var speaker, start, end, text :=
        utterance.Get("speaker"), utterance.Get("start"), utterance.Get("end"), utterance.Get("transcript");
      if !speaker.IsInt() || !start.IsNumber() || !end.IsNumber() || !text.JString? {
        dropped := dropped + 1;
        continue;
      }
      segments := segments + [SpeakerSegment(SpeakerLabel(lang, speaker), start.AsReal(), end.AsReal(), text.s)];
    }
    assert utterances[..|utterances|] == utterances;
  }

  // Words

  /** A word that parsed. */
  datatype Word = Word(speaker: string, start: real, end: real, text: string)

  predicate GoodWord(w: Json) {
    w.JObject? && w.Get("speaker").IsInt() && w.Get("start").IsNumber() && w.Get("end").IsNumber()
  }

  function WordText(lang: Rendering, w: Json): string {
    if w.Get("punctuated_word").Truthy() then lang.Str(w.Get("punctuated_word"))
    else if w.Get("word").Truthy() then lang.Str(w.Get("word"))
    else ""
  }

  function ParseWord(lang: Rendering, w: Json): Word
    requires GoodWord(w)
  {
    Word(SpeakerLabel(lang, w.Get("speaker")), w.Get("start").AsReal(), w.Get("end").AsReal(), WordText(lang, w))
  }

  /** All word entries of the alternatives that carry a word list, in order. */
  function AllWords(alternatives: seq<Json>): seq<Json> {
    if alternatives == [] then []
    else
      AllWords(alternatives[..|alternatives| - 1]) +
      match alternatives[|alternatives| - 1].Get("words")
      case JList(items) => items
      case _ => []
  }

  /** The words that parse, in order. */
  function Kept(lang: Rendering, words: seq<Json>): (r: seq<Word>)
    ensures |r| <= |words|
  {
    if words == [] then []
    else
      var rest, w := Kept(lang, words[..|words| - 1]), words[|words| - 1];
      if GoodWord(w) then rest + [ParseWord(lang, w)] else rest
  }

  // Runs: the specification of the merger

  function Concat(runs: seq<seq<Word>>): seq<Word> {
    if runs == [] then [] else Concat(runs[..|runs| - 1]) + runs[|runs| - 1]
  }

  predicate OneSpeaker(run: seq<Word>) {
    run != [] && forall i :: 0 <= i < |run| ==> run[i].speaker == run[0].speaker
  }

  /** `runs` cuts the words into maximal runs of one speaker. */
  ghost predicate MaximalRuns(runs: seq<seq<Word>>, words: seq<Word>) {
    && Concat(runs) == words
    && (forall i :: 0 <= i < |runs| ==> OneSpeaker(runs[i]))
    && (forall i :: 0 < i < |runs| ==> runs[i - 1][0].speaker != runs[i][0].speaker)
  }

  /** The text of a run as the merger builds it: each later word joins with a space and strips. */
  function RunText(lang: Rendering, run: seq<Word>): string
    requires run != []
  {
    if |run| == 1 then run[0].text
    else lang.Strip(RunText(lang, run[..|run| - 1]) + " " + run[|run| - 1].text)
  }

  function RunSegment(lang: Rendering, run: seq<Word>): SpeakerSegment
    requires run != []
  {
    SpeakerSegment(run[0].speaker, run[0].start, run[|run| - 1].end, RunText(lang, run))
  }

  ghost predicate SegmentsOf(lang: Rendering, segments: seq<SpeakerSegment>, runs: seq<seq<Word>>) {
    && |segments| == |runs|
    && forall i :: 0 <= i < |runs| ==> runs[i] != [] && segments[i] == RunSegment(lang, runs[i])
  }

  /** Adds one parsed word: to the last segment when it has the same speaker, else as a new one. */
  method AppendWord(lang: Rendering, before: seq<SpeakerSegment>, w: Word,
                    ghost cut: seq<seq<Word>>, ghost words: seq<Word>)
    returns (segments: seq<SpeakerSegment>, ghost runs: seq<seq<Word>>)
    requires MaximalRuns(cut, words) && SegmentsOf(lang, before, cut)
    ensures MaximalRuns(runs, words + [w]) && SegmentsOf(lang, segments, runs)
  {
    var last := |before| - 1;
    if before != [] && before[last].speaker == w.speaker {
      ExtendLastRun(cut, words, w);
      SegmentGrows(lang, cut[last], w);
      segments := before[last := before[last].(end := w.end, text := lang.Strip(before[last].text + " " + w.text))];
      runs := cut[last := cut[last] + [w]];
    } else {
      AddRun(cut, words, w);
      segments := before + [SpeakerSegment(w.speaker, w.start, w.end, w.text)];
      runs := cut + [[w]];
    }
  }

  /** The words of one alternative, added to the segments so far. */
  method AppendWords(lang: Rendering, before: seq<SpeakerSegment>, items: seq<Json>,
                     ghost cut: seq<seq<Word>>, ghost seen: seq<Json>)
    returns (segments: seq<SpeakerSegment>, dropped: nat, ghost runs: seq<seq<Word>>)
    requires MaximalRuns(cut, Kept(lang, seen)) && SegmentsOf(lang, before, cut)
    ensures MaximalRuns(runs, Kept(lang, seen + items)) && SegmentsOf(lang, segments, runs)
    ensures dropped + |Kept(lang, seen + items)| == |Kept(lang, seen)| + |items|
  {
    segments, dropped, runs := before, 0, cut;
    assert seen + items[..0] == seen;
    for k := 0 to |items|
      invariant MaximalRuns(runs, Kept(lang, seen + items[..k])) && SegmentsOf(lang, segments, runs)
      invariant dropped + |Kept(lang, seen + items[..k])| == |Kept(lang, seen)| + k
    {
      var word := items[k];
      KeptStep(lang, seen + items[..k], word);
      assert seen + items[..k + 1] == seen + items[..k] + [word];
      if !word.JObject? {
        dropped := dropped + 1;
        continue;
      }
      var speaker, start, end := word.Get("speaker"), word.Get("start"), word.Get("end");
      if !speaker.IsInt() || !start.IsNumber() || !end.IsNumber() {
        dropped := dropped + 1;
        continue;
      }
      var w := Word(SpeakerLabel(lang, speaker), start.AsReal(), end.AsReal(), WordText(lang, word));
      segments, runs := AppendWord(lang, segments, w, runs, Kept(lang, seen + items[..k]));
    }
    assert items[..|items|] == items;
  }

  /** The merger: consecutive words of one speaker become one segment, also across alternatives. */
  method SegmentsFromWords(lang: Rendering, alternatives: seq<Json>)
    returns (segments: seq<SpeakerSegment>, dropped: nat, wordsSeen: nat, ghost runs: seq<seq<Word>>)
    ensures MaximalRuns(runs, Kept(lang, AllWords(alternatives))) && SegmentsOf(lang, segments, runs)
    ensures wordsSeen == |AllWords(alternatives)|
    ensures dropped + |Kept(lang, AllWords(alternatives))| == wordsSeen
  {
    segments, dropped, wordsSeen, runs := [], 0, 0, [];
    for a := 0 to |alternatives|
      invariant MaximalRuns(runs, Kept(lang, AllWords(alternatives[..a]))) && SegmentsOf(lang, segments, runs)
      invariant wordsSeen == |AllWords(alternatives[..a])|
      invariant dropped + |Kept(lang, AllWords(alternatives[..a]))| == wordsSeen
    {
      assert alternatives[..a + 1][..a] == alternatives[..a];
      ghost var seen := AllWords(alternatives[..a]);
      var rawWords := alternatives[a].Get("words");
      if !rawWords.JList? {
        assert seen + [] == seen;
        continue;
      }
      var more: nat;
      segments, more, runs := AppendWords(lang, segments, rawWords.items, runs, seen);
      dropped, wordsSeen := dropped + more, wordsSeen + |rawWords.items|;
    }
    assert alternatives[..|alternatives|] == alternatives;
  }

  lemma KeptStep(lang: Rendering, words: seq<Json>, w: Json)
    ensures Kept(lang, words + [w]) == Kept(lang, words) + if GoodWord(w) then [ParseWord(lang, w)] else []
  {
    assert (words + [w])[..|words|] == words;
  }

  lemma SegmentGrows(lang: Rendering, run: seq<Word>, w: Word)
    requires run != []
    ensures RunSegment(lang, run + [w]) ==
      RunSegment(lang, run).(end := w.end, text := lang.Strip(RunText(lang, run) + " " + w.text))
  {
    assert (run + [w])[..|run|] == run;
  }

  lemma ExtendLastRun(runs: seq<seq<Word>>, words: seq<Word>, w: Word)
    requires runs != [] && MaximalRuns(runs, words) && runs[|runs| - 1][0].speaker == w.speaker
    ensures MaximalRuns(runs[|runs| - 1 := runs[|runs| - 1] + [w]], words + [w])
  {
    var last := |runs| - 1;
    var runs' := runs[last := runs[last] + [w]];
    assert runs'[..last] == runs[..last];
    assert Concat(runs') == Concat(runs[..last]) + (runs[last] + [w]) == words + [w];
  }

  lemma AddRun(runs: seq<seq<Word>>, words: seq<Word>, w: Word)
    requires MaximalRuns(runs, words) && (runs != [] ==> runs[|runs| - 1][0].speaker != w.speaker)
    ensures MaximalRuns(runs + [[w]], words + [w])
  {
    assert (runs + [[w]])[..|runs|] == runs;
  }

  // What the specification says

  lemma {:induction false} RunsAreFew(runs: seq<seq<Word>>)
    requires forall i :: 0 <= i < |runs| ==> runs[i] != []
    ensures |runs| <= |Concat(runs)|
  {
    if runs != [] {
      RunsAreFew(runs[..|runs| - 1]);
    }
  }

  /** How many words at the end have the same speaker. */
  function TailLength(words: seq<Word>): nat {
    var n := |words|;
    if n <= 1 then n
    else if words[n - 2].speaker == words[n - 1].speaker then 1 + TailLength(words[..n - 1])
    else 1
  }

  /** The last run of a maximal cut takes all the words at the end that have one speaker. */
  lemma {:induction false} LastRunIsTheTail(runs: seq<seq<Word>>, words: seq<Word>)
    requires MaximalRuns(runs, words) && runs != []
    ensures |runs[|runs| - 1]| == TailLength(words)
    decreases |words|
  {
    var last := |runs| - 1;
    var r, front := runs[last], runs[..last];
    assert words == Concat(front) + r;
    if |r| > 1 {
      var shorter := runs[last := r[..|r| - 1]];
      assert shorter[..last] == front;
      assert Concat(shorter) == Concat(front) + r[..|r| - 1] == words[..|words| - 1];
      LastRunIsTheTail(shorter, words[..|words| - 1]);
    } else if front != [] {
      var p := front[last - 1];
      assert Concat(front) == Concat(front[..last - 1]) + p;
      assert words[|words| - 2] == p[|p| - 1];
    }
  }

  /** The cut into maximal runs is unique, so the segments are determined by the kept words. */
  lemma {:induction false} RunsAreUnique(runs: seq<seq<Word>>, cut: seq<seq<Word>>, words: seq<Word>)
    requires MaximalRuns(runs, words) && MaximalRuns(cut, words)
    ensures runs == cut
  {
    RunsAreFew(runs);
    RunsAreFew(cut);
    if runs != [] && cut != [] {
      LastRunIsTheTail(runs, words);
      LastRunIsTheTail(cut, words);
      var r, c := runs[|runs| - 1], cut[|cut| - 1];
      assert r == words[|words| - |r|..] == c;
      var front := words[..|words| - |r|];
      assert Concat(runs[..|runs| - 1]) == front == Concat(cut[..|cut| - 1]);
      RunsAreUnique(runs[..|runs| - 1], cut[..|cut| - 1], front);
      assert runs == runs[..|runs| - 1] + [r] && cut == cut[..|cut| - 1] + [c];
    }
  }

  /** Neighbouring segments have different speakers, and each spans its run. */
  lemma SegmentsAlternate(lang: Rendering, segments: seq<SpeakerSegment>, runs: seq<seq<Word>>, words: seq<Word>)
    requires MaximalRuns(runs, words) && SegmentsOf(lang, segments, runs)
    ensures forall i :: 0 < i < |segments| ==> segments[i - 1].speaker != segments[i].speaker
    ensures segments == [] <==> words == []
    ensures segments != [] ==> segments[0].start == words[0].start && segments[|segments| - 1].end == words[|words| - 1].end
  {
    if runs != [] {
      FirstWordStartsFirstRun(runs);
    }
  }

  lemma {:induction false} FirstWordStartsFirstRun(runs: seq<seq<Word>>)
    requires runs != [] && forall i :: 0 <= i < |runs| ==> runs[i] != []
    ensures Concat(runs) != [] && Concat(runs)[0] == runs[0][0]
    ensures Concat(runs)[|Concat(runs)| - 1] == runs[|runs| - 1][|runs[|runs| - 1]| - 1]
  {
    if |runs| > 1 {
      FirstWordStartsFirstRun(runs[..|runs| - 1]);
    } else {
      assert Concat(runs[..0]) == [];
    }
  }

  /** The non-empty texts of a run joined by single spaces. */
  function JoinTexts(run: seq<Word>): string {
    if run == [] then ""
    else
      var front, text := JoinTexts(run[..|run| - 1]), run[|run| - 1].text;
      if text == "" then front else if front == "" then text else front + " " + text
  }

  lemma {:induction false} StripOfTrimmed(lang: Rendering, s: string)
    requires lang.Trimmed(s)
    ensures lang.Strip(s) == s
  {
  }

  /** When every word is trimmed, a segment's text is the space-join of the words that have any. */
  lemma {:induction false} TrimmedWordsJoin(lang: Rendering, run: seq<Word>)
    requires run != [] && lang.space(' ') && forall i :: 0 <= i < |run| ==> lang.Trimmed(run[i].text)
    ensures RunText(lang, run) == JoinTexts(run) && lang.Trimmed(JoinTexts(run))
  {
    if |run| > 1 {
      var front, text := run[..|run| - 1], run[|run| - 1].text;
      TrimmedWordsJoin(lang, front);
      var s := RunText(lang, front) + " " + text;
      if RunText(lang, front) == "" {
        assert s[1..] == text;
        StripOfTrimmed(lang, text);
      } else if text == "" {
        assert s[..|s| - 1] == RunText(lang, front);
        StripOfTrimmed(lang, RunText(lang, front));
      } else {
        StripOfTrimmed(lang, s);
      }
    } else {
      assert JoinTexts(run[..0]) == "";
    }
  }

  // The whole response

  function Dicts(v: Json): seq<Json> {
    match v
    case JList(items) => DictsOf(items)
    case _ => []
  }

  function DictsOf(items: seq<Json>): seq<Json> {
    if items == [] then []
    else DictsOf(items[..|items| - 1]) + if items[|items| - 1].JObject? then [items[|items| - 1]] else []
  }

  function Alternatives(channels: seq<Json>): seq<Json> {
    if channels == [] then []
    else Alternatives(channels[..|channels| - 1]) + Dicts(channels[|channels| - 1].Get("alternatives"))
  }

  datatype ParseError = NoResults | UtterancesUnparsed | WordsUnparsed

  /** An empty transcript is only ever the honest answer to an empty response: entries that
      came back but did not parse fail instead. */
  method ParseResponse(lang: Rendering, payload: Json) returns (r: Result<Transcript, ParseError>)
    ensures
      var results := payload.Get("results");
      if !results.JObject? then r == Err(NoResults)
      else
        match results.Get("utterances")
        case JList(utterances) =>
          && (r.Ok? <==> utterances == [] || GoodUtterances(utterances) != [])
          && (r.Ok? ==>
                && |r.value| == |GoodUtterances(utterances)|
                && forall i :: 0 <= i < |r.value| ==> r.value[i] == UtteranceSegment(lang, GoodUtterances(utterances)[i]))
          && (r == Ok([]) <==> utterances == [])
        case _ =>
          var words := AllWords(Alternatives(Dicts(results.Get("channels"))));
          && (r.Ok? <==> words == [] || Kept(lang, words) != [])
          && (r.Ok? ==> exists runs :: MaximalRuns(runs, Kept(lang, words)) && SegmentsOf(lang, r.value, runs))
          && (r == Ok([]) <==> words == [])
  {
    var results := payload.Get("results");
    if !results.JObject? {
      return Err(NoResults);
    }
    var utterances := results.Get("utterances");
    if utterances.JList? {
      var segments, dropped := SegmentsFromUtterances(lang, utterances.items);
      if segments == [] && utterances.items != [] {
        return Err(UtterancesUnparsed);
      }
      return Ok(segments);
    }
    var alternatives := Alternatives(Dicts(results.Get("channels")));
    var segments, dropped, wordsSeen, runs := SegmentsFromWords(lang, alternatives);
    SegmentsAlternate(lang, segments, runs, Kept(lang, AllWords(alternatives)));
    if segments == [] && wordsSeen != 0 {
      return Err(WordsUnparsed);
    }
    return Ok(segments);
  }
}
